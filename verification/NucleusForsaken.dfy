/** A run on which the machine waits for nobody: SYS2 kills a clock waiter, softBlockCount goes
    on counting it, and the scheduler that should panic waits. */
module NucleusForsaken {
  import opened Queues
  import opened Family
  import opened Processor
  import opened NucleusState
  import opened NucleusInvariant
  import opened NucleusKill
  import opened NucleusRuns
  import opened NucleusClock
  import opened NucleusTheorems

  const BASE: int := 0x2000_0000
  const CLOCK: int := BASE + WORDLEN * ITSEMINDEX
  const USERSEM: int := 0x2000_1000

  /** Three table entries, each created by the one before. */
  predicate Trio(s: State, cur: Option<Pid>, free: seq<Pid>, ready: seq<Pid>, asl: map<int, seq<Pid>>, kids: seq<seq<Pid>>)
  {
    && s.k.maxProc == 3 && s.k.semBase == BASE && s.current == cur && (s.mode == Running <==> cur.Some?)
    && s.k.free == free && s.k.ready == ready && s.k.asl == asl && s.family.kids == kids
    && |s.k.semAdd| == 3 && Val(s.k, USERSEM) == 0
  }

  /** Entry p, just created, and everybody before it have never waited. */
  predicate NeverWaited(s: State, n: nat)
  {
    |s.k.semAdd| == 3 && forall p: Pid :: p < n && p < 3 ==> s.k.semAdd[p] == NULLADDR
  }

  lemma Creates(s: State, c: Cpu, p: Pid, rest: seq<Pid>, ready: seq<Pid>, kids: seq<seq<Pid>>, after: seq<seq<Pid>>)
    requires Sound(s) && 0 < p < 3 && Trio(s, Some(p - 1), [p] + rest, ready, map[], kids) && NeverWaited(s, p)
    requires |kids| == 3 && kids[p] == [] && after == kids[p - 1 := [p] + kids[p - 1]]
    ensures Enabled(s, Exec(Create(c), c))
    ensures var t := Step(s, Exec(Create(c), c));
      Trio(t, Some(p - 1), rest, ready + [p], map[], after) && NeverWaited(t, p + 1) && t.k.softBlockCount == s.k.softBlockCount
  {
    assert kids[p := []] == kids;
    assert ([p] + rest)[1..] == rest;
  }

  lemma IsPreempted(s: State, cur: Pid, free: seq<Pid>, ready: seq<Pid>, kids: seq<seq<Pid>>, n: nat)
    requires Sound(s) && Trio(s, Some(cur), free, ready, map[], kids) && ready != [] && NeverWaited(s, n)
    ensures Enabled(s, Plt)
    ensures var t := Step(s, Plt);
      Trio(t, Some(ready[0]), free, ready[1..] + [cur], map[], kids) && NeverWaited(t, n) && t.k.softBlockCount == s.k.softBlockCount
  {
    assert (ready + [cur])[0] == ready[0] && (ready + [cur])[1..] == ready[1..] + [cur];
  }

  lemma WaitsForClock(s: State, c: Cpu)
    requires Sound(s) && Trio(s, Some(2), [], [1, 0], map[], [[1], [2], []])
    ensures Enabled(s, Exec(WaitClock, c))
    ensures Trio(Step(s, Exec(WaitClock, c)), Some(1), [], [0], map[CLOCK := [2]], [[1], [2], []])
  {
    assert SemOk(s.k, CLOCK);
    assert Waiters(s.k.asl, CLOCK) + [2] == [2];
    assert Enqueue(s.k.asl, CLOCK, 2) == map[CLOCK := [2]];
    assert [1, 0][1..] == [0];
  }

  /** The running process, second of the three, and the third go. */
  lemma Dooms(s: State)
    requires Sound(s) && Trio(s, Some(1), [], [0], map[CLOCK := [2]], [[1], [2], []])
    ensures Doomed(s) == [2, 1] && AccurateKids(s) && ClockVictims(s) >= 1
  {
    var f := s.family;
    assert KidsOrder(f, 2, 0) == [] && KillOrder(f, 2) == [2];
    assert IsChild(f, 1, 2);
    assert KidsOrder(f, 1, 1) == [] && KidsOrder(f, 1, 0) == KillOrder(f, 2) + [];
    assert Waits(s.k.asl, CLOCK, 2) && 2 in Doomed(s);
    assert 2 in OnClock(s.k, Members(Doomed(s)));
  }

  lemma KilledTables(s: State)
    requires Sound(s) && Trio(s, Some(1), [], [0], map[CLOCK := [2]], [[1], [2], []])
    ensures var k := KillFamily(s).k;
      && k.free == [2, 1] && k.ready == [0] && k.asl == map[] && Val(k, USERSEM) == 0
      && k.maxProc == 3 && k.semBase == BASE && |k.semAdd| == 3
  {
    Dooms(s);
    KillExact(s);
    assert forall a :: a in KillFamily(s).k.asl ==> KillFamily(s).k.asl[a] != [];
    hide KillFamily, Purged, Sound, Doomed, Core;
    PurgedTables(s.k, KillFamily(s).k);
    UserValueKept(s);
  }

  lemma PurgedTables(k: Tables, t: Tables)
    requires Purged(k, t, [2, 1]) && k.free == [] && k.ready == [0] && k.asl == map[CLOCK := [2]]
    requires forall a :: a in t.asl ==> t.asl[a] != []
    ensures t.free == [2, 1] && t.ready == [0] && t.asl == map[]
    ensures t.maxProc == k.maxProc && t.semBase == k.semBase && t.semAdd == k.semAdd
  {
    var order: seq<Pid> := [2, 1];
    assert Members(order) == {1, 2};
    WithoutNone(k.ready, {1, 2});
    assert [2][1..] == [] && Without([2], {1, 2}) == Without([2][1..], {1, 2});
    assert k.free + order == order;
    forall a ensures Waiters(t.asl, a) == [] {
      assert Waiters(t.asl, a) == Without(Waiters(k.asl, a), {1, 2});
      assert Waiters(k.asl, a) == [] || Waiters(k.asl, a) == [2];
    }
    forall a ensures a !in t.asl {
      assert Waiters(t.asl, a) == [];
    }
  }

  lemma KillsTheWaiter(s: State, c: Cpu)
    requires Sound(s) && Trio(s, Some(1), [], [0], map[CLOCK := [2]], [[1], [2], []])
    ensures Enabled(s, Exec(Terminate, c))
    ensures var t := Step(s, Exec(Terminate, c));
      Trio(t, Some(0), [2, 1], [], map[], t.family.kids) && t.k.clockKills >= 1
  {
    hide KillFamily, Step, Enabled, Core, TerminateProcess, ClockVictims, Doomed, AccurateKids;
    Dooms(s);
    TerminateCounts(s);
    KilledTables(s);
    Terminates(s, c);
    assert [0][1..] == [];
  }

  lemma Terminates(s: State, c: Cpu)
    requires Sound(s) && s.mode == Running && s.current.Some? && AccurateKids(s)
    ensures Enabled(s, Exec(Terminate, c)) && InTable(KillFamily(s).k) && |KillFamily(s).saved| == KillFamily(s).k.maxProc
    ensures Step(s, Exec(Terminate, c)) == TerminateProcess(s) == Scheduler(KillFamily(s))
  {
    KillExact(s);
  }

  lemma UserValueKept(s: State)
    requires Sound(s) && s.current.Some? && AccurateKids(s) && Waiters(KillFamily(s).k.asl, USERSEM) == []
    requires s.k.semBase == BASE && Doomed(s) == [2, 1] && s.current == Some(1) && s.k.asl == map[CLOCK := [2]]
    ensures Val(KillFamily(s).k, USERSEM) == Val(s.k, USERSEM)
  {
    DoomedKillable(s);
    assert [2, 1][..1] == [2] && [2][..0] == [];
    assert Waits(s.k.asl, CLOCK, 2) && s.k.semAdd[2] == CLOCK;
    assert KillAll(s.k, s.current, [2][..0]) == s.k;
    assert KillAll(s.k, s.current, [2]) == KillOne(s.k, s.current, 2);
    assert KillAll(s.k, s.current, [2, 1]) == KillOne(KillOne(s.k, s.current, 2), s.current, 1);
  }

  lemma LastOneWaits(s: State, c: Cpu)
    requires Sound(s) && Trio(s, Some(0), [2, 1], [], map[], s.family.kids) && s.k.clockKills >= 1
    ensures Enabled(s, Exec(P(USERSEM), c))
    ensures var t := Step(s, Exec(P(USERSEM), c)); t.mode == Waiting && SoftSet(t.k) == {}
  {
    var t := Step(s, Exec(P(USERSEM), c));
    assert Waiters(s.k.asl, USERSEM) + [0] == [0];
    assert t.k.asl == map[USERSEM := [0]];
    StepSound(s, Exec(P(USERSEM), c));
    forall p: Pid | p < 3 ensures !SoftBlocked(t.k, p) {}
    assert t.k.clockKills == s.k.clockKills;
  }

  /** Up to the point where C waits for the clock and B is running. */
  lemma ChildWaits(c: Cpu) returns (run: seq<Event>)
    ensures run == [Exec(Create(c), c), Plt, Exec(Create(c), c), Plt, Plt, Exec(WaitClock, c)]
    ensures Legal(Boot(3, BASE, c, c), run) && Sound(After(Boot(3, BASE, c, c), run))
    ensures Trio(After(Boot(3, BASE, c, c), run), Some(1), [], [0], map[CLOCK := [2]], [[1], [2], []])
  {
    hide Step, Trio, NeverWaited, Sound, Boot;
    var b := Boot(3, BASE, c, c);
    Boots(c);
    run := [];
    KidsLiterals();
    Creates(b, c, 1, [2], [], [[], [], []], [[1], [], []]);
    run := Extend(b, run, Exec(Create(c), c));
    IsPreempted(After(b, run), 0, [2], [] + [1], [[1], [], []], 2);
    run := Extend(b, run, Plt);
    assert ([] + [1])[1..] + [0] == [0];
    Creates(After(b, run), c, 2, [], [0], [[1], [], []], [[1], [2], []]);
    run := Extend(b, run, Exec(Create(c), c));
    IsPreempted(After(b, run), 1, [], [0] + [2], [[1], [2], []], 3);
    run := Extend(b, run, Plt);
    assert ([0] + [2])[1..] + [1] == [2, 1];
    IsPreempted(After(b, run), 0, [], [2, 1], [[1], [2], []], 3);
    run := Extend(b, run, Plt);
    assert [2, 1][1..] + [0] == [1, 0];
    WaitsForClock(After(b, run), c);
    run := Extend(b, run, Exec(WaitClock, c));
  }

  /** A legal run at whose end the machine waits although no process waits for a device or the
      clock: A creates B, B creates C, C waits for the clock, B terminates and takes C with it,
      and A waits on a semaphore of its own. */
  lemma WaitsForNobody(c: Cpu) returns (run: seq<Event>)
    ensures run == [Exec(Create(c), c), Plt, Exec(Create(c), c), Plt, Plt, Exec(WaitClock, c), Exec(Terminate, c), Exec(P(USERSEM), c)]
    ensures Legal(Boot(3, BASE, c, c), run)
    ensures var t := After(Boot(3, BASE, c, c), run);
      t.mode == Waiting && SoftSet(t.k) == {} && t.k.softBlockCount == VictimsOn(Boot(3, BASE, c, c), run) > 0
  {
    hide Step, Trio, NeverWaited, Sound, Boot, VictimsOn;
    var b := Boot(3, BASE, c, c);
    Boots(c);
    run := ChildWaits(c);
    KillsTheWaiter(After(b, run), c);
    run := Extend(b, run, Exec(Terminate, c));
    LastOneWaits(After(b, run), c);
    run := Extend(b, run, Exec(P(USERSEM), c));
    SemaphoreCoherence(3, BASE, c, c, run);
    VerdictSound(3, BASE, c, c, run);
  }

  lemma KidsLiterals()
    ensures var none: seq<Pid> := [];
      && [none, none, none][0 := [1] + none] == [[1], none, none]
      && [[1], none, none][1 := [2] + none] == [[1], [2], none]
  {
    var none: seq<Pid> := [];
    assert [1] + none == [1] && [2] + none == [2];
  }

  lemma Boots(c: Cpu)
    ensures BootOk(3, BASE) && Sound(Boot(3, BASE, c, c))
    ensures Trio(Boot(3, BASE, c, c), Some(0), [1] + [2], [], map[], [[], [], []]) && NeverWaited(Boot(3, BASE, c, c), 1)
  {
    BootSound(3, BASE, c, c);
    assert Boot(3, BASE, c, c).k.free == [1, 2];
  }
}
