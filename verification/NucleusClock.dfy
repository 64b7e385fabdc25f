/** softBlockCount counts a killed clock waiter for ever: how much too large it gets, on which
    runs, and what the scheduler then does. */
module NucleusClock {
  import opened Queues
  import opened Family
  import opened Processor
  import opened NucleusState
  import opened NucleusInvariant
  import opened NucleusKill
  import opened NucleusRuns

  /** The clock waiters among ps. */
  ghost function OnClock(k: Tables, ps: set<Pid>): set<Pid>
  {
    set p | p in ps && Waits(k.asl, Clock(k), p)
  }

  /** The clock waiters that a kill by the running process takes with it. */
  ghost function ClockVictims(s: State): nat
    requires HasCurrent(s)
  {
    |OnClock(s.k, Members(Doomed(s)))|
  }

  // ---- one kill ----

  lemma {:induction false} KillAllCounts(k: Tables, cur: Pid, order: seq<Pid>)
    requires Core(k, Some(cur)) && Killable(k, Some(cur), order)
    ensures forall p :: p in order ==> p < |k.semAdd|
    ensures KillAll(k, Some(cur), order).clockKills == k.clockKills + |OnClock(k, Members(order))|
    decreases |order|
  {
    if order == [] {
      assert OnClock(k, Members(order)) == {};
    } else {
      var n := |order| - 1;
      var rest, p := order[..n], order[n];
      assert order == rest + [p];
      KillablePart(k, Some(cur), order, rest, [], [p]);
      assert rest + [] == rest && p !in rest && p in order;
      KillAllCounts(k, cur, rest);
      KillAllCore(k, cur, rest);
      hide Core, Killable, KillOne, OnClock;
      OneMore(k, KillAll(k, Some(cur), rest), cur, rest, p);
    }
  }

  lemma KillOneCounts(k: Tables, cur: Option<Pid>, p: Pid)
    requires p < |k.semAdd|
    ensures KillOne(k, cur, p).clockKills ==
      k.clockKills + if cur != Some(p) && k.semAdd[p] == Clock(k) != NULLADDR && Waits(k.asl, Clock(k), p) then 1 else 0
  {}

  lemma OnClockMore(k: Tables, rest: seq<Pid>, p: Pid)
    requires p !in rest
    ensures |OnClock(k, Members(rest + [p]))| == |OnClock(k, Members(rest))| + if Waits(k.asl, Clock(k), p) then 1 else 0
  {
    assert OnClock(k, Members(rest + [p])) == OnClock(k, Members(rest)) + (if Waits(k.asl, Clock(k), p) then {p} else {});
  }

  /** The next to be killed waits on the clock if it did at first. */
  lemma OneMore(k: Tables, t: Tables, cur: Pid, rest: seq<Pid>, p: Pid)
    requires Core(k, Some(cur)) && Purged(k, t, rest) && p !in rest && p < |k.semAdd|
    ensures var more := |OnClock(k, Members(rest + [p]))| - |OnClock(k, Members(rest))|;
      KillOne(t, Some(cur), p).clockKills == t.clockKills + more
  {
    hide KillOne, OnClock;
    WithoutMembers(Waiters(k.asl, Clock(k)), Members(rest));
    assert Waits(k.asl, Clock(k), p) ==> k.semAdd[p] == Clock(k) && p != cur;
    assert t.semAdd == k.semAdd && Clock(k) != NULLADDR;
    hide Core, Purged;
    KillOneCounts(t, Some(cur), p);
    OnClockMore(k, rest, p);
  }

  /** SYS2 adds exactly its clock victims to the excess of softBlockCount. */
  lemma TerminateCounts(s: State)
    requires Sound(s) && s.current.Some? && AccurateKids(s)
    ensures TerminateProcess(s).k.clockKills == s.k.clockKills + ClockVictims(s)
  {
    DoomedKillable(s);
    KillAllCounts(s.k, s.current.value, Doomed(s));
  }

  /** softBlockCount is the number of processes waiting on a device or the clock. */
  ghost predicate Exact(k: Tables)
  {
    k.softBlockCount == |SoftSet(k)|
  }

  /** SYS2 keeps softBlockCount exact if and only if nobody it kills waits on the clock. */
  lemma TerminateExactIff(s: State)
    requires Sound(s) && s.current.Some? && AccurateKids(s) && Exact(s.k)
    ensures Exact(TerminateProcess(s).k) <==> forall p :: p in Doomed(s) ==> !Waits(s.k.asl, Clock(s.k), p)
  {
    TerminateCounts(s);
    TerminateSound(s);
    var gone := OnClock(s.k, Members(Doomed(s)));
    if p :| p in Doomed(s) && Waits(s.k.asl, Clock(s.k), p) {
      assert p in gone;
    } else {
      assert gone == {};
    }
  }

  // ---- whole runs ----

  /** The clock waiters that event e kills. */
  ghost function Victims(s: State, e: Event): nat
    requires Enabled(s, e)
  {
    if e.Exec? && Kills(s, e.call) then ClockVictims(s) else 0
  }

  /** The clock waiters killed along the run. */
  ghost function VictimsOn(s: State, run: seq<Event>): nat
    requires Legal(s, run)
    decreases |run|
  {
    if run == [] then 0 else Victims(s, run[0]) + VictimsOn(Step(s, run[0]), run[1..])
  }

  lemma BlockHelperCounts(s: State, oldState: Cpu, a: int)
    requires HasCurrent(s)
    ensures BlockHelper(s, oldState, a).k.clockKills == s.k.clockKills
  {}

  lemma SameVictims(s: State, t: State, a: int, v: int)
    requires HasCurrent(s) && HasCurrent(t) && t == s.(k := SetVal(s.k, a, v))
    ensures ClockVictims(t) == ClockVictims(s) && t.k.clockKills == s.k.clockKills
  {
    assert OnClock(t.k, Members(Doomed(t))) == OnClock(s.k, Members(Doomed(s)));
  }

  lemma WaitForIoCounts(s: State, oldState: Cpu, i: int)
    requires Sound(s) && s.current.Some? && 0 <= i < DEVICECOUNT
    requires Val(s.k, SemAddr(s.k, i)) >= 1 ==> AccurateKids(s)
    ensures WaitForIo(s, oldState, i).k.clockKills == s.k.clockKills + if Val(s.k, SemAddr(s.k, i)) >= 1 then ClockVictims(s) else 0
  {
    hide TerminateProcess, BlockHelper, Core, AccurateKids, ClockVictims;
    var a := SemAddr(s.k, i);
    var v := Val(s.k, a) - 1;
    var t := s.(k := SetVal(s.k, a, v));
    if v >= 0 {
      DeviceTaken(s, t, a);
      TerminateCounts(t);
      SameVictims(s, t, a, v);
    } else {
      BlockHelperCounts(t.(k := t.k.(softBlockCount := t.k.softBlockCount + 1)), oldState, a);
    }
  }

  lemma HandleCounts(s: State, call: Call, oldState: Cpu)
    requires Sound(s) && s.current.Some? && CallOk(s.k, call) && (Kills(s, call) ==> AccurateKids(s))
    ensures Handle(s, call, oldState).k.clockKills == s.k.clockKills + if Kills(s, call) then ClockVictims(s) else 0
  {
    hide TerminateProcess, WaitForIo, Core, ClockVictims;
    match call
    case Create(_) =>
    case V(_) =>
    case P(_) =>
    case GetTime =>
    case WaitClock =>
    case WaitIo(line, dev, termRead) => WaitForIoCounts(s, oldState, IoIndex(line, dev, termRead));
    case _ => if Kills(s, call) { TerminateCounts(s); }
  }

  /** No other step changes the excess. */
  lemma StepCounts(s: State, e: Event)
    requires Sound(s) && Enabled(s, e)
    ensures Step(s, e).k.clockKills == s.k.clockKills + Victims(s, e)
  {
    hide Handle, Core;
    match e
    case Exec(call, oldState) => HandleCounts(s, call, oldState);
    case Plt =>
    case Timer(oldState) =>
    case Device(line, dev, reg, oldState) =>
      WakeDeviceShape(s, InterruptIndex(line, dev, reg), DeviceStatus(line, reg));
    case Tick(dt) =>
    case Store(a, v) =>
  }

  /** On every run the excess grows by exactly the clock waiters killed. */
  lemma {:induction false} RunCounts(s: State, run: seq<Event>)
    requires Sound(s) && Legal(s, run)
    ensures After(s, run).k.clockKills == s.k.clockKills + VictimsOn(s, run)
    decreases |run|
  {
    if run != [] {
      StepCounts(s, run[0]);
      StepSound(s, run[0]);
      RunCounts(Step(s, run[0]), run[1..]);
    }
  }
}
