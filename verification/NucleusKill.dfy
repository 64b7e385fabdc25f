/** HoneyIKilledTheKids: what a kill does, and exactly when it keeps the nucleus sound. */
module NucleusKill {
  import opened Queues
  import opened Family
  import opened NucleusState
  import opened Processor
  import opened NucleusInvariant

  /** The kill's test for a ready process, p_semAdd == NULL, gives the right answer for p. */
  predicate Accurate(k: Tables, p: Pid)
  {
    p < |k.semAdd| && p in k.ready ==> k.semAdd[p] == NULLADDR
  }

  // ---- killing one process ----

  lemma KillCurrentCore(k: Tables, p: Pid)
    requires Core(k, Some(p)) && p < |k.semAdd|
    ensures Core(KillOne(k, Some(p), p), None)
  {
    var t := KillOne(k, Some(p), p);
    WaitsFrame(k, t);
    AppendNoDup(k.free, p);
    assert forall x: Pid :: Blocked(k, x) ==> Blocked(t, x);
  }

  lemma KillReadyCore(k: Tables, cur: Option<Pid>, p: Pid, run: Option<Pid>)
    requires Core(k, run) && cur != Some(p) && p in k.ready && p < |k.semAdd| && Accurate(k, p)
    ensures Core(KillOne(k, cur, p), run)
  {
    var t := KillOne(k, cur, p);
    WaitsFrame(k, t);
    KillReadyPlaces(k, t, p, run);
  }

  lemma KillReadyPlaces(k: Tables, t: Tables, p: Pid, run: Option<Pid>)
    requires Places(k, run) && p in k.ready
    requires t == k.(free := k.free + [p], ready := Delete(k.ready, p), processCount := t.processCount)
    ensures Places(t, run)
  {
    AppendNoDup(k.free, p);
    DeleteMembers(k.ready, p);
    assert forall x: Pid :: Blocked(k, x) ==> Blocked(t, x);
  }

  lemma KillBlockedCore(k: Tables, cur: Option<Pid>, p: Pid, run: Option<Pid>)
    requires Core(k, run) && cur != Some(p) && p < |k.semAdd| && Blocked(k, p)
    ensures Core(KillOne(k, cur, p), run)
  {
    var t, a := KillOne(k, cur, p), k.semAdd[p];
    assert Waits(k.asl, a, p) && a in k.asl;
    assert NoDup(Waiters(k.asl, a));
    KillBlockedPlaces(k, t, p, run);
    KillBlockedCoherent(k, t, cur, p);
    KillBlockedSoft(k, t, p);
  }

  lemma KillBlockedCoherent(k: Tables, t: Tables, cur: Option<Pid>, p: Pid)
    requires Coherent(k) && p < |k.semAdd| && Blocked(k, p) && k.semAdd[p] != NULLADDR
    requires NoDup(Waiters(k.asl, k.semAdd[p])) && cur != Some(p) && t == KillOne(k, cur, p)
    ensures Coherent(t)
  {
    var a := k.semAdd[p];
    UnqueueWaits(k.asl, a, p);
    DeleteMembers(Waiters(k.asl, a), p);
    assert SemOk(k, a);
    CoherentBut(k, t, a);
  }

  lemma KillBlockedSoft(k: Tables, t: Tables, p: Pid)
    requires |k.semAdd| == k.maxProc == t.maxProc && k.semBase == t.semBase && t.semAdd == k.semAdd
    requires p < k.maxProc && Blocked(k, p) && t.asl == Unqueue(k.asl, k.semAdd[p], p)
    requires NoDup(Waiters(k.asl, k.semAdd[p]))
    requires forall a: int, x: Pid :: Waits(k.asl, a, x) ==> x < |k.semAdd| && k.semAdd[x] == a
    ensures |SoftSet(t)| == |SoftSet(k)| - if IsNucleus(k, k.semAdd[p]) then 1 else 0
  {
    var a := k.semAdd[p];
    UnqueueWaits(k.asl, a, p);
    forall x: Pid | x < k.maxProc ensures Blocked(t, x) <==> Blocked(k, x) && x !in {p} {
    }
    LeaveSoft(k, t, {p});
    assert SoftSet(k) * {p} == if IsNucleus(k, a) then {p} else {};
  }

  lemma KillBlockedPlaces(k: Tables, t: Tables, p: Pid, run: Option<Pid>)
    requires Places(k, run) && p < |k.semAdd| && Blocked(k, p)
    requires t == k.(asl := Unqueue(k.asl, k.semAdd[p], p), free := k.free + [p], sem := t.sem, processCount := t.processCount,
                     softBlockCount := t.softBlockCount, clockKills := t.clockKills)
    ensures Places(t, run)
  {
    var a := k.semAdd[p];
    assert Waits(k.asl, a, p);
    assert NoDup(Waiters(k.asl, a));
    UnqueueWaits(k.asl, a, p);
    UnqueueNoDup(k.asl, a, p);
    AppendNoDup(k.free, p);
    MovePlaces(k, t, run, p, true);
  }

  // ---- killing a sequence of processes ----

  /** order may be killed one after the other: distinct live processes, each one judged
      correctly by its p_semAdd. */
  ghost predicate Killable(k: Tables, cur: Option<Pid>, order: seq<Pid>)
  {
    && NoDup(order)
    && forall p :: p in order ==>
         p < |k.semAdd| && (cur == Some(p) || ((p in k.ready || Blocked(k, p)) && Accurate(k, p)))
  }

  /** k with everything of order gone from its queues, and nothing else moved. */
  ghost predicate Purged(k: Tables, t: Tables, order: seq<Pid>)
  {
    && t.free == k.free + order
    && t.ready == Without(k.ready, Members(order))
    && (forall a :: Waiters(t.asl, a) == Without(Waiters(k.asl, a), Members(order)))
    && t == k.(free := t.free, ready := t.ready, asl := t.asl, sem := t.sem, processCount := t.processCount,
               softBlockCount := t.softBlockCount, clockKills := t.clockKills)
  }

  lemma PurgedNone(k: Tables)
    ensures Purged(k, k, [])
  {
    WithoutNone(k.ready, {});
    forall a ensures Waiters(k.asl, a) == Without(Waiters(k.asl, a), {}) {
      WithoutNone(Waiters(k.asl, a), {});
    }
    var none: seq<Pid> := [];
    assert Members(none) == {};
    assert k.free == k.free + [];
  }

  lemma PurgedFrame(k: Tables, t: Tables, order: seq<Pid>, p: Pid)
    requires Purged(k, t, order) && p !in order
    ensures p in t.ready <==> p in k.ready
    ensures Blocked(t, p) <==> Blocked(k, p)
  {
    WithoutMembers(k.ready, Members(order));
    if p < |k.semAdd| {
      WithoutMembers(Waiters(k.asl, k.semAdd[p]), Members(order));
    }
  }

  lemma {:induction false} KillAllCore(k: Tables, cur: Pid, order: seq<Pid>)
    requires Core(k, Some(cur)) && Killable(k, Some(cur), order)
    ensures Purged(k, KillAll(k, Some(cur), order), order)
    ensures Core(KillAll(k, Some(cur), order), if cur in order then None else Some(cur))
    decreases |order|
  {
    if order == [] {
      PurgedNone(k);
    } else {
      var n := |order| - 1;
      var rest, p := order[..n], order[n];
      assert order == rest + [p] && p !in rest;
      assert forall x :: x in rest ==> x in order;
      KillAllCore(k, cur, rest);
      var t := KillAll(k, Some(cur), rest);
      PurgedFrame(k, t, rest, p);
      KillOnePurges(k, t, Some(cur), rest, p);
      KillNextCore(t, cur, p, if cur in rest then None else Some(cur));
    }
  }

  lemma KillNextCore(k: Tables, cur: Pid, p: Pid, run: Option<Pid>)
    requires Core(k, run) && p < |k.semAdd|
    requires if cur == p then run == Some(cur) else (p in k.ready || Blocked(k, p)) && Accurate(k, p)
    ensures Core(KillOne(k, Some(cur), p), if cur == p then None else run)
  {
    if cur == p {
      KillCurrentCore(k, p);
    } else if p in k.ready {
      KillReadyCore(k, Some(cur), p, run);
    } else {
      KillBlockedCore(k, Some(cur), p, run);
    }
  }

  lemma KillOnePurges(k: Tables, t: Tables, cur: Option<Pid>, rest: seq<Pid>, p: Pid)
    requires Core(k, cur) && Purged(k, t, rest) && p !in rest && p < |k.semAdd|
    requires cur == Some(p) || ((p in k.ready || Blocked(k, p)) && Accurate(k, p))
    ensures Purged(k, KillOne(t, cur, p), rest + [p])
  {
    var u, gone := KillOne(t, cur, p), Members(rest);
    assert Members(rest + [p]) == gone + {p};
    PurgedFrame(k, t, rest, p);
    if p in k.ready && cur != Some(p) {
      DeleteWithout(k.ready, gone, p);
    } else {
      SameWithout(k.ready, gone, gone + {p});
    }
    forall a ensures Waiters(u.asl, a) == Without(Waiters(k.asl, a), gone + {p}) {
      KillOneWaiters(k, t, cur, rest, p, a);
    }
    assert t.free + [p] == k.free + (rest + [p]);
  }

  lemma KillOneWaiters(k: Tables, t: Tables, cur: Option<Pid>, rest: seq<Pid>, p: Pid, a: int)
    requires Core(k, cur) && Purged(k, t, rest) && p !in rest && p < |k.semAdd|
    requires cur == Some(p) || ((p in k.ready || Blocked(k, p)) && Accurate(k, p))
    ensures Waiters(KillOne(t, cur, p).asl, a) == Without(Waiters(k.asl, a), Members(rest) + {p})
  {
    if Blocked(k, p) && a == k.semAdd[p] {
      assert NoDup(Waiters(k.asl, a));
      assert Waits(k.asl, a, p) && a in k.asl;
      DeleteWithout(Waiters(k.asl, a), Members(rest), p);
    } else {
      assert !Waits(k.asl, a, p);
      SameWithout(Waiters(k.asl, a), Members(rest), Members(rest) + {p});
    }
  }

  lemma KillablePart(k: Tables, cur: Option<Pid>, all: seq<Pid>, a: seq<Pid>, b: seq<Pid>, c: seq<Pid>)
    requires Killable(k, cur, all) && all == a + (b + c)
    ensures Killable(k, cur, a + b)
  {
    assert forall i :: 0 <= i < |a + b| ==> (a + b)[i] == all[i];
    assert forall p :: p in a + b ==> p in all;
  }

  /** What is still to be killed may be killed after a part has been. */
  lemma KillableRest(k: Tables, cur: Pid, done: seq<Pid>, rest: seq<Pid>)
    requires Core(k, Some(cur)) && Killable(k, Some(cur), done + rest) && cur !in done
    ensures forall p :: p in done ==> p < |k.semAdd|
    ensures Core(KillAll(k, Some(cur), done), Some(cur))
    ensures Killable(KillAll(k, Some(cur), done), Some(cur), rest)
  {
    var all := done + rest;
    assert forall i :: 0 <= i < |done| ==> all[i] == done[i];
    assert forall i :: 0 <= i < |rest| ==> all[|done| + i] == rest[i];
    assert forall p :: p in done || p in rest ==> p in all;
    assert NoDup(rest) && forall p :: p in rest ==> p !in done;
    KillAllCore(k, cur, done);
    var t := KillAll(k, Some(cur), done);
    forall p | p in rest && p != cur ensures (p in t.ready || Blocked(t, p)) && Accurate(t, p) {
      PurgedFrame(k, t, done, p);
    }
  }

  // ---- killing the running process and its progeny ----

  ghost function Live(k: Tables): set<Pid>
  {
    set p: Pid | p < k.maxProc && p !in k.free
  }

  /** The nucleus between steps: its tables, and the forest of live processes. */
  ghost predicate Sound(s: State)
  {
    Shape(s) && Core(s.k, s.current) && Forest(s.family, Live(s.k))
  }

  /** The ready-or-blocked test is right for every strict descendant of the running process. */
  ghost predicate AccurateKids(s: State)
    requires HasCurrent(s)
  {
    forall p :: p in Doomed(s) && p != s.current.value ==> Accurate(s.k, p)
  }

  lemma DoomedKillable(s: State)
    requires Sound(s) && s.current.Some? && AccurateKids(s)
    ensures Killable(s.k, s.current, Doomed(s)) && s.current.value in Doomed(s)
  {
    var cur := s.current.value;
    assert cur in Live(s.k);
    KillOrderOnce(s.family, Live(s.k), cur);
    KillOrderExact(s.family, Live(s.k), cur);
  }

  /** The kill is exact: given an accurate p_semAdd on every strict descendant, precisely
      the running process and its live descendants are freed, each once and children
      first; what is left of every queue keeps its order; and the tables are sound with
      nobody running. */
  lemma KillExact(s: State)
    requires Sound(s) && s.current.Some? && AccurateKids(s)
    ensures forall p :: p in Doomed(s) <==> p in Live(s.k) && Descends(s.family, p, s.current.value)
    ensures NoDup(Doomed(s))
    ensures Purged(s.k, KillFamily(s).k, Doomed(s))
    ensures KillFamily(s).k.processCount == s.k.processCount - |Doomed(s)|
    ensures Core(KillFamily(s).k, None)
  {
    DoomedKillable(s);
    KillAllCore(s.k, s.current.value, Doomed(s));
    KillOrderExact(s.family, Live(s.k), s.current.value);
  }

  /** The kill takes the subtree out of the process tree and leaves the rest of it a
      forest: parents are unchanged, and so are the children of every survivor, except
      that the running process is no longer its parent's child. */
  lemma KillTree(s: State)
    requires Sound(s) && s.current.Some? && AccurateKids(s)
    ensures Live(KillFamily(s).k) == Live(s.k) - Members(Doomed(s))
    ensures Forest(KillFamily(s).family, Live(s.k) - Members(Doomed(s)))
    ensures KillFamily(s).family.prnt == s.family.prnt
    ensures forall p: Pid :: p < s.k.maxProc && p !in Doomed(s) ==>
      KillFamily(s).family.kids[p] ==
        if s.family.prnt[s.current.value] == Some(p) then Delete(s.family.kids[p], s.current.value) else s.family.kids[p]
  {
    KillLive(s);
    var f, cur, gone := s.family, s.current.value, Members(Doomed(s));
    assert cur in Live(s.k);
    KillOrderExact(f, Live(s.k), cur);
    PruneKeeps(f, Live(s.k), cur, gone);
  }

  lemma KillLive(s: State)
    requires Sound(s) && s.current.Some? && AccurateKids(s)
    ensures Live(KillFamily(s).k) == Live(s.k) - Members(Doomed(s))
  {
    KillExact(s);
    assert forall p :: p in KillFamily(s).k.free <==> p in s.k.free || p in Doomed(s);
  }

  /** A strict descendant with a stale p_semAdd, if there is one, is reached while the tables
      are still sound, and is then put on the free list although it is linked into the ready
      queue. */
  lemma FirstStale(s: State) returns (j: nat)
    requires Sound(s) && s.current.Some? && !AccurateKids(s)
    ensures j < |Doomed(s)| && s.current.value !in Doomed(s)[..j]
    ensures forall p :: p in Doomed(s)[..j] ==> p < |s.k.semAdd|
    ensures var t, p := KillAll(s.k, s.current, Doomed(s)[..j]), Doomed(s)[j];
      && Core(t, s.current) && p in t.ready && !Accurate(t, p) && p < |t.semAdd|
      && p in KillOne(t, s.current, p).free && p in KillOne(t, s.current, p).ready
      && !Core(KillOne(t, s.current, p), s.current)
  {
    var order := Doomed(s);
    var q :| q in order && q != s.current.value && !Accurate(s.k, q);
    j := LeastStale(s.k, order, IndexOf(order, q));
    var p := order[j];
    PrefixKillable(s, j);
    CurrentLast(s);
    KillAllCore(s.k, s.current.value, order[..j]);
    var t := KillAll(s.k, s.current, order[..j]);
    PurgedFrame(s.k, t, order[..j], p);
    DeleteMembers(t.ready, p);
  }

  lemma LeastStale(k: Tables, order: seq<Pid>, n: nat) returns (j: nat)
    requires n < |order| && !Accurate(k, order[n])
    ensures j <= n && !Accurate(k, order[j]) && forall i :: 0 <= i < j ==> Accurate(k, order[i])
  {
    j := 0;
    while Accurate(k, order[j])
      invariant j <= n && forall i :: 0 <= i < j ==> Accurate(k, order[i])
      decreases n - j
    {
      j := j + 1;
    }
  }

  /** Up to the first stale descendant, the kill goes as it should. */
  lemma PrefixKillable(s: State, j: nat)
    requires Sound(s) && s.current.Some? && j <= |Doomed(s)| && forall i :: 0 <= i < j ==> Accurate(s.k, Doomed(s)[i])
    ensures Killable(s.k, s.current, Doomed(s)[..j]) && NoDup(Doomed(s)) && (j < |Doomed(s)| ==> Doomed(s)[j] !in Doomed(s)[..j])
  {
    var order := Doomed(s);
    DoomedLive(s);
    assert forall i :: 0 <= i < j ==> order[..j][i] == order[i];
    forall p | p in order[..j] ensures p in order && Accurate(s.k, p) {
      assert order[..j][IndexOf(order[..j], p)] == p;
    }
  }

  lemma DoomedLive(s: State)
    requires Sound(s) && s.current.Some?
    ensures NoDup(Doomed(s)) && s.current.value in Doomed(s)
    ensures forall p :: p in Doomed(s) ==> p < |s.k.semAdd| && (p == s.current.value || p in s.k.ready || Blocked(s.k, p))
  {
    var cur := s.current.value;
    assert cur in Live(s.k);
    KillOrderOnce(s.family, Live(s.k), cur);
    KillOrderExact(s.family, Live(s.k), cur);
  }

  lemma CurrentLast(s: State)
    requires HasCurrent(s) && NoDup(Doomed(s))
    ensures forall j :: 0 <= j < |Doomed(s)| ==> s.current.value !in Doomed(s)[..j]
  {
    var order := Doomed(s);
    assert order[|order| - 1] == s.current.value;
  }

  /** The running process and its progeny, the first j of them dead. */
  ghost function KilledTo(s: State, j: nat): Tables
    requires HasCurrent(s) && j <= |Doomed(s)|
  {
    assert forall p :: p in Doomed(s)[..j] ==> p in Doomed(s);
    KillAll(s.k, s.current, Doomed(s)[..j])
  }

  ghost predicate SoundTo(s: State, j: nat)
    requires HasCurrent(s) && j <= |Doomed(s)|
  {
    Core(KilledTo(s, j), if j == |Doomed(s)| then None else s.current)
  }

  /** The kill leaves the tables sound after each death if and only if p_semAdd is accurate on
      every strict descendant of the running process. */
  lemma KillSoundIff(s: State)
    requires Sound(s) && s.current.Some?
    ensures AccurateKids(s) <==> forall j :: 0 <= j <= |Doomed(s)| ==> SoundTo(s, j)
  {
    if AccurateKids(s) {
      forall j | 0 <= j <= |Doomed(s)| ensures SoundTo(s, j) { SoundSoFar(s, j); }
    } else {
      var j := FirstStale(s);
      hide Core, KillOne, AccurateKids;
      UnsoundAfter(s, j);
    }
  }

  lemma UnsoundAfter(s: State, j: nat)
    requires HasCurrent(s) && j < |Doomed(s)| && (forall p :: p in Doomed(s)[..j] ==> p < |s.k.semAdd|)
    requires var t, p := KillAll(s.k, s.current, Doomed(s)[..j]), Doomed(s)[j];
      p < |t.semAdd| && p in KillOne(t, s.current, p).free && p in KillOne(t, s.current, p).ready
    ensures !SoundTo(s, j + 1)
  {
    hide KillOne, Coherent, Counted;
    var order := Doomed(s);
    assert order[..j + 1][..j] == order[..j] && order[..j + 1][j] == order[j];
    assert KilledTo(s, j + 1) == KillOne(KilledTo(s, j), s.current, order[j]);
  }

  lemma SoundSoFar(s: State, j: nat)
    requires Sound(s) && s.current.Some? && AccurateKids(s) && j <= |Doomed(s)|
    ensures SoundTo(s, j)
  {
    DoomedLive(s);
    CurrentLast(s);
    assert forall i :: 0 <= i < j ==> Doomed(s)[i] in Doomed(s);
    PrefixKillable(s, j);
    KillAllCore(s.k, s.current.value, Doomed(s)[..j]);
    assert Doomed(s)[..|Doomed(s)|] == Doomed(s);
  }
}
