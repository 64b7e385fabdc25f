/** What holds of the nucleus's tables between steps, and that the building blocks of the
    steps keep it. run is the running process, while that is not yet or no longer settled. */
module NucleusInvariant {
  import opened Queues
  import opened Family
  import opened NucleusState
  import opened Processor

  /** p waits where its p_semAdd says. After a wake-up p_semAdd is stale and this is false. */
  predicate Blocked(k: Tables, p: Pid)
  {
    p < |k.semAdd| && Waits(k.asl, k.semAdd[p], p)
  }

  /** The semaphore array lies below the end sentinel of the active semaphore list. */
  predicate Layout(k: Tables)
  {
    k.maxProc > 0 && 0 <= k.semBase && SemAddr(k, SEMCOUNT) <= NULLADDR
  }

  /** Every table entry is in exactly one place: the free list, the ready queue, one
      semaphore's queue, or it is the process run. */
  ghost predicate Places(k: Tables, run: Option<Pid>)
  {
    && InTable(k)
    && NoDup(k.free) && NoDup(k.ready)
    && (forall a :: a in k.asl ==> k.asl[a] != [] && (IsUser(k, a) || IsNucleus(k, a)))
    && (forall a :: NoDup(Waiters(k.asl, a)))
    && (forall p :: p in k.free ==> p !in k.ready && run != Some(p))
    && (forall p :: p in k.ready ==> run != Some(p))
    && (forall a: int, p: Pid :: Waits(k.asl, a, p) ==>
          p < |k.semAdd| && k.semAdd[p] == a && p !in k.free && p !in k.ready && run != Some(p))
    && (forall p: Pid :: p < k.maxProc ==> p in k.free || p in k.ready || run == Some(p) || Blocked(k, p))
    && (run.Some? ==> run.value < k.maxProc)
  }

  function Deficit(v: int): nat { if v < 0 then -v else 0 }

  /** A semaphore's value against the number of processes waiting on it. */
  predicate SemOk(k: Tables, a: int)
  {
    && (IsUser(k, a) ==> |Waiters(k.asl, a)| == Deficit(Val(k, a)))
    && (IsDevice(k, a) ==> |Waiters(k.asl, a)| <= Deficit(Val(k, a)))
    && (a == Clock(k) ==> Val(k, a) <= 0 && |Waiters(k.asl, a)| == Deficit(Val(k, a)))
  }

  ghost predicate Coherent(k: Tables)
  {
    forall a :: SemOk(k, a)
  }

  predicate SoftBlocked(k: Tables, p: Pid)
  {
    Blocked(k, p) && IsNucleus(k, k.semAdd[p])
  }

  /** The processes waiting on a device or the clock. */
  ghost function SoftSet(k: Tables): set<Pid>
  {
    set p: Pid | p < k.maxProc && SoftBlocked(k, p)
  }

  ghost predicate Counted(k: Tables)
  {
    && k.processCount == k.maxProc - |k.free|
    && k.softBlockCount == |SoftSet(k)| + k.clockKills
  }

  ghost predicate Core(k: Tables, run: Option<Pid>)
  {
    Layout(k) && Places(k, run) && Coherent(k) && Counted(k)
  }

  // ---- frames ----

  /** Who waits where, and the semaphores' values, are the same. */
  predicate SameWaits(k: Tables, t: Tables)
  {
    && k.maxProc == t.maxProc && k.semBase == t.semBase
    && k.asl == t.asl && k.semAdd == t.semAdd && k.sem == t.sem
  }

  lemma WaitsFrame(k: Tables, t: Tables)
    requires SameWaits(k, t)
    ensures Coherent(k) ==> Coherent(t)
    ensures SoftSet(t) == SoftSet(k)
  {
    if Coherent(k) {
      forall a ensures SemOk(t, a) {
        assert SemOk(k, a);
      }
    }
  }

  /** Only the queue and the value of a may differ between k and t. */
  ghost predicate SameSemsBut(k: Tables, t: Tables, a: int)
  {
    && k.maxProc == t.maxProc && k.semBase == t.semBase
    && (forall b :: b != a ==> Waiters(k.asl, b) == Waiters(t.asl, b) && Val(k, b) == Val(t, b))
  }

  lemma CoherentBut(k: Tables, t: Tables, a: int)
    requires Coherent(k) && SameSemsBut(k, t, a) && SemOk(t, a)
    ensures Coherent(t)
  {
    forall b ensures SemOk(t, b) {
      assert SemOk(k, b);
    }
  }

  lemma SplitCount<T>(all: set<T>, gone: set<T>)
    ensures |all - gone| == |all| - |all * gone|
  {
    assert all == (all - gone) + all * gone;
  }

  /** gone no longer wait; everybody else waits as before. */
  lemma LeaveSoft(k: Tables, t: Tables, gone: set<Pid>)
    requires t.maxProc == k.maxProc && t.semBase == k.semBase && t.semAdd == k.semAdd
    requires |k.semAdd| == k.maxProc
    requires forall x: Pid :: x < k.maxProc ==> (Blocked(t, x) <==> Blocked(k, x) && x !in gone)
    ensures |SoftSet(t)| == |SoftSet(k)| - |SoftSet(k) * gone|
  {
    assert SoftSet(t) == SoftSet(k) - gone;
    SplitCount(SoftSet(k), gone);
  }

  // ---- how the queue operations change who waits where ----

  lemma EnqueueWaits(m: map<int, seq<Pid>>, a: int, p: Pid)
    ensures forall b :: Waiters(Enqueue(m, a, p), b) == if b == a then Waiters(m, a) + [p] else Waiters(m, b)
    ensures forall b: int, x: Pid :: Waits(Enqueue(m, a, p), b, x) <==> Waits(m, b, x) || (b == a && x == p)
  {
  }

  lemma EnqueueNoDup(m: map<int, seq<Pid>>, a: int, p: Pid)
    requires (forall b :: NoDup(Waiters(m, b))) && !Waits(m, a, p)
    ensures forall b :: NoDup(Waiters(Enqueue(m, a, p), b))
  {
    EnqueueWaits(m, a, p);
    AppendNoDup(Waiters(m, a), p);
    forall b ensures NoDup(Waiters(Enqueue(m, a, p), b)) {
      assert NoDup(Waiters(m, b));
    }
  }

  lemma DequeueWaits(m: map<int, seq<Pid>>, a: int)
    requires Waiters(m, a) != [] && NoDup(Waiters(m, a))
    ensures forall b :: Waiters(Dequeue(m, a), b) == if b == a then Waiters(m, a)[1..] else Waiters(m, b)
    ensures forall b: int, x: Pid :: Waits(Dequeue(m, a), b, x) <==> Waits(m, b, x) && !(b == a && x == Waiters(m, a)[0])
  {
    var q := Waiters(m, a);
    assert q == [q[0]] + q[1..];
    assert q[0] !in q[1..];
    assert forall b :: Waiters(Dequeue(m, a), b) == if b == a then q[1..] else Waiters(m, b);
    assert forall x: Pid :: x in q[1..] <==> x in q && x != q[0];
  }

  lemma DequeueNoDup(m: map<int, seq<Pid>>, a: int)
    requires (forall b :: NoDup(Waiters(m, b))) && Waiters(m, a) != []
    ensures forall b :: NoDup(Waiters(Dequeue(m, a), b))
  {
    assert NoDup(Waiters(m, a));
    DequeueWaits(m, a);
    forall b ensures NoDup(Waiters(Dequeue(m, a), b)) {
      assert NoDup(Waiters(m, b));
    }
  }

  lemma UnqueueWaits(m: map<int, seq<Pid>>, a: int, p: Pid)
    requires NoDup(Waiters(m, a))
    ensures forall b :: Waiters(Unqueue(m, a, p), b) == if b == a then Delete(Waiters(m, a), p) else Waiters(m, b)
    ensures forall b: int, x: Pid :: Waits(Unqueue(m, a, p), b, x) <==> Waits(m, b, x) && !(b == a && x == p)
  {
    DeleteMembers(Waiters(m, a), p);
  }

  lemma UnqueueNoDup(m: map<int, seq<Pid>>, a: int, p: Pid)
    requires forall b :: NoDup(Waiters(m, b))
    ensures forall b :: NoDup(Waiters(Unqueue(m, a, p), b))
  {
    assert NoDup(Waiters(m, a));
    UnqueueWaits(m, a, p);
    DeleteMembers(Waiters(m, a), p);
    forall b ensures NoDup(Waiters(Unqueue(m, a, p), b)) {
      assert NoDup(Waiters(m, b));
    }
  }

  // ---- dispatch, and the end of a turn ----

  lemma DispatchCore(k: Tables)
    requires Core(k, None) && k.ready != []
    ensures Core(k.(ready := k.ready[1..]), Some(k.ready[0]))
  {
    var t := k.(ready := k.ready[1..]);
    WaitsFrame(k, t);
    DispatchPlaces(k);
  }

  lemma DispatchPlaces(k: Tables)
    requires Places(k, None) && k.ready != []
    ensures Places(k.(ready := k.ready[1..]), Some(k.ready[0]))
  {
    var t := k.(ready := k.ready[1..]);
    assert k.ready == [k.ready[0]] + t.ready;
    assert forall p :: p in t.ready <==> p in k.ready && p != k.ready[0];
    assert forall p: Pid :: Blocked(k, p) ==> Blocked(t, p);
  }

  lemma ReadyCore(k: Tables, p: Pid)
    requires Core(k, Some(p))
    ensures Core(k.(ready := k.ready + [p]), None)
  {
    var t := k.(ready := k.ready + [p]);
    WaitsFrame(k, t);
    AppendNoDup(k.ready, p);
    assert forall x: Pid :: Blocked(k, x) ==> Blocked(t, x);
  }

  // ---- the running process blocks ----

  lemma BlockCore(k: Tables, t: Tables, p: Pid, a: int)
    requires Core(k, Some(p)) && (IsUser(k, a) || IsNucleus(k, a)) && Val(k, a) <= 0
    requires p < |k.semAdd|
    requires t == k.(asl := Enqueue(k.asl, a, p), semAdd := k.semAdd[p := a], sem := k.sem[a := Val(k, a) - 1],
                     softBlockCount := k.softBlockCount + if IsNucleus(k, a) then 1 else 0)
    ensures Core(t, None)
  {
    BlockPlaces(k, t, p, a);
    BlockCoherent(k, t, p, a);
    BlockSoft(k, t, p, a);
  }

  lemma BlockCoherent(k: Tables, t: Tables, p: Pid, a: int)
    requires Coherent(k) && Val(k, a) <= 0
    requires t.maxProc == k.maxProc && t.semBase == k.semBase
    requires t.asl == Enqueue(k.asl, a, p) && t.sem == k.sem[a := Val(k, a) - 1]
    ensures Coherent(t)
  {
    EnqueueWaits(k.asl, a, p);
    assert SemOk(k, a);
    CoherentBut(k, t, a);
  }

  lemma BlockSoft(k: Tables, t: Tables, p: Pid, a: int)
    requires |k.semAdd| == k.maxProc == t.maxProc && p < k.maxProc && t.semBase == k.semBase
    requires !Blocked(k, p)
    requires t.asl == Enqueue(k.asl, a, p) && t.semAdd == k.semAdd[p := a]
    ensures |SoftSet(t)| == |SoftSet(k)| + if IsNucleus(k, a) then 1 else 0
  {
    EnqueueWaits(k.asl, a, p);
    assert p !in SoftSet(k);
    assert SoftBlocked(t, p) <==> IsNucleus(k, a);
    forall x: Pid | x < k.maxProc && x != p ensures SoftBlocked(t, x) <==> SoftBlocked(k, x) {
      assert t.semAdd[x] == k.semAdd[x];
    }
    if IsNucleus(k, a) {
      assert SoftSet(t) == SoftSet(k) + {p};
    } else {
      assert SoftSet(t) == SoftSet(k);
    }
  }

  lemma BlockPlaces(k: Tables, t: Tables, p: Pid, a: int)
    requires Places(k, Some(p)) && (IsUser(k, a) || IsNucleus(k, a)) && p < |k.semAdd|
    requires t == k.(asl := Enqueue(k.asl, a, p), semAdd := k.semAdd[p := a], sem := t.sem, softBlockCount := t.softBlockCount)
    ensures Places(t, None) && !Blocked(k, p)
  {
    EnqueueWaits(k.asl, a, p);
    assert !Waits(k.asl, a, p);
    EnqueueNoDup(k.asl, a, p);
    BlockCovers(k, t, p, a);
  }

  lemma BlockCovers(k: Tables, t: Tables, p: Pid, a: int)
    requires |k.semAdd| == k.maxProc == t.maxProc && p < k.maxProc
    requires t.free == k.free && t.ready == k.ready
    requires t.asl == Enqueue(k.asl, a, p) && t.semAdd == k.semAdd[p := a]
    requires forall x: Pid :: x < k.maxProc ==> x in k.free || x in k.ready || x == p || Blocked(k, x)
    ensures forall x: Pid :: x < t.maxProc ==> x in t.free || x in t.ready || Blocked(t, x)
  {
    EnqueueWaits(k.asl, a, p);
    forall x: Pid | x < t.maxProc ensures x in t.free || x in t.ready || Blocked(t, x) {
      if x == p { assert Waits(t.asl, a, p); }
      assert Blocked(k, x) ==> Waits(t.asl, k.semAdd[x], x);
    }
  }

  /** p leaves the queue it waits in for the free list or the ready queue. */
  lemma MovePlaces(k: Tables, t: Tables, run: Option<Pid>, p: Pid, killed: bool)
    requires Places(k, run) && p < k.maxProc && Blocked(k, p)
    requires t.maxProc == k.maxProc && t.semBase == k.semBase && t.semAdd == k.semAdd
    requires forall b: int, x: Pid :: Waits(t.asl, b, x) <==> Waits(k.asl, b, x) && x != p
    requires forall b :: NoDup(Waiters(t.asl, b))
    requires forall b :: b in t.asl ==> t.asl[b] != [] && b in k.asl
    requires NoDup(t.free) && NoDup(t.ready)
    requires forall x :: x in t.free <==> x in k.free || (killed && x == p)
    requires forall x :: x in t.ready <==> x in k.ready || (!killed && x == p)
    ensures Places(t, run)
  {
    forall x: Pid | x < t.maxProc
      ensures x in t.free || x in t.ready || run == Some(x) || Blocked(t, x)
    {
      assert Blocked(k, x) ==> Blocked(t, x) || x == p;
    }
  }

  /** Only the value of a changes. */
  lemma ValueCore(k: Tables, run: Option<Pid>, a: int, v: int)
    requires Core(k, run) && SemOk(SetVal(k, a, v), a)
    ensures Core(SetVal(k, a, v), run)
  {
    var t := SetVal(k, a, v);
    CoherentBut(k, t, a);
    assert SoftSet(t) == SoftSet(k);
    assert forall x: Pid :: Blocked(k, x) ==> Blocked(t, x);
  }

  // ---- wake-ups ----

  /** V on a semaphore somebody waits on: the head of its queue becomes ready. */
  lemma WakeCore(k: Tables, t: Tables, run: Option<Pid>, a: int)
    requires Core(k, run) && Waiters(k.asl, a) != [] && a != Clock(k)
    requires t == k.(asl := Dequeue(k.asl, a), ready := k.ready + [Waiters(k.asl, a)[0]],
                     sem := k.sem[a := Val(k, a) + 1],
                     softBlockCount := k.softBlockCount - if IsNucleus(k, a) then 1 else 0)
    ensures Core(t, run)
  {
    assert NoDup(Waiters(k.asl, a));
    WakePlaces(k, t, run, a);
    WakeCoherent(k, t, a);
    WakeSoft(k, t, a);
  }

  lemma WakeCoherent(k: Tables, t: Tables, a: int)
    requires Layout(k) && Coherent(k) && Waiters(k.asl, a) != [] && NoDup(Waiters(k.asl, a)) && a != Clock(k)
    requires t.maxProc == k.maxProc && t.semBase == k.semBase
    requires t.asl == Dequeue(k.asl, a) && t.sem == k.sem[a := Val(k, a) + 1]
    ensures Coherent(t)
  {
    DequeueWaits(k.asl, a);
    assert SemOk(k, a);
    CoherentBut(k, t, a);
  }

  lemma WakeSoft(k: Tables, t: Tables, a: int)
    requires |k.semAdd| == k.maxProc == t.maxProc && t.semBase == k.semBase && t.semAdd == k.semAdd
    requires Waiters(k.asl, a) != [] && NoDup(Waiters(k.asl, a)) && t.asl == Dequeue(k.asl, a)
    requires forall b: int, x: Pid :: Waits(k.asl, b, x) ==> x < |k.semAdd| && k.semAdd[x] == b
    ensures |SoftSet(t)| == |SoftSet(k)| - if IsNucleus(k, a) then 1 else 0
  {
    var p := Waiters(k.asl, a)[0];
    DequeueWaits(k.asl, a);
    assert Waits(k.asl, a, p);
    forall x: Pid | x < k.maxProc ensures Blocked(t, x) <==> Blocked(k, x) && x !in {p} {
    }
    LeaveSoft(k, t, {p});
    assert SoftSet(k) * {p} == if IsNucleus(k, a) then {p} else {};
  }

  lemma WakePlaces(k: Tables, t: Tables, run: Option<Pid>, a: int)
    requires Places(k, run) && Waiters(k.asl, a) != []
    requires t == k.(asl := Dequeue(k.asl, a), ready := k.ready + [Waiters(k.asl, a)[0]], sem := t.sem, softBlockCount := t.softBlockCount)
    ensures Places(t, run)
  {
    var p := Waiters(k.asl, a)[0];
    assert Waits(k.asl, a, p);
    assert NoDup(Waiters(k.asl, a));
    DequeueWaits(k.asl, a);
    DequeueNoDup(k.asl, a);
    AppendNoDup(k.ready, p);
    MovePlaces(k, t, run, p, false);
  }

  /** The interval timer wakes everybody who waits on the clock. */
  lemma WakeClockCore(k: Tables, run: Option<Pid>)
    requires Core(k, run)
    ensures Core(WakeClock(k), run)
  {
    var t, c := WakeClock(k), Clock(k);
    WakeClockWaits(k);
    WakeClockPlaces(k, t, run);
    assert SemOk(k, c);
    CoherentBut(k, t, c);
    WakeClockSoft(k, t, run);
  }

  lemma WakeClockWaits(k: Tables)
    ensures forall b :: Waiters(WakeClock(k).asl, b) == if b == Clock(k) then [] else Waiters(k.asl, b)
    ensures forall b: int, x: Pid :: Waits(WakeClock(k).asl, b, x) <==> Waits(k.asl, b, x) && b != Clock(k)
    ensures forall p: Pid :: p in WakeClock(k).ready <==> p in k.ready || Waits(k.asl, Clock(k), p)
  {
  }

  lemma WakeClockSoft(k: Tables, t: Tables, run: Option<Pid>)
    requires Places(k, run) && t == WakeClock(k)
    ensures |SoftSet(t)| == |SoftSet(k)| - |Waiters(k.asl, Clock(k))|
  {
    WakeClockWaits(k);
    var q := Waiters(k.asl, Clock(k));
    assert NoDup(q);
    MembersCount(q);
    forall x: Pid | x < k.maxProc ensures Blocked(t, x) <==> Blocked(k, x) && x !in Members(q) {
      assert Waits(k.asl, Clock(k), x) ==> k.semAdd[x] == Clock(k);
    }
    LeaveSoft(k, t, Members(q));
    forall p | p in q ensures p in SoftSet(k) {
      assert Waits(k.asl, Clock(k), p);
    }
    assert SoftSet(k) * Members(q) == Members(q);
  }

  lemma WakeClockPlaces(k: Tables, t: Tables, run: Option<Pid>)
    requires Places(k, run) && t == WakeClock(k)
    ensures Places(t, run)
  {
    WakeClockWaits(k);
    var q := Waiters(k.asl, Clock(k));
    assert NoDup(q);
    assert forall p: Pid :: p in q ==> Waits(k.asl, Clock(k), p);
    ConcatNoDup(k.ready, q);
    forall b ensures NoDup(Waiters(t.asl, b)) {
      assert NoDup(Waiters(k.asl, b));
    }
    forall x: Pid | x < t.maxProc
      ensures x in t.free || x in t.ready || run == Some(x) || Blocked(t, x)
    {
      assert Blocked(k, x) ==> Blocked(t, x) || x in t.ready;
    }
  }

  // ---- creation ----

  /** Table entry p moves from the head of the free list to the tail of the ready queue. */
  lemma CreateCore(k: Tables, t: Tables, run: Option<Pid>, p: Pid)
    requires Core(k, run) && k.free != [] && p == k.free[0] && p < |k.semAdd|
    requires t == k.(free := k.free[1..], ready := k.ready + [p], semAdd := k.semAdd[p := NULLADDR],
                     processCount := k.processCount + 1)
    ensures Core(t, run)
    ensures forall x :: x in t.free <==> x in k.free && x != p
  {
    assert p in k.free && k.free == [p] + k.free[1..];
    assert forall x :: x in t.free <==> x in k.free && x != p;
    CreatePlaces(k, t, run, p);
    if Coherent(k) {
      forall a ensures SemOk(t, a) {
        assert SemOk(k, a);
      }
    }
    assert !Blocked(k, p) && !Waits(k.asl, NULLADDR, p);
    CreateSoft(k, t, p);
  }

  lemma CreateSoft(k: Tables, t: Tables, p: Pid)
    requires |k.semAdd| == k.maxProc == t.maxProc && t.semBase == k.semBase && t.asl == k.asl
    requires p < k.maxProc && t.semAdd == k.semAdd[p := NULLADDR]
    requires !Blocked(k, p) && !Waits(k.asl, NULLADDR, p)
    ensures SoftSet(t) == SoftSet(k)
  {
    forall x: Pid | x < k.maxProc ensures SoftBlocked(t, x) <==> SoftBlocked(k, x) {
      assert x != p ==> t.semAdd[x] == k.semAdd[x];
    }
  }

  lemma CreatePlaces(k: Tables, t: Tables, run: Option<Pid>, p: Pid)
    requires Places(k, run) && k.free != [] && p == k.free[0] && p in k.free && p < |k.semAdd|
    requires t == k.(free := k.free[1..], ready := k.ready + [p], semAdd := k.semAdd[p := NULLADDR], processCount := t.processCount)
    requires forall x :: x in t.free <==> x in k.free && x != p
    ensures Places(t, run)
  {
    AppendNoDup(k.ready, p);
    assert forall a: int :: !Waits(k.asl, a, p);
    forall x: Pid | x < t.maxProc
      ensures x in t.free || x in t.ready || run == Some(x) || Blocked(t, x)
    {
      assert x != p && Blocked(k, x) ==> t.semAdd[x] == k.semAdd[x];
    }
  }
}
