/** The handlers of exceptions.c, interrupts.c and scheduler.c as they run: statements over
    the nucleus's global variables and over the linked structures of phase 1. The ghost state s
    is what they represent; each handler is proved to move it as its function in NucleusState. */
module NucleusCode {
  import opened Queues
  import opened Names
  import opened Family
  import opened Processor
  import opened NucleusState
  import opened NucleusInvariant
  import opened NucleusKill
  import opened NucleusRuns
  import opened Interrupts
  import opened ProcessStore
  import opened Pcbs
  import Asl

  lemma {:induction false} KillAllConcat(k: Tables, cur: Option<Pid>, a: seq<Pid>, b: seq<Pid>)
    requires forall p :: p in a + b ==> p < |k.semAdd|
    ensures (forall p :: p in a ==> p in a + b) && (forall p :: p in b ==> p in a + b)
    ensures KillAll(k, cur, a + b) == KillAll(KillAll(k, cur, a), cur, b)
    decreases |b|
  {
    assert forall p :: p in a || p in b ==> p in a + b;
    if b == [] {
      assert a + b == a;
    } else {
      var n := |b| - 1;
      assert (a + b)[..|a + b| - 1] == a + b[..n];
      assert forall p :: p in a + b[..n] ==> p in a + b;
      KillAllConcat(k, cur, a, b[..n]);
    }
  }

  lemma KillAllOne(k: Tables, cur: Option<Pid>, p: Pid)
    requires p < |k.semAdd|
    ensures KillAll(k, cur, [p]) == KillOne(k, cur, p)
  {
    assert [p][..0] == [];
    assert KillAll(k, cur, [p][..0]) == k;
  }

  lemma Pieces<T>(all: seq<T>, a: seq<T>, b: seq<T>, c: seq<T>, p: T)
    requires NoDup(all) && all == a + (b + c) + [p]
    ensures forall x :: x in b ==> x !in a && x !in c && x != p
    ensures forall x :: x in a || x in c ==> x != p
  {
    var n := |a|;
    assert forall i :: 0 <= i < |a| ==> all[i] == a[i];
    assert forall i :: 0 <= i < |b| ==> all[n + i] == b[i];
    assert forall i :: 0 <= i < |c| ==> all[n + |b| + i] == c[i];
    assert all[n + |b| + |c|] == p;
  }

  /** Halfway through p's children: the first i of them, and their progeny done, are dead. */
  ghost predicate Killing(f: Family, p: Pid, i: nat, done: seq<Pid>, kids: seq<seq<Pid>>, kids0: seq<seq<Pid>>)
    requires Ranked(f) && p < |f.kids| == |kids| == |kids0|
  {
    && i <= |f.kids[p]| && kids[p] == f.kids[p][i..]
    && KidsOrder(f, p, 0) == done + KidsOrder(f, p, i)
    && (forall q :: q in done ==> q < |f.kids|)
    && (forall q :: q in KidsOrder(f, p, i) ==> kids[q] == f.kids[q])
    && (forall q: Pid :: q < |kids| && q != p && q !in KidsOrder(f, p, i) ==> kids[q] == if q in done then [] else kids0[q])
  }

  lemma KillStarts(f: Family, live: set<Pid>, p: Pid, kids: seq<seq<Pid>>, k: Tables, cur: Option<Pid>)
    requires Forest(f, live) && p in live && |kids| == |f.kids|
    requires forall q :: q in KillOrder(f, p) ==> kids[q] == f.kids[q]
    ensures Ranked(f) && p < |f.kids| && Killing(f, p, 0, [], kids, kids) && KillAll(k, cur, []) == k
    ensures f.prnt[p].Some? ==> f.prnt[p].value < |f.kids|
  {
    assert [] + KidsOrder(f, p, 0) == KidsOrder(f, p, 0);
    assert p in KillOrder(f, p);
  }

  lemma OrderPieces(f: Family, live: set<Pid>, p: Pid, i: nat, done: seq<Pid>)
    requires Forest(f, live) && p in live && i < |f.kids[p]| && KidsOrder(f, p, 0) == done + KidsOrder(f, p, i)
    ensures IsChild(f, p, f.kids[p][i]) && f.kids[p][i] < |f.kids| && f.born[p] < f.born[f.kids[p][i]]
    ensures var order, rest := KillOrder(f, f.kids[p][i]), KidsOrder(f, p, i + 1);
      && KidsOrder(f, p, i) == order + rest && KillOrder(f, p) == done + (order + rest) + [p]
      && (forall x :: x in order ==> x !in done && x !in rest && x != p)
      && (forall x :: x in done || x in rest ==> x != p)
  {
    KillOrderOnce(f, live, p);
    assert IsChild(f, p, f.kids[p][i]);
    Pieces(KillOrder(f, p), done, KillOrder(f, f.kids[p][i]), KidsOrder(f, p, i + 1), p);
  }

  /** The next child and its subtree are still as f says, and do not contain p. */
  lemma NextChild(f: Family, live: set<Pid>, p: Pid, i: nat, done: seq<Pid>, kids: seq<seq<Pid>>, kids0: seq<seq<Pid>>)
    requires Forest(f, live) && p in live && |kids| == |kids0| == |f.kids|
    requires Killing(f, p, i, done, kids, kids0) && kids[p] != []
    ensures var child := kids[p][0];
      && i < |f.kids[p]| && child == f.kids[p][i] && child in live && f.born[p] < f.born[child] < f.births
      && child in KillOrder(f, p) && child != p
      && (forall q :: q in KillOrder(f, child) ==> q in KillOrder(f, p) && q != p && q < |kids| && kids[q] == f.kids[q])
  {
    OrderPieces(f, live, p, i, done);
    assert kids[p][0] in KillOrder(f, kids[p][0]);
  }

  lemma ChildKilled(f: Family, live: set<Pid>, p: Pid, i: nat, done: seq<Pid>,
                    before: seq<seq<Pid>>, kids: seq<seq<Pid>>, kids0: seq<seq<Pid>>)
    requires Forest(f, live) && p in live && |kids| == |before| == |kids0| == |f.kids| && i < |f.kids[p]|
    requires Killing(f, p, i, done, before, kids0) && before[p] != [] && f.kids[p][i] < |f.kids|
    requires forall q: Pid :: q < |kids| ==>
      kids[q] == if q in KillOrder(f, f.kids[p][i]) then [] else before[p := before[p][1..]][q]
    ensures Killing(f, p, i + 1, done + KillOrder(f, f.kids[p][i]), kids, kids0)
    ensures forall q :: q in done + KillOrder(f, f.kids[p][i]) ==> q < |f.kids|
  {
    OrderPieces(f, live, p, i, done);
    var order, rest := KillOrder(f, f.kids[p][i]), KidsOrder(f, p, i + 1);
    assert done + (order + rest) == (done + order) + rest;
    var after := before[p := before[p][1..]];
    assert forall q: Pid :: q < |kids| && q != p ==> before[q] == after[q];
    assert after[p] == f.kids[p][i + 1..];
  }

  lemma KidsKilled(f: Family, live: set<Pid>, p: Pid, i: nat, done: seq<Pid>, kids: seq<seq<Pid>>, kids0: seq<seq<Pid>>)
    requires Forest(f, live) && p in live && |kids| == |kids0| == |f.kids|
    requires Killing(f, p, i, done, kids, kids0) && kids[p] == []
    ensures KillOrder(f, p) == done + [p] && forall q :: q in done + [p] ==> q < |f.kids|
    ensures forall q: Pid :: q < |kids| ==> kids[q] == if q in KillOrder(f, p) then [] else kids0[q]
  {
    assert i == |f.kids[p]| && KidsOrder(f, p, i) == [];
    assert done + [] == done;
  }

  class Nucleus {
    const store: Store
    const semBase: int
    var currentProcess: Pcb?
    var processCount: int
    var softBlockCount: int
    var startTime: int
    var sem: map<int, int>          // the words of memory that are semaphores
    var areas: map<int, Cpu>        // and those that are processor state areas
    var command: map<int, int>      // last command written to each device
    var syscallOld: Cpu             // the old areas of SYSCALLs, program traps and TLB exceptions
    var programTrapOld: Cpu
    var tlbManagementOld: Cpu
    const zero: Cpu                 // what an area holds that nobody has written
    var cpu: Cpu
    var mode: Mode
    var now: int
    ghost var s: State

    ghost predicate Globals()
      reads this
    {
      && s.k.semBase == semBase && sem == s.k.sem
      && processCount == s.k.processCount && softBlockCount == s.k.softBlockCount
      && startTime == s.startTime && cpu == s.cpu && mode == s.mode && now == s.now
    }

    ghost predicate Lists()
      reads `s, store`ready, store`kids, store.pool`free, store.asl`queues, store.asl`maxProc
    {
      && |store.table| == s.k.maxProc == store.asl.maxProc
      && Named(store.table, store.pool.free, s.k.free)
      && Named(store.table, store.ready, s.k.ready)
      && NamedMap(store.table, store.asl.queues, s.k.asl)
      && Kids(s.family.kids)
    }

    ghost predicate Kids(kids: seq<seq<Pid>>)
      reads store`kids
    {
      |kids| == |store.table| && forall p: Pid :: p < |kids| ==> KidsNamed(p, kids[p])
    }

    ghost predicate KidsNamed(p: Pid, ch: seq<Pid>)
      requires p < |store.table|
      reads store`kids
    {
      store.table[p] in store.kids && Named(store.table, store.kids[store.table[p]], ch)
    }

    ghost predicate IsRunning()
      reads `s, `currentProcess
    {
      match s.current
      case None => currentProcess == null
      case Some(p) => p < |store.table| && currentProcess == store.table[p]
    }

    /** The fields of x that no queue runs through. */
    ghost predicate Record(x: Pcb, semAdd: int, time: int, saved: Cpu, v: seq<Vector>, prnt: Option<Pid>)
      reads x`semAdd, x`totalTime, x`state, x`oldAreas, x`newAreas, x`prnt
    {
      && x.semAdd == semAdd && x.totalTime == time && x.state == saved
      && |x.oldAreas| == |x.newAreas| == NUMEXCEPTIONTYPES && v == Vectors(x.oldAreas, x.newAreas)
      && match prnt
         case None => x.prnt == null
         case Some(q) => q < |store.table| && x.prnt == store.table[q]
    }

    ghost predicate Records(semAdd: seq<int>, time: seq<int>, saved: seq<Cpu>, v: seq<seq<Vector>>, prnt: seq<Option<Pid>>)
      reads Members(store.table)`semAdd, Members(store.table)`totalTime, Members(store.table)`state,
        Members(store.table)`oldAreas, Members(store.table)`newAreas, Members(store.table)`prnt
    {
      && |store.table| == |semAdd| == |time| == |saved| == |v| == |prnt|
      && forall p: Pid :: p < |store.table| ==> Record(store.table[p], semAdd[p], time[p], saved[p], v[p], prnt[p])
    }

    ghost predicate Recorded(t: State)
      reads Members(store.table)`semAdd, Members(store.table)`totalTime, Members(store.table)`state,
        Members(store.table)`oldAreas, Members(store.table)`newAreas, Members(store.table)`prnt
    {
      Records(t.k.semAdd, t.time, t.saved, t.vectors, t.family.prnt)
    }

    ghost function Foot(): set<object>
    {
      {store, store.pool, store.asl} + Members(store.table) + store.semds
    }

    lemma Elsewhere()
      ensures this !in Foot()
    {}

    /** The globals and the linked structures are the nucleus state s. */
    ghost predicate Rep()
      reads this, Foot()
    {
      store.Valid() && Globals() && Lists() && IsRunning() && Recorded(s)
    }

    // ---- the lists, one operation at a time ----

    /** removeProcQ on the ready queue. */
    method TakeReady() returns (p: Pcb?)
      requires Rep() && InTable(s.k)
      modifies `s, store`readyQ, store`ready, Members(store.table)`next, Members(store.table)`prev
      ensures Rep()
      ensures old(s.k.ready) == [] ==> p == null && s == old(s)
      ensures old(s.k.ready) != [] ==>
        var i := old(s.k.ready)[0];
        i < |store.table| && p == store.table[i] && i < |s.saved| && p.state == s.saved[i] && s == old(s).(k := old(s.k).(ready := old(s.k.ready)[1..]))
    {
      hide Store.Valid, Record, KidsNamed, Named;
      ReadyHead();
      p := store.TakeReady();
      label taken:
      s := if p == null then s else s.(k := s.k.(ready := s.k.ready[1..]));
      store.Keeps@taken();
    }

    /** Where entry i is linked, by the tables. */
    lemma Whereabouts(i: Pid)
      requires Rep() && i < |store.table|
      ensures store.table[i] in store.pool.free <==> i in s.k.free
      ensures store.table[i] in store.ready <==> i in s.k.ready
      ensures store.table[i] in store.asl.procs ==> Blocked(s.k, i)
      ensures i < |s.k.semAdd| && store.table[i].semAdd == s.k.semAdd[i]
    {
      var x := store.table[i];
      NamedMember(store.table, store.pool.free, s.k.free, i);
      NamedMember(store.table, store.ready, s.k.ready, i);
      assert Record(x, s.k.semAdd[i], s.time[i], s.saved[i], s.vectors[i], s.family.prnt[i]);
      if x in store.asl.procs {
        assert store.asl.Owned();
        assert Waits(store.asl.queues, x.semAdd, x);
        NamedWaits(store.table, store.asl.queues, s.k.asl, x.semAdd, i);
      }
    }

    /** insertProcQ on the ready queue. */
    method PutReady(p: Pcb, ghost i: Pid)
      requires Rep() && i < |store.table| && p == store.table[i]
      requires i !in s.k.ready && i !in s.k.free && !Blocked(s.k, i)
      modifies `s, store`readyQ, store`ready, Members(store.table)`next, Members(store.table)`prev
      ensures Rep() && s == old(s).(k := old(s.k).(ready := old(s.k.ready) + [i]))
    {
      hide Store.Valid, Records, Kids, Named, NamedMap;
      Whereabouts(i);
      NamedAppend(store.table, store.ready, s.k.ready, i);
      store.PutReady(p);
      label put:
      s := s.(k := s.k.(ready := s.k.ready + [i]));
      store.Keeps@put();
    }

    /** outProcQ on the ready queue. */
    method OutReady(p: Pcb, ghost i: Pid)
      requires Rep() && i < |store.table| && p == store.table[i]
      modifies `s, store`readyQ, store`ready, Members(store.table)`next, Members(store.table)`prev
      ensures Rep() && s == old(s).(k := old(s.k).(ready := Delete(old(s.k.ready), i)))
    {
      hide Store.Valid, Records, Kids, Named, NamedMap, Delete;
      store.TableNoDup();
      NamedDelete(store.table, store.ready, s.k.ready, i);
      var _ := store.OutReady(p);
      label out:
      s := s.(k := s.k.(ready := Delete(s.k.ready, i)));
      store.Keeps@out();
    }

    method FreePcb(p: Pcb, ghost i: Pid)
      requires Rep() && i < |store.table| && p == store.table[i]
      requires i !in s.k.ready && i !in s.k.free && !Blocked(s.k, i)
      modifies `s, store.pool, Members(store.table)`next, Members(store.table)`prev
      ensures Rep() && s == old(s).(k := old(s.k).(free := old(s.k.free) + [i]))
    {
      hide Store.Valid, Records, Kids, Named, NamedMap;
      Whereabouts(i);
      NamedAppend(store.table, store.pool.free, s.k.free, i);
      store.FreePcb(p);
      label freed:
      s := s.(k := s.k.(free := s.k.free + [i]));
      store.Keeps@freed();
    }

    /** insertBlocked; whether it failed is ignored. */
    method InsertBlocked(a: int, p: Pcb, ghost i: Pid)
      requires Rep() && i < |store.table| && p == store.table[i] && 0 <= a < NULLADDR
      requires i !in s.k.ready && i !in s.k.free && !Blocked(s.k, i) && i < |s.k.semAdd|
      modifies `s, store.asl, store.semds, Members(store.table)`next, Members(store.table)`prev, p`semAdd
      ensures Rep() && s == old(s).(k := NucleusState.InsertBlocked(old(s.k), a, i))
    {
      hide Foot, Rep, NucleusState.InsertBlocked, Store.Valid;
      Whereabouts(i);
      Parts();
      var full := store.InsertBlocked(a, p);
      s := s.(k := NucleusState.InsertBlocked(s.k, a, i));
      Inserted(a, i, full);
    }

    lemma Parts()
      requires Rep()
      ensures store.Valid() && |store.asl.queues| <= store.asl.maxProc && Recorded(s) && Kids(s.family.kids)
      ensures Globals() && IsRunning()
      ensures |s.family.prnt| == |s.family.kids| == |store.table| == s.k.maxProc == store.asl.maxProc
    {
      store.asl.AtMostMaxProc();
    }

    twostate predicate SameGlobals()
      reads this
    {
      && currentProcess == old(currentProcess) && processCount == old(processCount) && softBlockCount == old(softBlockCount)
      && startTime == old(startTime) && sem == old(sem) && cpu == old(cpu) && mode == old(mode) && now == old(now)
    }

    twostate lemma Inserted(new a: int, new i: Pid, new full: bool)
      requires old(Rep()) && store.Valid() && i < |store.table| && SameGlobals()
      requires i < |old(s).k.semAdd| && old(store.table[i].semAdd) == old(s).k.semAdd[i]
      requires s == old(s).(k := NucleusState.InsertBlocked(old(s).k, a, i))
      requires store.pool.free == old(store.pool.free) && store.ready == old(store.ready) && store.kids == old(store.kids)
      requires store.asl.maxProc == old(store.asl.maxProc) && |old(store.asl.queues)| <= store.asl.maxProc
      requires full <==> a !in old(store.asl.queues) && |old(store.asl.queues)| == store.asl.maxProc
      requires full ==> store.asl.queues == old(store.asl.queues) && store.table[i].semAdd == old(store.table[i].semAdd)
      requires !full ==> store.asl.queues == Enqueue(old(store.asl.queues), a, store.table[i]) && store.table[i].semAdd == a
      requires forall x :: x in store.table ==>
        && (x != store.table[i] ==> x.semAdd == old(x.semAdd)) && x.totalTime == old(x.totalTime) && x.state == old(x.state)
        && x.oldAreas == old(x.oldAreas) && x.newAreas == old(x.newAreas) && x.prnt == old(x.prnt)
      ensures Rep()
    {
      hide Store.Valid, Records, Named, Record, Enqueue, KidsNamed;
      NamedEnqueue(store.table, old(store.asl.queues), old(s).k.asl, a, i);
      NamedWaiters(store.table, old(store.asl.queues), old(s).k.asl, a);
      store.TableNoDup();
      assert s.k.semAdd == old(s).k.semAdd[i := store.table[i].semAdd];
      SemAddChanged(i, old(s), s);
    }

    /** removeBlocked. */
    method RemoveBlocked(a: int) returns (p: Pcb?)
      requires Rep() && 0 <= a < NULLADDR
      modifies `s, store.asl, store.semds, Members(store.table)`next, Members(store.table)`prev
      ensures Rep()
      ensures Waiters(old(s.k.asl), a) == [] ==> p == null && s == old(s)
      ensures Waiters(old(s.k.asl), a) != [] ==>
        && Waiters(old(s.k.asl), a)[0] < |store.table| && p == store.table[Waiters(old(s.k.asl), a)[0]]
        && s == old(s).(k := old(s.k).(asl := Dequeue(old(s.k.asl), a)))
    {
      hide Rep, Foot, Store.Valid, NamedMap, Records, Kids, Dequeue;
      Parts();
      p := FirstWakes(a);
      label woken:
      ghost var m := if p == null then s.k.asl else Dequeue(s.k.asl, a);
      s := s.(k := s.k.(asl := m));
      store.Keeps@woken();
      Requeued(m);
    }

    /** The links of the semaphore list alone. */
    method FirstWakes(a: int) returns (p: Pcb?)
      requires Rep() && 0 <= a < NULLADDR
      modifies store.asl, store.semds, Members(store.table)`next, Members(store.table)`prev
      ensures store.Valid() && store.asl.maxProc == old(store.asl.maxProc)
      ensures var q := Waiters(s.k.asl, a);
        if q == [] then p == null && NamedMap(store.table, store.asl.queues, s.k.asl)
        else q[0] < |store.table| && p == store.table[q[0]] && NamedMap(store.table, store.asl.queues, Dequeue(s.k.asl, a))
    {
      hide Rep, Foot, Store.Valid, NamedMap, Dequeue;
      Parts();
      Heads(a);
      p := store.RemoveBlocked(a);
    }

    lemma Heads(a: int)
      requires Rep()
      ensures a in store.asl.queues <==> Waiters(s.k.asl, a) != []
      ensures NamedMap(store.table, store.asl.queues, s.k.asl)
      ensures Waiters(s.k.asl, a) != [] ==>
        && Waiters(store.asl.queues, a) != [] && NamedMap(store.table, Dequeue(store.asl.queues, a), Dequeue(s.k.asl, a))
        && Waiters(s.k.asl, a)[0] < |store.table| && Waiters(store.asl.queues, a)[0] == store.table[Waiters(s.k.asl, a)[0]]
    {
      NamedWaiters(store.table, store.asl.queues, s.k.asl, a);
      store.asl.NonEmpty();
      if Waiters(s.k.asl, a) != [] { NamedDequeue(store.table, store.asl.queues, s.k.asl, a); }
    }

    /** outBlocked. */
    method OutBlocked(p: Pcb, ghost i: Pid)
      requires Rep() && i < |store.table| && p == store.table[i] && 0 <= p.semAdd < NULLADDR
      modifies `s, store.asl, store.semds, Members(store.table)`next, Members(store.table)`prev
      ensures Rep()
      ensures s == old(s).(k := old(s.k).(asl := Unqueue(old(s.k.asl), p.semAdd, i)))
    {
      hide Rep, Foot, Store.Valid, NamedMap, Records, Kids, Unqueue;
      Parts();
      LeaveQueue(p, i);
      label left:
      ghost var m := Unqueue(s.k.asl, p.semAdd, i);
      s := s.(k := s.k.(asl := m));
      store.Keeps@left();
      Requeued(m);
    }

    /** The links of the semaphore list alone. */
    method LeaveQueue(p: Pcb, ghost i: Pid)
      requires Rep() && i < |store.table| && p == store.table[i] && 0 <= p.semAdd < NULLADDR
      modifies store.asl, store.semds, Members(store.table)`next, Members(store.table)`prev
      ensures store.Valid() && store.asl.maxProc == old(store.asl.maxProc)
      ensures NamedMap(store.table, store.asl.queues, Unqueue(s.k.asl, p.semAdd, i))
    {
      hide Rep, Foot, Store.Valid, NamedMap, Unqueue;
      Parts();
      Heads(p.semAdd);
      store.TableNoDup();
      NamedUnqueue(store.table, store.asl.queues, s.k.asl, p.semAdd, i);
      var _ := store.OutBlocked(p);
    }

    /** Nothing but who waits where has changed. */
    twostate lemma Requeued(new m: map<int, seq<Pid>>)
      requires old(Rep()) && store.Valid() && SameGlobals() && s == old(s).(k := old(s).k.(asl := m))
      requires store.pool.free == old(store.pool.free) && store.ready == old(store.ready) && store.kids == old(store.kids)
      requires store.asl.maxProc == old(store.asl.maxProc) && NamedMap(store.table, store.asl.queues, m)
      requires forall x :: x in store.table ==>
        && x.semAdd == old(x.semAdd) && x.totalTime == old(x.totalTime) && x.state == old(x.state)
        && x.oldAreas == old(x.oldAreas) && x.newAreas == old(x.newAreas) && x.prnt == old(x.prnt)
      ensures Rep()
    {
      hide Store.Valid, Named, NamedMap, KidsNamed;
      assert Recorded(old(s)) by { Unrecorded(old(s)); }
    }

    twostate lemma Unrecorded(new t: State)
      requires old(Recorded(t))
      requires forall x :: x in store.table ==>
        && x.semAdd == old(x.semAdd) && x.totalTime == old(x.totalTime) && x.state == old(x.state)
        && x.oldAreas == old(x.oldAreas) && x.newAreas == old(x.newAreas) && x.prnt == old(x.prnt)
      ensures Recorded(t)
    {
      forall p: Pid | p < |store.table|
        ensures Record(store.table[p], t.k.semAdd[p], t.time[p], t.saved[p], t.vectors[p], t.family.prnt[p]) {
        assert old(Record(store.table[p], t.k.semAdd[p], t.time[p], t.saved[p], t.vectors[p], t.family.prnt[p]));
      }
    }

    // ---- the tree ----

    /** insertChild: p, unattached and childless, becomes parent's first child. */
    method InsertChild(parent: Pcb, p: Pcb, ghost q: Pid, ghost i: Pid)
      requires Rep() && i < |store.table| && p == store.table[i] && q < |store.table| && parent == store.table[q] && q != i
      requires Unattached(p) && Sized(s.family, |store.table|) && s.family.kids[i] == []
      modifies `s, store`kids, store`rank, Members(store.table)`child, Members(store.table)`prnt,
        Members(store.table)`sibNext, Members(store.table)`sibPrev
      ensures Rep() && s == old(s).(family := AddChild(old(s.family), Some(q), i))
    {
      hide Rep, Foot, Store.Valid, Records, Kids, Named, AddChild;
      Parts();
      Adopt(parent, p, q, i);
      label linked:
      s := s.(family := AddChild(s.family, Some(q), i));
      store.Keeps@linked();
      Rekinned(s.family);
    }

    /** The links of the tree alone. */
    method Adopt(parent: Pcb, p: Pcb, ghost q: Pid, ghost i: Pid)
      requires Rep() && i < |store.table| && p == store.table[i] && q < |store.table| && parent == store.table[q] && q != i
      requires Unattached(p) && Sized(s.family, |store.table|) && s.family.kids[i] == []
      modifies store`kids, store`rank, Members(store.table)`child, Members(store.table)`prnt,
        Members(store.table)`sibNext, Members(store.table)`sibPrev
      ensures store.Valid()
      ensures var f := AddChild(s.family, Some(q), i); Kids(f.kids) && Recorded(s.(family := f))
    {
      hide Rep, Foot, Store.Valid, Records, Kids, Named;
      Parts();
      store.TableNoDup();
      KidsAt(i);
      KidsAt(q);
      DistinctAt(q, i);
      NamedCons(store.table, store.kids[parent], s.family.kids[q], i);
      store.InsertChild(parent, p);
      ghost var f := AddChild(s.family, Some(q), i);
      assert f.kids == s.family.kids[q := [i] + s.family.kids[q]];
      KidsChanged(q, s.family.kids, f.kids[q]);
      PrntChanged(i, s, s.(family := f));
    }

    lemma NamedCons(table: seq<Pcb>, objs: seq<Pcb>, q: seq<nat>, p: nat)
      requires Named(table, objs, q) && p < |table|
      ensures Named(table, [table[p]] + objs, [p] + q)
    {}

    lemma DistinctAt(q: Pid, i: Pid)
      requires NoDup(store.table) && q < |store.table| && i < |store.table| && q != i
      ensures store.table[q] != store.table[i]
    {}

    lemma KidsAt(i: Pid)
      requires Rep() && i < |store.table|
      ensures i < |s.family.kids| && store.table[i] in store.kids && Named(store.table, store.kids[store.table[i]], s.family.kids[i])
      ensures Kids(s.family.kids)
    {
      assert KidsNamed(i, s.family.kids[i]);
    }

    /** removeChild. */
    method RemoveChild(p: Pcb, ghost i: Pid) returns (child: Pcb?)
      requires Rep() && i < |store.table| && p == store.table[i] && i < |s.family.kids|
      modifies `s, store`kids, Members(store.table)`child, Members(store.table)`sibPrev
      ensures Rep()
      ensures old(s.family.kids)[i] == [] ==> child == null && s == old(s)
      ensures old(s.family.kids)[i] != [] ==>
        && old(s.family.kids)[i][0] < |store.table| && child == store.table[old(s.family.kids)[i][0]]
        && s == old(s).(family := old(s.family).(kids := old(s.family.kids)[i := old(s.family.kids)[i][1..]]))
    {
      hide Rep, Foot, Store.Valid, Records, Kids, Named;
      Parts();
      KidsAt(i);
      child := FirstLeaves(p, i);
      label unlinked:
      if s.family.kids[i] != [] { s := s.(family := s.family.(kids := s.family.kids[i := s.family.kids[i][1..]])); }
      store.Keeps@unlinked();
      Rekinned(s.family);
    }

    /** The links of the tree alone. */
    method FirstLeaves(p: Pcb, ghost i: Pid) returns (child: Pcb?)
      requires Rep() && i < |store.table| && p == store.table[i] && i < |s.family.kids|
      modifies store`kids, Members(store.table)`child, Members(store.table)`sibPrev
      ensures store.Valid() && Recorded(s)
      ensures var ch := s.family.kids[i];
        if ch == [] then child == null && Kids(s.family.kids)
        else ch[0] < |store.table| && child == store.table[ch[0]] && Kids(s.family.kids[i := ch[1..]])
    {
      hide Rep, Foot, Store.Valid, Records, Kids, Named;
      Parts();
      store.TableNoDup();
      KidsAt(i);
      ghost var ch := s.family.kids[i];
      if ch != [] { NamedTail(store.table, store.kids[p], ch); }
      child := store.RemoveChild(p);
      if ch != [] { KidsChanged(i, s.family.kids, ch[1..]); }
      Unrecorded(s);
    }

    /** outChild. */
    method OutChild(p: Pcb, ghost i: Pid)
      requires Rep() && i < |store.table| && p == store.table[i] && Sized(s.family, |store.table|)
      requires s.family.prnt[i].Some? ==> s.family.prnt[i].value < |store.table| && i in s.family.kids[s.family.prnt[i].value]
      modifies `s, store`kids, Members(store.table)`child, Members(store.table)`sibPrev, Members(store.table)`sibNext
      ensures Rep()
      ensures s.family.prnt[i] == None ==> s == old(s)
      ensures s.family.prnt[i].Some? ==> s.family.prnt[i].value < |store.table| && s == old(s).(family := old(s.family).(
        kids := old(s.family.kids)[s.family.prnt[i].value := Delete(old(s.family.kids)[s.family.prnt[i].value], i)]))
    {
      hide Rep, Foot, Store.Valid, Records, Kids, Named;
      Parts();
      PrntAt(i);
      LeaveParent(p, i);
      label unlinked:
      s := s.(family := LeftParent(s.family, i));
      store.Keeps@unlinked();
      Rekinned(s.family);
    }

    /** The links of the tree alone. */
    method LeaveParent(p: Pcb, ghost i: Pid)
      requires Rep() && i < |store.table| && p == store.table[i] && Sized(s.family, |store.table|)
      requires s.family.prnt[i].Some? ==> s.family.prnt[i].value < |store.table| && i in s.family.kids[s.family.prnt[i].value]
      modifies store`kids, Members(store.table)`child, Members(store.table)`sibPrev, Members(store.table)`sibNext
      ensures store.Valid() && Kids(LeftParent(s.family, i).kids) && Recorded(s.(family := LeftParent(s.family, i)))
    {
      hide Rep, Foot, Store.Valid, Delete, Records, Kids, Named;
      Parts();
      store.TableNoDup();
      Listed(i);
      var _ := store.OutChild(p);
      ghost var parent := s.family.prnt[i];
      if parent.Some? { KidsChanged(parent.value, s.family.kids, Delete(s.family.kids[parent.value], i)); }
      Unrecorded(s);
    }

    /** Entry i's parent lists it. */
    lemma Listed(i: Pid)
      requires Rep() && i < |store.table| && Sized(s.family, |store.table|)
      requires s.family.prnt[i].Some? ==> s.family.prnt[i].value < |store.table| && i in s.family.kids[s.family.prnt[i].value]
      ensures s.family.prnt[i] == None <==> store.table[i].prnt == null
      ensures s.family.prnt[i].Some? ==>
        var x, q := store.table[i], s.family.prnt[i].value;
        && x.prnt == store.table[q] && x.prnt in store.kids && x in store.kids[x.prnt]
        && Named(store.table, Delete(store.kids[x.prnt], x), Delete(s.family.kids[q], i))
    {
      hide Rep, Delete, Named;
      PrntAt(i);
      Parts();
      store.TableNoDup();
      if s.family.prnt[i].Some? {
        var x, q := store.table[i], s.family.prnt[i].value;
        KidsAt(q);
        NamedMember(store.table, store.kids[x.prnt], s.family.kids[q], i);
        NamedDelete(store.table, store.kids[x.prnt], s.family.kids[q], i);
      }
    }

    lemma PrntAt(i: Pid)
      requires Rep() && i < |store.table| && i < |s.family.prnt|
      ensures s.family.prnt[i] == None <==> store.table[i].prnt == null
      ensures s.family.prnt[i].Some? ==> s.family.prnt[i].value < |store.table| && store.table[i].prnt == store.table[s.family.prnt[i].value]
    {
      assert Record(store.table[i], s.k.semAdd[i], s.time[i], s.saved[i], s.vectors[i], s.family.prnt[i]);
    }

    /** Nothing but the tree has changed. */
    twostate lemma Rekinned(new f: Family)
      requires old(Rep()) && store.Valid() && SameGlobals() && s == old(s).(family := f)
      requires store.asl.queues == old(store.asl.queues) && store.asl.maxProc == old(store.asl.maxProc)
      requires store.pool.free == old(store.pool.free) && store.ready == old(store.ready)
      requires Kids(f.kids) && Recorded(s)
      ensures Rep()
    {
      hide Store.Valid, Named, NamedMap, Kids, Records;
    }

    /** Entry i's children are now the named ones. */
    twostate lemma KidsChanged(new i: Pid, new kids: seq<seq<Pid>>, new ch: seq<Pid>)
      requires old(Kids(kids)) && NoDup(store.table) && i < |store.table| && |kids| == |store.table|
      requires store.table[i] in store.kids && store.kids == old(store.kids)[store.table[i] := store.kids[store.table[i]]]
      requires Named(store.table, store.kids[store.table[i]], ch)
      ensures Kids(kids[i := ch])
    {
      hide Named;
      var kids' := kids[i := ch];
      forall p: Pid | p < |kids| ensures KidsNamed(p, kids'[p]) {
        if p != i { assert old(KidsNamed(p, kids[p])) && store.table[p] != store.table[i]; }
      }
    }

    /** Only the parent of entry i changed. */
    twostate lemma PrntChanged(new i: Pid, new t: State, new u: State)
      requires old(Recorded(t)) && NoDup(store.table) && i < |store.table| && i < |t.family.prnt| == |u.family.prnt|
      requires u == t.(family := u.family) && u.family.prnt == t.family.prnt[i := u.family.prnt[i]]
      requires match u.family.prnt[i]
        case None => store.table[i].prnt == null
        case Some(q) => q < |store.table| && store.table[i].prnt == store.table[q]
      requires forall x :: x in store.table ==>
        && x.semAdd == old(x.semAdd) && x.totalTime == old(x.totalTime) && x.state == old(x.state)
        && x.oldAreas == old(x.oldAreas) && x.newAreas == old(x.newAreas) && (x != store.table[i] ==> x.prnt == old(x.prnt))
      ensures Recorded(u)
    {
      assert old(Record(store.table[i], t.k.semAdd[i], t.time[i], t.saved[i], t.vectors[i], t.family.prnt[i]));
      Rerecord(i, t, u);
    }

    // ---- the other fields of an entry ----

    /** The processor state c is saved in p. */
    method SaveState(p: Pcb, c: Cpu, ghost i: Pid)
      requires Rep() && i < |store.table| && p == store.table[i]
      modifies `s, p`state
      ensures Rep() && i < |old(s).saved| && s == old(s).(saved := old(s).saved[i := c]) && p.state == c
    {
      hide Rep, Store.Valid, Records, Kids;
      Parts();
      At(s, i);
      store.TableNoDup();
      p.state := c;
      s := s.(saved := s.saved[i := c]);
      Rerecord(i, old(s), s);
      Rewritten();
    }

    method IncrementProcessTime(p: Pcb, ghost i: Pid)
      requires Rep() && i < |store.table| && p == store.table[i]
      modifies `s, p`totalTime
      ensures Rep() && i < |old(s).time| && s == NucleusState.IncrementProcessTime(old(s), i)
    {
      hide Rep, Store.Valid, Records, Kids;
      Parts();
      store.TableNoDup();
      At(s, i);
      p.totalTime := p.totalTime + (now - startTime);
      s := NucleusState.IncrementProcessTime(s, i);
      Rerecord(i, old(s), s);
      Rewritten();
    }

    method SetAreas(p: Pcb, kind: nat, v: Vector, ghost i: Pid)
      requires Rep() && i < |store.table| && p == store.table[i] && kind < NUMEXCEPTIONTYPES
      modifies `s, p`oldAreas, p`newAreas
      ensures Rep() && i < |old(s).vectors| && kind < |old(s).vectors[i]|
      ensures s == old(s).(vectors := old(s).vectors[i := old(s).vectors[i][kind := v]])
      ensures p.oldAreas == old(p.oldAreas)[kind := v.oldArea] && p.newAreas == old(p.newAreas)[kind := v.newArea]
      ensures |old(p.oldAreas)| == |old(p.newAreas)| == 3
    {
      hide Rep, Store.Valid, Records, Kids;
      Parts();
      store.TableNoDup();
      At(s, i);
      VectorsSet(p.oldAreas, p.newAreas, kind, v);
      p.oldAreas := p.oldAreas[kind := v.oldArea];
      p.newAreas := p.newAreas[kind := v.newArea];
      s := s.(vectors := s.vectors[i := s.vectors[i][kind := v]]);
      Rerecord(i, old(s), s);
      Rewritten();
    }

    /** Nothing but fields that no list runs through has changed. */
    twostate lemma Rewritten()
      requires old(Rep()) && SameGlobals() && s == old(s).(time := s.time, saved := s.saved, vectors := s.vectors)
      requires unchanged(store) && unchanged(store.pool) && unchanged(store.asl) && unchanged(store.semds)
      requires forall p :: p in store.table ==>
        && p.next == old(p.next) && p.prev == old(p.prev) && p.semAdd == old(p.semAdd)
        && p.prnt == old(p.prnt) && p.child == old(p.child) && p.sibPrev == old(p.sibPrev) && p.sibNext == old(p.sibNext)
      requires Recorded(s)
      ensures Rep()
    {
      hide Store.Valid, Records, Kids, Named, NamedMap;
      store.Keeps();
    }

    /** allocPcb: the head of the free list, which is in no family, cleared. */
    method AllocPcb() returns (p: Pcb?)
      requires Rep() && InTable(s.k) && Sized(s.family, |store.table|)
      requires s.k.free != [] ==> s.k.free[0] < |store.table| && Alone(s.family, s.k.free[0])
      modifies `s, store.pool, Members(store.pool.free[..if store.pool.free == [] then 0 else 1]),
        Members(store.table)`next, Members(store.table)`prev
      ensures Rep()
      ensures old(s.k.free) == [] ==> p == null && s == old(s)
      ensures old(s.k.free) != [] ==> p != null && Unattached(p) && p == store.table[old(s.k.free)[0]]
      ensures old(s.k.free) != [] ==> Allocable(old(s)) && s == Allocated(old(s))
    {
      hide Rep, Foot, Store.Valid, Records, Kids, Named;
      Parts();
      Allocatable();
      p := TakeFree();
      label taken:
      if p != null { s := Allocated(s); }
      store.Keeps@taken();
      Repooled();
    }

    /** The links of the free list and the entry taken. */
    method TakeFree() returns (p: Pcb?)
      requires Rep() && InTable(s.k) && Sized(s.family, |store.table|)
      requires s.k.free != [] ==> s.k.free[0] < |store.table| && Alone(s.family, s.k.free[0])
      modifies store.pool, Members(store.pool.free[..if store.pool.free == [] then 0 else 1]),
        Members(store.table)`next, Members(store.table)`prev
      ensures store.Valid()
      ensures s.k.free == [] ==> p == null && Named(store.table, store.pool.free, s.k.free) && Recorded(s)
      ensures s.k.free != [] ==>
        && p != null && Unattached(p) && p == store.table[s.k.free[0]] && Allocable(s)
        && Named(store.table, store.pool.free, s.k.free[1..]) && Recorded(Allocated(s))
    {
      hide Rep, Foot, Store.Valid, Records, Kids, Named;
      Parts();
      Allocatable();
      store.TableNoDup();
      ghost var i := if s.k.free == [] then 0 else s.k.free[0];
      if s.k.free != [] { At(s, i); }
      p := store.AllocPcb();
      if p != null {
        Rerecord(i, s, Allocated(s));
      } else {
        Unrecorded(s);
      }
    }

    lemma Allocatable()
      requires Rep() && InTable(s.k) && Sized(s.family, |store.table|)
      requires s.k.free != [] ==> s.k.free[0] < |store.table| && Alone(s.family, s.k.free[0])
      ensures forall x :: x in store.pool.free ==> |x.oldAreas| == |x.newAreas| == NUMEXCEPTIONTYPES
      ensures store.pool.free == [] <==> s.k.free == []
      ensures s.k.free != [] ==> store.pool.free[0] == store.table[s.k.free[0]] && Named(store.table, store.pool.free[1..], s.k.free[1..])
      ensures s.k.free != [] ==> store.pool.free[0] in store.kids && store.kids[store.pool.free[0]] == []
      ensures s.k.free != [] ==> forall x :: x in store.kids ==> store.pool.free[0] !in store.kids[x]
      ensures s.k.free == [] ==> Named(store.table, [], s.k.free)
    {
      forall x | x in store.pool.free ensures |x.oldAreas| == |x.newAreas| == NUMEXCEPTIONTYPES {
        var j := IndexOf(store.pool.free, x);
        var p := s.k.free[j];
        assert Record(store.table[p], s.k.semAdd[p], s.time[p], s.saved[p], s.vectors[p], s.family.prnt[p]);
      }
      if s.k.free != [] {
        var i := s.k.free[0];
        NamedTail(store.table, store.pool.free, s.k.free);
        KidsAt(i);
        forall x | x in store.kids ensures store.table[i] !in store.kids[x] {
          assert x in store.table by { store.KidsAreEntries(); }
          var q := IndexOf(store.table, x);
          assert KidsNamed(q, s.family.kids[q]) && !IsChild(s.family, q, i);
          store.TableNoDup();
          NamedMember(store.table, store.kids[x], s.family.kids[q], i);
        }
      }
    }

    /** Nothing but the free list and recorded fields have changed. */
    twostate lemma Repooled()
      requires old(Rep()) && store.Valid() && SameGlobals()
      requires s == old(s).(k := s.k, time := s.time, vectors := s.vectors, family := s.family)
      requires s.k == old(s).k.(free := s.k.free, semAdd := s.k.semAdd) && s.family == old(s).family.(prnt := s.family.prnt)
      requires store.ready == old(store.ready) && store.kids == old(store.kids)
      requires store.asl.queues == old(store.asl.queues) && store.asl.maxProc == old(store.asl.maxProc)
      requires Named(store.table, store.pool.free, s.k.free) && Recorded(s)
      ensures Rep()
    {
      hide Store.Valid, Records, KidsNamed, Named, NamedMap;
    }

    /** Only p_semAdd of entry i changed. */
    twostate lemma SemAddChanged(new i: Pid, new t: State, new u: State)
      requires old(Recorded(t)) && NoDup(store.table) && i < |store.table| && i < |t.k.semAdd|
      requires u == t.(k := u.k) && u.k.semAdd == t.k.semAdd[i := store.table[i].semAdd]
      requires forall x :: x in store.table ==>
        && (x != store.table[i] ==> x.semAdd == old(x.semAdd)) && x.totalTime == old(x.totalTime) && x.state == old(x.state)
        && x.oldAreas == old(x.oldAreas) && x.newAreas == old(x.newAreas) && x.prnt == old(x.prnt)
      ensures Recorded(u)
    {
      assert old(Record(store.table[i], t.k.semAdd[i], t.time[i], t.saved[i], t.vectors[i], t.family.prnt[i]));
      Rerecord(i, t, u);
    }

    lemma At(t: State, i: Pid)
      requires Recorded(t) && i < |store.table|
      ensures i < |t.k.semAdd| && i < |t.time| && i < |t.saved| && i < |t.vectors| && i < |t.family.prnt|
      ensures Record(store.table[i], t.k.semAdd[i], t.time[i], t.saved[i], t.vectors[i], t.family.prnt[i])
    {}

    /** Only the recorded fields of entry i changed, to what u says. */
    twostate lemma Rerecord(new i: Pid, new t: State, new u: State)
      requires old(Recorded(t)) && NoDup(store.table) && i < |store.table|
      requires i < |u.k.semAdd| && i < |u.time| && i < |u.saved| && i < |u.vectors| && i < |u.family.prnt|
      requires u.k.semAdd == t.k.semAdd[i := u.k.semAdd[i]] && u.time == t.time[i := u.time[i]] && u.saved == t.saved[i := u.saved[i]]
      requires u.vectors == t.vectors[i := u.vectors[i]] && u.family.prnt == t.family.prnt[i := u.family.prnt[i]]
      requires forall x :: x in store.table && x != store.table[i] ==>
        && x.semAdd == old(x.semAdd) && x.totalTime == old(x.totalTime) && x.state == old(x.state)
        && x.oldAreas == old(x.oldAreas) && x.newAreas == old(x.newAreas) && x.prnt == old(x.prnt)
      requires Record(store.table[i], u.k.semAdd[i], u.time[i], u.saved[i], u.vectors[i], u.family.prnt[i])
      ensures Recorded(u)
    {
      forall p: Pid | p < |store.table|
        ensures Record(store.table[p], u.k.semAdd[p], u.time[p], u.saved[p], u.vectors[p], u.family.prnt[p]) {
        if p != i {
          assert old(Record(store.table[p], t.k.semAdd[p], t.time[p], t.saved[p], t.vectors[p], t.family.prnt[p]));
          assert store.table[p] != store.table[i];
        }
      }
    }

    // ---- scheduler.c ----

    method Scheduler()
      requires Rep() && Shape(s)
      modifies `s, `currentProcess, `startTime, `mode, `cpu, store`readyQ, store`ready, Members(store.table)`next, Members(store.table)`prev
      ensures Rep() && s == NucleusState.Scheduler(old(s))
    {
      hide Store.Valid, Records, Kids, Named, NamedMap;
      var newProcess := TakeReady();
      label taken:
      s := NucleusState.Scheduler(old(s));
      if newProcess == null {
        currentProcess := null;
        mode := if processCount == 0 then Halted else if softBlockCount == 0 then Panicked else Waiting;
      } else {
        currentProcess := newProcess;
        startTime := now;
        mode := NucleusState.Running;
        cpu := newProcess.state;
      }
      store.Keeps@taken();
    }

    lemma ReadyHead()
      requires Rep() && InTable(s.k)
      ensures store.ready == [] <==> s.k.ready == []
      ensures store.ready == [] ==> Named(store.table, [], s.k.ready)
      ensures store.ready != [] ==> s.k.ready[0] < |store.table| && store.ready[0] == store.table[s.k.ready[0]]
      ensures store.ready != [] ==> Named(store.table, store.ready[1..], s.k.ready[1..])
      ensures store.ready != [] ==> store.ready[0].state == s.saved[s.k.ready[0]]
    {
      if s.k.ready != [] {
        NamedTail(store.table, store.ready, s.k.ready);
        var p := s.k.ready[0];
        assert p in s.k.ready;
        assert Record(store.table[p], s.k.semAdd[p], s.time[p], s.saved[p], s.vectors[p], s.family.prnt[p]);
      }
    }

    // ---- the globals ----

    /** Nothing but globals has changed. */
    twostate lemma Reglobal()
      requires old(Rep()) && unchanged(store) && unchanged(store.pool) && unchanged(store.asl) && unchanged(store.semds)
      requires unchanged(Members(store.table))
      requires s.k == old(s).k.(sem := s.k.sem, processCount := s.k.processCount, softBlockCount := s.k.softBlockCount,
                                clockKills := s.k.clockKills)
      requires s.time == old(s).time && s.saved == old(s).saved && s.vectors == old(s).vectors && s.family == old(s).family
      requires Globals() && IsRunning()
      ensures Rep()
    {
      hide Store.Valid, Records, Kids, Named, NamedMap;
      store.Keeps();
    }

    function Value(a: int): int
      reads `sem
    {
      if a in sem then sem[a] else 0
    }

    /** &semaphoreArray[i] */
    function Addr(i: int): int { semBase + WORDLEN * i }

    lemma ValueAt(a: int)
      requires Globals()
      ensures Value(a) == Val(s.k, a)
    {}

    lemma AddrAt(i: int)
      requires Globals()
      ensures Addr(i) == SemAddr(s.k, i)
    {}

    /** *semaddr = v */
    method SetSem(a: int, v: int)
      requires Rep()
      modifies `s, `sem
      ensures Rep() && s == old(s).(k := SetVal(old(s).k, a, v)) && Value(a) == v
    {
      hide Rep, Store.Valid, Records, Kids;
      Parts();
      sem := sem[a := v];
      s := s.(k := SetVal(s.k, a, v));
      Reglobal();
    }

    method CountProcess(d: int)
      requires Rep()
      modifies `s, `processCount
      ensures Rep() && s == old(s).(k := old(s).k.(processCount := old(s).k.processCount + d))
    {
      hide Rep, Store.Valid, Records, Kids;
      Parts();
      processCount := processCount + d;
      s := s.(k := s.k.(processCount := s.k.processCount + d));
      Reglobal();
    }

    method CountSoftBlocked(d: int)
      requires Rep()
      modifies `s, `softBlockCount
      ensures Rep() && s == old(s).(k := old(s).k.(softBlockCount := old(s).k.softBlockCount + d))
    {
      hide Rep, Store.Valid, Records, Kids;
      Parts();
      softBlockCount := softBlockCount + d;
      s := s.(k := s.k.(softBlockCount := s.k.softBlockCount + d));
      Reglobal();
    }

    /** LDST: c is the state that the processor goes on in. */
    method LoadState(c: Cpu)
      requires Rep()
      modifies `s, `cpu
      ensures Rep() && s == old(s).(cpu := c) && cpu == c
    {
      hide Rep, Store.Valid, Records, Kids;
      Parts();
      cpu := c;
      s := s.(cpu := c);
      Reglobal();
    }

    method Leave()
      requires Rep()
      modifies `s, `currentProcess
      ensures Rep() && s == old(s).(current := None)
    {
      hide Rep, Store.Valid, Records, Kids;
      Parts();
      currentProcess := null;
      s := s.(current := None);
      Reglobal();
    }

    // ---- exceptions.c ----

    method CreateProcess(oldState: Cpu, newState: Cpu)
      requires Rep() && Sound(s) && s.current.Some?
      modifies Foot(), `s, `currentProcess, `processCount, `softBlockCount, `startTime, `sem, `cpu, `mode
      ensures Rep() && s == NucleusState.CreateProcess(old(s), oldState, newState)
      ensures cpu == oldState.(v0 := if old(processCount) == |store.table| then -1 else 0)
    {
      hide Rep, Core, Ranked, Shape, Forest, Allocated, AddChild, NucleusState.CreateProcess;
      Elsewhere();
      ghost var cur := s.current.value;
      Parts();
      CreatedIs(s, oldState, newState);
      NewcomerAlone(s);
      var p := AllocPcb();
      if p == null {
        LoadState(oldState.(v0 := SYS1FAIL));
      } else {
        Newcomer(old(s));
        ghost var i := old(s).k.free[0];
        CreateFrom(p, oldState, newState, cur, i);
      }
    }

    method CreateFrom(p: Pcb, oldState: Cpu, newState: Cpu, ghost cur: Pid, ghost i: Pid)
      requires Rep() && i < |store.table| && p == store.table[i] && s.current == Some(cur) && cur != i
      requires Unattached(p) && Sized(s.family, |store.table|) && s.family.kids[i] == []
      requires i !in s.k.ready && i !in s.k.free && !Blocked(s.k, i)
      modifies Foot(), `s, `cpu, `processCount
      ensures Rep() && i < |old(s).saved| && cur < |store.table|
      ensures s == old(s).(saved := old(s).saved[i := newState], family := AddChild(old(s).family, Some(cur), i),
        k := old(s).k.(ready := old(s).k.ready + [i], processCount := old(s).k.processCount + 1),
        cpu := oldState.(v0 := SYS1SUCCESS))
      ensures cpu == oldState.(v0 := SYS1SUCCESS)
    {
      hide Rep, AddChild, Blocked;
      Elsewhere();
      Bear(p, newState, cur, i);
      Admit(p, i);
      LoadState(oldState.(v0 := SYS1SUCCESS));
    }

    /** p starts in newState as a child of the process run. */
    method Bear(p: Pcb, newState: Cpu, ghost cur: Pid, ghost i: Pid)
      requires Rep() && i < |store.table| && p == store.table[i] && s.current == Some(cur) && cur != i
      requires Unattached(p) && Sized(s.family, |store.table|) && s.family.kids[i] == []
      modifies Foot(), `s
      ensures Rep() && i < |old(s).saved| && cur < |store.table|
      ensures s == old(s).(saved := old(s).saved[i := newState], family := AddChild(old(s).family, Some(cur), i))
    {
      hide Rep, AddChild;
      Parts();
      SaveState(p, newState, i);
      InsertChild(currentProcess, p, cur, i);
    }

    /** p is ready and counted. */
    method Admit(p: Pcb, ghost i: Pid)
      requires Rep() && i < |store.table| && p == store.table[i]
      requires i !in s.k.ready && i !in s.k.free && !Blocked(s.k, i)
      modifies Foot(), `s, `processCount
      ensures Rep() && s == old(s).(k := old(s).k.(ready := old(s).k.ready + [i], processCount := old(s).k.processCount + 1))
    {
      hide Rep, Blocked;
      Elsewhere();
      PutReady(p, i);
      CountProcess(1);
    }

    method EmptyChild(p: Pcb, ghost i: Pid) returns (empty: bool)
      requires Rep() && i < |store.table| && p == store.table[i] && i < |s.family.kids|
      ensures Rep() && (empty <==> s.family.kids[i] == [])
    {
      hide Rep;
      KidsAt(i);
      Parts();
      store.FirstChild(p);
      empty := p.child == null;
    }

    /** Recursively kills p and all its progeny. f is the forest before the first kill; it
        still describes p's subtree. */
    method HoneyIKilledTheKids(p: Pcb, ghost i: Pid, ghost f: Family, ghost live: set<Pid>)
      requires Rep() && i < |store.table| && p == store.table[i] && Forest(f, live) && i in live
      requires s.family == f.(kids := s.family.kids) && Sized(f, s.k.maxProc) && |s.family.kids| == s.k.maxProc == |s.k.semAdd|
      requires forall q :: q in KillOrder(f, i) ==> s.family.kids[q] == f.kids[q]
      requires s.current.Some? && Core(s.k, s.current) && Killable(s.k, s.current, KillOrder(f, i))
      requires s.current == Some(i) || s.current.value !in KillOrder(f, i)
      requires s.current == Some(i) ==> s.family.kids == f.kids
      modifies Foot(), `s, `currentProcess, `processCount, `softBlockCount, `startTime, `sem, `cpu, `mode
      ensures Rep()
      ensures s == old(s).(k := KillAll(old(s).k, old(s).current, KillOrder(f, i)), family := f.(kids := s.family.kids))
      ensures |s.family.kids| == |f.kids|
      ensures forall q: Pid :: q < |f.kids| ==>
        s.family.kids[q] == if q in KillOrder(f, i) then [] else
          if s.current == Some(i) && f.prnt[i] == Some(q) then Delete(old(s).family.kids[q], i) else old(s).family.kids[q]
      decreases f.births - f.born[i], 1
    {
      hide Rep, Foot, KillAll, KillOne, KillOrder, KidsOrder, Forest, Core, Killable, Killing;
      Elsewhere();
      ghost var s0, cur, n := s, s.current.value, 0;
      ghost var done: seq<Pid> := [];
      KillStarts(f, live, i, s.family.kids, s.k, s.current);
      var empty := EmptyChild(p, i);
      while !empty
        invariant Rep()
        invariant |s.family.kids| == |f.kids| && Killing(f, i, n, done, s.family.kids, s0.family.kids)
        invariant (forall q :: q in done ==> q < |s0.k.semAdd|) && s == s0.(k := KillAll(s0.k, s0.current, done), family := f.(kids := s.family.kids))
        invariant empty <==> s.family.kids[i] == []
        decreases |s.family.kids[i]|
      {
        ghost var order := KillFirst(p, i, f, live, s0, n, done);
        done := done + order;
        n := n + 1;
        empty := EmptyChild(p, i);
      }
      KillTop(p, i, f, live, s0, n, done);
    }

    /** The end, once no child is left. */
    method KillTop(p: Pcb, ghost i: Pid, ghost f: Family, ghost live: set<Pid>, ghost s0: State, ghost n: nat, ghost done: seq<Pid>)
      requires Rep() && i < |store.table| && p == store.table[i] && Forest(f, live) && i in live
      requires Sized(f, s0.k.maxProc) && i < |s.family.kids| == s0.k.maxProc == |s0.k.semAdd| == |s0.family.kids|
      requires Killing(f, i, n, done, s.family.kids, s0.family.kids) && s.family.kids[i] == []
      requires s0.current.Some? && Core(s0.k, s0.current) && Killable(s0.k, s0.current, KillOrder(f, i))
      requires s0.current == Some(i) || s0.current.value !in KillOrder(f, i)
      requires s0.current == Some(i) ==> s0.family.kids == f.kids
      requires (forall q :: q in done ==> q < |s0.k.semAdd|) && s == s0.(k := KillAll(s0.k, s0.current, done), family := f.(kids := s.family.kids))
      modifies Foot(), `s, `currentProcess, `processCount, `softBlockCount, `startTime, `sem, `cpu, `mode
      ensures Rep() && forall q :: q in KillOrder(f, i) ==> q < |s0.k.semAdd|
      ensures s == s0.(k := KillAll(s0.k, s0.current, KillOrder(f, i)), family := f.(kids := s.family.kids))
      ensures |s.family.kids| == |f.kids|
      ensures forall q: Pid :: q < |f.kids| ==>
        s.family.kids[q] == if q in KillOrder(f, i) then [] else
          if s.current == Some(i) && f.prnt[i] == Some(q) then Delete(s0.family.kids[q], i) else s0.family.kids[q]
    {
      hide Rep, Foot, KillAll, KillOne, KillOrder, KidsOrder, Forest, Core, Killable, Killing, Delete;
      Elsewhere();
      KillLastOfFamily(f, live, i, n, done, s.family.kids, s0.family.kids);
      KillLast(s0, f, live, i, done);
      Parts();
      KillThis(p, i);
    }

    /** One turn of the loop: the first child that is left, with its progeny. */
    method KillFirst(p: Pcb, ghost i: Pid, ghost f: Family, ghost live: set<Pid>, ghost s0: State, ghost n: nat, ghost done: seq<Pid>)
      returns (ghost order: seq<Pid>)
      requires Rep() && i < |store.table| && p == store.table[i] && Forest(f, live) && i in live
      requires Sized(f, s0.k.maxProc) && i < |s.family.kids| == s0.k.maxProc == |s0.k.semAdd| == |s0.family.kids|
      requires Killing(f, i, n, done, s.family.kids, s0.family.kids) && s.family.kids[i] != []
      requires s0.current.Some? && Core(s0.k, s0.current) && Killable(s0.k, s0.current, KillOrder(f, i))
      requires s0.current == Some(i) || s0.current.value !in KillOrder(f, i)
      requires (forall q :: q in done ==> q < |s0.k.semAdd|) && s == s0.(k := KillAll(s0.k, s0.current, done), family := f.(kids := s.family.kids))
      modifies Foot(), `s, `currentProcess, `processCount, `softBlockCount, `startTime, `sem, `cpu, `mode
      ensures Rep()
      ensures |s.family.kids| == |f.kids| && Killing(f, i, n + 1, done + order, s.family.kids, s0.family.kids)
      ensures forall q :: q in done + order ==> q < |s0.k.semAdd|
      ensures s == s0.(k := KillAll(s0.k, s0.current, done + order), family := f.(kids := s.family.kids))
      ensures |s.family.kids[i]| < |old(s).family.kids[i]|
      decreases f.births - f.born[i], 0
    {
      hide Rep, KillAll, KillOne, KillOrder, KidsOrder, Forest, Core, Killable, Killing;
      Elsewhere();
      ghost var before, next := s.family.kids, s.family.kids[i][0];
      order := KillChild(s0, f, live, i, n, done, before);
      var child := RemoveChild(p, i);
      HoneyIKilledTheKids(child, next, f, live);
      ChildKilled(f, live, i, n, done, before, s.family.kids, s0.family.kids);
      KillAllConcat(s0.k, s0.current, done, order);
    }

    /** What the recursive call needs. */
    lemma KillChild(s0: State, f: Family, live: set<Pid>, i: Pid, n: nat, done: seq<Pid>, kids: seq<seq<Pid>>) returns (order: seq<Pid>)
      requires Forest(f, live) && i in live && |kids| == |s0.family.kids| == |f.kids| == s0.k.maxProc == |s0.k.semAdd|
      requires Killing(f, i, n, done, kids, s0.family.kids) && kids[i] != []
      requires s0.current.Some? && Core(s0.k, s0.current) && Killable(s0.k, s0.current, KillOrder(f, i))
      requires s0.current == Some(i) || s0.current.value !in KillOrder(f, i)
      requires forall q :: q in done ==> q < |s0.k.semAdd|
      ensures n < |f.kids[i]| && kids[i][0] == f.kids[i][n] && kids[i][0] in live && kids[i][0] < |f.kids|
      ensures f.born[i] < f.born[kids[i][0]] < f.births && order == KillOrder(f, kids[i][0])
      ensures forall q :: q in order ==> q < |kids| && q != i && kids[q] == f.kids[q]
      ensures kids[i][0] in order
      ensures s0.current.value !in order
      ensures Core(KillAll(s0.k, s0.current, done), s0.current) && Killable(KillAll(s0.k, s0.current, done), s0.current, order)
    {
      NextChild(f, live, i, n, done, kids, s0.family.kids);
      OrderPieces(f, live, i, n, done);
      order := KillOrder(f, kids[i][0]);
      var rest := KidsOrder(f, i, n + 1);
      assert KillOrder(f, i) == done + (order + (rest + [i]));
      KillablePart(s0.k, s0.current, KillOrder(f, i), done, order, rest + [i]);
      assert forall q :: q in done ==> q in KillOrder(f, i) && q != i;
      KillableRest(s0.k, s0.current.value, done, order);
    }

    /** What the end of the kill needs of the tables. */
    lemma KillLast(s0: State, f: Family, live: set<Pid>, i: Pid, done: seq<Pid>)
      requires Forest(f, live) && i in live && |f.kids| == s0.k.maxProc == |s0.k.semAdd| && KillOrder(f, i) == done + [i]
      requires s0.current.Some? && Core(s0.k, s0.current) && Killable(s0.k, s0.current, KillOrder(f, i))
      requires s0.current == Some(i) || s0.current.value !in KillOrder(f, i)
      requires forall q :: q in KillOrder(f, i) ==> q < |s0.k.semAdd|
      ensures i < |s0.k.semAdd| && forall q :: q in done ==> q < |s0.k.semAdd|
      ensures KillOne(KillAll(s0.k, s0.current, done), s0.current, i) == KillAll(s0.k, s0.current, KillOrder(f, i))
      ensures Core(KillAll(s0.k, s0.current, done), s0.current) && Killable(KillAll(s0.k, s0.current, done), s0.current, [i])
    {
      KillOrderOnce(f, live, i);
      assert forall q :: q in done ==> q in KillOrder(f, i);
      assert forall j :: 0 <= j < |done| ==> KillOrder(f, i)[j] == done[j];
      assert KillOrder(f, i)[|done|] == i && i !in done;
      KillableRest(s0.k, s0.current.value, done, [i]);
      KillAllConcat(s0.k, s0.current, done, [i]);
      KillAllOne(KillAll(s0.k, s0.current, done), s0.current, i);
    }

    /** And of the tree: if it is the process run that is killed, its parent still lists it. */
    lemma KillLastOfFamily(f: Family, live: set<Pid>, i: Pid, n: nat, done: seq<Pid>, kids: seq<seq<Pid>>, kids0: seq<seq<Pid>>)
      requires Forest(f, live) && i in live && |kids| == |kids0| == |f.kids|
      requires Killing(f, i, n, done, kids, kids0) && kids[i] == []
      ensures KillOrder(f, i) == done + [i] && forall q :: q in KillOrder(f, i) ==> q < |f.kids|
      ensures forall q: Pid :: q < |f.kids| ==> kids[q] == if q in KillOrder(f, i) then [] else kids0[q]
      ensures f.prnt[i].Some? && kids0 == f.kids ==> f.prnt[i].value < |kids| && i in kids[f.prnt[i].value]
    {
      KidsKilled(f, live, i, n, done, kids, kids0);
      if f.prnt[i].Some? && kids0 == f.kids {
        ChildDescends(f, live, f.prnt[i].value, i);
        KillOrderExact(f, live, i);
      }
    }

    /** The end of a kill: p leaves its parent or the queue that p_semAdd says it is in. */
    method KillThis(p: Pcb, ghost i: Pid)
      requires Rep() && i < |store.table| && p == store.table[i] && Sized(s.family, |store.table|)
      requires s.current.Some? && Core(s.k, s.current) && Killable(s.k, s.current, [i])
      requires s.current == Some(i) && s.family.prnt[i].Some? ==>
        s.family.prnt[i].value < |s.family.kids| && i in s.family.kids[s.family.prnt[i].value]
      modifies Foot(), `s, `currentProcess, `processCount, `softBlockCount, `startTime, `sem, `cpu, `mode
      ensures Rep()
      ensures i < |old(s).k.semAdd|
      ensures s == old(s).(k := KillOne(old(s).k, old(s).current, i), family := old(s).family.(kids := s.family.kids))
      ensures |s.family.kids| == |old(s).family.kids|
      ensures forall q: Pid :: q < |s.family.kids| ==>
        s.family.kids[q] == if s.current == Some(i) && s.family.prnt[i] == Some(q) then Delete(old(s).family.kids[q], i) else old(s).family.kids[q]
    {
      hide Rep, Core, KillOne, Killable, Departed;
      Elsewhere();
      Killed(s.k, s.current, i);
      Depart(p, i);
      CountProcess(-1);
      FreePcb(p, i);
    }

    /** p leaves its parent or its queue. */
    method Depart(p: Pcb, ghost i: Pid)
      requires Rep() && i < |store.table| && p == store.table[i] && Sized(s.family, |store.table|)
      requires s.current.Some? && Core(s.k, s.current) && Killable(s.k, s.current, [i])
      requires s.current == Some(i) && s.family.prnt[i].Some? ==>
        s.family.prnt[i].value < |s.family.kids| && i in s.family.kids[s.family.prnt[i].value]
      modifies Foot(), `s, `softBlockCount, `sem
      ensures Rep()
      ensures s == old(s).(k := Departed(old(s).k, old(s).current, i), family := old(s).family.(kids := s.family.kids))
      ensures |s.family.kids| == |old(s).family.kids|
      ensures forall q: Pid :: q < |s.family.kids| ==>
        s.family.kids[q] == if s.current == Some(i) && s.family.prnt[i] == Some(q) then Delete(old(s).family.kids[q], i) else old(s).family.kids[q]
    {
      hide Rep, Core, KillOne, Killable, Departed, Delete, Blocked;
      Elsewhere();
      Parts();
      Killed(s.k, s.current, i);
      RunningIs(i);
      Whereabouts(i);
      if p == currentProcess {
        OutChild(p, i);
      } else if p.semAdd == NULLADDR {
        OutReady(p, i);
      } else {
        LeaveSemaphore(p, i);
      }
    }

    lemma RunningIs(i: Pid)
      requires Rep() && i < |store.table|
      ensures currentProcess == store.table[i] <==> s.current == Some(i)
    {
      hide Store.Valid, Lists, Globals, Records;
      store.TableNoDup();
    }

    /** outBlocked on a killed process's semaphore, and the count or the value put right. */
    method LeaveSemaphore(p: Pcb, ghost i: Pid)
      requires Rep() && i < |store.table| && p == store.table[i] && 0 <= p.semAdd < NULLADDR
      requires i < |s.k.semAdd| && p.semAdd == s.k.semAdd[i] && s.current != Some(i)
      modifies Foot(), `s, `sem, `softBlockCount
      ensures Rep()
      ensures s == old(s).(k := Departed(old(s).k, old(s).current, i))
    {
      hide Rep, Foot, LeftQueue, Departed, KillOne, Val, SetVal, Value, Addr, SemAddr;
      Elsewhere();
      Parts();
      AddrAt(0);
      AddrAt(SEMCOUNT - 2);
      ValueAt(p.semAdd);
      LeaveCases(s.k, s.current, i);
      var semaddr := p.semAdd;
      var firstDevice := Addr(0);
      var lastDevice := Addr(SEMCOUNT - 2);
      Unblock(p, i);
      if firstDevice <= semaddr && semaddr <= lastDevice {
        CountSoftBlocked(-1);
      } else {
        SetSem(semaddr, Value(semaddr) + 1);
      }
    }

    /** outBlocked, with the clock waiter noted. */
    method Unblock(p: Pcb, ghost i: Pid)
      requires Rep() && i < |store.table| && p == store.table[i] && 0 <= p.semAdd < NULLADDR
      requires i < |s.k.semAdd| && p.semAdd == s.k.semAdd[i]
      modifies Foot(), `s
      ensures Rep() && s == old(s).(k := LeftQueue(old(s).k, i))
    {
      hide Rep, Unqueue, Waits;
      ghost var clock := p.semAdd == Clock(s.k) && Waits(s.k.asl, p.semAdd, i);
      OutBlocked(p, i);
      if clock { NoteClockKill(); }
    }

    ghost method NoteClockKill()
      requires Rep()
      modifies `s
      ensures Rep() && s == old(s).(k := old(s).k.(clockKills := old(s).k.clockKills + 1))
    {
      hide Rep, Store.Valid, Records, Kids;
      Parts();
      s := s.(k := s.k.(clockKills := s.k.clockKills + 1));
      Reglobal();
    }

    method TerminateProcess()
      requires Rep() && Sound(s) && s.current.Some? && AccurateKids(s)
      modifies Foot(), `s, `currentProcess, `processCount, `softBlockCount, `startTime, `sem, `cpu, `mode
      ensures Rep() && s == NucleusState.TerminateProcess(old(s))
    {
      hide Rep, Core, NucleusState.Scheduler, KillAll, KillOrder, KidsOrder, Descends, Prune, KillFamily;
      Elsewhere();
      KillCurrent();
      Scheduler();
    }

    /** The running process and all its progeny go. */
    method KillCurrent()
      requires Rep() && Sound(s) && s.current.Some? && AccurateKids(s)
      modifies Foot(), `s, `currentProcess, `processCount, `softBlockCount, `startTime, `sem, `cpu, `mode
      ensures Rep() && s == KillFamily(old(s)) && Shape(s)
    {
      hide Rep, Foot, Core, KillAll, KillOrder, KidsOrder, Descends, Prune, Killable;
      Elsewhere();
      ghost var i, live := s.current.value, Live(s.k);
      Parts();
      assert i in live by { CurrentLives(s); }
      DoomedKillable(s);
      FamilyShape(s);
      HoneyIKilledTheKids(currentProcess, i, s.family, live);
      PruneIs(old(s), s.family.kids);
    }

    method Verhogen(oldState: Cpu, a: int)
      requires Rep() && Sound(s) && 0 <= a < NULLADDR
      modifies Foot(), `s, `currentProcess, `processCount, `softBlockCount, `startTime, `sem, `cpu, `mode
      ensures Rep() && s == NucleusState.Verhogen(old(s), oldState, a)
    {
      hide Rep, Foot, Core, Wake;
      Elsewhere();
      Signal(a);
      LoadState(oldState);
    }

    /** V without the return to the caller. */
    method Signal(a: int)
      requires Rep() && Sound(s) && 0 <= a < NULLADDR
      modifies Foot(), `s, `currentProcess, `processCount, `softBlockCount, `startTime, `sem, `cpu, `mode
      ensures Rep()
      ensures s == old(s).(k := var v := Val(old(s).k, a) + 1; var t := SetVal(old(s).k, a, v); if v <= 0 then Wake(t, a) else t)
    {
      hide Rep, Foot, Sound, Releasable, Wake, Val, SetVal, Value;
      Elsewhere();
      Parts();
      ValueAt(a);
      SignalReleases(s, a);
      SetSem(a, Value(a) + 1);
      if Value(a) <= 0 { Release(a); }
    }

    /** removeBlocked and insertProcQ, with no test between them: there is somebody. */
    method ReleaseFirst(a: int)
      requires Rep() && 0 <= a < NULLADDR && Releasable(s.k, a) && Waiters(s.k.asl, a) != []
      modifies Foot(), `s
      ensures Rep() && s == old(s).(k := Wake(old(s).k, a))
    {
      hide Rep, Dequeue, Blocked;
      var p := RemoveBlocked(a);
      PutReady(p, Waiters(old(s).k.asl, a)[0]);
    }

    /** removeBlocked, and insertProcQ if there was somebody. */
    method Release(a: int)
      requires Rep() && 0 <= a < NULLADDR && Releasable(s.k, a)
      modifies Foot(), `s
      ensures Rep() && s == old(s).(k := Wake(old(s).k, a))
    {
      hide Rep, Dequeue, Blocked;
      var p := RemoveBlocked(a);
      if p != null { PutReady(p, Waiters(old(s).k.asl, a)[0]); }
    }

    method BlockHelper(oldState: Cpu, a: int)
      requires Rep() && HasCurrent(s) && Places(s.k, s.current) && 0 <= a < NULLADDR
      modifies Foot(), `s, `currentProcess, `processCount, `softBlockCount, `startTime, `sem, `cpu, `mode
      ensures Rep() && s == NucleusState.BlockHelper(old(s), oldState, a)
    {
      hide Rep, Places, NucleusState.Scheduler, NucleusState.InsertBlocked;
      Elsewhere();
      ghost var i := s.current.value;
      Parts();
      Nowhere(s.k, i);
      var process := currentProcess;
      IncrementProcessTime(process, i);
      SaveState(process, oldState, i);
      InsertBlocked(a, process, i);
      Leave();
      BlockedShape(old(s), oldState, a);
      Scheduler();
    }

    method Passeren(oldState: Cpu, a: int)
      requires Rep() && HasCurrent(s) && Places(s.k, s.current) && 0 <= a < NULLADDR
      modifies Foot(), `s, `currentProcess, `processCount, `softBlockCount, `startTime, `sem, `cpu, `mode
      ensures Rep() && s == NucleusState.Passeren(old(s), oldState, a)
    {
      hide Rep, Foot, NucleusState.BlockHelper, HasCurrent, Places, Val, SetVal, Value;
      Elsewhere();
      Parts();
      ValueAt(a);
      ValuePlaces(s, a, Val(s.k, a) - 1);
      SetSem(a, Value(a) - 1);
      if Value(a) < 0 {
        BlockHelper(oldState, a);
      } else {
        LoadState(oldState);
      }
    }

    lemma AreasAt(i: Pid, kind: nat)
      requires Rep() && i < |store.table| && kind < NUMEXCEPTIONTYPES
      ensures i < |s.vectors| && |s.vectors[i]| == NUMEXCEPTIONTYPES
      ensures var x := store.table[i];
        |x.oldAreas| == |x.newAreas| == NUMEXCEPTIONTYPES && s.vectors[i][kind] == Vector(x.oldAreas[kind], x.newAreas[kind])
    {
      At(s, i);
    }

    method ExceptionStateVec(oldState: Cpu, kind: nat, v: Vector)
      requires Rep() && Sound(s) && s.current.Some? && kind < NUMEXCEPTIONTYPES
      requires Kills(s, SetVector(kind, v)) ==> AccurateKids(s)
      modifies Foot(), `s, `currentProcess, `processCount, `softBlockCount, `startTime, `sem, `cpu, `mode
      ensures Rep() && s == NucleusState.ExceptionStateVec(old(s), oldState, kind, v)
      ensures var p := old(currentProcess);
        && p != null && |old(p.oldAreas)| == |old(p.newAreas)| == 3
        && (old(p.oldAreas)[kind] == NULLADDR && old(p.newAreas)[kind] == NULLADDR ==>
              p.oldAreas == old(p.oldAreas)[kind := v.oldArea] && p.newAreas == old(p.newAreas)[kind := v.newArea] && cpu == oldState)
    {
      hide Rep, Core, Vectors, Record, Records, NucleusState.TerminateProcess, AccurateKids;
      Elsewhere();
      ghost var i := s.current.value;
      Parts();
      AreasAt(i, kind);
      var process := currentProcess;
      if process.oldAreas[kind] == NULLADDR && process.newAreas[kind] == NULLADDR {
        SetAreas(process, kind, v, i);
        LoadState(oldState);
      } else {
        TerminateProcess();
      }
    }

    method GetCpuTime(oldState: Cpu)
      requires Rep() && HasCurrent(s)
      modifies `s, `cpu
      ensures Rep() && s == NucleusState.GetCpuTime(old(s), oldState)
    {
      hide Rep;
      Parts();
      At(s, s.current.value);
      var time := currentProcess.totalTime;
      time := time + (now - startTime);
      LoadState(oldState.(v0 := time));
    }

    method WaitForClock(oldState: Cpu)
      requires Rep() && HasCurrent(s) && Places(s.k, s.current) && Layout(s.k)
      modifies Foot(), `s, `currentProcess, `processCount, `softBlockCount, `startTime, `sem, `cpu, `mode
      ensures Rep() && s == NucleusState.WaitForClock(old(s), oldState)
    {
      hide Rep, Foot, NucleusState.Passeren, Addr, SemAddr, Places, HasCurrent, Layout;
      Elsewhere();
      Parts();
      AddrAt(ITSEMINDEX);
      ClockInside(s.k);
      SoftPlaces(s);
      CountSoftBlocked(1);
      Passeren(oldState, Addr(ITSEMINDEX));
    }

    method WaitForIo(oldState: Cpu, line: int, dev: int, termRead: bool)
      requires Rep() && Sound(s) && s.current.Some? && DeviceOk(line, dev) && (termRead ==> line == TERMINT)
      requires Val(s.k, SemAddr(s.k, IoIndex(line, dev, termRead))) >= 1 ==> KillOk(s)
      modifies Foot(), `s, `currentProcess, `processCount, `softBlockCount, `startTime, `sem, `cpu, `mode
      ensures Rep() && s == NucleusState.WaitForIo(old(s), oldState, IoIndex(line, dev, termRead))
    {
      hide Rep, Foot, Sound, Places, HasCurrent, AccurateKids, NucleusState.BlockHelper, NucleusState.TerminateProcess, NucleusState.WaitForIo, Val, SetVal, Value, Addr, SemAddr;
      Elsewhere();
      var index := (line - INITIALDEVLINENUM) * NUMDEVICESPERTYPE + dev;
      if termRead {
        index := index + NUMDEVICESPERTYPE;
      }
      Parts();
      AddrAt(index);
      ValueAt(Addr(index));
      DeviceCase(s, oldState, index);
      var semaddr := Addr(index);
      SetSem(semaddr, Value(semaddr) - 1);
      if Value(semaddr) < 0 {
        CountSoftBlocked(1);
        BlockHelper(oldState, semaddr);
      } else {
        TerminateProcess();
      }
    }

    /** The state area at an address. */
    function Area(a: int): Cpu
      reads `areas
    {
      AreaIn(areas, a, zero)
    }

    /** oldState is copied to the process's old area, and its new area is loaded. */
    method PassUpOrDie(oldState: Cpu, kind: nat)
      requires Rep() && Sound(s) && s.current.Some? && kind < NUMEXCEPTIONTYPES
      requires !HasVector(s, kind) ==> AccurateKids(s)
      modifies Foot(), `s, `currentProcess, `processCount, `softBlockCount, `startTime, `sem, `cpu, `mode, `areas
      ensures Rep()
      ensures s == NucleusState.PassUpOrDie(old(s), kind, AreaIn(areas, VectorOf(old(s), kind).newArea, zero))
      ensures areas == PassedTo(old(s), kind, oldState, old(areas))
      ensures var p := old(currentProcess);
        && p != null && |old(p.oldAreas)| == |old(p.newAreas)| == 3
        && if old(p.oldAreas)[kind] == NULLADDR || old(p.newAreas)[kind] == NULLADDR then areas == old(areas) else
             var a := old(p.newAreas)[kind];
             areas == old(areas)[old(p.oldAreas)[kind] := oldState] && cpu == p.state == (if a in areas then areas[a] else zero) && currentProcess == p
    {
      hide Rep, Sound, Vectors, Record, Records, HasVector, HasCurrent, NucleusState.TerminateProcess, NucleusState.PassUpOrDie, AccurateKids;
      Elsewhere();
      ghost var i := s.current.value;
      Parts();
      AreasAt(i, kind);
      PassUpCases(s, kind);
      var process := currentProcess;
      ghost var v := VectorOf(s, kind);
      assert v == Vector(process.oldAreas[kind], process.newAreas[kind]);
      PassedIs(s, kind, oldState, areas);
      hide VectorOf, PassedTo;
      if process.oldAreas[kind] == NULLADDR || process.newAreas[kind] == NULLADDR {
        TerminateProcess();
      } else {
        PassUp(process, process.oldAreas[kind], process.newAreas[kind], oldState, i);
      }
    }

    /** An exception of the running process whose state is in the program trap area. */
    method ProgramTrapHandler()
      requires Rep() && Sound(s) && s.current.Some? && (!HasVector(s, 1) ==> AccurateKids(s))
      modifies Foot(), `s, `currentProcess, `processCount, `softBlockCount, `startTime, `sem, `cpu, `mode, `areas
      ensures Rep() && s == NucleusState.PassUpOrDie(old(s), 1, AreaIn(areas, VectorOf(old(s), 1).newArea, zero))
      ensures areas == PassedTo(old(s), 1, programTrapOld, old(areas))
    {
      hide Rep, Foot, Sound, HasVector, NucleusState.PassUpOrDie, AccurateKids, PassedTo, VectorOf, AreaIn;
      Elsewhere();
      PassUpOrDie(programTrapOld, PROGRAMTRAPEXCEPTION);
    }

    /** And one whose state is in the TLB management area. */
    method TLBManagementHandler()
      requires Rep() && Sound(s) && s.current.Some? && (!HasVector(s, 0) ==> AccurateKids(s))
      modifies Foot(), `s, `currentProcess, `processCount, `softBlockCount, `startTime, `sem, `cpu, `mode, `areas
      ensures Rep() && s == NucleusState.PassUpOrDie(old(s), 0, AreaIn(areas, VectorOf(old(s), 0).newArea, zero))
      ensures areas == PassedTo(old(s), 0, tlbManagementOld, old(areas))
    {
      hide Rep, Foot, Sound, HasVector, NucleusState.PassUpOrDie, AccurateKids, PassedTo, VectorOf, AreaIn;
      Elsewhere();
      PassUpOrDie(tlbManagementOld, TLBEXCEPTION);
    }

    method PassUp(process: Pcb, oldArea: int, newArea: int, oldState: Cpu, ghost i: Pid)
      requires Rep() && i < |store.table| && process == store.table[i]
      modifies `s, `cpu, `areas, process`state
      ensures Rep() && i < |old(s).saved| && areas == old(areas)[oldArea := oldState]
      ensures s == old(s).(saved := old(s).saved[i := AreaIn(areas, newArea, zero)], cpu := AreaIn(areas, newArea, zero))
      ensures cpu == process.state == AreaIn(areas, newArea, zero)
    {
      hide Rep;
      StoreArea(oldArea, oldState);
      SaveState(process, Area(newArea), i);
      LoadState(Area(newArea));
    }

    method StoreArea(a: int, c: Cpu)
      requires Rep()
      modifies `areas
      ensures Rep() && areas == old(areas)[a := c]
    {
      hide Rep, Store.Valid, Records, Kids;
      Parts();
      areas := areas[a := c];
      Reglobal();
    }

    // ---- interrupts.c ----

    method PLTInterruptHandler()
      requires Rep() && HasCurrent(s) && Places(s.k, s.current)
      modifies Foot(), `s, `currentProcess, `processCount, `softBlockCount, `startTime, `sem, `cpu, `mode
      ensures Rep() && s == NucleusState.PLTInterruptHandler(old(s))
    {
      hide Rep, Places, Shape, Ranked, NucleusState.Scheduler, NucleusState.PLTInterruptHandler;
      Elsewhere();
      ghost var i := s.current.value;
      Parts();
      Nowhere(s.k, i);
      SliceEnds(s);
      IncrementProcessTime(currentProcess, i);
      PutReady(currentProcess, i);
      Scheduler();
    }

    /** The loop wakes the clock's waiters one by one and ends with nobody waiting: it never
        dequeues from an empty queue because the value counts the waiters. */
    method ITInterruptHandler()
      requires Rep() && Sound(s)
      modifies Foot(), `s, `softBlockCount, `sem
      ensures Rep() && s == old(s).(k := WakeClock(old(s).k))
    {
      hide Rep, Foot, Core, Waiters, ClockAfter, WakeClock, Val, Value, Addr, SemAddr;
      Elsewhere();
      var sema4 := Addr(ITSEMINDEX);
      ghost var k, n, j := s.k, |Waiters(s.k.asl, sema4)|, 0;
      Parts();
      AddrAt(ITSEMINDEX);
      ValueAt(sema4);
      ClockStarts(k, s.current);
      assert SameBut(k.sem, s.k.sem, sema4);
      hide SameBut;
      while Value(sema4) < 0
        invariant Rep()
        invariant j <= n && Value(sema4) == j - n
        invariant s == old(s).(k := ClockAfter(k, j).(sem := s.k.sem)) && SameBut(k.sem, s.k.sem, sema4)
        decreases -Value(sema4)
      {
        Overwritten(k.sem, s.k.sem, sema4, Value(sema4) + 1);
        WakeNext(sema4, k, s.current, j);
        j := j + 1;
      }
      Overwritten(k.sem, s.k.sem, sema4, 0);
      SetSem(sema4, 0);
      ClockEnds(k);
    }

    /** One turn of the loop. k are the tables before the first. */
    method WakeNext(sema4: int, ghost k: Tables, ghost run: Option<Pid>, ghost j: nat)
      requires Rep() && Core(k, run) && j < |Waiters(k.asl, Clock(k))| && sema4 == Clock(k) && 0 <= sema4 < NULLADDR
      requires s.k == ClockAfter(k, j).(sem := s.k.sem)
      modifies Foot(), `s, `softBlockCount, `sem
      ensures Rep()
      ensures Value(sema4) == old(Value(sema4)) + 1
      ensures s == old(s).(k := ClockAfter(k, j + 1).(sem := old(s).k.sem[sema4 := Value(sema4)]))
    {
      hide Rep, Foot, Core, Waiters, ClockAfter, Releasable, Wake, SemAddr;
      Elsewhere();
      ghost var m := s.k.sem[sema4 := Value(sema4) + 1];
      ClockNext(k, run, j, m);
      SetSem(sema4, Value(sema4) + 1);
      assert s.k == ClockAfter(k, j).(sem := m);
      ReleaseFirst(sema4);
      CountSoftBlocked(-1);
    }

    method ExitInterruptHandler(oldState: Cpu)
      requires Rep() && Shape(s)
      modifies Foot(), `s, `currentProcess, `processCount, `softBlockCount, `startTime, `sem, `cpu, `mode
      ensures Rep() && s == NucleusState.ExitInterruptHandler(old(s), oldState)
    {
      hide Rep, Shape, NucleusState.Scheduler;
      Elsewhere();
      Parts();
      if currentProcess == null {
        Scheduler();
      } else {
        LoadState(oldState);
      }
    }

    /** A device interrupt: its semaphore is raised, and the head of its queue, if it now
        need not wait, gets the device's status in v0 and becomes ready. The interrupt is
        acknowledged only if the value shows that somebody may be waiting. */
    method RaiseDevice(line: int, dev: int, reg: DeviceReg)
      requires Rep() && Sound(s) && DeviceOk(line, dev)
      modifies Foot(), `s, `softBlockCount, `sem, `command
      ensures Rep() && s == WakeDevice(old(s), InterruptIndex(line, dev, reg), DeviceStatus(line, reg))
      ensures line == 7 && reg.data0 % 16 != 1 ==> s == WakeDevice(old(s), (line - 3) * 8 + dev, reg.data0)
      ensures line == 7 && reg.data0 % 16 == 1 ==> s == WakeDevice(old(s), (line - 3) * 8 + dev + 8, reg.status)
      ensures line != 7 ==> s == WakeDevice(old(s), (line - 3) * 8 + dev, reg.status)
      ensures var i := (line - 3) * 8 + dev + if line == 7 && reg.data0 % 16 == 1 then 8 else 0;
        command == if old(Value(semBase + 4 * i)) < 0 then old(command)[i := 1] else old(command)
    {
      hide Rep, Foot, WakeDevice, Sound;
      Elsewhere();
      var index := (line - INITIALDEVLINENUM) * NUMDEVICESPERTYPE + dev;
      var transmit := true;
      if line == TERMINT && reg.data0 % 16 == READY {
        index := index + NUMDEVICESPERTYPE;
        transmit := false;
      }
      RaiseAt(index, if line == TERMINT && transmit then reg.data0 else reg.status);
    }

    method RaiseAt(i: int, status: int)
      requires Rep() && Sound(s) && 0 <= i < DEVICECOUNT
      modifies Foot(), `s, `softBlockCount, `sem, `command
      ensures Rep() && s == WakeDevice(old(s), i, status)
      ensures command == if old(Value(Addr(i))) < 0 then old(command)[i := ACK] else old(command)
    {
      hide Rep, Foot, Sound, Wakeable, Delivered, Waiters, WakeDevice, Val, SetVal, Value, Addr, SemAddr;
      Elsewhere();
      Parts();
      AddrAt(i);
      ValueAt(Addr(i));
      var sema4 := Addr(i);
      DeviceWoken(s, i, status);
      SetSem(sema4, Value(sema4) + 1);
      if Value(sema4) <= 0 {
        Deliver(sema4, status);
        Acknowledge(i);
      }
    }

    /** The head of a's queue, if there is one, gets the status and becomes ready. */
    method Deliver(a: int, status: int)
      requires Rep() && 0 <= a < NULLADDR
      requires Waiters(s.k.asl, a) != [] ==> Wakeable(s, a)
      modifies Foot(), `s, `softBlockCount
      ensures Rep()
      ensures Waiters(old(s).k.asl, a) == [] ==> s == old(s)
      ensures Waiters(old(s).k.asl, a) != [] ==> s == Delivered(old(s), a, status)
    {
      hide Rep, Dequeue, Blocked;
      Elsewhere();
      var proc := RemoveBlocked(a);
      if proc != null { GiveStatus(proc, status, Waiters(old(s).k.asl, a)[0]); }
    }

    method GiveStatus(p: Pcb, status: int, ghost i: Pid)
      requires Rep() && i < |store.table| && p == store.table[i]
      requires i !in s.k.ready && i !in s.k.free && !Blocked(s.k, i)
      modifies `s, `softBlockCount, store`readyQ, store`ready, Members(store.table)`next, Members(store.table)`prev, p`state
      ensures Rep() && i < |old(s).saved|
      ensures s == old(s).(saved := old(s).saved[i := old(s).saved[i].(v0 := status)],
        k := old(s).k.(softBlockCount := old(s).k.softBlockCount - 1, ready := old(s).k.ready + [i]))
    {
      hide Rep;
      Parts();
      At(s, i);
      SaveState(p, p.state.(v0 := status), i);
      CountSoftBlocked(-1);
      PutReady(p, i);
    }

    method Acknowledge(i: int)
      requires Rep()
      modifies `command
      ensures Rep() && command == old(command)[i := ACK]
    {
      hide Rep, Store.Valid, Records, Kids;
      Parts();
      command := command[i := ACK];
      Reglobal();
    }

    /** bitMaps are the interrupting-devices bit maps of lines 3 to 7, regs the registers of
        their devices. The lowest pending line, and on it the lowest pending device, is
        the one that is handled. */
    method InterruptHandler(oldState: Cpu, causeReg: bv32, bitMaps: seq<bv32>, regs: seq<DeviceReg>)
      returns (line: nat, dev: nat)
      requires Rep() && Sound(s) && |bitMaps| == 5 && |regs| == 40
      requires exists i: nat :: 0 < i < NUMLINES && Pending(causeReg, LINE0, i)
      requires !Pending(causeReg, LINE0, 0) && (Pending(causeReg, LINE0, 1) ==> s.current.Some?)
      requires forall i: nat :: 3 <= i < NUMLINES && Pending(causeReg, LINE0, i) ==> SomeDevice(bitMaps[i - 3])
      modifies Foot(), `s, `currentProcess, `processCount, `softBlockCount, `startTime, `sem, `cpu, `mode, `command
      ensures Rep() && 0 < line < NUMLINES && LowestPending(causeReg, LINE0, line)
      ensures line == 1 ==> s == NucleusState.PLTInterruptHandler(old(s))
      ensures line == 2 ==> s == TimerInterrupt(old(s), oldState)
      ensures line > 2 ==> dev < NUMDEVICES && LowestPending(bitMaps[line - 3], DEVICE0, dev)
      ensures line > 2 ==> s == DeviceInterrupt(old(s), line, dev, regs[(line - 3) * 8 + dev], oldState)
    {
      hide Rep, Pending, Core, Shifted, NucleusState.PLTInterruptHandler, NucleusState.ExitInterruptHandler, WakeDevice, WakeClock;
      Elsewhere();
      dev := 0;
      line := DetermineLine(causeReg);
      if line == 1 {
        SoundPlaces(s);
        PLTInterruptHandler();
      } else if line == 2 {
        WakeClockShape(s);
        ITInterruptHandler();
        ExitInterruptHandler(oldState);
      } else {
        dev := DetermineDevice(bitMaps[line - 3]);
        var reg := regs[(line - 3) * 8 + dev];
        WakeDeviceShape(s, InterruptIndex(line, dev, reg), DeviceStatus(line, reg));
        RaiseDevice(line, dev, reg);
        ExitInterruptHandler(oldState);
      }
    }

    // ---- SyscallHandler ----

    /** The switch over the number in a0 of the state in the old area. A privileged call from
        user mode becomes a program trap: the state goes to the program trap area with the
        cause set, and its pc stays on the SYSCALL. Every other call moves the pc on. */
    method SyscallHandler()
      requires Rep() && Sound(s) && s.current.Some? && |syscallOld.reg| == 30
      requires KillsRightly(s, syscallOld)
      modifies Foot(), `s, `currentProcess, `processCount, `softBlockCount, `startTime, `sem, `cpu, `mode, `areas, `syscallOld, `programTrapOld
      ensures Rep()
      ensures s == Served(old(s), old(syscallOld), AreaIn(old(areas), A1(old(syscallOld)), zero),
        AreaIn(areas, VectorOf(old(s), TrapKind(old(syscallOld))).newArea, zero), syscallOld)
      ensures Privileged(old(syscallOld)) ==>
        && syscallOld == old(syscallOld) && programTrapOld == old(syscallOld).(cause := PRIVILEDGEDINSTR)
        && areas == PassedTo(old(s), PROGRAMTRAPEXCEPTION, programTrapOld, old(areas))
      ensures !Privileged(old(syscallOld)) ==>
        && programTrapOld == old(programTrapOld) && syscallOld == old(syscallOld).(pc := old(syscallOld).pc + WORDLEN)
        && areas == if 1 <= A0(old(syscallOld)) <= 8 then old(areas) else PassedTo(old(s), SYSCALLEXCEPTION, syscallOld, old(areas))
      ensures var c, was := old(syscallOld), old(s);
        c.status / 8 % 2 == 1 && 1 <= c.reg[2] <= 8 ==>
          && syscallOld == c && programTrapOld == c.(cause := 0x28)
          && s == NucleusState.PassUpOrDie(was, 1, AreaIn(areas, VectorOf(was, 1).newArea, zero))
      ensures var c, was := old(syscallOld), old(s);
        var next := c.(pc := c.pc + 4);
        !(c.status / 8 % 2 == 1 && 1 <= c.reg[2] <= 8) ==>
          && syscallOld == next
          && (c.reg[2] == 1 ==> s == NucleusState.CreateProcess(was, next, AreaIn(old(areas), c.reg[3], zero)))
          && (c.reg[2] == 2 ==> s == NucleusState.TerminateProcess(was))
          && (c.reg[2] == 3 ==> s == NucleusState.Verhogen(was, next, c.reg[3]))
          && (c.reg[2] == 4 ==> s == NucleusState.Passeren(was, next, c.reg[3]))
          && (c.reg[2] == 5 ==>
                0 <= c.reg[3] < 3 && s == NucleusState.ExceptionStateVec(was, next, c.reg[3], Vector(c.reg[4], c.reg[5])))
          && (c.reg[2] == 6 ==> s == NucleusState.GetCpuTime(was, next))
          && (c.reg[2] == 7 ==> s == NucleusState.WaitForClock(was, next))
          && (c.reg[2] == 8 ==>
                s == NucleusState.WaitForIo(was, next, (c.reg[3] - 3) * 8 + c.reg[4] + if c.reg[5] != 0 then 8 else 0))
          && (c.reg[2] < 1 || c.reg[2] > 8 ==>
                s == NucleusState.PassUpOrDie(was, 2, AreaIn(areas, VectorOf(was, 2).newArea, zero)))
    {
      hide Rep, Foot, Core, NucleusState.Scheduler, KillFamily, NucleusState.CreateProcess, NucleusState.BlockHelper,
        NucleusState.Verhogen, NucleusState.Passeren, NucleusState.WaitForIo, NucleusState.WaitForClock,
        NucleusState.ExceptionStateVec, NucleusState.PassUpOrDie, NucleusState.GetCpuTime, NucleusState.TerminateProcess, AccurateKids;
      Elsewhere();
      SoundPlaces(s);
      var a0, a1, a2, a3 := A0(syscallOld), A1(syscallOld), syscallOld.reg[4], syscallOld.reg[5];
      var userMode := syscallOld.status / KERNELOFF % 2 == 1;
      if userMode && 1 <= a0 && a0 <= 8 {
        TrapState(syscallOld.(cause := PRIVILEDGEDINSTR));
        ProgramTrapHandler();
      } else {
        StepOver();
        if a0 == 1 {
          CreateProcess(syscallOld, Area(a1));
        } else if a0 == 2 {
          TerminateProcess();
        } else if a0 == 3 {
          Verhogen(syscallOld, a1);
        } else if a0 == 4 {
          Passeren(syscallOld, a1);
        } else if a0 == 5 {
          ExceptionStateVec(syscallOld, a1, Vector(a2, a3));
        } else if a0 == 6 {
          GetCpuTime(syscallOld);
        } else if a0 == 7 {
          WaitForClock(syscallOld);
        } else if a0 == 8 {
          WaitForIo(syscallOld, a1, a2, a3 != 0);
        } else {
          PassUpOrDie(syscallOld, SYSCALLEXCEPTION);
        }
      }
      CallMeans(old(s), old(syscallOld), AreaIn(old(areas), A1(old(syscallOld)), zero),
        AreaIn(areas, VectorOf(old(s), TrapKind(old(syscallOld))).newArea, zero), syscallOld);
    }

    method TrapState(c: Cpu)
      requires Rep()
      modifies `programTrapOld
      ensures Rep() && programTrapOld == c
    {
      hide Rep, Store.Valid, Records, Kids;
      Parts();
      programTrapOld := c;
      Reglobal();
    }

    method StepOver()
      requires Rep()
      modifies `syscallOld
      ensures Rep() && syscallOld == old(syscallOld).(pc := old(syscallOld).pc + WORDLEN)
    {
      hide Rep, Store.Valid, Records, Kids;
      Parts();
      syscallOld := syscallOld.(pc := syscallOld.pc + WORDLEN);
      Reglobal();
    }

    // ---- initial.c ----

    method ZeroSemaphores()
      requires sem == map[]
      modifies `sem
      ensures sem == ZeroSems(semBase, SEMCOUNT)
    {
      var i := 0;
      while i < SEMCOUNT
        invariant 0 <= i <= SEMCOUNT && sem == ZeroSems(semBase, i)
      {
        sem := sem[semBase + WORDLEN * i := 0];
        i := i + 1;
      }
    }

    /** The globals as main initialises them, over structures just initialised. */
    constructor (store: Store, semBase: int, zero: Cpu)
      ensures this.store == store && this.semBase == semBase && this.zero == zero && sem == map[]
      ensures processCount == softBlockCount == startTime == now == 0
      ensures currentProcess == null && cpu == zero && mode == Running && s == Blank(|store.table|, semBase, zero)
    {
      hide Blank;
      this.store, this.semBase, this.zero := store, semBase, zero;
      processCount, softBlockCount, currentProcess, startTime := 0, 0, null, 0;
      sem, areas, command := map[], map[], map[];
      cpu, syscallOld, programTrapOld, tlbManagementOld, mode, now := zero, zero, zero, zero, Running, 0;
      s := Blank(|store.table|, semBase, zero);
    }

    /** The rest of main: every semaphore 0, and the first process scheduled. */
    method Start(maxProc: nat, init: Cpu)
      requires store.Valid() && store.table == store.pool.free && store.ready == [] && store.asl.queues == map[]
      requires 0 < maxProc == |store.table| == store.asl.maxProc
      requires forall p :: p in store.table ==> p in store.kids && store.kids[p] == [] && p.NeverAllocated(zero)
      requires s == Blank(maxProc, semBase, zero) && sem == map[] && processCount == softBlockCount == startTime == now == 0
      requires currentProcess == null && cpu == zero && mode == Running
      modifies Foot(), `s, `currentProcess, `processCount, `softBlockCount, `startTime, `sem, `cpu, `mode
      ensures Rep() && s == Started(maxProc, semBase, init, zero)
    {
      hide Rep, Foot, Store.Valid, Started;
      Elsewhere();
      ZeroSemaphores();
      store.Keeps();
      Blanks(maxProc);
      Launch(init);
    }

    /** Nothing has been allocated, queued or counted. */
    lemma Blanks(maxProc: nat)
      requires store.Valid() && store.table == store.pool.free && store.ready == [] && store.asl.queues == map[]
      requires |store.table| == maxProc == store.asl.maxProc && forall p :: p in store.table ==> p in store.kids && store.kids[p] == [] && p.NeverAllocated(zero)
      requires s == Blank(maxProc, semBase, zero) && sem == s.k.sem && processCount == softBlockCount == startTime == now == 0
      requires currentProcess == null && cpu == zero && mode == Running
      ensures Rep()
    {
      hide Store.Valid;
      assert Vectors([0, 0, 0], [0, 0, 0]) == NEVERSET;
      forall p: Pid | p < |store.table|
        ensures Record(store.table[p], s.k.semAdd[p], s.time[p], s.saved[p], s.vectors[p], s.family.prnt[p]) {
        assert store.table[p] in store.table && store.table[p].NeverAllocated(zero);
      }
      assert Kids(s.family.kids) by { hide Record, NamedMap; }
    }

    /** The first process: a table entry, a processor state, and the scheduler. */
    method Launch(init: Cpu)
      requires Rep() && s.k.maxProc > 0 && s == Blank(s.k.maxProc, semBase, zero)
      modifies Foot(), `s, `currentProcess, `processCount, `softBlockCount, `startTime, `sem, `cpu, `mode
      ensures Rep() && s == Started(old(s).k.maxProc, semBase, init, zero)
    {
      hide Rep;
      Elsewhere();
      ghost var n := s.k.maxProc;
      Parts();
      BlankAllocated(n, semBase, zero, init);
      var initialProc := AllocPcb();
      SaveState(initialProc, init, 0);
      CountProcess(1);
      PutReady(initialProc, 0);
      Scheduler();
    }
  }

  lemma VectorsSet(o: seq<int>, n: seq<int>, kind: nat, v: Vector)
    requires |o| == |n| == NUMEXCEPTIONTYPES && kind < NUMEXCEPTIONTYPES
    ensures Vectors(o[kind := v.oldArea], n[kind := v.newArea]) == Vectors(o, n)[kind := v]
  {}

  const ACK: int := 1

  /** The tree once i has left its parent's list. */
  function LeftParent(f: Family, i: Pid): Family
  {
    if i < |f.prnt| && f.prnt[i].Some? && f.prnt[i].value < |f.kids|
    then f.(kids := f.kids[f.prnt[i].value := Delete(f.kids[f.prnt[i].value], i)]) else f
  }

  /** Process i has no children and is nobody's child. */
  ghost predicate Alone(f: Family, i: Pid)
  {
    i < |f.kids| && f.kids[i] == [] && forall q: Pid :: !IsChild(f, q, i)
  }

  predicate Allocable(s: State)
  {
    s.k.free != [] && s.k.free[0] < |s.k.semAdd| && s.k.free[0] < |s.time| && s.k.free[0] < |s.vectors| && s.k.free[0] < |s.family.prnt|
  }

  /** Once killed, process i is in no list, and its p_semAdd says where it was. */
  lemma Killed(k: Tables, cur: Option<Pid>, i: Pid)
    requires cur.Some? && Core(k, cur) && Killable(k, cur, [i])
    ensures i < |k.semAdd|
    ensures var t := Departed(k, cur, i);
      && i !in t.ready && i !in t.free && !Blocked(t, i)
      && KillOne(k, cur, i) == t.(free := t.free + [i], processCount := t.processCount - 1)
    ensures cur == Some(i) ==> Departed(k, cur, i) == k
    ensures cur != Some(i) && k.semAdd[i] == NULLADDR ==> Departed(k, cur, i) == k.(ready := Delete(k.ready, i))
    ensures cur != Some(i) && k.semAdd[i] != NULLADDR ==> 0 <= k.semAdd[i] < NULLADDR
  {
    assert i in [i];
    var a := k.semAdd[i];
    DeleteMembers(k.ready, i);
    if cur != Some(i) && a != NULLADDR {
      assert Blocked(k, i) && a in k.asl;
      UnqueueWaits(k.asl, a, i);
    }
  }

  /** What killing i does to the queues and values, before it is freed and counted. */
  function Departed(k: Tables, cur: Option<Pid>, i: Pid): Tables
    requires i < |k.semAdd|
  {
    KillOne(k, cur, i).(free := k.free, processCount := k.processCount)
  }

  /** Process i has left the queue that its p_semAdd names. */
  function LeftQueue(k: Tables, i: Pid): Tables
    requires i < |k.semAdd|
  {
    var a := k.semAdd[i];
    k.(asl := Unqueue(k.asl, a, i), clockKills := if a == Clock(k) && Waits(k.asl, a, i) then k.clockKills + 1 else k.clockKills)
  }

  lemma LeaveCases(k: Tables, cur: Option<Pid>, i: Pid)
    requires i < |k.semAdd| && cur != Some(i) && k.semAdd[i] != NULLADDR
    ensures var a, t := k.semAdd[i], LeftQueue(k, i);
      Departed(k, cur, i) ==
        if SemAddr(k, 0) <= a <= SemAddr(k, SEMCOUNT - 2) then t.(softBlockCount := t.softBlockCount - 1)
        else SetVal(t, a, Val(k, a) + 1)
  {
  }

  lemma FamilyShape(s: State)
    requires Sound(s) && s.current.Some? && AccurateKids(s)
    ensures Forest(s.family, Live(s.k)) && |s.family.kids| == s.k.maxProc == |s.k.semAdd| && Core(s.k, s.current)
    ensures Shape(KillFamily(s)) && Killable(s.k, s.current, KillOrder(s.family, s.current.value))
  {
    DoomedKillable(s);
    KillTree(s);
    KillExact(s);
  }

  lemma CurrentLives(s: State)
    requires Sound(s) && s.current.Some?
    ensures s.current.value in Live(s.k)
  {
  }

  lemma PruneIs(s: State, kids': seq<seq<Pid>>)
    requires HasCurrent(s) && |kids'| == s.k.maxProc
    requires forall q: Pid :: q < s.k.maxProc ==>
      kids'[q] == if q in Doomed(s) then [] else
                  if s.family.prnt[s.current.value] == Some(q) then Delete(s.family.kids[q], s.current.value)
                  else s.family.kids[q]
    ensures KillFamily(s).family == s.family.(kids := kids')
  {
    assert Prune(s.family, s.current.value, Members(Doomed(s))).kids == kids';
  }

  /** The head of a's queue, if there is one, is linked nowhere once it has left it. */
  predicate Releasable(k: Tables, a: int)
  {
    Waiters(k.asl, a) != [] ==>
      var p := Waiters(k.asl, a)[0];
      p !in k.ready && p !in k.free && !Blocked(k.(asl := Dequeue(k.asl, a)), p)
  }

  lemma Woken(k: Tables, run: Option<Pid>, a: int, v: int)
    requires Core(k, run)
    ensures Releasable(SetVal(k, a, v), a)
  {
    if Waiters(k.asl, a) != [] {
      assert Waits(k.asl, a, Waiters(k.asl, a)[0]) && NoDup(Waiters(k.asl, a));
      DequeueWaits(k.asl, a);
    }
  }

  lemma SignalReleases(s: State, a: int)
    requires Sound(s)
    ensures Releasable(SetVal(s.k, a, Val(s.k, a) + 1), a)
  {
    Woken(s.k, s.current, a, Val(s.k, a) + 1);
  }

  /** The end of a time slice step by step. */
  lemma SliceEnds(s: State)
    requires HasCurrent(s)
    ensures var i := s.current.value;
      var t := NucleusState.IncrementProcessTime(s, i).(k := s.k.(ready := s.k.ready + [i]));
      i < s.k.maxProc && Shape(t) && NucleusState.PLTInterruptHandler(s) == NucleusState.Scheduler(t)
  {
  }

  lemma SoftPlaces(s: State)
    requires HasCurrent(s) && Places(s.k, s.current)
    ensures var t := s.(k := s.k.(softBlockCount := s.k.softBlockCount + 1)); HasCurrent(t) && Places(t.k, t.current)
  {
  }

  lemma ValuePlaces(s: State, a: int, v: int)
    requires HasCurrent(s) && Places(s.k, s.current)
    ensures var t := s.(k := SetVal(s.k, a, v)); HasCurrent(t) && Places(t.k, t.current)
  {
  }

  lemma ClockInside(k: Tables)
    requires Layout(k)
    ensures 0 <= Clock(k) < NULLADDR && Clock(k) == SemAddr(k, ITSEMINDEX)
  {
  }

  lemma Nowhere(k: Tables, i: Pid)
    requires Places(k, Some(i))
    ensures i !in k.ready && i !in k.free && !Blocked(k, i)
  {
  }

  lemma BlockedShape(s: State, oldState: Cpu, a: int)
    requires HasCurrent(s) && Places(s.k, s.current)
    ensures var p := s.current.value;
      Shape(NucleusState.IncrementProcessTime(s, p).(saved := s.saved[p := oldState], k := NucleusState.InsertBlocked(s.k, a, p), current := None))
  {
    EnqueueWaits(s.k.asl, a, s.current.value);
  }

  /** The areas that the running process has named for exceptions of the given kind. */
  function VectorOf(s: State, kind: nat): Vector
  {
    if s.current.Some? && s.current.value < |s.vectors| && kind < |s.vectors[s.current.value]|
    then s.vectors[s.current.value][kind] else Vector(NULLADDR, NULLADDR)
  }

  lemma PassedIs(s: State, kind: nat, c: Cpu, areas: map<int, Cpu>)
    ensures var v := VectorOf(s, kind);
      && (v.oldArea == NULLADDR || v.newArea == NULLADDR ==> PassedTo(s, kind, c, areas) == areas)
      && (v.oldArea != NULLADDR && v.newArea != NULLADDR ==> PassedTo(s, kind, c, areas) == areas[v.oldArea := c])
  {}

  lemma PassUpCases(s: State, kind: nat)
    requires Sound(s) && s.current.Some? && kind < NUMEXCEPTIONTYPES
    ensures HasCurrent(s) && s.current.value < |s.saved| && s.current.value < s.k.maxProc
    ensures HasVector(s, kind) <==> VectorOf(s, kind).oldArea != NULLADDR && VectorOf(s, kind).newArea != NULLADDR
    ensures HasVector(s, kind) ==>
      forall h :: NucleusState.PassUpOrDie(s, kind, h) == s.(saved := s.saved[s.current.value := h], cpu := h)
    ensures !HasVector(s, kind) ==> forall h :: NucleusState.PassUpOrDie(s, kind, h) == NucleusState.TerminateProcess(s)
  {
  }

  /** SYS8 step by step. */
  lemma DeviceCase(s: State, oldState: Cpu, i: int)
    requires Sound(s) && s.current.Some? && 0 <= i < DEVICECOUNT
    ensures 0 <= SemAddr(s.k, i) < NULLADDR && HasCurrent(s)
    ensures var a := SemAddr(s.k, i);
      var t := s.(k := SetVal(s.k, a, Val(s.k, a) - 1));
      if Val(s.k, a) <= 0 then
        var u := t.(k := t.k.(softBlockCount := t.k.softBlockCount + 1));
        HasCurrent(u) && Places(u.k, u.current) && NucleusState.WaitForIo(s, oldState, i) == NucleusState.BlockHelper(u, oldState, a)
      else
        HasCurrent(t) && NucleusState.WaitForIo(s, oldState, i) == NucleusState.TerminateProcess(t) &&
        (AccurateKids(s) ==> Sound(t) && AccurateKids(t))
  {
    hide NucleusState.BlockHelper, NucleusState.TerminateProcess;
    var a := SemAddr(s.k, i);
    if Val(s.k, a) >= 1 && AccurateKids(s) {
      DeviceTaken(s, s.(k := SetVal(s.k, a, Val(s.k, a) - 1)), a);
    }
  }

  /** The tables once the first j clock waiters have been woken, the value apart. */
  function ClockAfter(k: Tables, j: nat): Tables
    requires j <= |Waiters(k.asl, Clock(k))|
  {
    var q := Waiters(k.asl, Clock(k));
    k.(asl := SetQueue(k.asl, Clock(k), q[j..]), ready := k.ready + q[..j], softBlockCount := k.softBlockCount - j)
  }

  /** The two memories differ at a at most. */
  predicate SameBut(m: map<int, int>, n: map<int, int>, a: int)
  {
    m[a := 0] == n[a := 0]
  }

  lemma Overwritten(m: map<int, int>, n: map<int, int>, a: int, v: int)
    requires SameBut(m, n, a)
    ensures SameBut(m, n[a := v], a) && n[a := v] == m[a := v] && SameBut(m, m, a)
  {
    assert n[a := v] == n[a := 0][a := v] && m[a := v] == m[a := 0][a := v];
    assert n[a := v][a := 0] == n[a := 0];
  }

  lemma ClockStarts(k: Tables, run: Option<Pid>)
    requires Core(k, run)
    ensures 0 <= Clock(k) < NULLADDR && Val(k, Clock(k)) == -|Waiters(k.asl, Clock(k))| && ClockAfter(k, 0) == k
  {
    var a, q := Clock(k), Waiters(k.asl, Clock(k));
    assert SemOk(k, a);
    assert q[0..] == q && k.ready + q[..0] == k.ready;
    if a in k.asl { assert k.asl[a := k.asl[a]] == k.asl; } else { assert k.asl - {a} == k.asl; }
  }

  lemma ClockNext(k: Tables, run: Option<Pid>, j: nat, sem: map<int, int>)
    requires Core(k, run) && j < |Waiters(k.asl, Clock(k))|
    ensures var t := ClockAfter(k, j).(sem := sem);
      && Releasable(t, Clock(k)) && Waiters(t.asl, Clock(k)) != [] && t.semBase == k.semBase
      && Wake(t, Clock(k)).(softBlockCount := t.softBlockCount - 1) == ClockAfter(k, j + 1).(sem := sem)
      && Wake(t, Clock(k)).softBlockCount == t.softBlockCount && Wake(t, Clock(k)).sem == sem
  {
    var a, q, t := Clock(k), Waiters(k.asl, Clock(k)), ClockAfter(k, j);
    assert NoDup(q) && Waits(k.asl, a, q[j]);
    assert Waiters(t.asl, a) == q[j..] && q[j..][1..] == q[j + 1..];
    assert Dequeue(t.asl, a) == SetQueue(k.asl, a, q[j + 1..]);
    assert k.ready + q[..j + 1] == k.ready + q[..j] + [q[j]];
    assert k.semAdd[q[j]] == a && q[j] !in q[j + 1..] && q[j] !in q[..j];
  }

  lemma ClockEnds(k: Tables)
    ensures WakeClock(k) == ClockAfter(k, |Waiters(k.asl, Clock(k))|).(sem := k.sem[Clock(k) := 0])
  {
    var q := Waiters(k.asl, Clock(k));
    assert q[..|q|] == q && q[|q|..] == [];
  }

  /** The head of a's queue can leave it for the ready queue. */
  predicate Wakeable(s: State, a: int)
    requires Waiters(s.k.asl, a) != []
  {
    var p := Waiters(s.k.asl, a)[0];
    p < |s.saved| && p !in s.k.ready && p !in s.k.free && !Blocked(s.k.(asl := Dequeue(s.k.asl, a)), p)
  }

  function Delivered(s: State, a: int, status: int): State
    requires Waiters(s.k.asl, a) != [] && Wakeable(s, a)
  {
    var p := Waiters(s.k.asl, a)[0];
    s.(saved := s.saved[p := s.saved[p].(v0 := status)],
       k := s.k.(asl := Dequeue(s.k.asl, a), softBlockCount := s.k.softBlockCount - 1, ready := s.k.ready + [p]))
  }

  /** A device interrupt step by step. */
  lemma DeviceWoken(s: State, i: int, status: int)
    requires Sound(s) && 0 <= i < DEVICECOUNT
    ensures Shape(s) && 0 <= SemAddr(s.k, i) < NULLADDR
    ensures var a := SemAddr(s.k, i); var t := s.(k := SetVal(s.k, a, Val(s.k, a) + 1));
      && (Waiters(t.k.asl, a) != [] ==> Wakeable(t, a))
      && WakeDevice(s, i, status) == if Val(s.k, a) < 0 && Waiters(t.k.asl, a) != [] then Delivered(t, a, status) else t
  {
    var a := SemAddr(s.k, i);
    Woken(s.k, s.current, a, Val(s.k, a) + 1);
    if Waiters(s.k.asl, a) != [] { assert Waits(s.k.asl, a, Waiters(s.k.asl, a)[0]); }
  }

  const KERNELOFF: int := 8
  const PRIVILEDGEDINSTR: int := 0x28

  /** s_a0 and s_a1: registers 3 and 4, v0 being kept apart. */
  function A0(c: Cpu): int { Reg(c, 2) }

  function A1(c: Cpu): int { Reg(c, 3) }

  function Reg(c: Cpu, i: nat): int { if i < |c.reg| then c.reg[i] else 0 }

  /** A call of SYS1 to SYS8 in user mode. */
  predicate Privileged(c: Cpu)
  {
    c.status / KERNELOFF % 2 == 1 && 1 <= A0(c) <= 8
  }

  function TrapKind(c: Cpu): nat
  {
    if Privileged(c) then PROGRAMTRAPEXCEPTION else SYSCALLEXCEPTION
  }

  /** What the state in the old area asks for. named is the state at the address in a1, and
      handler the one in the area that the caller has named for the exception. */
  function Decode(c: Cpu, named: Cpu, handler: Cpu): Call
  {
    if Privileged(c) then PassUp(PROGRAMTRAPEXCEPTION, handler)
    else if A0(c) == 1 then Create(named)
    else if A0(c) == 2 then Terminate
    else if A0(c) == 3 then V(A1(c))
    else if A0(c) == 4 then P(A1(c))
    else if A0(c) == 5 then SetVector(if A1(c) < 0 then NUMEXCEPTIONTYPES else A1(c), Vector(Reg(c, 4), Reg(c, 5)))
    else if A0(c) == 6 then GetTime
    else if A0(c) == 7 then WaitClock
    else if A0(c) == 8 then WaitIo(A1(c), Reg(c, 4), Reg(c, 5) != 0)
    else PassUp(SYSCALLEXCEPTION, handler)
  }

  /** The arguments of the call are such as the handlers assume. */
  predicate Answers(k: Tables, c: Cpu)
  {
    CallOk(k, Decode(c, c, c))
  }

  /** What the call in c does, next being the state the caller goes on in. */
  ghost function Served(s: State, c: Cpu, named: Cpu, handler: Cpu, next: Cpu): State
  {
    if HasCurrent(s) && Answers(s.k, c) then Handle(s, Decode(c, named, handler), next) else s
  }

  /** What the call is, by the number in a0 and the mode. */
  lemma CallMeans(s: State, c: Cpu, named: Cpu, handler: Cpu, next: Cpu)
    requires Sound(s) && s.current.Some? && |c.reg| == 30 && KillsRightly(s, c)
    ensures HasCurrent(s)
    ensures c.status / 8 % 2 == 1 && 1 <= c.reg[2] <= 8 ==>
      TrapKind(c) == 1 && Served(s, c, named, handler, next) == NucleusState.PassUpOrDie(s, 1, handler)
    ensures !(c.status / 8 % 2 == 1 && 1 <= c.reg[2] <= 8) ==> TrapKind(c) == 2 && var t := Served(s, c, named, handler, next);
      && (c.reg[2] == 1 ==> t == NucleusState.CreateProcess(s, next, named))
      && (c.reg[2] == 2 ==> t == NucleusState.TerminateProcess(s))
      && (c.reg[2] == 3 ==> t == NucleusState.Verhogen(s, next, c.reg[3]))
      && (c.reg[2] == 4 ==> t == NucleusState.Passeren(s, next, c.reg[3]))
      && (c.reg[2] == 5 ==> 0 <= c.reg[3] < 3 && t == NucleusState.ExceptionStateVec(s, next, c.reg[3], Vector(c.reg[4], c.reg[5])))
      && (c.reg[2] == 6 ==> t == NucleusState.GetCpuTime(s, next))
      && (c.reg[2] == 7 ==> t == NucleusState.WaitForClock(s, next))
      && (c.reg[2] == 8 ==> t == NucleusState.WaitForIo(s, next, (c.reg[3] - 3) * 8 + c.reg[4] + if c.reg[5] != 0 then 8 else 0))
      && (c.reg[2] < 1 || c.reg[2] > 8 ==> t == NucleusState.PassUpOrDie(s, 2, handler))
  {
    hide Core, NucleusState.CreateProcess, NucleusState.TerminateProcess, NucleusState.Verhogen, NucleusState.Passeren,
      NucleusState.ExceptionStateVec, NucleusState.GetCpuTime, NucleusState.WaitForClock, NucleusState.WaitForIo,
      NucleusState.PassUpOrDie, AccurateKids;
  }

  ghost predicate KillOk(s: State)
  {
    HasCurrent(s) && AccurateKids(s)
  }

  /** The kill that the call would be is one that the kill's test gets right. */
  ghost predicate KillsRightly(s: State, c: Cpu)
  {
    HasCurrent(s) && Answers(s.k, c) && (Kills(s, Decode(c, c, c)) ==> AccurateKids(s))
  }

  /** The state area at an address, or z where nothing has been stored. */
  function AreaIn(areas: map<int, Cpu>, a: int, z: Cpu): Cpu
  {
    if a in areas then areas[a] else z
  }

  /** The state areas once c has been passed up, if the running process has named its areas. */
  function PassedTo(s: State, kind: nat, c: Cpu, areas: map<int, Cpu>): map<int, Cpu>
  {
    var v := VectorOf(s, kind);
    if v.oldArea != NULLADDR && v.newArea != NULLADDR then areas[v.oldArea := c] else areas
  }

  ghost predicate SomeDevice(bitMap: bv32)
  {
    exists j: nat :: j < NUMDEVICES && Pending(bitMap, DEVICE0, j)
  }

  lemma SoundPlaces(s: State)
    requires Sound(s)
    ensures Places(s.k, s.current) && Layout(s.k) && Shape(s) && (s.current.Some? ==> HasCurrent(s))
  {
  }

  /** Before the first process is made. */
  function Blank(maxProc: nat, semBase: int, zero: Cpu): State
  {
    State(
      Tables(maxProc, semBase, seq(maxProc, i => i), [], map[], seq(maxProc, _ => 0), ZeroSems(semBase, SEMCOUNT), 0, 0, 0),
      None, Running,
      Family(seq(maxProc, _ => []), seq(maxProc, _ => None), seq(maxProc, _ => 0), 1),
      seq(maxProc, _ => zero), seq(maxProc, _ => NEVERSET), seq(maxProc, _ => 0), 0, zero, 0, 0)
  }

  /** main's steps up to the scheduler. */
  lemma BlankAllocated(n: nat, base: int, zero: Cpu, init: Cpu)
    requires n > 0
    ensures var s := Blank(n, base, zero);
      && InTable(s.k) && Sized(s.family, n) && s.k.free != [] && s.k.free[0] == 0 && Alone(s.family, 0) && Allocable(s)
      && var t := Allocated(s);
         && 0 !in t.k.ready && 0 !in t.k.free && !Blocked(t.k, 0)
         && t.(saved := t.saved[0 := init], k := t.k.(processCount := 1, ready := [] + [0])) == Booted(n, base, init, zero)
    ensures Shape(Booted(n, base, init, zero))
  {
    assert seq(n, i => i)[1..] == seq(n - 1, i => i + 1);
    var prnt: seq<Option<Pid>> := seq(n, _ => None);
    var time: seq<int> := seq(n, _ => 0);
    assert prnt[0 := None] == prnt && time[0 := 0] == time;
  }

  /** SYS1 step by step. */
  lemma CreatedIs(s: State, oldState: Cpu, newState: Cpu)
    requires Sound(s) && s.current.Some?
    ensures HasCurrent(s) && s.current.value < s.k.maxProc
    ensures s.k.free == [] <==> s.k.processCount == s.k.maxProc
    ensures s.k.free == [] ==> NucleusState.CreateProcess(s, oldState, newState) == s.(cpu := oldState.(v0 := SYS1FAIL))
    ensures s.k.free != [] ==> Allocable(s) && s.k.free[0] < s.k.maxProc && Sized(Allocated(s).family, s.k.maxProc)
    ensures s.k.free != [] ==>
      var t, i := Allocated(s), s.k.free[0];
      NucleusState.CreateProcess(s, oldState, newState) ==
        t.(saved := t.saved[i := newState], family := AddChild(t.family, s.current, i),
           k := t.k.(ready := t.k.ready + [i], processCount := t.k.processCount + 1), cpu := oldState.(v0 := SYS1SUCCESS))
  {
    NewcomerAlone(s);
    if s.k.free != [] {
      var t, i := Allocated(s), s.k.free[0];
      assert s.family.kids[i := []] == s.family.kids;
      assert AddChild(t.family, s.current, i) == AddChild(s.family, s.current, i);
    }
  }

  lemma NewcomerAlone(s: State)
    requires Sound(s)
    ensures s.k.free != [] ==> s.k.free[0] < s.k.maxProc && Alone(s.family, s.k.free[0]) && Allocable(s)
    ensures InTable(s.k) && Sized(s.family, s.k.maxProc)
  {
    if s.k.free != [] {
      var i := s.k.free[0];
      assert i in s.k.free && i !in Live(s.k);
    }
  }

  /** The entry just taken is linked nowhere. */
  lemma Newcomer(s: State)
    requires Sound(s) && s.k.free != [] && Allocable(s)
    ensures var t, i := Allocated(s), s.k.free[0];
      i !in t.k.free && i !in t.k.ready && !Blocked(t.k, i) && s.current != Some(i) && t.current == s.current && i < |t.family.kids| && t.family.kids[i] == []
  {
    NewcomerAlone(s);
    assert s.k.free[0] in s.k.free;
  }

  /** The tables once the head of the free list has been taken and cleared. */
  function Allocated(s: State): State
    requires Allocable(s)
  {
    var i := s.k.free[0];
    s.(k := s.k.(free := s.k.free[1..], semAdd := s.k.semAdd[i := NULLADDR]), time := s.time[i := 0],
       vectors := s.vectors[i := UNSET], family := s.family.(prnt := s.family.prnt[i := None]))
  }

  function Started(maxProc: nat, semBase: int, init: Cpu, zero: Cpu): State
    requires maxProc > 0
  {
    NucleusState.Scheduler(Booted(maxProc, semBase, init, zero))
  }

  /** main: every table entry free, every semaphore 0, and the first process scheduled. */
  method StartUp(maxProc: nat, semBase: int, init: Cpu, zero: Cpu) returns (n: Nucleus)
    requires maxProc > 0
    ensures fresh(n) && fresh(n.Foot()) && n.Rep() && n.s == Started(maxProc, semBase, init, zero)
  {
    hide Blank, Started, Nucleus.Rep, Store.Valid, PcbPool.Valid, Asl.SemaphoreList.Valid;
    var pool := new PcbPool(maxProc, zero);
    label pooled:
    var asl := new Asl.SemaphoreList(maxProc);
    pool.Keeps@pooled();
    var store := new Store(pool, asl, zero);
    label stored:
    n := new Nucleus(store, semBase, zero);
    store.Keeps@stored();
    n.Start(maxProc, init);
  }

  function Vectors(o: seq<int>, n: seq<int>): seq<Vector>
    requires |o| == |n| == NUMEXCEPTIONTYPES
  {
    [Vector(o[0], n[0]), Vector(o[1], n[1]), Vector(o[2], n[2])]
  }
}
