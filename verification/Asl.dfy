/** asl.c on the heap: the sorted list of active semaphore descriptors between two sentinels,
    each with a process queue, and the free stack the descriptors are recycled through. */
module Asl {
  import opened Queues
  import opened Pcbs

  class Semd {
    var next: Semd?
    var semAdd: int
    var procQ: Pcb?

    constructor ()
    {
    }
  }

  function NextOf(q: seq<Semd>, i: nat): Semd?
    requires i < |q|
  {
    if i + 1 == |q| then null else q[i + 1]
  }

  /** The NULL-terminated singly linked list that starts at h holds q. */
  ghost predicate Chain(h: Semd?, q: seq<Semd>)
    reads Members(q)`next
  {
    && NoDup(q)
    && h == (if q == [] then null else q[0])
    && (forall i {:trigger q[i].next} :: 0 <= i < |q| ==> q[i].next == NextOf(q, i))
  }

  lemma ChainTail(h: Semd?, q: seq<Semd>)
    requires Chain(h, q) && q != []
    ensures Chain(q[0].next, q[1..])
  {
    var r := q[1..];
    forall i | 0 <= i < |r| ensures r[i].next == NextOf(r, i) {
      assert q[i + 1].next == NextOf(q, i + 1);
    }
    assert q[0].next == NextOf(q, 0);
  }

  lemma ChainCons(h: Semd, q: seq<Semd>)
    requires h !in q && Chain(h.next, q)
    ensures Chain(h, [h] + q)
  {
    var r := [h] + q;
    forall i | 0 <= i < |r| ensures r[i].next == NextOf(r, i) {
      if i > 0 { assert q[i - 1].next == NextOf(q, i - 1); }
    }
  }

  /** t has been linked in behind position k. */
  lemma ChainInsert(h: Semd?, q: seq<Semd>, k: nat, t: Semd)
    requires NoDup(q) && t !in q && k + 1 < |q| && h == q[0]
    requires forall i {:trigger q[i].next} :: 0 <= i < |q| && i != k ==> q[i].next == NextOf(q, i)
    requires q[k].next == t && t.next == q[k + 1]
    ensures Chain(h, q[..k + 1] + [t] + q[k + 1..])
  {
    var r := q[..k + 1] + [t] + q[k + 1..];
    InsertNoDup(q, k + 1, t);
    forall i | 0 <= i < |r| ensures r[i].next == NextOf(r, i) {
      if i < k {
        assert r[i] == q[i] && q[i].next == NextOf(q, i);
      } else if i > k + 1 {
        assert r[i] == q[i - 1] && q[i - 1].next == NextOf(q, i - 1);
      }
    }
  }

  lemma InsertNoDup<T>(q: seq<T>, k: nat, t: T)
    requires NoDup(q) && t !in q && k <= |q|
    ensures NoDup(q[..k] + [t] + q[k..])
    ensures forall x :: x in q[..k] + [t] + q[k..] <==> x in q || x == t
  {
    var r := q[..k] + [t] + q[k..];
    assert forall i :: 0 <= i < |r| ==> r[i] == if i < k then q[i] else if i == k then t else q[i - 1];
    forall x | x in q ensures x in r {
      var i :| 0 <= i < |q| && q[i] == x;
      assert r[if i < k then i else i + 1] == x;
    }
  }

  /** The element behind position k has been unlinked. */
  lemma ChainCut(h: Semd?, q: seq<Semd>, k: nat)
    requires NoDup(q) && k + 2 < |q| && h == q[0]
    requires forall i {:trigger q[i].next} :: 0 <= i < |q| && i != k && i != k + 1 ==> q[i].next == NextOf(q, i)
    requires q[k].next == q[k + 2]
    ensures Chain(h, q[..k + 1] + q[k + 2..])
  {
    var r := q[..k + 1] + q[k + 2..];
    CutMembers(q, k + 1);
    forall i | 0 <= i < |r| ensures r[i].next == NextOf(r, i) {
      if i < k {
        assert r[i] == q[i] && q[i].next == NextOf(q, i);
      } else if i > k {
        assert r[i] == q[i + 1] && q[i + 1].next == NextOf(q, i + 1);
      }
    }
  }

  ghost predicate IsInnerKey(keys: seq<int>, a: int)
  {
    exists i :: 0 < i < |keys| - 1 && keys[i] == a
  }

  /** The keys of the active list: ascending between the sentinels 0 and NULL, and, the
      sentinels apart, exactly the keys of the map, whose queues are not empty. */
  ghost predicate KeysOk(keys: seq<int>, queues: map<int, seq<Pcb>>)
  {
    && |keys| == |queues| + 2
    && keys[0] == 0 && keys[|keys| - 1] == NULLSEM
    && (forall i :: 0 < i < |keys| - 1 ==> 0 <= keys[i] < NULLSEM && keys[i] in queues)
    && Ascending(keys)
    && (forall a :: a in queues ==> queues[a] != [] && IsInnerKey(keys, a))
  }

  lemma KeyIsNext(keys: seq<int>, queues: map<int, seq<Pcb>>, a: int, k: nat)
    requires KeysOk(keys, queues) && k + 1 < |keys| && 0 <= a < NULLSEM
    requires (k == 0 || keys[k] < a) && a <= keys[k + 1]
    ensures a in queues <==> keys[k + 1] == a
    ensures a in queues ==> k + 2 < |keys|
  {
    if a in queues {
      assert IsInnerKey(keys, a);
    }
  }

  lemma KeysInsert(keys: seq<int>, queues: map<int, seq<Pcb>>, a: int, k: nat, q: seq<Pcb>)
    requires KeysOk(keys, queues) && k + 1 < |keys| && 0 <= a < NULLSEM && q != [] && a !in queues
    requires (k == 0 || keys[k] < a) && a < keys[k + 1]
    ensures KeysOk(keys[..k + 1] + [a] + keys[k + 1..], queues[a := q])
  {
    var r, m := keys[..k + 1] + [a] + keys[k + 1..], queues[a := q];
    hide Ascending, IsInnerKey;
    InsertSorted(keys, a, k);
    InsertInner(keys, queues, a, k, q);
    forall b | b in m ensures IsInnerKey(r, b) {
      if b == a {
        NewKey(keys, a, k);
      } else {
        KeyStaysToo(keys, k, a, b);
      }
    }
  }

  lemma InsertInner(keys: seq<int>, queues: map<int, seq<Pcb>>, a: int, k: nat, q: seq<Pcb>)
    requires k + 1 < |keys| && 0 <= a < NULLSEM
    requires forall i :: 0 < i < |keys| - 1 ==> 0 <= keys[i] < NULLSEM && keys[i] in queues
    ensures var r := keys[..k + 1] + [a] + keys[k + 1..];
      forall i :: 0 < i < |r| - 1 ==> 0 <= r[i] < NULLSEM && r[i] in queues[a := q]
  {
    var r := keys[..k + 1] + [a] + keys[k + 1..];
    assert forall i :: 0 <= i < |r| ==> r[i] == if i <= k then keys[i] else if i == k + 1 then a else keys[i - 1];
  }

  ghost predicate Ascending(keys: seq<int>)
  {
    forall i, j :: 0 < i < j < |keys| ==> keys[i] < keys[j]
  }

  lemma InsertSorted(keys: seq<int>, a: int, k: nat)
    requires Ascending(keys) && k + 1 < |keys| && (k == 0 || keys[k] < a) && a < keys[k + 1]
    ensures Ascending(keys[..k + 1] + [a] + keys[k + 1..])
  {
    var r := keys[..k + 1] + [a] + keys[k + 1..];
    forall i, j | 0 < i < j < |r| ensures r[i] < r[j] {
      var i', j' := if i <= k then i else i - 1, if j <= k then j else j - 1;
      assert i <= k ==> r[i] == keys[i] && keys[i] <= keys[k];
      assert i > k + 1 ==> r[i] == keys[i - 1];
      assert j <= k ==> r[j] == keys[j];
      assert j > k + 1 ==> r[j] == keys[j - 1] && keys[k + 1] <= keys[j - 1];
    }
  }

  lemma CutSorted(keys: seq<int>, k: nat)
    requires Ascending(keys) && k + 2 < |keys|
    ensures Ascending(keys[..k + 1] + keys[k + 2..])
  {
    var r := keys[..k + 1] + keys[k + 2..];
    assert forall i :: 0 <= i < |r| ==> r[i] == keys[if i <= k then i else i + 1];
  }

  lemma KeysSame(keys: seq<int>, queues: map<int, seq<Pcb>>, a: int, q: seq<Pcb>)
    requires KeysOk(keys, queues) && a in queues && q != []
    ensures KeysOk(keys, queues[a := q])
  {
    hide Ascending, IsInnerKey;
    assert queues[a := q].Keys == queues.Keys;
  }

  lemma KeysCut(keys: seq<int>, queues: map<int, seq<Pcb>>, k: nat)
    requires KeysOk(keys, queues) && k + 2 < |keys|
    ensures keys[k + 1] in queues && KeysOk(keys[..k + 1] + keys[k + 2..], queues - {keys[k + 1]})
  {
    var a := keys[k + 1];
    var r, m := keys[..k + 1] + keys[k + 2..], queues - {a};
    assert queues.Keys == m.Keys + {a};
    CutSorted(keys, k);
    forall b | b in m ensures IsInnerKey(r, b) {
      KeyStays(keys, k, b);
    }
    forall i | 0 < i < |r| - 1 ensures 0 <= r[i] < NULLSEM && r[i] in m {
      var j := if i <= k then i else i + 1;
      assert r[i] == keys[j] && keys[j] != a;
    }
  }

  lemma KeyStays(keys: seq<int>, k: nat, b: int)
    requires k + 2 < |keys| && IsInnerKey(keys, b) && b != keys[k + 1]
    ensures IsInnerKey(keys[..k + 1] + keys[k + 2..], b)
  {
    var r := keys[..k + 1] + keys[k + 2..];
    var i :| 0 < i < |keys| - 1 && keys[i] == b;
    assert r[if i <= k then i else i - 1] == b;
  }

  lemma NewKey(keys: seq<int>, a: int, k: nat)
    requires k + 1 < |keys|
    ensures IsInnerKey(keys[..k + 1] + [a] + keys[k + 1..], a)
  {
    assert (keys[..k + 1] + [a] + keys[k + 1..])[k + 1] == a;
  }

  lemma KeyStaysToo(keys: seq<int>, k: nat, a: int, b: int)
    requires k + 1 < |keys| && IsInnerKey(keys, b)
    ensures IsInnerKey(keys[..k + 1] + [a] + keys[k + 1..], b)
  {
    var r := keys[..k + 1] + [a] + keys[k + 1..];
    var i :| 0 < i < |keys| - 1 && keys[i] == b;
    assert r[if i <= k then i else i + 1] == b;
  }

  class SemaphoreList {
    var semd: Semd?
    var semdFree: Semd?
    ghost var maxProc: nat
    ghost var active: seq<Semd>  // the sentinels included
    ghost var keys: seq<int>     // their s_semAdd fields
    ghost var free: seq<Semd>
    ghost var queues: map<int, seq<Pcb>>
    ghost var procs: set<Pcb>

    /** The two lists share out the table of maxProc + 2 descriptors. */
    ghost predicate Lists()
      reads `semd, `semdFree, `active, `free, `maxProc, Members(active)`next, Members(free)`next
    {
      && Chain(semd, active) && Chain(semdFree, free)
      && (forall s :: s in active ==> s !in free)
      && |active| >= 2 && |active| + |free| == maxProc + 2
    }

    /** The table of descriptors, whatever list they are on. */
    ghost function Descriptors(): set<Semd>
      reads `active, `free
    {
      Members(active) + Members(free)
    }

    ghost predicate Keyed()
      reads `active, `keys, Members(active)`semAdd
    {
      |keys| == |active| && forall i {:trigger active[i].semAdd} :: 0 <= i < |keys| ==> active[i].semAdd == keys[i]
    }

    /** The descriptor at position i, a sentinel apart, holds the queue of its key. */
    ghost predicate Holds(i: nat)
      reads `active, `keys, `queues, `procs, Members(active)`procQ, procs`next, procs`prev
    {
      0 < i < |active| - 1 && i < |keys| && keys[i] in queues ==>
        Members(queues[keys[i]]) <= procs && IsQueue(active[i].procQ, queues[keys[i]])
    }

    /** p_semAdd is the key of the queue a process is in; so the queues are disjoint. */
    ghost predicate Owned()
      reads `queues, `procs, procs`semAdd
    {
      && (forall a, p :: a in queues && p in queues[a] ==> p in procs && p.semAdd == a)
      && (forall p :: p in procs ==> p.semAdd in queues && p in queues[p.semAdd])
    }

    ghost predicate Valid()
      reads this, Members(active), Members(free)`next, procs`next, procs`prev, procs`semAdd
    {
      Lists() && Keyed() && KeysOk(keys, queues) && Owned() && forall i: nat :: Holds(i)
    }

    lemma NonEmpty()
      requires Valid()
      ensures forall a :: a in queues ==> queues[a] != []
    {}

    lemma AtMostMaxProc()
      requires Valid()
      ensures |queues| <= maxProc
    {}

    /** initASL: every descriptor goes to the free stack, then two come back as sentinels. */
    constructor (maxProc: nat)
      ensures fresh(Descriptors())
      ensures Valid() && this.maxProc == maxProc && queues == map[] && procs == {}
    {
      this.maxProc := maxProc;
      semdFree := null;
      free, active, keys := [], [], [];
      queues, procs := map[], {};
      new;
      var i := 0;
      while i < maxProc + 2
        invariant i <= maxProc + 2 && Chain(semdFree, free) && |free| == i && fresh(this)
        invariant forall s :: s in free ==> fresh(s)
        invariant this.maxProc == maxProc && queues == map[] && procs == {} && active == []
      {
        var s := new Semd();
        FreeSemd(s);
        i := i + 1;
      }
      PlaceSentinels();
    }

    method PlaceSentinels()
      requires Chain(semdFree, free) && |free| == maxProc + 2 && queues == map[] && procs == {}
      modifies `semd, `semdFree, `active, `keys, `free, Members(free)
      ensures Valid()
      ensures Descriptors() <= old(Members(free))
    {
      hide IsQueue, Ascending, IsInnerKey, Succ;
      ghost var f := free;
      assert f[0] in Members(f) && f[1] in Members(f) && f == [f[0]] + f[1..] && Members(f[..1]) <= Members(f);
      var dummy1 := AllocSemd();
      assert free[0] == f[1] && Members(free[..1]) <= Members(f);
      var dummy2 := AllocSemd();
      LinkSentinels(dummy1, dummy2);
    }

    method LinkSentinels(dummy1: Semd, dummy2: Semd)
      requires Chain(semdFree, free) && |free| == maxProc && queues == map[] && procs == {}
      requires dummy1 != dummy2 && dummy1 !in free && dummy2 !in free && dummy2.next == null
      modifies `semd, `active, `keys, dummy1, dummy2
      ensures Valid()
      ensures active == [dummy1, dummy2]
    {
      hide IsQueue, Ascending, IsInnerKey, Succ, KeysOk;
      dummy1.semAdd := 0;
      dummy2.semAdd := NULLSEM;
      semd := dummy1;
      dummy1.next := dummy2;
      active := [dummy1, dummy2];
      keys := [0, NULLSEM];
      assert dummy1.next == NextOf(active, 0) && dummy2.next == NextOf(active, 1);
      assert Chain(semdFree, free);
      SentinelKeys();
    }

    /** The descriptor before the one for a, or before where it would be. */
    method SearchASL(a: int) returns (s: Semd, ghost k: nat)
      requires Valid() && 0 <= a < NULLSEM
      ensures s in active && s.next in active && (s == semd || s.semAdd < a) && a <= s.next.semAdd
      ensures Valid() && k + 1 < |active| && s == active[k] && s.next == active[k + 1] && s.next.semAdd == keys[k + 1]
      ensures (k == 0 || keys[k] < a) && a <= keys[k + 1]
      ensures a in queues <==> keys[k + 1] == a
      ensures a in queues ==> k + 2 < |active| && Members(queues[a]) <= procs && IsQueue(s.next.procQ, queues[a])
    {
      var current: Semd := semd;
      k := 0;
      assert active[k].next == NextOf(active, k);
      while current.next.semAdd < a
        invariant k + 1 < |active| && current == active[k] && current.next == active[k + 1]
        invariant k == 0 || keys[k] < a
        decreases |active| - k
      {
        current := current.next;
        k := k + 1;
        assert active[k].semAdd == keys[k];
        assert active[k].next == NextOf(active, k);
      }
      s := current;
      assert active[k + 1].semAdd == keys[k + 1];
      KeyIsNext(keys, queues, a, k);
      assert Holds(k + 1);
    }

    /** The head of a's queue, or NULL if nobody waits on a. */
    method HeadBlocked(a: int) returns (p: Pcb?)
      requires Valid() && 0 <= a < NULLSEM
      ensures a in queues ==> queues[a] != [] && p == queues[a][0]
      ensures a !in queues ==> p == null
    {
      var temp; ghost var k;
      temp, k := SearchASL(a);
      if temp.next.semAdd == a {
        p := HeadProcQ(temp.next.procQ, queues[a]);
      } else {
        p := null;
      }
    }

    // ---- the free stack ----

    method AllocSemd() returns (s: Semd?)
      requires Chain(semdFree, free)
      modifies `semdFree, `free, Members(free[..if free == [] then 0 else 1])
      ensures old(free) == [] ==> s == null && free == []
      ensures old(free) != [] ==> s == old(free)[0] && free == old(free)[1..] && s !in free && s.next == null
      ensures Chain(semdFree, free)
    {
      s := semdFree;
      if s != null {
        assert free[0] in Members(free[..1]) && free == [free[0]] + free[1..];
        ChainTail(semdFree, free);
        semdFree := s.next;
        free := free[1..];
        s.next := null;
        s.semAdd := 0;
        s.procQ := null;
      }
    }

    method FreeSemd(s: Semd)
      requires Chain(semdFree, free) && s !in free
      modifies `semdFree, `free, s`next
      ensures free == [s] + old(free) && Chain(semdFree, free)
    {
      s.next := semdFree;
      semdFree := s;
      ChainCons(s, free);
      free := [s] + free;
    }

    // ---- insertBlocked ----

    /** Descriptors with different keys are different. */
    lemma DistinctAt(i: nat)
      requires Keyed() && i < |active|
      ensures forall j: nat :: j < |active| && keys[j] != keys[i] ==> active[j] != active[i]
    {
      assert active[i].semAdd == keys[i];
      forall j: nat | j < |active| && keys[j] != keys[i] ensures active[j] != active[i] {
        assert active[j].semAdd == keys[j];
      }
    }

    /** Positions other than i hold their queues and share no process with position i. */
    lemma OthersHold(i: nat)
      requires Valid() && 0 < i < |active| - 1
      ensures keys[i] in queues && OthersIn(i, queues[keys[i]])
    {
      forall j: nat | 0 < j < |active| - 1 && j != i
        ensures keys[j] != keys[i] && active[j] != active[i] && HoldsIn(queues, j) &&
          Members(queues[keys[j]]) !! Members(queues[keys[i]])
      {
        assert Holds(j);
      }
    }

    /** p joins the queue of the descriptor at position i. */
    method Append(s: Semd, a: int, p: Pcb, ghost i: nat)
      requires Valid() && 0 < i < |active| - 1 && s == active[i] && keys[i] == a && p !in procs
      modifies `queues, `procs, s`procQ, procs`next, procs`prev, p`next, p`prev, p`semAdd
      ensures Valid() && queues == Enqueue(old(queues), a, p) && procs == old(procs) + {p} && p.semAdd == a
    {
      hide IsQueue, NoDup, Succ, NextOf, Ascending, IsInnerKey;
      assert Holds(i);
      OthersHold(i);
      KeysSame(keys, queues, a, queues[a] + [p]);
      AppendAt(s, a, p, queues[a], i);
    }

    /** p joins q, the queue of the descriptor at position i, on an otherwise valid list. */
    method AppendAt(s: Semd, a: int, p: Pcb, ghost q: seq<Pcb>, ghost i: nat)
      requires Lists() && Keyed() && Owned() && p !in procs && Waiters(queues, a) == q && Members(q) <= procs
      requires KeysOk(keys, Enqueue(queues, a, p)) && |keys| == |active|
      requires 0 < i < |active| - 1 && s == active[i] && keys[i] == a && IsQueue(s.procQ, q)
      requires OthersIn(i, q)
      modifies `queues, `procs, s`procQ, Members(q)`next, Members(q)`prev, p`next, p`prev, p`semAdd
      ensures Valid() && queues == Enqueue(old(queues), a, p) && procs == old(procs) + {p} && p.semAdd == a
    {
      hide IsQueue, NoDup, Succ, NextOf, KeysOk, Chain;
      ghost var m := queues;
      JoinApart(s, a, p, q, i);
      queues := Enqueue(queues, a, p);
      procs := procs + {p};
      OwnedWith(m, a, p);
      forall j: nat | 0 < j < |active| - 1 && j != i ensures HoldsIn(m, j) && keys[j] != a {
      }
      HoldsWith(m, a, p, i);
    }

    /** The positions other than i hold their queues and share no process with q. */
    ghost predicate OthersIn(i: nat, q: seq<Pcb>)
      requires 0 < i < |active| - 1 && |keys| == |active|
      reads `active, `keys, `queues, `procs, Members(active)`procQ, procs`next, procs`prev
    {
      forall j: nat :: 0 < j < |active| - 1 && j != i ==>
        keys[j] != keys[i] && active[j] != active[i] && HoldsIn(queues, j) && Members(queues[keys[j]]) !! Members(q)
    }

    /** insertProcQ on s's queue, and p_semAdd set; the lists are untouched. */
    method Join(s: Semd, a: int, p: Pcb, ghost q: seq<Pcb>)
      requires Lists() && Keyed() && IsQueue(s.procQ, q) && p !in q
      modifies s`procQ, Members(q)`next, Members(q)`prev, p`next, p`prev, p`semAdd
      ensures Lists() && Keyed() && IsQueue(s.procQ, q + [p]) && p.semAdd == a
    {
      s.procQ := InsertProcQ(s.procQ, p, q);
      p.semAdd := a;
    }

    /** As Join; the other descriptors' queues, having no process in common with q and not
        containing p, are untouched too. */
    method JoinApart(s: Semd, a: int, p: Pcb, ghost q: seq<Pcb>, ghost i: nat)
      requires Lists() && Keyed() && |keys| == |active| && IsQueue(s.procQ, q) && p !in q
      requires forall j: nat :: 0 < j < |active| - 1 && j != i ==>
        keys[j] in queues && IsQueue(active[j].procQ, queues[keys[j]]) && active[j] != s &&
        Members(queues[keys[j]]) !! Members(q) && p !in queues[keys[j]]
      modifies s`procQ, Members(q)`next, Members(q)`prev, p`next, p`prev, p`semAdd
      ensures Lists() && Keyed() && IsQueue(s.procQ, q + [p]) && p.semAdd == a
      ensures forall j: nat :: 0 < j < |active| - 1 && j != i ==> IsQueue(active[j].procQ, queues[keys[j]])
    {
      hide NoDup, Succ, NextOf;
      Join(s, a, p, q);
    }

    lemma OwnedWith(m: map<int, seq<Pcb>>, a: int, p: Pcb)
      requires forall b, x :: b in m && x in m[b] ==> x in procs && x != p && x.semAdd == b
      requires forall x :: x in procs && x != p ==> x.semAdd in m && x in m[x.semAdd]
      requires p in procs && p.semAdd == a && queues == Enqueue(m, a, p)
      ensures Owned()
    {
      assert queues[a] == Waiters(m, a) + [p];
    }

    lemma HoldsWith(m: map<int, seq<Pcb>>, a: int, p: Pcb, i: nat)
      requires 0 < i < |active| - 1 && |keys| == |active| && keys[i] == a && p in procs
      requires queues == Enqueue(m, a, p)
      requires forall j: nat :: 0 < j < |active| - 1 && j != i ==> HoldsIn(m, j) && keys[j] != a
      requires IsQueue(active[i].procQ, Waiters(m, a) + [p]) && Members(Waiters(m, a)) <= procs
      ensures forall j: nat :: Holds(j)
    {
      hide IsQueue;
      assert queues[a] == Waiters(m, a) + [p];
      forall j: nat ensures Holds(j) {
        if 0 < j < |active| - 1 && j != i {
          assert HoldsIn(m, j);
        }
      }
    }

    /** The descriptor at position j holds the queue that m has for its key. */
    ghost predicate HoldsIn(m: map<int, seq<Pcb>>, j: nat)
      requires 0 < j < |active| - 1 && |keys| == |active|
      reads `active, `keys, `procs, Members(active)`procQ, procs`next, procs`prev
    {
      keys[j] in m && Members(m[keys[j]]) <= procs && IsQueue(active[j].procQ, m[keys[j]])
    }

    /** p joins a's queue at the tail; full is reported, and nothing done, only if nobody
        waits on a and all maxProc descriptors besides the sentinels are in use. */
    method InsertBlocked(a: int, p: Pcb) returns (full: bool)
      requires Valid() && 0 <= a < NULLSEM && p !in procs
      modifies this, Members(active), Members(free), procs`next, procs`prev, p`next, p`prev, p`semAdd
      ensures Valid() && maxProc == old(maxProc)
      ensures full <==> a !in old(queues) && |old(queues)| == maxProc
      ensures full ==> queues == old(queues) && procs == old(procs) && p.semAdd == old(p.semAdd)
      ensures !full ==> queues == Enqueue(old(queues), a, p) && procs == old(procs) + {p} && p.semAdd == a
      ensures Descriptors() <= old(Descriptors())
    {
      hide NoDup, Succ, NextOf, Ascending, IsInnerKey, IsQueue, Chain;
      var temp; ghost var k;
      temp, k := SearchASL(a);
      if temp.next.semAdd == a {
        Append(temp.next, a, p, k + 1);
        full := false;
      } else {
        full := InsertFirst(temp, a, p, k);
      }
    }

    /** p is the first to wait on a: a descriptor is taken from the free stack, if there is one. */
    method InsertFirst(temp: Semd, a: int, p: Pcb, ghost k: nat) returns (full: bool)
      requires Valid() && k + 1 < |active| && temp == active[k] && 0 <= a < NULLSEM && a !in queues && p !in procs
      requires (k == 0 || keys[k] < a) && a < keys[k + 1]
      modifies `semdFree, `free, `active, `keys, `queues, `procs, Members(active)`next, Members(free), p`next, p`prev, p`semAdd
      ensures Valid()
      ensures full <==> |old(queues)| == maxProc
      ensures full ==> queues == old(queues) && procs == old(procs) && p.semAdd == old(p.semAdd)
      ensures !full ==> queues == Enqueue(old(queues), a, p) && procs == old(procs) + {p} && p.semAdd == a
      ensures Descriptors() <= old(Descriptors())
    {
      hide NoDup, Succ, NextOf, KeysOk, IsQueue, Chain, Enqueue, Descriptors;
      assert temp in Members(active);
      var temp2 := NewDescriptor(temp, a, k);
      if temp2 == null {
        full := true;
      } else {
        KeysInsert(old(keys), queues, a, k, [p]);
        EmptyQueue();
        DistinctAt(k + 1);
        EnqueueFirst(queues, a, p);
        AppendAt(temp2, a, p, [], k + 1);
        full := false;
      }
    }

    lemma EnqueueFirst(m: map<int, seq<Pcb>>, a: int, p: Pcb)
      requires a !in m
      ensures Enqueue(m, a, p) == m[a := [p]] && Waiters(m, a) == []
    {
      assert [] + [p] == [p];
    }

    /** A descriptor for a with an empty queue is linked in behind temp; NULL if none is free. */
    method NewDescriptor(temp: Semd, a: int, ghost k: nat) returns (t: Semd?)
      requires Valid() && k + 1 < |active| && temp == active[k] && 0 <= a < NULLSEM && a !in queues
      requires (k == 0 || keys[k] < a) && a < keys[k + 1]
      modifies `semdFree, `free, `active, `keys, temp`next, Members(free[..if free == [] then 0 else 1])
      ensures t == null <==> |queues| == maxProc
      ensures t == null ==> Valid()
      ensures t != null ==> t in old(free)
      ensures t != null ==> Lists() && Keyed() && Owned() && k + 1 < |active| - 1 && t == active[k + 1] && t.procQ == null
      ensures t != null ==> keys == old(keys[..k + 1]) + [a] + old(keys[k + 1..])
      ensures t != null ==> forall j: nat :: 0 < j < |active| - 1 && j != k + 1 ==> HoldsIn(queues, j) && keys[j] != a
      ensures Descriptors() <= old(Descriptors())
    {
      hide NoDup, Succ, NextOf, KeysOk, Waiters, Enqueue, IsQueue;
      ghost var f, q := free, active;
      KeyCount();
      EachHeld();
      t := AllocSemd();
      if t == null {
        assert f == [];
        NoneFree();
      } else {
        assert t == f[0] && f == [t] + free && t in f;
        LinkHeld(temp, t, a, k);
      }
      Rearranged(q, f);
    }

    lemma KeyCount()
      requires Valid()
      ensures |keys| == |queues| + 2
    {}

    lemma Rearranged(q: seq<Semd>, f: seq<Semd>)
      requires forall s :: s in active || s in free ==> s in q || s in f
      ensures Descriptors() <= Members(q) + Members(f)
    {}

    lemma NoneFree()
      requires Lists() && Keyed() && KeysOk(keys, queues) && Owned() && free == []
      requires forall i: nat :: 0 < i < |active| - 1 ==> HeldBy(active[i], keys[i])
      ensures Valid() && |queues| == maxProc
    {
      hide IsQueue, NoDup, Ascending, IsInnerKey, Chain;
      forall j: nat ensures Holds(j) {
        assert 0 < j < |active| - 1 ==> HeldBy(active[j], keys[j]);
      }
      assert |keys| == |queues| + 2;
    }

    method LinkHeld(temp: Semd, t: Semd, a: int, ghost k: nat)
      requires Chain(semd, active) && Chain(semdFree, free) && Keyed() && Owned()
      requires (forall s :: s in active ==> s !in free) && |active| + |free| == maxProc + 1
      requires t !in active && t !in free && k + 1 < |active| && temp == active[k] && a !in queues
      requires forall i: nat :: 0 < i < |active| - 1 ==> HeldBy(active[i], keys[i])
      modifies `active, `keys, temp`next, t
      ensures Lists() && Keyed() && Owned() && k + 1 < |active| - 1 && t == active[k + 1] && t.procQ == null
      ensures keys == old(keys[..k + 1]) + [a] + old(keys[k + 1..])
      ensures forall j: nat :: 0 < j < |active| - 1 && j != k + 1 ==> HoldsIn(queues, j) && keys[j] != a
      ensures active == old(active[..k + 1]) + [t] + old(active[k + 1..])
    {
      hide NoDup, Succ, NextOf;
      ghost var q, ks := active, keys;
      LinkBehind(temp, t, a, k);
      assert forall i: nat :: 0 < i < |q| - 1 ==> HeldBy(q[i], ks[i]);
      Reindex(q, ks, k, t, a);
    }

    lemma EachHeld()
      requires Valid()
      ensures forall i: nat :: 0 < i < |active| - 1 ==> HeldBy(active[i], keys[i])
    {
      hide IsQueue, NoDup, Ascending, IsInnerKey;
      forall i: nat | 0 < i < |active| - 1 ensures HeldBy(active[i], keys[i]) {
        assert Holds(i);
      }
    }

    /** s holds the queue that the map has for key a. */
    ghost predicate HeldBy(s: Semd, a: int)
      reads `queues, `procs, s`procQ, procs`next, procs`prev
    {
      a in queues && Members(queues[a]) <= procs && IsQueue(s.procQ, queues[a])
    }

    lemma Reindex(q: seq<Semd>, ks: seq<int>, k: nat, t: Semd, a: int)
      requires |q| == |ks| && k + 1 < |q| && a !in queues
      requires active == q[..k + 1] + [t] + q[k + 1..] && keys == ks[..k + 1] + [a] + ks[k + 1..]
      requires forall i: nat :: 0 < i < |q| - 1 ==> HeldBy(q[i], ks[i])
      ensures forall j: nat :: 0 < j < |active| - 1 && j != k + 1 ==> HoldsIn(queues, j) && keys[j] != a
    {
      hide IsQueue;
      forall j: nat | 0 < j < |active| - 1 && j != k + 1 ensures HoldsIn(queues, j) && keys[j] != a {
        var i := if j <= k then j else j - 1;
        assert active[j] == q[i] && keys[j] == ks[i] && HeldBy(q[i], ks[i]);
      }
    }

    /** The fresh descriptor t enters the list behind temp. */
    method LinkBehind(temp: Semd, t: Semd, a: int, ghost k: nat)
      requires Chain(semd, active) && Chain(semdFree, free) && Keyed()
      requires (forall s :: s in active ==> s !in free) && |active| + |free| == maxProc + 1
      requires t !in active && t !in free && k + 1 < |active| && temp == active[k]
      modifies `active, `keys, temp`next, t
      ensures Lists() && Keyed() && t.procQ == null
      ensures active == old(active[..k + 1]) + [t] + old(active[k + 1..])
      ensures keys == old(keys[..k + 1]) + [a] + old(keys[k + 1..])
    {
      ghost var q, ks := active, keys;
      assert temp in q && temp !in free;
      assert q[k].next == NextOf(q, k);
      t.semAdd := a;
      t.procQ := MkEmptyProcQ();
      t.next := temp.next;
      temp.next := t;
      active := q[..k + 1] + [t] + q[k + 1..];
      keys := ks[..k + 1] + [a] + ks[k + 1..];
      InsertNoDup(q, k + 1, t);
      assert forall i {:trigger q[i].next} :: 0 <= i < |q| && i != k ==> q[i].next == NextOf(q, i);
      ChainInsert(semd, q, k, t);
      KeyedInsert(q, ks, k, t, a);
      assert Chain(semdFree, free);
    }

    lemma KeyedInsert(q: seq<Semd>, ks: seq<int>, k: nat, t: Semd, a: int)
      requires |q| == |ks| && k + 1 < |q| && t.semAdd == a
      requires active == q[..k + 1] + [t] + q[k + 1..] && keys == ks[..k + 1] + [a] + ks[k + 1..]
      requires forall i {:trigger q[i].semAdd} :: 0 <= i < |q| ==> q[i].semAdd == ks[i]
      ensures Keyed()
    {
      forall i | 0 <= i < |keys| ensures active[i].semAdd == keys[i] {
        assert i <= k ==> active[i] == q[i] && q[i].semAdd == ks[i];
        assert i > k + 1 ==> active[i] == q[i - 1] && q[i - 1].semAdd == ks[i - 1];
      }
    }

    // ---- removeBlocked and outBlocked ----

    /** The head of a's queue leaves it, and is returned; a descriptor whose queue becomes
        empty is recycled. p_semAdd keeps its value. */
    method RemoveBlocked(a: int) returns (p: Pcb?)
      requires Valid() && 0 <= a < NULLSEM
      modifies this, Members(active)`next, Members(active)`procQ, procs`next, procs`prev
      ensures Valid() && maxProc == old(maxProc)
      ensures a !in old(queues) ==> p == null && queues == old(queues) && procs == old(procs)
      ensures a in old(queues) ==> Waiters(old(queues), a) != [] && p == old(queues)[a][0]
      ensures a in old(queues) ==> queues == Dequeue(old(queues), a) && procs == old(procs) - {p}
      ensures Descriptors() <= old(Descriptors())
    {
      hide NoDup, Succ, NextOf, Ascending, IsInnerKey;
      var temp; ghost var k;
      temp, k := SearchASL(a);
      if temp.next.semAdd == a {
        OthersHold(k + 1);
        ghost var q := queues[a];
        p := TakeHead(temp.next, q, k + 1);
        HeadGone(q);
        Settle(temp, k, a, q[1..], {p});
      } else {
        p := null;
      }
    }

    /** p leaves the queue of the semaphore it says it waits on; NULL, and nothing done, if
        it is not in that queue. */
    method OutBlocked(p: Pcb) returns (out: Pcb?)
      requires Valid() && 0 <= p.semAdd < NULLSEM
      modifies this, Members(active)`next, Members(active)`procQ, procs`next, procs`prev
      ensures Valid() && maxProc == old(maxProc)
      ensures out == if p in old(procs) then p else null
      ensures queues == Unqueue(old(queues), p.semAdd, p) && procs == old(procs) - {p}
      ensures Descriptors() <= old(Descriptors())
    {
      hide NoDup, Succ, NextOf, Ascending, IsInnerKey, Delete, SetQueue;
      var temp; ghost var k;
      temp, k := SearchASL(p.semAdd);
      if temp.next.semAdd == p.semAdd {
        OthersHold(k + 1);
        ghost var q := queues[p.semAdd];
        out := TakeOut(temp.next, p, q, k + 1);
        MemberGone(q, p);
        Settle(temp, k, p.semAdd, Delete(q, p), if p in q then {p} else {});
      } else {
        out := null;
        NotQueued(queues, p.semAdd, p);
      }
    }

    lemma HeadGone(q: seq<Pcb>)
      requires NoDup(q) && q != []
      ensures Members(q[1..]) == Members(q) - {q[0]}
    {
      assert q == [q[0]] + q[1..];
    }

    lemma NotQueued(m: map<int, seq<Pcb>>, a: int, p: Pcb)
      requires a !in m
      ensures Unqueue(m, a, p) == m
    {
      assert m - {a} == m;
    }

    lemma MemberGone(q: seq<Pcb>, p: Pcb)
      requires NoDup(q)
      ensures Members(Delete(q, p)) == Members(q) - (if p in q then {p} else {})
    {
      DeleteMembers(q, p);
    }

    /** removeProcQ on the queue of the descriptor at position i. */
    method TakeHead(s: Semd, ghost q: seq<Pcb>, ghost i: nat) returns (p: Pcb?)
      requires Lists() && Keyed() && Owned() && |keys| == |active| && 0 < i < |active| - 1 && s == active[i]
      requires q != [] && IsQueue(s.procQ, q) && OthersIn(i, q)
      modifies s`procQ, Members(q)`next, Members(q)`prev
      ensures Lists() && Keyed() && Owned() && OthersIn(i, q) && NoDup(q)
      ensures p == q[0] && IsQueue(s.procQ, q[1..])
    {
      hide NoDup, Succ, NextOf;
      s.procQ, p := RemoveProcQ(s.procQ, q);
    }

    /** outProcQ on the queue of the descriptor at position i. */
    method TakeOut(s: Semd, p: Pcb, ghost q: seq<Pcb>, ghost i: nat) returns (out: Pcb?)
      requires Lists() && Keyed() && Owned() && |keys| == |active| && 0 < i < |active| - 1 && s == active[i]
      requires IsQueue(s.procQ, q) && OthersIn(i, q)
      modifies s`procQ, Members(q)`next, Members(q)`prev
      ensures Lists() && Keyed() && Owned() && OthersIn(i, q) && NoDup(q)
      ensures out == (if p in q then p else null) && IsQueue(s.procQ, Delete(q, p))
    {
      hide NoDup, Succ, NextOf;
      s.procQ, out := OutProcQ(s.procQ, p, q);
    }

    /** a's queue has become q', without the processes gone: the descriptor behind temp is
        recycled if q' is empty. */
    method Settle(temp: Semd, ghost k: nat, ghost a: int, ghost q': seq<Pcb>, ghost gone: set<Pcb>)
      requires Lists() && Keyed() && Owned() && KeysOk(keys, queues) && k + 2 < |active| && temp == active[k]
      requires temp.next == active[k + 1] && keys[k + 1] == a && a in queues && Members(queues[a]) <= procs
      requires OthersIn(k + 1, queues[a]) && IsQueue(active[k + 1].procQ, q')
      requires Members(q') == Members(queues[a]) - gone && gone <= Members(queues[a])
      modifies `queues, `procs, `active, `keys, `free, `semdFree, Members(active)`next
      ensures Valid() && queues == SetQueue(old(queues), a, q') && procs == old(procs) - gone
      ensures Descriptors() <= old(Descriptors())
    {
      if temp.next.procQ == null {
        assert forall p :: p in Members(queues[a]) ==> p in Members(q') || p in gone;
        assert Members(q') == {} && Members(queues[a]) == gone;
        Recycle(temp, k, a, gone);
      } else {
        Shrink(k, a, q', gone);
      }
    }

    /** Nobody waits on a any more: the descriptor behind temp goes back to the free stack. */
    method Recycle(temp: Semd, ghost k: nat, ghost a: int, ghost gone: set<Pcb>)
      requires Lists() && Keyed() && Owned() && KeysOk(keys, queues) && k + 2 < |active| && temp == active[k]
      requires temp.next == active[k + 1] && keys[k + 1] == a && a in queues && Members(queues[a]) == gone && gone <= procs
      requires OthersIn(k + 1, queues[a])
      modifies `queues, `procs, `active, `keys, `free, `semdFree, Members(active)`next
      ensures Valid() && queues == old(queues) - {a} && procs == old(procs) - gone
      ensures Descriptors() <= old(Descriptors())
    {
      hide NoDup, Succ, NextOf, Ascending, IsInnerKey, IsQueue;
      ghost var q, ks := active, keys;
      UnlinkApart(temp, k, a);
      Forget(q, ks, k, a, gone);
    }

    /** The map drops a, whose descriptor has been unlinked from the former list q. */
    ghost method Forget(q: seq<Semd>, ks: seq<int>, k: nat, a: int, gone: set<Pcb>)
      requires Lists() && Keyed() && Owned() && |q| == |ks| && k + 2 < |q| && KeysOk(ks, queues) && ks[k + 1] == a
      requires active == q[..k + 1] + q[k + 2..] && keys == ks[..k + 1] + ks[k + 2..]
      requires a in queues && Members(queues[a]) == gone && gone <= procs
      requires forall j: nat :: 0 < j < |q| - 1 && j != k + 1 ==> StillHeld(q, ks, a, j)
      modifies `queues, `procs
      ensures Valid() && queues == old(queues) - {a} && procs == old(procs) - gone
    {
      hide NoDup, Succ, NextOf, Ascending, IsInnerKey;
      ghost var m := queues;
      KeysCut(ks, m, k);
      forall j: nat | 0 < j < |q| - 1 && j != k + 1
        ensures ks[j] != a && ks[j] in m && Members(m[ks[j]]) <= procs - gone && IsQueue(q[j].procQ, m[ks[j]])
      {
        assert StillHeld(q, ks, a, j);
      }
      queues := m - {a};
      procs := procs - gone;
      OwnedWithout(m, a, [], gone);
      CutHolds(q, ks, k, m);
    }

    method UnlinkApart(temp: Semd, ghost k: nat, ghost a: int)
      requires Lists() && Keyed() && Owned() && KeysOk(keys, queues) && k + 2 < |active| && temp == active[k]
      requires temp.next == active[k + 1] && keys[k + 1] == a && a in queues && OthersIn(k + 1, queues[a])
      modifies `active, `keys, `free, `semdFree, Members(active)`next
      ensures Lists() && Keyed() && Owned()
      ensures active == old(active[..k + 1]) + old(active[k + 2..])
      ensures keys == old(keys[..k + 1]) + old(keys[k + 2..])
      ensures forall j: nat :: 0 < j < |old(active)| - 1 && j != k + 1 ==> StillHeld(old(active), old(keys), a, j)
      ensures Descriptors() <= old(Descriptors())
    {
      hide NoDup, Succ, NextOf, Ascending, IsInnerKey;
      ghost var q, ks := active, keys;
      assert forall j: nat :: 0 < j < |q| - 1 && j != k + 1 ==> HoldsIn(queues, j);
      assert forall j: nat :: 0 < j < |q| - 1 && j != k + 1 ==> StillHeld(q, ks, a, j);
      Unlink(temp, k);
    }

    /** Position j of the former list q holds its queue, which has no process of a's queue. */
    ghost predicate StillHeld(q: seq<Semd>, ks: seq<int>, a: int, j: nat)
      requires j < |q| && |ks| == |q|
      reads `queues, `procs, Members(q)`procQ, procs`next, procs`prev
    {
      && a in queues && ks[j] in queues && ks[j] != a
      && Members(queues[ks[j]]) <= procs && IsQueue(q[j].procQ, queues[ks[j]])
      && Members(queues[ks[j]]) !! Members(queues[a])
    }

    lemma CutHolds(q: seq<Semd>, ks: seq<int>, k: nat, m: map<int, seq<Pcb>>)
      requires |q| == |ks| && k + 2 < |q|
      requires active == q[..k + 1] + q[k + 2..] && keys == ks[..k + 1] + ks[k + 2..]
      requires ks[k + 1] in m && queues == m - {ks[k + 1]}
      requires forall j: nat :: 0 < j < |q| - 1 && j != k + 1 ==>
        ks[j] != ks[k + 1] && ks[j] in m && Members(m[ks[j]]) <= procs && IsQueue(q[j].procQ, m[ks[j]])
      ensures forall j: nat :: Holds(j)
    {
      hide IsQueue;
      forall j: nat ensures Holds(j) {
        if 0 < j < |active| - 1 {
          var i := if j <= k then j else j + 1;
          assert active[j] == q[i] && keys[j] == ks[i];
        }
      }
    }

    /** The descriptor behind temp leaves the active list for the free stack. */
    method Unlink(temp: Semd, ghost k: nat)
      requires Lists() && Keyed() && k + 2 < |active| && temp == active[k] && temp.next == active[k + 1]
      modifies `active, `keys, `free, `semdFree, Members(active)`next
      ensures Lists() && Keyed()
      ensures active == old(active[..k + 1]) + old(active[k + 2..])
      ensures keys == old(keys[..k + 1]) + old(keys[k + 2..])
      ensures Descriptors() <= old(Descriptors())
    {
      ghost var q, ks := active, keys;
      var temp3 := temp.next;
      assert temp in Members(q) && temp3 in Members(q) && temp !in free && temp3 !in free && temp != temp3;
      assert q[k + 1].next == NextOf(q, k + 1);
      temp.next := temp.next.next;
      assert forall i {:trigger q[i].next} :: 0 <= i < |q| && i != k && i != k + 1 ==> q[i].next == NextOf(q, i);
      ChainCut(semd, q, k);
      CutMembers(q, k + 1);
      active := q[..k + 1] + q[k + 2..];
      keys := ks[..k + 1] + ks[k + 2..];
      assert temp3 !in active;
      FreeSemd(temp3);
      KeyedCut(q, ks, k);
    }

    lemma KeyedCut(q: seq<Semd>, ks: seq<int>, k: nat)
      requires |q| == |ks| && k + 2 < |q|
      requires active == q[..k + 1] + q[k + 2..] && keys == ks[..k + 1] + ks[k + 2..]
      requires forall i {:trigger q[i].semAdd} :: 0 <= i < |q| ==> q[i].semAdd == ks[i]
      ensures Keyed()
    {
      forall i | 0 <= i < |keys| ensures active[i].semAdd == keys[i] {
        var j := if i <= k then i else i + 1;
        assert active[i] == q[j] && q[j].semAdd == ks[j];
      }
    }

    ghost method Shrink(k: nat, a: int, q': seq<Pcb>, gone: set<Pcb>)
      requires Lists() && Keyed() && Owned() && KeysOk(keys, queues) && k + 2 < |active|
      requires keys[k + 1] == a && a in queues && Members(queues[a]) <= procs && q' != []
      requires OthersIn(k + 1, queues[a]) && IsQueue(active[k + 1].procQ, q')
      requires Members(q') == Members(queues[a]) - gone && gone <= Members(queues[a])
      modifies `queues, `procs
      ensures Valid() && queues == SetQueue(old(queues), a, q') && procs == old(procs) - gone
    {
      hide NoDup, Succ, NextOf, Ascending, IsInnerKey;
      ghost var m := queues;
      assert forall j: nat :: 0 < j < |active| - 1 && j != k + 1 ==> keys[j] != a && HoldsIn(m, j) && Members(m[keys[j]]) !! gone;
      KeysSame(keys, m, a, q');
      queues := m[a := q'];
      procs := procs - gone;
      forall j: nat ensures Holds(j) {
      }
      OwnedWithout(m, a, q', gone);
    }

    lemma OwnedWithout(m: map<int, seq<Pcb>>, a: int, q': seq<Pcb>, gone: set<Pcb>)
      requires a in m && queues == SetQueue(m, a, q') && Members(q') == Members(m[a]) - gone && gone <= Members(m[a])
      requires procs !! gone
      requires forall b, p :: b in m && p in m[b] ==> p in procs + gone && p.semAdd == b
      requires forall p :: p in procs + gone ==> p.semAdd in m && p in m[p.semAdd]
      ensures Owned()
    {
      assert forall p :: p in q' <==> p in Members(q');
      assert forall p :: p in m[a] <==> p in Members(m[a]);
      assert forall p :: p in q' <==> p in m[a] && p !in gone;
      assert forall p :: p in gone ==> p.semAdd == a;
      forall b, p | b in queues && p in queues[b] ensures p in procs && p.semAdd == b {
        assert queues[b] == if b == a then q' else m[b];
        assert b in m && p in m[b];
        assert p in procs + gone;
      }
      forall p | p in procs ensures p.semAdd in queues && p in queues[p.semAdd] {
        assert p in procs + gone && p !in gone;
        assert p.semAdd in m && p in m[p.semAdd];
      }
    }
  }

  lemma SentinelKeys()
    ensures KeysOk([0, NULLSEM], map[])
  {
  }

  lemma EmptyQueue()
    ensures IsQueue(null, [])
  {
  }
}
