/** pcb.c on the heap: circular doubly linked process queues reached through their tail,
    the free list, and the intrusive process tree. */
module Pcbs {
  import opened Queues
  import opened Processor

  const NULLSEM: int := NULLADDR
  const NOAREAS: seq<int> := [NULLADDR, NULLADDR, NULLADDR]

  class Pcb {
    var next: Pcb?
    var prev: Pcb?
    var prnt: Pcb?
    var child: Pcb?
    var sibPrev: Pcb?
    var sibNext: Pcb?
    var state: Cpu             // p_s
    var semAdd: int
    var totalTime: int
    var oldAreas: seq<int>     // addresses of state areas, by exception type
    var newAreas: seq<int>

    /** A table entry in static memory, before allocPcb has ever cleared it: all zeros. */
    constructor (zero: Cpu)
      ensures NeverAllocated(zero)
    {
      next, prev, prnt, child, sibPrev, sibNext := null, null, null, null, null, null;
      state, semAdd, totalTime, oldAreas, newAreas := zero, 0, 0, [0, 0, 0], [0, 0, 0];
    }

    predicate NeverAllocated(zero: Cpu)
      reads `prnt, `child, `sibPrev, `sibNext, `state, `semAdd, `totalTime, `oldAreas, `newAreas
    {
      && prnt == null && child == null && sibPrev == null && sibNext == null
      && state == zero && semAdd == 0 && totalTime == 0 && oldAreas == [0, 0, 0] && newAreas == [0, 0, 0]
    }

    /** Unlinked, waiting for nothing, without processor time and exception vectors. */
    predicate IsClear()
      reads this
    {
      && next == null && prev == null && prnt == null && child == null && sibPrev == null && sibNext == null
      && semAdd == NULLSEM && totalTime == 0 && oldAreas == NOAREAS && newAreas == NOAREAS
    }

    /** allocPcb's initialisation: every field but the processor state gets its NULL. */
    method Clear()
      requires |oldAreas| == |newAreas| == NUMEXCEPTIONTYPES
      modifies `next, `prev, `prnt, `child, `sibPrev, `sibNext, `semAdd, `totalTime, `oldAreas, `newAreas
      ensures IsClear()
    {
      prev := null;
      next := null;
      prnt := null;
      child := null;
      sibPrev := null;
      sibNext := null;
      semAdd := NULLSEM;
      totalTime := 0;
      var i := 0;
      while i < NUMEXCEPTIONTYPES
        invariant 0 <= i <= NUMEXCEPTIONTYPES == |oldAreas| == |newAreas|
        invariant forall j :: 0 <= j < i ==> oldAreas[j] == NULLADDR && newAreas[j] == NULLADDR
        modifies `oldAreas, `newAreas
      {
        oldAreas := oldAreas[i := NULLADDR];
        newAreas := newAreas[i := NULLADDR];
        i := i + 1;
      }
    }
  }

  // ---- process queues ----

  function Succ(q: seq<Pcb>, i: nat): Pcb
    requires i < |q|
  {
    if i + 1 == |q| then q[0] else q[i + 1]
  }

  /** tp is the tail pointer of the circular list holding q, head first. */
  ghost predicate IsQueue(tp: Pcb?, q: seq<Pcb>)
    reads Members(q)`next, Members(q)`prev
  {
    && NoDup(q)
    && (tp == null <==> q == [])
    && (q != [] ==> tp == q[|q| - 1])
    && (forall i :: 0 <= i < |q| ==> q[i].next == Succ(q, i))
    && (forall i :: 0 <= i < |q| ==> Succ(q, i).prev == q[i])
  }

  method MkEmptyProcQ() returns (tp: Pcb?)
    ensures IsQueue(tp, [])
  {
    tp := null;
  }

  method EmptyProcQ(tp: Pcb?, ghost q: seq<Pcb>) returns (empty: bool)
    requires IsQueue(tp, q)
    ensures empty <==> q == []
  {
    empty := tp == null;
  }

  method HeadProcQ(tp: Pcb?, ghost q: seq<Pcb>) returns (head: Pcb?)
    requires IsQueue(tp, q)
    ensures q == [] ==> head == null
    ensures q != [] ==> head == q[0]
  {
    if tp == null {
      head := null;
    } else {
      head := tp.next;
    }
  }

  /** p becomes the new tail. */
  method InsertProcQ(tp: Pcb?, p: Pcb, ghost q: seq<Pcb>) returns (tp': Pcb?)
    requires IsQueue(tp, q) && p !in q
    modifies p`next, p`prev, Members(q)`next, Members(q)`prev
    ensures IsQueue(tp', q + [p])
  {
    if tp == null {
      tp' := p;
      p.prev := p;
      p.next := p;
    } else {
      assert q[0] in Members(q) && q[|q| - 1] in Members(q);
      p.next := tp.next;
      tp.next.prev := p;
      p.prev := tp;
      tp.next := p;
      tp' := p;
    }
    AppendNoDup(q, p);
  }

  /** The head leaves the queue; its own links go stale. */
  method RemoveProcQ(tp: Pcb?, ghost q: seq<Pcb>) returns (tp': Pcb?, head: Pcb?)
    requires IsQueue(tp, q)
    modifies Members(q)`next, Members(q)`prev
    ensures q == [] ==> head == null && tp' == null
    ensures q != [] ==> head == q[0] && IsQueue(tp', q[1..])
    ensures |q| > 1 ==> tp' == tp
  {
    if tp == null {
      return null, null;
    }
    assert q[0] in Members(q) && q[|q| - 1] in Members(q);
    if tp == tp.next {
      SelfLoop(tp, q);
      head := tp;
      tp' := null;
    } else {
      head := tp.next;
      assert q[1] in Members(q);
      tp.next := tp.next.next;
      tp.next.prev := tp;
      tp' := tp;
    }
  }

  lemma SelfLoop(tp: Pcb?, q: seq<Pcb>)
    requires IsQueue(tp, q) && tp != null && tp.next == tp
    ensures |q| == 1
  {
    assert q[|q| - 1].next == Succ(q, |q| - 1);
  }

  /** A circular list may be entered anywhere: with the tail pointer at the element before
      position k it holds the rotated sequence. */
  lemma Rotate(tp: Pcb?, q: seq<Pcb>, k: nat)
    requires IsQueue(tp, q) && 0 < k < |q|
    ensures IsQueue(q[k - 1], q[k..] + q[..k])
  {
    var n, r := |q|, q[k..] + q[..k];
    assert forall i :: 0 <= i < n ==> r[i] == q[if i < n - k then i + k else i - (n - k)];
    forall i | 0 <= i < n ensures r[i].next == Succ(r, i) && Succ(r, i).prev == r[i] {
      var j := if i < n - k then i + k else i - (n - k);
      assert r[i] == q[j] && Succ(r, i) == Succ(q, j);
      assert q[j].next == Succ(q, j);
      assert Succ(q, j).prev == q[j];
    }
  }

  lemma Unrotate(t: Pcb?, q: seq<Pcb>, k: nat)
    requires NoDup(q) && 0 < k < |q| && IsQueue(t, q[k..] + q[..k])
    ensures IsQueue(q[|q| - 1], q)
  {
    var n, r := |q|, q[k..] + q[..k];
    forall i | 0 <= i < n ensures q[i].next == Succ(q, i) && Succ(q, i).prev == q[i] {
      var j := if i >= k then i - k else i + (n - k);
      assert r[j] == q[i] && Succ(r, j) == Succ(q, i);
      assert r[j].next == Succ(r, j);
      assert Succ(r, j).prev == r[j];
    }
  }

  /** p leaves the queue from wherever it is; NULL is returned and nothing changes if it is
      not there. The loop searches from the tail once around the circle. */
  method OutProcQ(tp: Pcb?, p: Pcb, ghost q: seq<Pcb>) returns (tp': Pcb?, out: Pcb?)
    requires IsQueue(tp, q)
    modifies Members(q)`next, Members(q)`prev
    ensures out == if p in q then p else null
    ensures IsQueue(tp', Delete(q, p))
    ensures p !in q ==> tp' == tp && forall x :: x in q ==> x.next == old(x.next) && x.prev == old(x.prev)
  {
    if tp == null {
      return tp, null;
    }
    assert q[0] in Members(q) && q[|q| - 1] in Members(q);
    if tp == tp.next {
      SelfLoop(tp, q);
      if tp == p {
        tp', out := RemoveProcQ(tp, q);
        assert Delete(q, p) == q[1..];
      } else {
        return tp, null;
      }
    } else if tp == p {
      tp', out := OutTail(tp, q);
      IndexIs(q, |q| - 1);
      assert Delete(q, p) == q[..|q| - 1];
    } else {
      var current: Pcb := tp;
      var atTail := false;
      ghost var i := -1;
      while !atTail
        invariant -1 <= i < |q|
        invariant i == -1 ==> current == tp && !atTail
        invariant i >= 0 ==> current == q[i]
        invariant atTail <==> i == |q| - 1
        invariant forall j :: 0 <= j < i || (j == i && atTail) ==> q[j] != p
        decreases |q| - i
      {
        if current == p {
          IndexIs(q, i);
          out := OutInner(tp, current, q, i);
          tp' := tp;
          return;
        }
        assert current in Members(q);
        current := current.next;
        i := i + 1;
        atTail := current == tp;
      }
      return tp, null;
    }
  }

  /** The tail leaves: step the tail pointer back, and the old tail is the head. */
  method OutTail(tp: Pcb?, ghost q: seq<Pcb>) returns (tp': Pcb?, out: Pcb?)
    requires IsQueue(tp, q) && |q| > 1
    modifies Members(q)`next, Members(q)`prev
    ensures out == tp && IsQueue(tp', q[..|q| - 1])
  {
    var n := |q|;
    assert q[n - 1] in Members(q);
    assert Succ(q, n - 2).prev == q[n - 2];
    ghost var r := q[n - 1..] + q[..n - 1];
    Rotate(tp, q, n - 1);
    assert Members(r) == Members(q) by { assert q == q[..n - 1] + q[n - 1..]; }
    tp', out := RemoveProcQ(tp.prev, r);
    assert r[1..] == q[..n - 1];
  }

  lemma RotateCut<T>(q: seq<T>, i: nat)
    requires 0 < i && i + 1 < |q|
    ensures (q[i..] + q[..i])[1..] == (q[..i] + q[i + 1..])[i..] + (q[..i] + q[i + 1..])[..i]
    ensures (q[i..] + q[..i])[0] == q[i]
    ensures Members(q[i..] + q[..i]) == Members(q)
  {
    assert q == q[..i] + q[i..];
    assert (q[..i] + q[i + 1..])[i..] == q[i + 1..];
    assert (q[..i] + q[i + 1..])[..i] == q[..i];
    assert (q[i..] + q[..i])[1..] == q[i + 1..] + q[..i];
  }

  /** current, at position i and not the tail, leaves: it is the head of the list seen from
      its predecessor. */
  method OutInner(tp: Pcb?, current: Pcb, ghost q: seq<Pcb>, ghost i: nat) returns (out: Pcb?)
    requires IsQueue(tp, q) && i + 1 < |q| && current == q[i]
    modifies Members(q)`next, Members(q)`prev
    ensures out == current && IsQueue(tp, q[..i] + q[i + 1..])
  {
    assert current in Members(q);
    var temp := current.prev;
    ghost var r := if i == 0 then q else q[i..] + q[..i];
    EnterAt(tp, q, i);
    temp, out := RemoveProcQ(temp, r);
    LeaveAt(temp, q, i, tp);
  }

  /** The list seen from the element before position i. */
  lemma EnterAt(tp: Pcb?, q: seq<Pcb>, i: nat)
    requires IsQueue(tp, q) && i + 1 < |q|
    ensures var r := if i == 0 then q else q[i..] + q[..i];
      IsQueue(q[i].prev, r) && r[0] == q[i] && Members(r) == Members(q)
  {
    if i == 0 {
      assert Succ(q, |q| - 1).prev == q[|q| - 1];
    } else {
      Rotate(tp, q, i);
      RotateCut(q, i);
      assert Succ(q, i - 1).prev == q[i - 1];
    }
  }

  lemma LeaveAt(t: Pcb?, q: seq<Pcb>, i: nat, tp: Pcb?)
    requires NoDup(q) && i + 1 < |q| && tp == q[|q| - 1]
    requires IsQueue(t, (if i == 0 then q else q[i..] + q[..i])[1..])
    ensures IsQueue(tp, q[..i] + q[i + 1..])
  {
    if i == 0 {
      assert q[..i] + q[i + 1..] == q[1..];
    } else {
      RotateCut(q, i);
      CutMembers(q, i);
      Unrotate(t, q[..i] + q[i + 1..], i);
    }
  }

  // ---- the free list ----

  class PcbPool {
    var pcbList: Pcb?
    ghost var free: seq<Pcb>

    ghost predicate Valid()
      reads this, Members(free)`next, Members(free)`prev
    {
      IsQueue(pcbList, free)
    }

    twostate lemma Keeps()
      requires old(Valid()) && pcbList == old(pcbList) && free == old(free)
      requires forall p :: p in free ==> p.next == old(p.next) && p.prev == old(p.prev)
      ensures Valid()
    {}

    /** initPcbs: every entry of the static process table is free. */
    constructor (maxProc: nat, zero: Cpu)
      ensures Valid() && |free| == maxProc && fresh(Members(free))
      ensures forall p :: p in free ==> p.NeverAllocated(zero)
    {
      pcbList := null;
      free := [];
      new;
      var i := 0;
      while i < maxProc
        invariant i <= maxProc && Valid() && |free| == i && fresh(this) && fresh(Members(free))
        invariant forall p :: p in free ==> p.NeverAllocated(zero)
      {
        hide Valid, Pcb.NeverAllocated;
        FreeNew(zero);
        i := i + 1;
      }
    }

    /** A further table entry, free. */
    method FreeNew(zero: Cpu)
      requires Valid()
      modifies this, Members(free)`next, Members(free)`prev
      ensures Valid() && exists p: Pcb :: fresh(p) && free == old(free) + [p] && p.NeverAllocated(zero)
    {
      hide IsQueue;
      var p := new Pcb(zero);
      label made:
      Keeps@made();
      FreePcb(p);
    }

    method FreePcb(p: Pcb)
      requires Valid() && p !in free
      modifies this, p`next, p`prev, Members(free)`next, Members(free)`prev
      ensures Valid() && free == old(free) + [p]
    {
      pcbList := InsertProcQ(pcbList, p, free);
      free := free + [p];
    }

    /** The head of the free list with every field but the processor state cleared, or NULL if
        there is none. */
    method AllocPcb() returns (p: Pcb?)
      requires Valid() && forall x :: x in free ==> |x.oldAreas| == |x.newAreas| == NUMEXCEPTIONTYPES
      modifies this, Members(free[..if free == [] then 0 else 1]), Members(free)`next, Members(free)`prev
      ensures Valid()
      ensures old(free) == [] ==> p == null && free == []
      ensures old(free) != [] ==> p == old(free)[0] && free == old(free)[1..] && p !in free
      ensures p != null ==> p.IsClear() && Unattached(p)
      ensures old(free) != [] ==> p.state == old(free[0].state)
    {
      if pcbList == null {
        return null;
      }
      assert free[0] in Members(free[..1]);
      p := TakeHead();
      p.Clear();
    }

    method TakeHead() returns (p: Pcb)
      requires Valid() && free != []
      modifies this, Members(free)`next, Members(free)`prev
      ensures Valid() && p == old(free)[0] && free == old(free)[1..] && p !in Members(free)
    {
      var head;
      pcbList, head := RemoveProcQ(pcbList, free);
      free := free[1..];
      p := head;
    }
  }

  // ---- the process tree ----

  predicate Unattached(p: Pcb)
    reads p`prnt, p`sibPrev, p`sibNext
  {
    p.prnt == null && p.sibPrev == null && p.sibNext == null
  }

  function PrevSib(ch: seq<Pcb>, i: nat): Pcb?
    requires i < |ch|
  {
    if i == 0 then null else ch[i - 1]
  }

  function NextSib(ch: seq<Pcb>, i: nat): Pcb?
    requires i < |ch|
  {
    if i + 1 == |ch| then null else ch[i + 1]
  }

  /** ch are prnt's children, first child first: a NULL-terminated doubly linked list. */
  ghost predicate Siblings(prnt: Pcb, ch: seq<Pcb>)
    reads prnt`child, Members(ch)`prnt, Members(ch)`sibPrev, Members(ch)`sibNext
  {
    && NoDup(ch)
    && prnt.child == (if ch == [] then null else ch[0])
    && (forall i {:trigger ch[i].prnt} :: 0 <= i < |ch| ==> ch[i].prnt == prnt)
    && (forall i {:trigger ch[i].sibPrev} :: 0 <= i < |ch| ==> ch[i].sibPrev == PrevSib(ch, i))
    && (forall i {:trigger ch[i].sibNext} :: 0 <= i < |ch| ==> ch[i].sibNext == NextSib(ch, i))
  }

  /** Every process's children are linked as kids says, and they rank after their parent,
      so that no process is its own ancestor. */
  ghost predicate IsForest(kids: map<Pcb, seq<Pcb>>, rank: map<Pcb, nat>)
    reads kids.Keys`child, kids.Keys`prnt, kids.Keys`sibPrev, kids.Keys`sibNext
  {
    && kids.Keys <= rank.Keys
    && (forall p :: p in kids ==> Members(kids[p]) <= kids.Keys)
    && (forall p :: p in kids ==> Siblings(p, kids[p]))
    && (forall p, c :: p in kids && c in kids[p] ==> c in rank && rank[p] < rank[c])
  }

  method EmptyChild(p: Pcb, ghost ch: seq<Pcb>) returns (empty: bool)
    requires Siblings(p, ch)
    ensures empty <==> ch == []
  {
    empty := p.child == null;
  }

  /** p, fresh from allocPcb, becomes prnt's first child. */
  method InsertChild(prnt: Pcb, p: Pcb, ghost ch: seq<Pcb>)
    requires Siblings(prnt, ch) && Unattached(p) && p != prnt && p !in ch
    modifies prnt`child, p`prnt, p`sibNext, Members(ch)`sibPrev
    ensures Siblings(prnt, [p] + ch) && p.prnt == prnt
  {
    p.prnt := prnt;
    if prnt.child == null {
      prnt.child := p;
    } else {
      assert ch[0] in Members(ch);
      p.sibNext := prnt.child;
      prnt.child.sibPrev := p;
      prnt.child := p;
    }
    ghost var r := [p] + ch;
    forall j | 0 <= j < |r| ensures r[j].sibPrev == PrevSib(r, j) && r[j].sibNext == NextSib(r, j) && r[j].prnt == prnt {
      if j > 0 {
        assert r[j] == ch[j - 1] && r[j] != p;
        assert old(ch[j - 1].sibPrev) == PrevSib(ch, j - 1) && old(ch[j - 1].sibNext) == NextSib(ch, j - 1);
      }
    }
  }

  /** The first child leaves the list. Its own links go stale. */
  method RemoveChild(p: Pcb, ghost ch: seq<Pcb>) returns (child: Pcb?)
    requires Siblings(p, ch)
    modifies p`child, Members(ch)`sibPrev
    ensures ch == [] ==> child == null && p.child == null
    ensures ch != [] ==> child == ch[0] && Siblings(p, ch[1..])
    ensures ch != [] ==> child.sibPrev == old(child.sibPrev)
  {
    if p.child == null {
      return null;
    }
    child := p.child;
    assert ch[0].sibPrev == PrevSib(ch, 0) && ch[0].sibNext == NextSib(ch, 0);
    if p.child.sibNext == null && p.child.sibPrev == null {
      p.child := null;
    } else {
      assert ch[1] in Members(ch);
      p.child := child.sibNext;
      p.child.sibPrev := null;
    }
  }

  /** p leaves its parent's list from wherever it is; the others keep their order. NULL if
      p has no parent. */
  method OutChild(p: Pcb, ghost ch: seq<Pcb>) returns (out: Pcb?)
    requires p.prnt != null ==> Siblings(p.prnt, ch) && p in ch
    modifies (if p.prnt == null then {} else {p.prnt})`child, Members(ch)`sibPrev, Members(ch)`sibNext
    ensures old(p.prnt) == null ==> out == null
    ensures old(p.prnt) == null ==> forall x :: x in ch ==> x.sibPrev == old(x.sibPrev) && x.sibNext == old(x.sibNext)
    ensures old(p.prnt) != null ==> out == p && p.prnt == old(p.prnt) && Siblings(p.prnt, Delete(ch, p))
  {
    if p.prnt == null {
      return null;
    }
    var parent := p.prnt;
    if parent.child == p {
      IndexIs(ch, 0);
      out := RemoveChild(parent, ch);
      assert Delete(ch, p) == ch[1..];
    } else {
      ghost var i := 0;
      var done := false;
      var current: Pcb := parent.child;
      while !done
        invariant i < |ch| && p.prnt == parent
        invariant !done ==> current == ch[i] && Siblings(parent, ch) && forall j :: 0 <= j < i ==> ch[j] != p
        invariant done ==> Siblings(parent, Delete(ch, p))
        decreases |ch| - i, !done
      {
        assert ch[i].sibNext == NextSib(ch, i);
        if current == p {
          Unlink(parent, p, ch, i);
          done := true;
        } else {
          assert i < IndexOf(ch, p);
          current := current.sibNext;
          i := i + 1;
        }
      }
      out := p;
    }
  }

  /** p, at position i and not first, is unlinked from its siblings. */
  method Unlink(parent: Pcb, p: Pcb, ghost ch: seq<Pcb>, ghost i: nat)
    requires Siblings(parent, ch) && 0 < i < |ch| && p == ch[i]
    modifies Members(ch)`sibPrev, Members(ch)`sibNext
    ensures Siblings(parent, Delete(ch, p))
  {
    assert ch[i].sibPrev == PrevSib(ch, i) && ch[i].sibNext == NextSib(ch, i);
    assert ch[i - 1] in Members(ch);
    if p.sibNext == null {
      p.sibPrev.sibNext := p.sibNext;
    } else {
      assert ch[i + 1] in Members(ch);
      p.sibPrev.sibNext := p.sibNext;
      p.sibNext.sibPrev := p.sibPrev;
    }
    forall j | 0 <= j < |ch| && j != i ensures Spliced(parent, ch, i, j) {
      assert old(ch[j].sibPrev) == PrevSib(ch, j) && old(ch[j].sibNext) == NextSib(ch, j);
    }
    Unlinked(parent, ch, i);
  }

  /** Sibling j is linked past position i. */
  ghost predicate Spliced(parent: Pcb, ch: seq<Pcb>, i: nat, j: nat)
    requires i < |ch| && j < |ch|
    reads Members(ch)
  {
    && ch[j].prnt == parent
    && ch[j].sibPrev == PrevSib(ch, if j == i + 1 then i else j)
    && ch[j].sibNext == NextSib(ch, if j == i - 1 then i else j)
  }

  lemma Unlinked(parent: Pcb, ch: seq<Pcb>, i: nat)
    requires NoDup(ch) && 0 < i < |ch| && parent.child == ch[0]
    requires forall j :: 0 <= j < |ch| && j != i ==> Spliced(parent, ch, i, j)
    ensures Siblings(parent, Delete(ch, ch[i]))
  {
    IndexIs(ch, i);
    CutMembers(ch, i);
    var r := ch[..i] + ch[i + 1..];
    forall j | 0 <= j < |r| ensures r[j].prnt == parent && r[j].sibPrev == PrevSib(r, j) && r[j].sibNext == NextSib(r, j) {
      var m := if j < i then j else j + 1;
      assert r[j] == ch[m] && Spliced(parent, ch, i, m);
    }
  }

  // ---- the whole tree ----

  /** Different parents have no child in common, and a process without a parent is nobody's child. */
  lemma ChildrenApart(kids: map<Pcb, seq<Pcb>>, rank: map<Pcb, nat>, prnt: Pcb)
    requires IsForest(kids, rank) && prnt in kids
    ensures forall x :: x in kids && x != prnt ==> Members(kids[x]) !! Members(kids[prnt])
    ensures forall x, c :: x in kids && c in kids[x] ==> c.prnt == x
  {
    forall x, c | x in kids && c in kids[x] ensures c.prnt == x {
      assert Siblings(x, kids[x]);
      var i := IndexOf(kids[x], c);
      assert kids[x][i].prnt == x;
    }
    forall x | x in kids && x != prnt ensures Members(kids[x]) !! Members(kids[prnt]) {
      assert forall c :: c in kids[prnt] ==> c.prnt == prnt;
      forall c | c in kids[x] ensures c !in kids[prnt] {
        assert c.prnt == x;
      }
    }
  }

  /** Replacing prnt's children by some of them. */
  lemma FewerChildren(kids: map<Pcb, seq<Pcb>>, rank: map<Pcb, nat>, prnt: Pcb, ch: seq<Pcb>)
    requires prnt in kids && kids.Keys <= rank.Keys
    requires forall x :: x in kids ==> Members(kids[x]) <= kids.Keys
    requires forall x, c :: x in kids && c in kids[x] ==> c in rank && rank[x] < rank[c]
    requires forall x :: x in kids && x != prnt ==> Siblings(x, kids[x])
    requires Siblings(prnt, ch) && forall c :: c in ch ==> c in kids[prnt]
    ensures IsForest(kids[prnt := ch], rank)
  {
  }

  /** Giving prnt one more child, a leaf that was nobody's child. */
  lemma OneMoreChild(kids: map<Pcb, seq<Pcb>>, rank: map<Pcb, nat>, prnt: Pcb, p: Pcb)
    requires prnt in kids && p in kids && p != prnt && kids[p] == [] && kids.Keys <= rank.Keys
    requires forall x :: x in kids ==> Members(kids[x]) <= kids.Keys && p !in kids[x]
    requires forall x, c :: x in kids && c in kids[x] ==> c in rank && rank[x] < rank[c]
    requires forall x :: x in kids && x != prnt ==> Siblings(x, kids[x])
    requires Siblings(prnt, [p] + kids[prnt])
    ensures IsForest(kids[prnt := [p] + kids[prnt]], rank[p := rank[prnt] + 1])
  {
    var kids', rank' := kids[prnt := [p] + kids[prnt]], rank[p := rank[prnt] + 1];
    forall x, c | x in kids' && c in kids'[x] ensures rank'[x] < rank'[c] {
      if c != p { assert c in kids[x]; }
    }
    assert forall x :: x in kids' ==> Members(kids'[x]) <= kids'.Keys;
  }

  /** insertChild keeps the forest: p, childless and nobody's child, joins it under prnt. */
  method InsertChildInForest(prnt: Pcb, p: Pcb, ghost kids: map<Pcb, seq<Pcb>>, ghost rank: map<Pcb, nat>)
    requires IsForest(kids, rank) && prnt in kids && p in kids && p != prnt && Unattached(p) && kids[p] == []
    modifies prnt`child, p`prnt, p`sibNext, Members(kids[prnt])`sibPrev
    ensures IsForest(kids[prnt := [p] + kids[prnt]], rank[p := rank[prnt] + 1]) && p.prnt == prnt
  {
    ghost var ch := kids[prnt];
    ChildrenApart(kids, rank, prnt);
    assert forall x :: x in kids ==> p !in kids[x];
    InsertChild(prnt, p, ch);
    assert forall x :: x in kids && x != prnt ==> Siblings(x, kids[x]);
    OneMoreChild(kids, rank, prnt, p);
  }

  /** removeChild keeps the forest: p loses its first child, which keeps its own children. */
  method RemoveChildInForest(p: Pcb, ghost kids: map<Pcb, seq<Pcb>>, ghost rank: map<Pcb, nat>) returns (child: Pcb?)
    requires IsForest(kids, rank) && p in kids
    modifies p`child, Members(kids[p])`sibPrev
    ensures kids[p] == [] ==> child == null && IsForest(kids, rank)
    ensures kids[p] != [] ==> child == kids[p][0] && IsForest(kids[p := kids[p][1..]], rank)
  {
    ghost var ch := kids[p];
    ChildrenApart(kids, rank, p);
    child := RemoveChild(p, ch);
    assert forall x :: x in kids && x != p ==> Siblings(x, kids[x]);
    FewerChildren(kids, rank, p, if ch == [] then ch else ch[1..]);
    assert ch == [] ==> kids[p := ch] == kids;
  }

  /** outChild keeps the forest: an attached child leaves its parent, in any position. */
  method OutChildInForest(p: Pcb, prnt: Pcb, ghost kids: map<Pcb, seq<Pcb>>, ghost rank: map<Pcb, nat>) returns (out: Pcb?)
    requires IsForest(kids, rank) && p.prnt == prnt && prnt in kids && p in kids[prnt]
    modifies prnt`child, Members(kids[prnt])`sibPrev, Members(kids[prnt])`sibNext
    ensures out == p && IsForest(kids[prnt := Delete(kids[prnt], p)], rank)
  {
    ghost var ch := kids[prnt];
    ChildrenApart(kids, rank, prnt);
    DeleteMembers(ch, p);
    out := OutChild(p, ch);
    assert forall x :: x in kids && x != prnt ==> Siblings(x, kids[x]);
    FewerChildren(kids, rank, prnt, Delete(ch, p));
  }
}
