/** The process tree on process numbers: who was created by whom, and in which order a
    kill visits a process and its progeny. */
module Family {
  import opened Queues

  type Pid = nat

  /** kids[p] are p's children, last created first; prnt[p] is p's parent pointer, left
      stale when p dies; born[p] is p's creation stamp, which the C code does not keep. */
  datatype Family = Family(kids: seq<seq<Pid>>, prnt: seq<Option<Pid>>, born: seq<nat>, births: nat)

  predicate Sized(f: Family, n: nat)
  {
    |f.kids| == n && |f.prnt| == n && |f.born| == n
  }

  predicate IsChild(f: Family, p: Pid, c: Pid)
  {
    p < |f.kids| && c in f.kids[p]
  }

  /** Children are table entries created after their parent. */
  ghost predicate Ranked(f: Family)
  {
    && Sized(f, |f.kids|)
    && (forall p: Pid, c: Pid :: IsChild(f, p, c) ==> c < |f.kids| && f.born[p] < f.born[c])
    && (forall p: Pid :: p < |f.kids| ==> f.born[p] < f.births)
  }

  /** The links describe a forest over the live processes. */
  ghost predicate Forest(f: Family, live: set<Pid>)
  {
    && Ranked(f)
    && (forall p: Pid :: p < |f.kids| ==> NoDup(f.kids[p]) && (p !in live ==> f.kids[p] == []))
    && (forall p: Pid, c: Pid :: IsChild(f, p, c) ==> c in live && f.prnt[c] == Some(p))
    && (forall c: Pid :: c in live ==> c < |f.kids|)
    && (forall c: Pid :: c in live && f.prnt[c].Some? ==>
          f.prnt[c].value in live && IsChild(f, f.prnt[c].value, c))
  }

  /** q is p or reaches p by following parent pointers. */
  ghost predicate Descends(f: Family, q: Pid, p: Pid)
    decreases if q < |f.born| then f.born[q] else 0
  {
    q == p ||
    (q < |f.prnt| && q < |f.born| && f.prnt[q].Some? && f.prnt[q].value < |f.born| &&
     f.born[f.prnt[q].value] < f.born[q] && Descends(f, f.prnt[q].value, p))
  }

  /** The order in which a kill of p reaches p and its progeny: children first, each
      child's progeny before it, p last. */
  ghost function KillOrder(f: Family, p: Pid): (r: seq<Pid>)
    requires Ranked(f) && p < |f.kids|
    ensures forall q :: q in r ==> q < |f.kids|
    decreases f.births - f.born[p], |f.kids[p]| + 1
  {
    KidsOrder(f, p, 0) + [p]
  }

  ghost function KidsOrder(f: Family, p: Pid, i: nat): (r: seq<Pid>)
    requires Ranked(f) && p < |f.kids| && i <= |f.kids[p]|
    ensures forall q :: q in r ==> q < |f.kids|
    decreases f.births - f.born[p], |f.kids[p]| - i
  {
    if i == |f.kids[p]| then [] else
    assert IsChild(f, p, f.kids[p][i]);
    KillOrder(f, f.kids[p][i]) + KidsOrder(f, p, i + 1)
  }

  // ---- descent along parent pointers ----

  lemma {:induction false} DescendsTrans(f: Family, q: Pid, r: Pid, p: Pid)
    requires Descends(f, q, r) && Descends(f, r, p)
    ensures Descends(f, q, p)
    decreases if q < |f.born| then f.born[q] else 0
  {
    if q != r {
      DescendsTrans(f, f.prnt[q].value, r, p);
    }
  }

  lemma {:induction false} DescendsLater(f: Family, q: Pid, p: Pid)
    requires Descends(f, q, p) && q < |f.born|
    ensures p < |f.born| && f.born[p] <= f.born[q] && (q != p ==> f.born[p] < f.born[q])
    decreases f.born[q]
  {
    if q != p {
      DescendsLater(f, f.prnt[q].value, p);
    }
  }

  /** A process's ancestors form a chain. */
  lemma {:induction false} AncestorsChain(f: Family, q: Pid, x: Pid, y: Pid)
    requires Descends(f, q, x) && Descends(f, q, y)
    ensures Descends(f, x, y) || Descends(f, y, x)
    decreases if q < |f.born| then f.born[q] else 0
  {
    if q != x && q != y {
      AncestorsChain(f, f.prnt[q].value, x, y);
    }
  }

  lemma ChildDescends(f: Family, live: set<Pid>, p: Pid, c: Pid)
    requires Forest(f, live) && IsChild(f, p, c)
    ensures Descends(f, c, p) && !Descends(f, p, c)
  {
    assert Descends(f, p, p);
    if Descends(f, p, c) {
      DescendsLater(f, p, c);
      assert false;
    }
  }

  /** Different children of one process have no progeny in common. */
  lemma SiblingsApart(f: Family, live: set<Pid>, p: Pid, c: Pid, d: Pid, q: Pid)
    requires Forest(f, live) && IsChild(f, p, c) && IsChild(f, p, d) && c != d
    requires Descends(f, q, c)
    ensures !Descends(f, q, d)
  {
    if Descends(f, q, d) {
      AncestorsChain(f, q, c, d);
      ChildDescends(f, live, p, c);
      ChildDescends(f, live, p, d);
      assert false;
    }
  }

  // ---- what the kill order contains ----

  lemma {:induction false} KillOrderDescends(f: Family, live: set<Pid>, p: Pid, q: Pid)
    requires Forest(f, live) && p in live && q in KillOrder(f, p)
    ensures q in live && Descends(f, q, p)
    decreases f.births - f.born[p], |f.kids[p]| + 1
  {
    if q != p {
      KidsOrderDescends(f, live, p, 0, q);
    }
  }

  lemma {:induction false} KidsOrderDescends(f: Family, live: set<Pid>, p: Pid, i: nat, q: Pid)
    requires Forest(f, live) && p in live && i <= |f.kids[p]| && q in KidsOrder(f, p, i)
    ensures q in live && Descends(f, q, p) && q != p
    ensures exists j :: i <= j < |f.kids[p]| && Descends(f, q, f.kids[p][j])
    decreases f.births - f.born[p], |f.kids[p]| - i
  {
    var c := f.kids[p][i];
    assert IsChild(f, p, c);
    if q in KillOrder(f, c) {
      KillOrderDescends(f, live, c, q);
      ChildDescends(f, live, p, c);
      DescendsTrans(f, q, c, p);
    } else {
      KidsOrderDescends(f, live, p, i + 1, q);
    }
  }

  lemma {:induction false} KidsOrderHas(f: Family, p: Pid, i: nat, j: nat, q: Pid)
    requires Ranked(f) && p < |f.kids| && i <= j < |f.kids[p]|
    requires IsChild(f, p, f.kids[p][j]) && q in KillOrder(f, f.kids[p][j])
    ensures q in KidsOrder(f, p, i)
    decreases j - i
  {
    assert IsChild(f, p, f.kids[p][i]);
    if i < j {
      KidsOrderHas(f, p, i + 1, j, q);
    }
  }

  /** The kill order is closed under taking children. */
  lemma {:induction false} KillOrderClosed(f: Family, p: Pid, r: Pid, c: Pid)
    requires Ranked(f) && p < |f.kids| && r in KillOrder(f, p) && IsChild(f, r, c)
    ensures c in KillOrder(f, p)
    decreases f.births - f.born[p], |f.kids[p]| + 1
  {
    if r == p {
      var j := IndexOf(f.kids[p], c);
      KidsOrderHas(f, p, 0, j, c);
    } else {
      KidsOrderClosed(f, p, 0, r, c);
    }
  }

  lemma {:induction false} KidsOrderClosed(f: Family, p: Pid, i: nat, r: Pid, c: Pid)
    requires Ranked(f) && p < |f.kids| && i <= |f.kids[p]|
    requires r in KidsOrder(f, p, i) && IsChild(f, r, c)
    ensures c in KidsOrder(f, p, i)
    decreases f.births - f.born[p], |f.kids[p]| - i
  {
    var k := f.kids[p][i];
    assert IsChild(f, p, k);
    if r in KillOrder(f, k) {
      KillOrderClosed(f, k, r, c);
    } else {
      KidsOrderClosed(f, p, i + 1, r, c);
    }
  }

  lemma {:induction false} DescendantsReached(f: Family, live: set<Pid>, p: Pid, q: Pid)
    requires Forest(f, live) && p in live && q in live && Descends(f, q, p)
    ensures q in KillOrder(f, p)
    decreases f.born[q]
  {
    if q != p {
      var r := f.prnt[q].value;
      DescendantsReached(f, live, p, r);
      KillOrderClosed(f, p, r, q);
    }
  }

  /** A kill visits exactly the live descendants. */
  lemma KillOrderExact(f: Family, live: set<Pid>, p: Pid)
    requires Forest(f, live) && p in live
    ensures forall q :: q in KillOrder(f, p) <==> q in live && Descends(f, q, p)
  {
    forall q ensures q in KillOrder(f, p) <==> q in live && Descends(f, q, p) {
      if q in KillOrder(f, p) {
        KillOrderDescends(f, live, p, q);
      }
      if q in live && Descends(f, q, p) {
        DescendantsReached(f, live, p, q);
      }
    }
  }

  /** A kill visits no process twice. */
  lemma {:induction false} KillOrderOnce(f: Family, live: set<Pid>, p: Pid)
    requires Forest(f, live) && p in live
    ensures NoDup(KillOrder(f, p))
    decreases f.births - f.born[p], |f.kids[p]| + 1
  {
    KidsOrderOnce(f, live, p, 0);
    forall q | q in KidsOrder(f, p, 0) ensures q != p {
      KidsOrderDescends(f, live, p, 0, q);
    }
    AppendNoDup(KidsOrder(f, p, 0), p);
  }

  lemma {:induction false} KidsOrderOnce(f: Family, live: set<Pid>, p: Pid, i: nat)
    requires Forest(f, live) && p in live && i <= |f.kids[p]|
    ensures NoDup(KidsOrder(f, p, i))
    decreases f.births - f.born[p], |f.kids[p]| - i
  {
    if i < |f.kids[p]| {
      var c := f.kids[p][i];
      assert IsChild(f, p, c);
      KillOrderOnce(f, live, c);
      KidsOrderOnce(f, live, p, i + 1);
      assert KidsOrder(f, p, i) == KillOrder(f, c) + KidsOrder(f, p, i + 1);
      forall q | q in KillOrder(f, c) ensures q !in KidsOrder(f, p, i + 1) {
        KillOrderDescends(f, live, c, q);
        if q in KidsOrder(f, p, i + 1) {
          KidsOrderDescends(f, live, p, i + 1, q);
          var j :| i + 1 <= j < |f.kids[p]| && Descends(f, q, f.kids[p][j]);
          SiblingsApart(f, live, p, c, f.kids[p][j], q);
          assert false;
        }
      }
      ConcatNoDup(KillOrder(f, c), KidsOrder(f, p, i + 1));
    }
  }

  // ---- creation and removal ----

  /** Process p, just taken from the free list, becomes parent's first child (or a root). */
  function AddChild(f: Family, parent: Option<Pid>, p: Pid): Family
    requires Sized(f, |f.kids|) && p < |f.kids| && (parent.Some? ==> parent.value < |f.kids|)
  {
    var cleared := f.kids[p := []];
    Family(if parent.Some? then cleared[parent.value := [p] + cleared[parent.value]] else cleared,
           f.prnt[p := parent], f.born[p := f.births], f.births + 1)
  }

  lemma AddChildKeeps(f: Family, live: set<Pid>, parent: Option<Pid>, p: Pid)
    requires Forest(f, live) && p !in live && p < |f.kids|
    requires parent.Some? ==> parent.value in live
    ensures Forest(AddChild(f, parent, p), live + {p})
  {
    var g := AddChild(f, parent, p);
    assert forall q: Pid :: !IsChild(f, q, p);
    forall q: Pid, c: Pid
      ensures IsChild(g, q, c) <==> IsChild(f, q, c) || (c == p && parent == Some(q))
    {
    }
    forall q: Pid | q < |f.kids| ensures NoDup(g.kids[q]) && (q !in live + {p} ==> g.kids[q] == []) {
      assert !IsChild(f, q, p);
    }
  }

  /** The tree once root has been taken from its parent and every process of gone has lost
      its children. Parent pointers stay as they were. */
  ghost function Prune(f: Family, root: Pid, gone: set<Pid>): Family
    requires Sized(f, |f.kids|) && root < |f.kids|
  {
    f.(kids := seq(|f.kids|, p requires 0 <= p < |f.kids| =>
      if p in gone then [] else if f.prnt[root] == Some(p) then Delete(f.kids[p], root) else f.kids[p]))
  }

  lemma PruneChildren(f: Family, live: set<Pid>, root: Pid, gone: set<Pid>, p: Pid)
    requires Forest(f, live) && root in live && p < |f.kids|
    ensures var g := Prune(f, root, gone);
      NoDup(g.kids[p]) && forall c :: c in g.kids[p] <==> c in f.kids[p] && p !in gone && c != root
  {
    DeleteMembers(f.kids[p], root);
    assert IsChild(f, p, root) ==> f.prnt[root] == Some(p);
  }

  lemma PruneKeeps(f: Family, live: set<Pid>, root: Pid, gone: set<Pid>)
    requires Forest(f, live) && root in live
    requires forall q :: q in gone <==> q in live && Descends(f, q, root)
    ensures Forest(Prune(f, root, gone), live - gone)
  {
    var g := Prune(f, root, gone);
    forall p: Pid, c: Pid
      ensures p < |f.kids| ==> NoDup(g.kids[p])
      ensures IsChild(g, p, c) <==> IsChild(f, p, c) && p !in gone && c != root
    {
      if p < |f.kids| { PruneChildren(f, live, root, gone, p); }
    }
    assert Descends(f, root, root);
    assert Ranked(g);
    forall p: Pid, c: Pid | IsChild(g, p, c) ensures c in live - gone && g.prnt[c] == Some(p) {
      assert IsChild(f, p, c);
      assert Descends(f, c, root) ==> Descends(f, p, root);
    }
    forall c: Pid | c in live - gone && g.prnt[c].Some?
      ensures g.prnt[c].value in live - gone && IsChild(g, g.prnt[c].value, c)
    {
      assert Descends(f, f.prnt[c].value, root) ==> Descends(f, c, root);
    }
  }
}
