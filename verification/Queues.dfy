/** Sequences as FIFO process queues, and finite maps of such queues: the mathematical
    view that the pointer code of pcb.c and asl.c is proved against and that the nucleus
    model computes with. */
module Queues {

  datatype Option<+T> = None | Some(value: T)

  ghost predicate NoDup<T>(q: seq<T>)
  {
    forall i, j :: 0 <= i < j < |q| ==> q[i] != q[j]
  }

  ghost function Members<T>(q: seq<T>): set<T>
  {
    set x | x in q
  }

  function IndexOf<T(==)>(q: seq<T>, p: T): (k: nat)
    requires p in q
    ensures k < |q| && q[k] == p
    ensures forall i :: 0 <= i < k ==> q[i] != p
  {
    if q[0] == p then 0 else 1 + IndexOf(q[1..], p)
  }

  /** The queue without its first occurrence of p. */
  function Delete<T(==)>(q: seq<T>, p: T): seq<T>
  {
    if p in q then q[..IndexOf(q, p)] + q[IndexOf(q, p) + 1..] else q
  }

  lemma IndexIs<T>(q: seq<T>, k: nat)
    requires NoDup(q) && k < |q|
    ensures IndexOf(q, q[k]) == k
  {
  }

  lemma DeleteMembers<T>(q: seq<T>, p: T)
    requires NoDup(q)
    ensures NoDup(Delete(q, p))
    ensures forall x :: x in Delete(q, p) <==> x in q && x != p
    ensures |Delete(q, p)| == if p in q then |q| - 1 else |q|
  {
    if p in q {
      CutMembers(q, IndexOf(q, p));
    }
  }

  lemma CutMembers<T>(q: seq<T>, k: nat)
    requires NoDup(q) && k < |q|
    ensures NoDup(q[..k] + q[k + 1..])
    ensures forall x :: x in q[..k] + q[k + 1..] <==> x in q && x != q[k]
  {
    var r := q[..k] + q[k + 1..];
    assert forall i :: 0 <= i < |r| ==> r[i] == q[if i < k then i else i + 1];
    forall x | x in q && x != q[k] ensures x in r {
      var i :| 0 <= i < |q| && q[i] == x;
      assert r[if i < k then i else i - 1] == x;
    }
  }

  lemma MembersCount<T>(q: seq<T>)
    requires NoDup(q)
    ensures |Members(q)| == |q|
  {
    if q != [] {
      var n := |q| - 1;
      MembersCount(q[..n]);
      assert q == q[..n] + [q[n]];
      assert Members(q) == Members(q[..n]) + {q[n]};
    }
  }

  lemma AppendNoDup<T>(q: seq<T>, p: T)
    requires NoDup(q) && p !in q
    ensures NoDup(q + [p])
  {
  }

  lemma ConcatNoDup<T>(q: seq<T>, r: seq<T>)
    requires NoDup(q) && NoDup(r) && forall x :: x in q ==> x !in r
    ensures NoDup(q + r)
  {
    forall i, j | 0 <= i < j < |q + r| ensures (q + r)[i] != (q + r)[j] {
      if i < |q| <= j { assert (q + r)[i] in q && (q + r)[j] in r; }
    }
  }

  /** What is left of q once every element of gone has been taken out, in q's order. */
  ghost function Without<T>(q: seq<T>, gone: set<T>): seq<T>
  {
    if q == [] then [] else
    if q[0] in gone then Without(q[1..], gone) else [q[0]] + Without(q[1..], gone)
  }

  lemma WithoutMembers<T>(q: seq<T>, gone: set<T>)
    ensures forall x :: x in Without(q, gone) <==> x in q && x !in gone
  {
  }

  lemma WithoutNone<T>(q: seq<T>, gone: set<T>)
    requires forall x :: x in q ==> x !in gone
    ensures Without(q, gone) == q
  {
  }

  lemma ConsIndex<T>(x: T, r: seq<T>, p: T)
    requires p in r && x != p
    ensures p in [x] + r && IndexOf([x] + r, p) == IndexOf(r, p) + 1
  {
    assert ([x] + r)[IndexOf(r, p) + 1] == p;
    assert ([x] + r)[1..] == r;
  }

  lemma ConsCut<T>(x: T, r: seq<T>, k: nat)
    requires k < |r|
    ensures ([x] + r)[..k + 1] + ([x] + r)[k + 2..] == [x] + (r[..k] + r[k + 1..])
  {
  }

  lemma DeleteCons<T>(x: T, r: seq<T>, p: T)
    ensures Delete([x] + r, p) == if x == p then r else [x] + Delete(r, p)
  {
    if x == p {
      assert ([x] + r)[..0] + ([x] + r)[1..] == r;
    } else if p in r {
      ConsIndex(x, r, p);
      ConsCut(x, r, IndexOf(r, p));
    }
  }

  /** Deleting one more element is filtering by one more element. */
  lemma {:induction false} DeleteWithout<T>(q: seq<T>, gone: set<T>, p: T)
    requires NoDup(q)
    ensures Delete(Without(q, gone), p) == Without(q, gone + {p})
  {
    if q != [] {
      DeleteWithout(q[1..], gone, p);
      DeleteCons(q[0], Without(q[1..], gone), p);
      if q[0] == p {
        assert p !in q[1..];
        SameWithout(q[1..], gone, gone + {p});
      }
    }
  }

  lemma SameWithout<T>(q: seq<T>, gone: set<T>, gone': set<T>)
    requires forall x :: x in q ==> (x in gone <==> x in gone')
    ensures Without(q, gone) == Without(q, gone')
  {
  }

  // ---- semaphore queues: a map from address to non-empty queue ----

  function Waiters<T>(m: map<int, seq<T>>, a: int): seq<T>
  {
    if a in m then m[a] else []
  }

  predicate Waits<T(==)>(m: map<int, seq<T>>, a: int, p: T)
  {
    p in Waiters(m, a)
  }

  /** Queue q now waits on a; an empty queue has no entry. */
  function SetQueue<T>(m: map<int, seq<T>>, a: int, q: seq<T>): map<int, seq<T>>
  {
    if q == [] then m - {a} else m[a := q]
  }

  function Enqueue<T>(m: map<int, seq<T>>, a: int, p: T): map<int, seq<T>>
  {
    m[a := Waiters(m, a) + [p]]
  }

  function Dequeue<T>(m: map<int, seq<T>>, a: int): map<int, seq<T>>
    requires Waiters(m, a) != []
  {
    SetQueue(m, a, m[a][1..])
  }

  function Unqueue<T(==)>(m: map<int, seq<T>>, a: int, p: T): map<int, seq<T>>
  {
    SetQueue(m, a, Delete(Waiters(m, a), p))
  }
}
