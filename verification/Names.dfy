/** Table entries and their numbers: a sequence of entries, named by the sequence of their
    positions in the table. */
module Names {
  import opened Queues

  predicate Named<T(==)>(table: seq<T>, objs: seq<T>, q: seq<nat>)
  {
    |objs| == |q| && forall i :: 0 <= i < |q| ==> q[i] < |table| && objs[i] == table[q[i]]
  }

  ghost predicate NamedMap<T>(table: seq<T>, objs: map<int, seq<T>>, m: map<int, seq<nat>>)
  {
    objs.Keys == m.Keys && forall a :: a in m ==> Named(table, objs[a], m[a])
  }

  lemma NamedMember<T>(table: seq<T>, objs: seq<T>, q: seq<nat>, p: nat)
    requires NoDup(table) && Named(table, objs, q) && p < |table|
    ensures table[p] in objs <==> p in q
  {
    if table[p] in objs {
      var i := IndexOf(objs, table[p]);
      assert objs[i] == table[q[i]];
    }
    if p in q {
      var i := IndexOf(q, p);
      assert objs[i] == table[q[i]];
    }
  }

  lemma NamedAppend<T>(table: seq<T>, objs: seq<T>, q: seq<nat>, p: nat)
    requires Named(table, objs, q) && p < |table|
    ensures Named(table, objs + [table[p]], q + [p])
  {}

  lemma NamedTail<T>(table: seq<T>, objs: seq<T>, q: seq<nat>)
    requires Named(table, objs, q) && q != []
    ensures objs != [] && q[0] < |table| && objs[0] == table[q[0]] && Named(table, objs[1..], q[1..])
  {
    forall i | 0 <= i < |q| - 1 ensures q[1..][i] < |table| && objs[1..][i] == table[q[1..][i]] {
      assert objs[i + 1] == table[q[i + 1]];
    }
  }

  lemma NamedIndex<T>(table: seq<T>, objs: seq<T>, q: seq<nat>, p: nat)
    requires NoDup(table) && Named(table, objs, q) && p in q
    ensures p < |table| && table[p] in objs && IndexOf(objs, table[p]) == IndexOf(q, p)
  {
    var i := IndexOf(q, p);
    assert objs[i] == table[q[i]];
    var j := IndexOf(objs, table[p]);
    assert objs[j] == table[q[j]];
  }

  lemma NamedDelete<T>(table: seq<T>, objs: seq<T>, q: seq<nat>, p: nat)
    requires NoDup(table) && Named(table, objs, q) && p < |table|
    ensures Named(table, Delete(objs, table[p]), Delete(q, p))
  {
    NamedMember(table, objs, q, p);
    if p in q {
      NamedIndex(table, objs, q, p);
      var k := IndexOf(q, p);
      forall i | 0 <= i < |q| - 1 ensures Delete(q, p)[i] < |table| && Delete(objs, table[p])[i] == table[Delete(q, p)[i]] {
        assert objs[if i < k then i else i + 1] == table[q[if i < k then i else i + 1]];
      }
    }
  }

  lemma NamedWaiters<T>(table: seq<T>, objs: map<int, seq<T>>, m: map<int, seq<nat>>, a: int)
    requires NamedMap(table, objs, m)
    ensures Named(table, Waiters(objs, a), Waiters(m, a))
    ensures |objs| == |m|
  {
    assert |objs.Keys| == |objs| && |m.Keys| == |m|;
    if a !in m { assert a !in objs; }
  }

  lemma NamedSetQueue<T>(table: seq<T>, objs: map<int, seq<T>>, m: map<int, seq<nat>>, a: int, o: seq<T>, q: seq<nat>)
    requires NamedMap(table, objs, m) && Named(table, o, q)
    ensures NamedMap(table, SetQueue(objs, a, o), SetQueue(m, a, q))
  {}

  lemma NamedEnqueue<T>(table: seq<T>, objs: map<int, seq<T>>, m: map<int, seq<nat>>, a: int, p: nat)
    requires NamedMap(table, objs, m) && p < |table|
    ensures NamedMap(table, Enqueue(objs, a, table[p]), Enqueue(m, a, p))
  {
    NamedWaiters(table, objs, m, a);
    NamedAppend(table, Waiters(objs, a), Waiters(m, a), p);
  }

  lemma NamedDequeue<T>(table: seq<T>, objs: map<int, seq<T>>, m: map<int, seq<nat>>, a: int)
    requires NamedMap(table, objs, m) && Waiters(m, a) != []
    ensures Waiters(objs, a) != [] && NamedMap(table, Dequeue(objs, a), Dequeue(m, a))
    ensures Waiters(m, a)[0] < |table| && Waiters(objs, a)[0] == table[Waiters(m, a)[0]]
  {
    NamedWaiters(table, objs, m, a);
    NamedTail(table, Waiters(objs, a), Waiters(m, a));
    NamedSetQueue(table, objs, m, a, Waiters(objs, a)[1..], Waiters(m, a)[1..]);
  }

  lemma NamedUnqueue<T>(table: seq<T>, objs: map<int, seq<T>>, m: map<int, seq<nat>>, a: int, p: nat)
    requires NoDup(table) && NamedMap(table, objs, m) && p < |table|
    ensures NamedMap(table, Unqueue(objs, a, table[p]), Unqueue(m, a, p))
  {
    NamedWaiters(table, objs, m, a);
    NamedDelete(table, Waiters(objs, a), Waiters(m, a), p);
    NamedSetQueue(table, objs, m, a, Delete(Waiters(objs, a), table[p]), Delete(Waiters(m, a), p));
  }

  /** Entry p waits in objs exactly where its number waits in m. */
  lemma NamedWaits<T>(table: seq<T>, objs: map<int, seq<T>>, m: map<int, seq<nat>>, a: int, p: nat)
    requires NoDup(table) && NamedMap(table, objs, m) && p < |table|
    ensures Waits(objs, a, table[p]) <==> Waits(m, a, p)
  {
    NamedWaiters(table, objs, m, a);
    NamedMember(table, Waiters(objs, a), Waiters(m, a), p);
  }
}
