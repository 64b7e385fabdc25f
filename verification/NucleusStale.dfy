/** A run on which SYS2 breaks the nucleus: a child that was woken by a V still has its old
    p_semAdd when its parent terminates. */
module NucleusStale {
  import opened Queues
  import opened Family
  import opened NucleusState
  import opened Processor
  import opened NucleusInvariant
  import opened NucleusKill
  import opened NucleusRuns
  import opened NucleusTheorems
  import opened NucleusForsaken
  import opened NucleusCode
  import opened Names
  import opened Pcbs
  import opened ProcessStore

  /** Two table entries, 1 a child of 0, nobody on the free list. */
  predicate Pair(s: State, cur: Pid, ready: seq<Pid>, asl: map<int, seq<Pid>>, childSem: int, v: int)
  {
    && s.mode == Running && s.current == Some(cur) && s.k.maxProc == 2 && s.k.semBase == BASE
    && s.k.free == [] && s.k.ready == ready && s.k.asl == asl && s.k.processCount == 2
    && s.k.semAdd == [NULLADDR, childSem] && Val(s.k, USERSEM) == v
    && Sized(s.family, 2) && s.family.kids == [[1], []] && s.family.prnt == [None, Some(0)]
  }

  lemma ParentCreates(s: State, c: Cpu)
    requires Sound(s) && s == Boot(2, BASE, c, c)
    ensures Enabled(s, Exec(Create(c), c)) && Pair(Step(s, Exec(Create(c), c)), 0, [1], map[], NULLADDR, 0)
  {
    assert s.k.free == [1];
    assert s.k.semAdd == [NULLADDR, 0];
    var t := Step(s, Exec(Create(c), c));
    assert t.family.kids[0] == [1] + [];
    assert t.family.kids[0] == [1] && t.family.kids[1] == [] && |t.family.kids| == 2;
    assert t.family.kids == [[1], []] && t.family.prnt == [None, Some(0)];
    assert t.k.semAdd == [NULLADDR, NULLADDR];
    assert t.k.ready == [] + [1];
  }

  lemma ParentIsPreempted(s: State)
    requires Sound(s) && Pair(s, 0, [1], map[], NULLADDR, 0)
    ensures Enabled(s, Plt) && Pair(Step(s, Plt), 1, [0], map[], NULLADDR, 0)
  {
    assert s.k.ready + [0] == [1, 0];
  }

  lemma ChildBlocks(s: State, c: Cpu)
    requires Sound(s) && Pair(s, 1, [0], map[], NULLADDR, 0)
    ensures Enabled(s, Exec(P(USERSEM), c))
    ensures Pair(Step(s, Exec(P(USERSEM), c)), 0, [], map[USERSEM := [1]], USERSEM, -1)
  {
    var k := InsertBlocked(SetVal(s.k, USERSEM, -1), USERSEM, 1);
    assert k.semAdd == [NULLADDR, USERSEM];
    assert Waiters(s.k.asl, USERSEM) + [1] == [1];
    assert k.asl == map[USERSEM := [1]];
  }

  lemma ParentWakes(s: State, c: Cpu)
    requires Sound(s) && Pair(s, 0, [], map[USERSEM := [1]], USERSEM, -1)
    ensures Enabled(s, Exec(V(USERSEM), c)) && Pair(Step(s, Exec(V(USERSEM), c)), 0, [1], map[], USERSEM, 0)
  {
    assert Waiters(s.k.asl, USERSEM) == [1];
    assert Dequeue(s.k.asl, USERSEM) == map[];
    assert s.k.ready + [1] == [1];
  }

  lemma StaleChild(t: State)
    requires Sound(t) && Pair(t, 0, [1], map[], USERSEM, 0)
    ensures !AccurateKids(t)
  {
    ChildDescends(t.family, Live(t.k), 0, 1);
    KillOrderExact(t.family, Live(t.k), 0);
    assert 1 in Doomed(t) && !Accurate(t.k, 1);
  }

  /** The parent creates a child, and the time slice ends. */
  method ChildRuns(c: Cpu) returns (n: Nucleus, ghost run: seq<Event>)
    ensures run == [Exec(Create(c), c), Plt]
    ensures Legal(Boot(2, BASE, c, c), run) && n.s == After(Boot(2, BASE, c, c), run)
    ensures fresh(n) && fresh(n.Foot()) && n.Rep() && Sound(n.s) && Pair(n.s, 1, [0], map[], NULLADDR, 0)
  {
    hide Nucleus.Rep, Sound, Boot, Started, Core, Shape, NucleusState.CreateProcess, NucleusState.PLTInterruptHandler;
    n := StartUp(2, BASE, c, c);
    Starts(c);
    run := [];
    ParentCreates(n.s, c);
    SoundPlaces(n.s);
    n.CreateProcess(c, c);
    run := Extend(Boot(2, BASE, c, c), run, Exec(Create(c), c));
    ParentIsPreempted(n.s);
    SoundPlaces(n.s);
    n.PLTInterruptHandler();
    run := Extend(Boot(2, BASE, c, c), run, Plt);
  }

  /** The nucleus after a legal run, reached by its own handlers: the parent creates a child,
      the time slice ends, the child waits on a semaphore, the parent wakes it. The tables are
      sound, and yet SYS2 by the parent would take the ready child for a waiting one. */
  method StaleNucleus(c: Cpu) returns (n: Nucleus, ghost run: seq<Event>)
    ensures run == [Exec(Create(c), c), Plt, Exec(P(USERSEM), c), Exec(V(USERSEM), c)]
    ensures Legal(Boot(2, BASE, c, c), run) && n.s == After(Boot(2, BASE, c, c), run)
    ensures fresh(n) && fresh(n.Foot()) && n.Rep() && Sound(n.s) && Pair(n.s, 0, [1], map[], USERSEM, 0) && !AccurateKids(n.s)
  {
    hide Nucleus.Rep, Sound, Boot, Core, Shape, NucleusState.Passeren, NucleusState.Verhogen;
    n, run := ChildRuns(c);
    ChildBlocks(n.s, c);
    SoundPlaces(n.s);
    n.Passeren(c, USERSEM);
    run := Extend(Boot(2, BASE, c, c), run, Exec(P(USERSEM), c));
    ParentWakes(n.s, c);
    n.Verhogen(c, USERSEM);
    run := Extend(Boot(2, BASE, c, c), run, Exec(V(USERSEM), c));
    StaleChild(n.s);
  }

  lemma Starts(c: Cpu)
    ensures Started(2, BASE, c, c) == Boot(2, BASE, c, c) && Sound(Boot(2, BASE, c, c))
  {
    BootSound(2, BASE, c, c);
  }

  /** The links at that point. */
  lemma PairLinks(n: Nucleus)
    requires n.Rep() && Pair(n.s, 0, [1], map[], USERSEM, 0)
    ensures |n.store.table| == 2 && n.store.table[0] != n.store.table[1] && n.currentProcess == n.store.table[0]
    ensures n.store.Valid() && n.store.pool.free == [] && n.store.ready == [n.store.table[1]] && n.store.readyQ == n.store.table[1]
    ensures n.store.table[0] in n.store.kids && n.store.kids[n.store.table[0]] == [n.store.table[1]]
    ensures n.store.table[1] in n.store.kids && n.store.kids[n.store.table[1]] == []
    ensures n.store.table[0].prnt == null && n.store.table[1].semAdd == USERSEM && n.processCount == 2
  {
    var t := n.store.table;
    n.KidsAt(0);
    n.KidsAt(1);
    n.At(n.s, 0);
    n.At(n.s, 1);
    assert n.store.ready[0] == t[1];
  }

  /** SYS2 by the parent, statement by statement: the kill of the child, whose stale p_semAdd
      says that it waits, the kill of the parent, and the dispatch of the next process. Both
      are freed while the child is still what readyQ points to; through the links of the free
      list removeProcQ then takes the killed parent for the head of the ready queue. */
  method DispatchesTheDead(n: Nucleus) returns (next: Pcb?)
    requires n.Rep() && Pair(n.s, 0, [1], map[], USERSEM, 0)
    modifies n, n.Foot()
    ensures |n.store.table| == 2 && next == n.store.table[0] && n.processCount == 0
    ensures n.store.pool.free == [n.store.table[1], n.store.table[0]] && !n.store.pool.Valid()
  {
    hide Nucleus.Rep, Store.Valid, PcbPool.Valid, Pair, IsQueue;
    PairLinks(n);
    var parent := n.currentProcess;
    n.store.SiblingsOf(parent);
    var empty := EmptyChild(parent, n.store.kids[parent]);
    assert !empty;
    var child := n.store.RemoveChild(parent);
    n.store.FirstChild(parent);
    KillStale(n, child);
    label killed:
    empty := EmptyChild(parent, []);
    assert empty;
    var out := OutChild(parent, []);
    n.processCount := n.processCount - 1;
    n.store.pool.Keeps@killed();
    next := FreeAndDispatch(n.store, parent, child);
  }

  /** The kill of a ready process whose p_semAdd names a semaphore: outBlocked finds nothing. */
  method KillStale(n: Nucleus, child: Pcb)
    requires n.store.Valid() && child in n.store.table && child in n.store.kids && n.store.kids[child] == []
    requires 0 <= child.semAdd < NULLADDR && child !in n.store.pool.free && Members(n.store.pool.free) <= Members(n.store.table)
    modifies n`sem, n`processCount, n.Foot()
    ensures n.store.pool.Valid() && n.store.pool.free == old(n.store.pool.free) + [child]
    ensures n.processCount == old(n.processCount) - 1 && n.store.readyQ == old(n.store.readyQ)
    ensures forall x :: x in n.store.table ==> x.prnt == old(x.prnt) && x.child == old(x.child)
  {
    hide Store.Valid, PcbPool.Valid, IsQueue;
    n.store.SiblingsOf(child);
    var empty := EmptyChild(child, []);
    assert empty;
    var out := n.store.OutBlocked(child);
    n.store.PoolIsValid();
    label unblocked:
    n.sem := n.sem[child.semAdd := n.Value(child.semAdd) + 1];
    n.processCount := n.processCount - 1;
    n.store.pool.Keeps@unblocked();
    n.store.pool.FreePcb(child);
  }

  /** freePcb on the parent, and the scheduler's removeProcQ on a ready queue whose only entry
      is on the free list by now. That leaves the free list broken as well. */
  method FreeAndDispatch(store: Store, parent: Pcb, child: Pcb) returns (next: Pcb?)
    requires store.pool.Valid() && store.pool.free == [child] && store.readyQ == child && parent != child
    modifies store`readyQ, store.pool, parent`next, parent`prev, child`next, child`prev
    ensures next == parent && store.pool.free == [child, parent] && !store.pool.Valid()
  {
    store.pool.FreePcb(parent);
    Rotate(store.pool.pcbList, [child, parent], 1);
    assert [child, parent][1..] + [child, parent][..1] == [parent, child];
    store.readyQ, next := RemoveProcQ(store.readyQ, [parent, child]);
    assert [parent, child][1..] == [child];
    assert child.next == Succ([child], 0);
    assert store.pool.free[0].next != Succ(store.pool.free, 0);
  }
}
