/** All of phase 1 at once: the static process table with the free list, the ready queue, the
    active semaphore list and the process tree threaded through it. The four kinds of list
    share the same links, so each operation says what keeps it from the others. */
module ProcessStore {
  import opened Queues
  import opened Processor
  import opened Pcbs
  import opened Asl

  class Store {
    ghost const table: seq<Pcb>
    ghost const semds: set<Semd>     // the table of descriptors
    const pool: PcbPool
    const asl: SemaphoreList
    var readyQ: Pcb?
    ghost var ready: seq<Pcb>
    ghost var kids: map<Pcb, seq<Pcb>>
    ghost var rank: map<Pcb, nat>

    /** No process is in two of the lists. */
    ghost predicate Apart()
      reads `ready, pool`free, asl`procs
    {
      && Members(pool.free) <= Members(table) && Members(ready) <= Members(table) && asl.procs <= Members(table)
      && Members(ready) !! Members(pool.free) && asl.procs !! Members(pool.free) && asl.procs !! Members(ready)
    }

    lemma InTable()
      requires Apart()
      ensures forall p :: p in ready || p in pool.free || p in asl.procs ==> p in table
    {
      assert forall p :: p in ready ==> p in Members(ready);
      assert forall p :: p in pool.free ==> p in Members(pool.free);
    }

    ghost predicate Queued()
      reads this, pool, asl, semds,
        Members(table)`next, Members(table)`prev, Members(table)`semAdd
    {
      Apart() && pool.Valid() && IsQueue(readyQ, ready) && asl.Descriptors() <= semds && asl.Valid()
    }

    ghost predicate Treed()
      reads `kids, `rank,
        Members(table)`prnt, Members(table)`child, Members(table)`sibPrev, Members(table)`sibNext
    {
      kids.Keys == Members(table) && IsForest(kids, rank)
    }

    ghost predicate Valid()
      reads this, pool, asl, semds,
        Members(table)`next, Members(table)`prev, Members(table)`semAdd,
        Members(table)`prnt, Members(table)`child, Members(table)`sibPrev, Members(table)`sibNext
    {
      NoDup(table) && Queued() && Treed()
    }

    /** The structures as initPcbs and initASL have just left them. */
    constructor (pool: PcbPool, asl: SemaphoreList, ghost zero: Cpu)
      requires pool.Valid() && asl.Valid() && asl.procs == {} && forall p :: p in pool.free ==> p.NeverAllocated(zero)
      ensures Valid() && this.pool == pool && this.asl == asl && table == pool.free && semds == asl.Descriptors() && ready == []
      ensures forall p :: p in table ==> p in kids && kids[p] == []
    {
      this.pool, this.asl := pool, asl;
      table, semds := pool.free, asl.Descriptors();
      readyQ, ready := null, [];
      kids := map p | p in Members(pool.free) :: [];
      rank := map p | p in Members(pool.free) :: 0;
      new;
      hide Valid, NoDup, IsQueue, SemaphoreList.Valid, PcbPool.Valid;
      Starts(zero);
    }

    lemma Starts(zero: Cpu)
      requires pool.Valid() && asl.Valid() && asl.procs == {} && table == pool.free && semds == asl.Descriptors() && readyQ == null && ready == []
      requires kids.Keys == rank.Keys == Members(table)
      requires forall p :: p in table ==> kids[p] == [] && p.NeverAllocated(zero)
      ensures Valid()
    {
      hide IsQueue, SemaphoreList.Valid, PcbPool.Valid;
      EmptyQueue();
      PoolNoDup();
      Unrelated(zero);
      NothingQueued();
    }

    lemma NothingQueued()
      requires ready == [] && asl.procs == {} && table == pool.free
      ensures Apart()
    {
      assert Members(ready) == {};
    }

    lemma PoolNoDup()
      requires pool.Valid()
      ensures NoDup(pool.free)
    {}

    lemma Unrelated(zero: Cpu)
      requires kids.Keys == rank.Keys == Members(table)
      requires forall p :: p in table ==> kids[p] == [] && p.NeverAllocated(zero)
      ensures Treed()
    {}

    // ---- what an operation leaves alone ----

    lemma TableNoDup()
      requires Valid()
      ensures NoDup(table)
    {}

    lemma PoolIsValid()
      requires Valid()
      ensures pool.Valid() && Members(pool.free) <= Members(table)
    {}

    lemma KidsAreEntries()
      requires Valid()
      ensures kids.Keys == Members(table)
    {}

    twostate lemma Keeps()
      requires old(Valid()) && unchanged(this) && unchanged(pool) && unchanged(asl) && unchanged(semds)
      requires forall p :: p in table ==>
        && p.next == old(p.next) && p.prev == old(p.prev) && p.semAdd == old(p.semAdd)
        && p.prnt == old(p.prnt) && p.child == old(p.child) && p.sibPrev == old(p.sibPrev) && p.sibNext == old(p.sibNext)
      ensures Valid()
    {
      hide Queued, Treed;
      QueuesKeep();
      TreeKeeps();
    }

    twostate lemma ReadyKeeps()
      requires old(IsQueue(readyQ, ready)) && readyQ == old(readyQ) && ready == old(ready)
      requires forall p :: p in ready ==> p.next == old(p.next) && p.prev == old(p.prev)
      ensures IsQueue(readyQ, ready)
    {}

    twostate lemma AslKeeps()
      requires old(asl.Valid()) && old(asl.Descriptors()) <= semds && unchanged(asl) && unchanged(semds)
      requires forall p :: p in asl.procs ==> p.next == old(p.next) && p.prev == old(p.prev) && p.semAdd == old(p.semAdd)
      ensures asl.Valid() && asl.Descriptors() <= semds
    {}

    twostate lemma TreeKeeps()
      requires old(Treed()) && kids == old(kids) && rank == old(rank)
      requires forall p :: p in table ==>
        p.prnt == old(p.prnt) && p.child == old(p.child) && p.sibPrev == old(p.sibPrev) && p.sibNext == old(p.sibNext)
      ensures Treed()
    {}

    // ---- the ready queue ----

    /** Only the ready queue and the links of the processes in it, old and new, have changed. */
    twostate lemma ReadyMoved(new moved: set<Pcb>)
      requires old(Valid()) && unchanged(pool) && unchanged(asl) && unchanged(semds)
      requires kids == old(kids) && rank == old(rank) && Apart() && IsQueue(readyQ, ready)
      requires moved !! Members(pool.free) && moved !! asl.procs
      requires forall p :: p in table ==>
        && (p !in moved ==> p.next == old(p.next) && p.prev == old(p.prev)) && p.semAdd == old(p.semAdd)
        && p.prnt == old(p.prnt) && p.child == old(p.child) && p.sibPrev == old(p.sibPrev) && p.sibNext == old(p.sibNext)
      ensures Valid()
    {
      hide IsQueue, IsForest, SemaphoreList.Valid, PcbPool.Valid, Treed, NoDup;
      assert forall p :: p in pool.free ==> p in Members(pool.free);
      assert forall p :: p in asl.procs ==> p in table;
      pool.Keeps();
      AslKeeps();
      TreeKeeps();
    }

    method PutReady(p: Pcb)
      requires Valid() && p in table && p !in ready && p !in pool.free && p !in asl.procs
      modifies `readyQ, `ready, Members(table)`next, Members(table)`prev
      ensures Valid() && ready == old(ready) + [p]
    {
      hide IsQueue, IsForest, SemaphoreList.Valid, PcbPool.Valid, Treed, NoDup;
      readyQ := InsertProcQ(readyQ, p, ready);
      ready := ready + [p];
      ReadyMoved(Members(ready));
    }

    method TakeReady() returns (p: Pcb?)
      requires Valid()
      modifies `readyQ, `ready, Members(table)`next, Members(table)`prev
      ensures Valid()
      ensures old(ready) == [] ==> p == null && ready == []
      ensures old(ready) != [] ==> p == old(ready)[0] && ready == old(ready)[1..] && p !in ready
    {
      hide IsQueue, IsForest, SemaphoreList.Valid, PcbPool.Valid, Treed, NoDup;
      QueueNoDup(readyQ, ready);
      readyQ, p := RemoveProcQ(readyQ, ready);
      if ready == [] {
        EmptyQueue();
      } else {
        HeadOut(ready);
        ready := ready[1..];
      }
      ReadyMoved(Members(old(ready)));
    }

    /** outProcQ on the ready queue. */
    method OutReady(p: Pcb) returns (out: Pcb?)
      requires Valid()
      modifies `readyQ, `ready, Members(table)`next, Members(table)`prev
      ensures Valid() && ready == Delete(old(ready), p) && p !in ready
      ensures out == if p in old(ready) then p else null
    {
      hide IsQueue, IsForest, SemaphoreList.Valid, PcbPool.Valid, Treed, Delete, NoDup;
      QueueNoDup(readyQ, ready);
      DeleteMembers(ready, p);
      assert Members(Delete(ready, p)) <= Members(ready);
      readyQ, out := OutProcQ(readyQ, p, ready);
      ready := Delete(ready, p);
      ReadyMoved(Members(old(ready)));
    }

    lemma QueueNoDup(tp: Pcb?, q: seq<Pcb>)
      requires IsQueue(tp, q)
      ensures NoDup(q)
    {}

    lemma HeadOut(q: seq<Pcb>)
      requires NoDup(q) && q != []
      ensures q[0] !in q[1..] && Members(q[1..]) <= Members(q)
    {}

    // ---- the free list ----

    method FreePcb(p: Pcb)
      requires Valid() && p in table && p !in ready && p !in pool.free && p !in asl.procs
      modifies pool, Members(table)`next, Members(table)`prev
      ensures Valid() && pool.free == old(pool.free) + [p]
    {
      hide IsQueue, IsForest, SemaphoreList.Valid, PcbPool.Valid, Treed;
      pool.FreePcb(p);
      ReadyKeeps();
      AslKeeps();
      TreeKeeps();
    }

    /** The entry taken has no children and is nobody's child. */
    method AllocPcb() returns (p: Pcb?)
      requires Valid() && forall x :: x in pool.free ==> |x.oldAreas| == |x.newAreas| == NUMEXCEPTIONTYPES
      requires pool.free != [] ==> kids[pool.free[0]] == [] && forall x :: x in kids ==> pool.free[0] !in kids[x]
      modifies pool, Members(pool.free[..if pool.free == [] then 0 else 1]), Members(table)`next, Members(table)`prev
      ensures Valid()
      ensures old(pool.free) == [] ==> p == null && pool.free == []
      ensures old(pool.free) != [] ==> p == old(pool.free)[0] && pool.free == old(pool.free)[1..] && p !in pool.free
      ensures p != null ==> p.IsClear() && Unattached(p)
      ensures old(pool.free) != [] ==> p.state == old(pool.free[0].state)
    {
      hide IsQueue, IsForest, SemaphoreList.Valid, PcbPool.Valid, Treed;
      ghost var taken := Members(pool.free[..if pool.free == [] then 0 else 1]);
      assert taken <= Members(pool.free);
      InTable();
      if pool.free != [] { KidsInTable(pool.free[0]); }
      p := pool.AllocPcb();
      assert p != null ==> taken == {p};
      ReadyKeeps();
      AslKeeps();
      ChildlessCleared(p);
    }

    /** Clearing an entry that is in no family. */
    twostate lemma ChildlessCleared(c: Pcb?)
      requires old(Treed()) && kids == old(kids) && rank == old(rank)
      requires c != null ==> c in kids && kids[c] == [] && c.child == null && forall x :: x in kids ==> c !in kids[x]
      requires forall p :: p in table && p != c ==>
        p.prnt == old(p.prnt) && p.child == old(p.child) && p.sibPrev == old(p.sibPrev) && p.sibNext == old(p.sibNext)
      ensures Treed()
    {}

    // ---- the active semaphore list ----

    method InsertBlocked(a: int, p: Pcb) returns (full: bool)
      requires Valid() && 0 <= a < NULLSEM && p in table && p !in ready && p !in pool.free && p !in asl.procs
      modifies asl, semds, Members(table)`next, Members(table)`prev, p`semAdd
      ensures Valid() && asl.maxProc == old(asl.maxProc)
      ensures full <==> a !in old(asl.queues) && |old(asl.queues)| == asl.maxProc
      ensures full ==> asl.queues == old(asl.queues) && asl.procs == old(asl.procs) && p.semAdd == old(p.semAdd)
      ensures !full ==> asl.queues == Enqueue(old(asl.queues), a, p) && asl.procs == old(asl.procs) + {p} && p.semAdd == a
    {
      hide IsQueue, IsForest, SemaphoreList.Valid, PcbPool.Valid, Treed;
      full := asl.InsertBlocked(a, p);
      pool.Keeps();
      ReadyKeeps();
      TreeKeeps();
    }

    method RemoveBlocked(a: int) returns (p: Pcb?)
      requires Valid() && 0 <= a < NULLSEM
      modifies asl, semds, Members(table)`next, Members(table)`prev
      ensures Valid() && asl.maxProc == old(asl.maxProc)
      ensures a !in old(asl.queues) ==> p == null && asl.queues == old(asl.queues) && asl.procs == old(asl.procs)
      ensures a in old(asl.queues) ==> Waiters(old(asl.queues), a) != [] && p == old(asl.queues)[a][0]
      ensures a in old(asl.queues) ==> asl.queues == Dequeue(old(asl.queues), a) && asl.procs == old(asl.procs) - {p}
    {
      hide IsQueue, IsForest, SemaphoreList.Valid, PcbPool.Valid, Treed;
      p := asl.RemoveBlocked(a);
      pool.Keeps();
      ReadyKeeps();
      TreeKeeps();
    }

    method OutBlocked(p: Pcb) returns (out: Pcb?)
      requires Valid() && 0 <= p.semAdd < NULLSEM
      modifies asl, semds, Members(table)`next, Members(table)`prev
      ensures Valid() && asl.maxProc == old(asl.maxProc)
      ensures out == if p in old(asl.procs) then p else null
      ensures asl.queues == Unqueue(old(asl.queues), p.semAdd, p) && asl.procs == old(asl.procs) - {p}
    {
      hide IsQueue, IsForest, SemaphoreList.Valid, PcbPool.Valid, Treed;
      out := asl.OutBlocked(p);
      pool.Keeps();
      ReadyKeeps();
      TreeKeeps();
    }

    // ---- the tree ----

    twostate lemma QueuesKeep()
      requires old(Queued()) && unchanged(pool) && unchanged(asl) && unchanged(semds)
      requires readyQ == old(readyQ) && ready == old(ready)
      requires forall p :: p in table ==> p.next == old(p.next) && p.prev == old(p.prev) && p.semAdd == old(p.semAdd)
      ensures Queued()
    {
      hide IsQueue, SemaphoreList.Valid, PcbPool.Valid;
      InTable();
      pool.Keeps();
      ReadyKeeps();
      AslKeeps();
    }

    lemma KidsInTable(x: Pcb)
      requires Treed() && x in table
      ensures x in kids && Members(kids[x]) <= Members(table) && x in rank
    {}

    method InsertChild(prnt: Pcb, p: Pcb)
      requires Valid() && prnt in table && p in table && p != prnt && Unattached(p) && kids[p] == []
      modifies `kids, `rank, Members(table)`child, Members(table)`prnt, Members(table)`sibNext, Members(table)`sibPrev
      ensures Valid() && kids == old(kids)[prnt := [p] + old(kids)[prnt]]
      ensures p.prnt == prnt && forall x :: x in table && x != p ==> x.prnt == old(x.prnt)
    {
      hide IsQueue, IsForest, SemaphoreList.Valid, PcbPool.Valid, Queued;
      KidsInTable(prnt);
      InsertChildInForest(prnt, p, kids, rank);
      kids, rank := kids[prnt := [p] + kids[prnt]], rank[p := rank[prnt] + 1];
      QueuesKeep();
    }

    lemma SiblingsOf(p: Pcb)
      requires Valid() && p in table
      ensures p in kids && Siblings(p, kids[p])
    {}

    lemma FirstChild(p: Pcb)
      requires Valid() && p in table
      ensures p in kids && (p.child == null <==> kids[p] == [])
    {
      assert Siblings(p, kids[p]);
    }

    method RemoveChild(p: Pcb) returns (child: Pcb?)
      requires Valid() && p in table
      modifies `kids, Members(table)`child, Members(table)`sibPrev
      ensures Valid()
      ensures old(kids)[p] == [] ==> child == null && kids == old(kids)
      ensures old(kids)[p] != [] ==> child == old(kids)[p][0] && kids == old(kids)[p := old(kids)[p][1..]]
    {
      hide IsQueue, IsForest, SemaphoreList.Valid, PcbPool.Valid, Queued;
      KidsInTable(p);
      child := RemoveChildInForest(p, kids, rank);
      if kids[p] != [] {
        kids := kids[p := kids[p][1..]];
      }
      QueuesKeep();
    }

    method OutChild(p: Pcb) returns (out: Pcb?)
      requires Valid() && p in table && (p.prnt != null ==> p.prnt in table && p in kids[p.prnt])
      modifies `kids, Members(table)`child, Members(table)`sibPrev, Members(table)`sibNext
      ensures Valid()
      ensures p.prnt == null ==> out == null && kids == old(kids)
      ensures p.prnt != null ==> out == p && p.prnt in old(kids) && kids == old(kids)[p.prnt := Delete(old(kids)[p.prnt], p)]
    {
      hide IsQueue, IsForest, SemaphoreList.Valid, PcbPool.Valid, Queued;
      if p.prnt == null {
        return null;
      }
      KidsInTable(p.prnt);
      out := OutChildInForest(p, p.prnt, kids, rank);
      kids := kids[p.prnt := Delete(kids[p.prnt], p)];
      QueuesKeep();
    }
  }
}
