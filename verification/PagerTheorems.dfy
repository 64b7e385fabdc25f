/** Paging is invisible: whatever the interleaving, frames, swap pool, page tables, TLB and
    disk together behave as one flat memory per process. */
module PagerTheorems {
  import opened Queues
  import opened PagerState
  import opened PagerInvariant
  import opened PagerSteps

  // ---- the flat memory ----

  type Memory = map<Vpn, Page>

  /** The handler that holds the swap pool is still writing page v back from frame f. */
  ghost predicate Leaving(s: State, v: Vpn, f: int)
  {
    && Work(s, f) && s.phase[s.swapHolder.value].Evicting? && s.phase[s.swapHolder.value].victim == v
  }

  /** Where page v's current contents are. */
  ghost function Flat(s: State, v: Vpn): Page
    requires v in s.pte
  {
    if HasValid(s.pte[v]) && 0 <= FrameOf(s, s.pte[v]) < |s.ram| then s.ram[FrameOf(s, s.pte[v])]
    else if s.swapHolder.Some? && s.swapHolder.value in s.phase
            && s.phase[s.swapHolder.value].Evicting? && s.phase[s.swapHolder.value].victim == v
            && s.phase[s.swapHolder.value].frame < |s.ram|
         then s.ram[s.phase[s.swapHolder.value].frame]
    else OnDisk(s, v)
  }

  ghost function FlatMemory(s: State): Memory { map v | v in s.pte :: Flat(s, v) }

  /** What the flat memory is asked to do: read or write a word, or take a block of a tape. */
  datatype Op = Read(v: Vpn, off: nat) | Write(v: Vpn, off: nat, x: int) | Fill(v: Vpn, page: Page) | Nothing

  /** The flat memory's view of an event: everything the pager does is Nothing to it. */
  ghost function OpOf(s: State, e: Event): Op
  {
    match e
    case Load(v, off) => Read(v, off)
    case Store(v, off, x) => Write(v, off, x)
    case Refill(_) => Nothing
    case Fault(_) => Nothing
    case Go(a) =>
      if a in s.phase && a in s.tape && s.phase[a].Taping? && s.phase[a].stage == Moving && 0 <= s.phase[a].i < |s.tape[a]|
      then Fill(Vpn(a, s.phase[a].i), s.tape[a][s.phase[a].i])
      else Nothing
  }

  ghost function FlatStep(m: Memory, op: Op): Memory
  {
    match op
    case Write(v, off, x) => if v in m && off < PAGEWORDS then m[v := m[v][off := x]] else m
    case Fill(v, page) => m[v := page]
    case _ => m
  }

  ghost function FlatRead(m: Memory, op: Op): seq<int>
  {
    if op.Read? && op.v in m && op.off < PAGEWORDS then [m[op.v][op.off]] else []
  }

  // ---- each step refines the flat memory ----

  lemma FlatMemorySame(s: State, t: State)
    requires forall v :: v in s.pte <==> v in t.pte
    requires forall v :: v in s.pte ==> Flat(t, v) == Flat(s, v)
    ensures FlatMemory(t) == FlatMemory(s)
  {}

  lemma FlatMemoryUpdated(s: State, t: State, v: Vpn, data: Page)
    requires v in s.pte && forall w :: w in s.pte <==> w in t.pte
    requires forall w :: w in s.pte ==> Flat(t, w) == if w == v then data else Flat(s, w)
    ensures FlatMemory(t) == FlatMemory(s)[v := data]
  {}

  /** A load returns the flat memory's word. */
  lemma LoadFlat(s: State, v: Vpn, off: nat)
    requires Inv(s) && Enabled(s, Load(v, off))
    ensures v in s.pte && Loaded(s, v, off) == Flat(s, v)[off]
  {
    AccessMapped(s, v);
  }

  lemma StoreFlat(s: State, v: Vpn, off: nat, x: int)
    requires Inv(s) && Enabled(s, Store(v, off, x))
    ensures v in s.pte && FlatMemory(Step(s, Store(v, off, x))) == FlatMemory(s)[v := Flat(s, v)[off := x]]
  {
    var t := Step(s, Store(v, off, x));
    AccessMapped(s, v);
    Bits(s.pte[v]);
    hide ProcOk, HasValid, GetCylinderNum, BlockOf, DiskAt, In, Out;
    forall w | w in s.pte ensures Flat(t, w) == if w == v then Flat(s, v)[off := x] else Flat(s, w) {
      if w != v { StoreElsewhere(s, t, v, w); }
    }
    FlatMemoryUpdated(s, t, v, Flat(s, v)[off := x]);
  }

  /** No other page, resident or on its way out, shares v's frame. */
  lemma StoreElsewhere(s: State, t: State, v: Vpn, w: Vpn)
    requires Inv(s) && v in s.pte && w in s.pte && Mapped(s, v, s.pte[v]) && w != v
    requires t == s.(ram := t.ram) && |t.ram| == |s.ram|
    requires forall f :: 0 <= f < |s.ram| && f != FrameOf(s, s.pte[v]) ==> t.ram[f] == s.ram[f]
    ensures Flat(t, w) == Flat(s, w)
  {
    assert EntryOk(s, w);
    Bits(s.pte[w]);
    hide ProcOk, HasValid, GetCylinderNum, BlockOf, DiskAt, In, Out;
  }

  /** Any change of phase, locks and arm that neither starts nor ends an eviction. */
  lemma CalmFlat(s: State, t: State)
    requires t.pte == s.pte && t.ram == s.ram && t.disk == s.disk && t.poolPage == s.poolPage
    requires forall v, f :: Leaving(t, v, f) <==> Leaving(s, v, f)
    ensures FlatMemory(t) == FlatMemory(s)
  {
    hide HasValid, GetCylinderNum, BlockOf, DiskAt;
    forall v | v in s.pte ensures Flat(t, v) == Flat(s, v) {
      if t.swapHolder.Some? && t.swapHolder.value in t.phase && t.phase[t.swapHolder.value].Evicting? {
        assert Leaving(t, t.phase[t.swapHolder.value].victim, t.phase[t.swapHolder.value].frame);
      }
      if s.swapHolder.Some? && s.swapHolder.value in s.phase && s.phase[s.swapHolder.value].Evicting? {
        assert Leaving(s, s.phase[s.swapHolder.value].victim, s.phase[s.swapHolder.value].frame);
      }
    }
    FlatMemorySame(s, t);
  }

  lemma ChooseFlat(s: State, a: int, page: int)
    requires Inv(s) && a in s.phase && s.phase[a] == Locked(page)
    ensures FlatMemory(ChooseFrame(s, a, page)) == FlatMemory(s)
  {
    var t := ChooseFrame(s, a, page);
    var f := (s.nextFrame + 1) % |s.pool|;
    assert HoldsAsSaid(s, a) && !Work(s, f);
    if s.pool[f].asid == UNOCCUPIEDFRAME {
      CalmFlat(s, t);
    } else {
      var v := Vpn(s.pool[f].asid, s.pool[f].page);
      VictimIn(s, f);
      Bits(s.pte[v]);
      hide HasValid, XorValid, In, Out, GetCylinderNum, BlockOf, DiskAt, ProcOk, Tables, TlbOk;
      FlatMemorySame(s, t);
    }
  }

  lemma WritesVictimOnly(s: State, a: int, page: int, f: nat, victim: Vpn)
    requires Inv(s) && a in s.phase && s.phase[a] == Evicting(page, f, victim, Moving) && f < |s.ram|
    ensures var t := Evict(s, a, page, f, victim, Moving);
      Inv(t) && t.disk == s.disk[BlockOf(victim) := s.ram[f]] && forall v :: v in s.pte && v != victim ==> OnDisk(t, v) == OnDisk(s, v)
  {
    var t := Evict(s, a, page, f, victim, Moving);
    EvictWrites(s, a, page, f, victim);
    hide Locks, Tables, TlbOk, Procs;
    forall v | v in s.pte && v != victim ensures OnDisk(t, v) == OnDisk(s, v) {
      if BlockOf(v) == BlockOf(victim) { BlockOfInjective(v, victim); }
    }
  }

  /** Writing the victim back changes nothing: it is still read from its frame. */
  lemma WriteBackFlat(s: State, a: int, page: int, f: nat, victim: Vpn)
    requires Inv(s) && a in s.phase && s.phase[a] == Evicting(page, f, victim, Moving) && f < |s.ram|
    ensures FlatMemory(Evict(s, a, page, f, victim, Moving)) == FlatMemory(s)
  {
    var t := Evict(s, a, page, f, victim, Moving);
    assert HoldsAsSaid(s, a) && ProcOk(s, a);
    Bits(s.pte[victim]);
    WritesVictimOnly(s, a, page, f, victim);
    hide HasValid, Out, GetCylinderNum, BlockOf, DiskAt, Tables, TlbOk, ProcOk, Inv;
    FlatMemorySame(s, t);
  }

  /** Once written back, the victim is read from the disk: it finds the same page there. */
  lemma EvictedFlat(s: State, a: int, page: int, f: nat, victim: Vpn)
    requires Inv(s) && a in s.phase && s.phase[a] == Evicting(page, f, victim, Releasing) && f < |s.ram|
    ensures FlatMemory(Evict(s, a, page, f, victim, Releasing)) == FlatMemory(s)
  {
    var t := Evict(s, a, page, f, victim, Releasing);
    assert HoldsAsSaid(s, a) && ProcOk(s, a);
    Bits(s.pte[victim]);
    hide HasValid, Out, GetCylinderNum, BlockOf, DiskAt, Tables, TlbOk, ProcOk;
    FlatMemorySame(s, t);
  }

  lemma EvictFlat(s: State, a: int, page: int, f: nat, victim: Vpn, stage: Stage)
    requires Inv(s) && a in s.phase && s.phase[a] == Evicting(page, f, victim, stage) && f < |s.ram|
    ensures FlatMemory(Evict(s, a, page, f, victim, stage)) == FlatMemory(s)
  {
    assert HoldsAsSaid(s, a);
    hide Tables, TlbOk, ProcOk, FlatMemory;
    match stage
    case Moving => WriteBackFlat(s, a, page, f, victim);
    case Releasing => EvictedFlat(s, a, page, f, victim);
    case _ => CalmFlat(s, Evict(s, a, page, f, victim, stage));
  }

  /** The frame being filled holds no page of the flat memory yet. */
  lemma FetchFlat(s: State, a: int, page: int, f: nat, stage: Stage)
    requires Inv(s) && a in s.phase && s.phase[a] == Fetching(page, f, stage) && f < |s.ram|
    ensures FlatMemory(Fetch(s, a, page, f, stage)) == FlatMemory(s)
  {
    var t := Fetch(s, a, page, f, stage);
    assert HoldsAsSaid(s, a);
    if stage == Moving {
      forall v | v in s.pte ensures Flat(t, v) == Flat(s, v) {
        assert EntryOk(s, v) && Work(s, f);
        Bits(s.pte[v]);
      }
      FlatMemorySame(s, t);
    } else {
      CalmFlat(s, t);
    }
  }

  /** The frame that the page moves to holds what its disk block holds. */
  lemma TableFlat(s: State, a: int, page: int, f: nat)
    requires Inv(s) && a in s.phase && s.phase[a] == Pooled(page, f)
    ensures FlatMemory(UpdateTable(s, a, page, f)) == FlatMemory(s)
  {
    var t := UpdateTable(s, a, page, f);
    var v := Vpn(a, page);
    assert HoldsAsSaid(s, a) && ProcOk(s, a);
    Bits(s.pte[v]);
    RemapFrame(s, f, s.pte[v]);
    Bits(t.pte[v]);
    hide HasValid, Remap, In, Out, GetCylinderNum, BlockOf, DiskAt, Tables, TlbOk, ProcOk;
    FlatMemorySame(s, t);
  }

  lemma TapeFlat(s: State, a: int, i: int)
    requires Inv(s) && a in s.phase && s.phase[a] == Taping(i, Moving)
    ensures a in s.tape && 0 <= i < |s.tape[a]|
    ensures FlatMemory(Tape(s, a, i, Moving)) == FlatMemory(s)[Vpn(a, i) := s.tape[a][i]]
  {
    var t := Tape(s, a, i, Moving);
    var v := Vpn(a, i);
    assert ProcOk(s, a);
    TapeWrites(s, a, i);
    assert OutOf(s, v);
    Bits(s.pte[v]);
    TapeNotLeaving(s, a, v);
    forall w | w in s.pte ensures Flat(t, w) == if w == v then s.tape[a][i] else Flat(s, w) {
      if w != v && BlockOf(w) == BlockOf(v) { BlockOfInjective(w, v); }
    }
    FlatMemoryUpdated(s, t, v, s.tape[a][i]);
  }

  lemma TapeNotLeaving(s: State, a: int, v: Vpn)
    requires Inv(s) && a in s.phase && InTape(s.phase[a]) && v.asid == a
    ensures s.swapHolder.Some? && s.swapHolder.value in s.phase && s.phase[s.swapHolder.value].Evicting?
      ==> s.phase[s.swapHolder.value].victim != v
  {
    if s.swapHolder.Some? && s.swapHolder.value in s.phase { assert ProcOk(s, s.swapHolder.value); }
  }

  lemma AdvanceFlat(s: State, a: int)
    requires Inv(s) && CanGo(s, a)
    ensures FlatMemory(Advance(s, a)) == FlatStep(FlatMemory(s), OpOf(s, Go(a)))
  {
    if InTape(s.phase[a]) {
      ReadTapeFlat(s, a);
    } else {
      HandlerFlat(s, a);
    }
  }

  lemma ReadTapeFlat(s: State, a: int)
    requires Inv(s) && CanGo(s, a) && InTape(s.phase[a])
    ensures FlatMemory(Advance(s, a)) == FlatStep(FlatMemory(s), OpOf(s, Go(a)))
  {
    assert ProcOk(s, a);
    hide FlatMemory, Locks, ProcOk, Tables, TlbOk, Procs;
    match s.phase[a]
    case Reading(i) => TapeCalmFlat(s, Advance(s, a), a);
    case Taping(i, stage) =>
      if stage == Moving { TapeFlat(s, a, i); } else { TapeCalmFlat(s, Advance(s, a), a); }
  }

  lemma HandlerFlat(s: State, a: int)
    requires Inv(s) && CanGo(s, a) && !InTape(s.phase[a])
    ensures FlatMemory(Advance(s, a)) == FlatStep(FlatMemory(s), OpOf(s, Go(a)))
  {
    hide FlatMemory, Locks, ProcOk, Tables, TlbOk, Procs, UpdateTable, ChooseFrame;
    match s.phase[a]
    case User =>
    case Faulted(page) => LockFlat(s, a);
    case Locked(page) => ChooseFlat(s, a, page);
    case Evicting(page, f, victim, stage) => EvictFlat(s, a, page, f, victim, stage);
    case Fetching(page, f, stage) => FetchFlat(s, a, page, f, stage);
    case Filled(page, f) => LockFlat(s, a);
    case Pooled(page, f) => TableFlat(s, a, page, f);
    case Remapped(page) => LockFlat(s, a);
  }

  /** Locking, unlocking and updating the pool. */
  lemma LockFlat(s: State, a: int)
    requires Inv(s) && CanGo(s, a) && (s.phase[a].Faulted? || s.phase[a].Filled? || s.phase[a].Remapped?)
    ensures FlatMemory(Advance(s, a)) == FlatMemory(s)
  {
    var t := Advance(s, a);
    assert HoldsAsSaid(s, a);
    hide Tables, TlbOk, FlatMemory, ProcOk;
    CalmFlat(s, t);
  }

  lemma TapeCalmFlat(s: State, t: State, a: int)
    requires Inv(s) && CanGo(s, a) && InTape(s.phase[a])
    requires t == s.(phase := t.phase, diskHolder := t.diskHolder, arm := t.arm, tapeBuf := t.tapeBuf)
    requires a in t.phase && t.phase == s.phase[a := t.phase[a]]
    ensures FlatMemory(t) == FlatMemory(s)
  {
    assert HoldsAsSaid(s, a);
    hide Tables, TlbOk, FlatMemory, ProcOk;
    CalmFlat(s, t);
  }

  lemma FaultFlat(s: State, v: Vpn)
    requires Inv(s) && Enabled(s, Fault(v))
    ensures FlatMemory(Step(s, Fault(v))) == FlatMemory(s)
  {
    assert HoldsAsSaid(s, v.asid);
    CalmFlat(s, Step(s, Fault(v)));
  }

  /** The pager does what the flat memory does, and what a load returns is the flat word. */
  lemma StepFlat(s: State, e: Event)
    requires Inv(s) && Enabled(s, e)
    ensures FlatMemory(Step(s, e)) == FlatStep(FlatMemory(s), OpOf(s, e))
    ensures Output(s, e) == FlatRead(FlatMemory(s), OpOf(s, e))
  {
    match e
    case Load(v, off) => LoadFlat(s, v, off);
    case Store(v, off, x) => StoreFlat(s, v, off, x);
    case Refill(v) => CalmFlat(s, Step(s, e));
    case Fault(v) => FaultFlat(s, v);
    case Go(a) => AdvanceFlat(s, a);
  }

  // ---- whole runs ----

  function Output(s: State, e: Event): seq<int>
    requires Enabled(s, e)
  {
    if e.Load? then [Loaded(s, e.v, e.off)] else []
  }

  ghost predicate Legal(s: State, es: seq<Event>)
    decreases |es|
  {
    es != [] ==> Enabled(s, es[0]) && Legal(Step(s, es[0]), es[1..])
  }

  function After(s: State, es: seq<Event>): State
    requires Legal(s, es)
    decreases |es|
  {
    if es == [] then s else After(Step(s, es[0]), es[1..])
  }

  /** Every word that the run's loads return, in order. */
  function Outputs(s: State, es: seq<Event>): seq<int>
    requires Legal(s, es)
    decreases |es|
  {
    if es == [] then [] else Output(s, es[0]) + Outputs(Step(s, es[0]), es[1..])
  }

  ghost function Ops(s: State, es: seq<Event>): seq<Op>
    requires Legal(s, es)
    decreases |es|
  {
    if es == [] then [] else [OpOf(s, es[0])] + Ops(Step(s, es[0]), es[1..])
  }

  ghost function FlatAfter(m: Memory, ops: seq<Op>): Memory
    decreases |ops|
  {
    if ops == [] then m else FlatAfter(FlatStep(m, ops[0]), ops[1..])
  }

  ghost function FlatReads(m: Memory, ops: seq<Op>): seq<int>
    decreases |ops|
  {
    if ops == [] then [] else FlatRead(m, ops[0]) + FlatReads(FlatStep(m, ops[0]), ops[1..])
  }

  lemma {:induction false} RunInv(s: State, es: seq<Event>)
    requires Inv(s) && Legal(s, es)
    ensures Inv(After(s, es))
    decreases |es|
  {
    if es != [] { StepInv(s, es[0]); RunInv(Step(s, es[0]), es[1..]); }
  }

  /** Paging is invisible on every run, from any state the invariant allows. */
  lemma {:induction false} PagingInvisible(s: State, es: seq<Event>)
    requires Inv(s) && Legal(s, es)
    ensures Outputs(s, es) == FlatReads(FlatMemory(s), Ops(s, es))
    ensures FlatMemory(After(s, es)) == FlatAfter(FlatMemory(s), Ops(s, es))
    decreases |es|
  {
    if es != [] {
      StepInv(s, es[0]);
      StepFlat(s, es[0]);
      PagingInvisible(Step(s, es[0]), es[1..]);
      var ops := Ops(s, es);
      assert ops[0] == OpOf(s, es[0]) && ops[1..] == Ops(Step(s, es[0]), es[1..]);
    }
  }
}
