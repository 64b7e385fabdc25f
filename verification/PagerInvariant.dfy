/** What every state of the pager satisfies, whatever the processes interleave. */
module PagerInvariant {
  import opened Queues
  import Words
  import opened PagerState

  // ---- what a phase says ----

  predicate InTape(p: Phase) { p.Reading? || p.Taping? }

  predicate HoldsSwap(p: Phase)
  {
    p.Locked? || p.Evicting? || p.Fetching? || p.Filled? || p.Pooled? || p.Remapped?
  }

  predicate Transferring(st: Stage) { st != WantDisk }

  predicate HoldsDisk(p: Phase)
  {
    (p.Evicting? || p.Fetching? || p.Taping?) && Transferring(p.stage)
  }

  /** The frame being replaced in phase p. */
  predicate WorksOn(p: Phase, f: int)
  {
    (p.Evicting? || p.Fetching? || p.Filled? || p.Pooled?) && p.frame == f
  }

  /** Frame f is being replaced by the holder of the swap pool mutex. */
  predicate Work(s: State, f: int)
  {
    s.swapHolder.Some? && s.swapHolder.value in s.phase && WorksOn(s.phase[s.swapHolder.value], f)
  }

  // ---- the locks ----

  ghost predicate HoldsAsSaid(s: State, a: int)
    requires a in s.phase
  {
    && (HoldsSwap(s.phase[a]) <==> s.swapHolder == Some(a))
    && (HoldsDisk(s.phase[a]) <==> s.diskHolder == Some(a))
  }

  ghost predicate Locks(s: State)
  {
    && (forall a :: a in s.phase ==> HoldsAsSaid(s, a))
    && (s.swapHolder.Some? ==> s.swapHolder.value in s.phase)
    && (s.diskHolder.Some? ==> s.diskHolder.value in s.phase)
  }

  // ---- page tables, swap pool and TLB ----

  /** entryLo with the dirty bit and no valid bit; the frame bits may be stale. */
  predicate Out(e: nat) { e % PAGESIZE == DIRTYON }

  /** entryLo with the dirty and the valid bit. */
  predicate In(e: nat) { e % PAGESIZE == DIRTYON + VALIDON }

  /** Entry e maps page v, which the swap pool says too. */
  ghost predicate Mapped(s: State, v: Vpn, e: nat)
  {
    && In(e) && 0 <= FrameOf(s, e) < |s.pool| && s.pool[FrameOf(s, e)] == Slot(v.asid, v.page)
    && !Work(s, FrameOf(s, e))
  }

  ghost predicate EntryOk(s: State, v: Vpn)
    requires v in s.pte
  {
    Out(s.pte[v]) || Mapped(s, v, s.pte[v])
  }

  /** An occupied frame that is not being replaced holds the page its pool entry names. */
  ghost predicate SlotOk(s: State, f: nat)
    requires f < |s.pool|
  {
    s.pool[f].asid != UNOCCUPIEDFRAME && !Work(s, f) ==>
      var v := Vpn(s.pool[f].asid, s.pool[f].page);
      v in s.pte && In(s.pte[v]) && FrameOf(s, s.pte[v]) == f
  }

  ghost predicate Tables(s: State)
  {
    && (forall v :: v in s.pte ==> EntryOk(s, v))
    && (forall f :: 0 <= f < |s.pool| ==> SlotOk(s, f))
  }

  ghost predicate TlbOk(s: State)
  {
    forall v :: v in s.tlb ==> v in s.pte && s.tlb[v] == s.pte[v]
  }

  // ---- what each process is in the middle of ----

  ghost predicate OutOf(s: State, v: Vpn)
  {
    IsVpn(s, v) && v in s.pte && Out(s.pte[v])
  }

  ghost predicate InMemory(s: State, v: Vpn)
  {
    v in s.pte && In(s.pte[v])
  }

  ghost predicate Written(s: State, a: int, j: int)
    requires a in s.tape
  {
    0 <= j < |s.tape[a]| && OnDisk(s, Vpn(a, j)) == s.tape[a][j]
  }

  ghost predicate WrittenTo(s: State, a: int, i: int)
    requires a in s.tape
  {
    && 0 <= i <= |s.tape[a]| <= TABLEPAGES
    && (forall j {:trigger Written(s, a, j)} :: 0 <= j < i ==> Written(s, a, j))
  }

  ghost predicate AllOut(s: State, a: int)
  {
    forall v :: IsVpn(s, v) && v.asid == a ==> OutOf(s, v)
  }

  ghost predicate ProcOk(s: State, a: int)
    requires a in s.phase && a in s.tape && a in s.tapeBuf
  {
    match s.phase[a]
    case User => true
    case Remapped(page) => InMemory(s, Vpn(a, page))
    case Faulted(page) => OutOf(s, Vpn(a, page))
    case Locked(page) => OutOf(s, Vpn(a, page))
    case Evicting(page, f, victim, st) =>
      && OutOf(s, Vpn(a, page)) && f < |s.ram| && OutOf(s, victim)
      && victim.asid in s.phase && !InTape(s.phase[victim.asid])
      && (st == Moving ==> s.arm == GetCylinderNum(victim.page))
      && (st == Releasing ==> OnDisk(s, victim) == s.ram[f])
    case Fetching(page, f, st) =>
      && OutOf(s, Vpn(a, page)) && f < |s.ram|
      && (st == Moving ==> s.arm == GetCylinderNum(page))
      && (st == Releasing ==> s.ram[f] == OnDisk(s, Vpn(a, page)))
    case Filled(page, f) =>
      OutOf(s, Vpn(a, page)) && f < |s.ram| && s.ram[f] == OnDisk(s, Vpn(a, page))
    case Pooled(page, f) =>
      && OutOf(s, Vpn(a, page)) && f < |s.ram| == |s.pool| && s.ram[f] == OnDisk(s, Vpn(a, page))
      && s.pool[f] == Slot(a, page)
    case Reading(i) => WrittenTo(s, a, i) && AllOut(s, a)
    case Taping(i, st) =>
      && i < |s.tape[a]| && WrittenTo(s, a, i) && AllOut(s, a) && s.tapeBuf[a] == s.tape[a][i]
      && (st == Moving ==> s.arm == GetCylinderNum(i))
      && (st == Releasing ==> Written(s, a, i))
  }

  ghost predicate Procs(s: State)
    requires Shape(s)
  {
    forall a :: a in s.phase ==> ProcOk(s, a)
  }

  ghost predicate Inv(s: State)
  {
    Shape(s) && Locks(s) && Tables(s) && TlbOk(s) && Procs(s)
  }

  // ---- arithmetic ----

  /** The arithmetic of an entry is what the handler's bit operations compute. */
  lemma WordOps(e: nat, frameAddr: nat)
    ensures HasValid(e) <==> Words.Bit(e, 9)
    ensures XorValid(e) == Words.Xor(e, VALIDON)
    ensures OrValid(e) == Words.Or(e, VALIDON)
    ensures Remap(frameAddr, e) == frameAddr + Words.And(Words.Or(e, VALIDON), FRAMENUMMASK)
  {
    hide Words.Xor, Words.Or, Words.And, Words.Bit, Words.Pow2;
    Words.Powers();
    Words.BitIs(e, 9);
    Words.XorBit(e, 9);
    Words.OrBit(e, 9);
    Words.AndMask(OrValid(e), 12);
  }

  /** Flipping the valid bit of a valid entry clears it, and setting it in an entry without
      frame address carries nowhere. */
  lemma Bits(e: nat)
    ensures Out(e) ==> !HasValid(e) && In(OrValid(e))
    ensures In(e) ==> HasValid(e) && e >= VALIDON && XorValid(e) == e - VALIDON && Out(XorValid(e))
  {
    assert e == PAGESIZE * (e / PAGESIZE) + e % PAGESIZE;
    assert PAGESIZE * (e / PAGESIZE) == VALIDON * (8 * (e / PAGESIZE));
  }

  lemma RemapFrame(s: State, f: nat, e: nat)
    requires Out(e)
    ensures Remap(FrameAddr(s, f), e) == (s.poolPage + f) * PAGESIZE + DIRTYON + VALIDON
    ensures In(Remap(FrameAddr(s, f), e)) && FrameOf(s, Remap(FrameAddr(s, f), e)) == f
  {
    Bits(e);
    assert FrameAddr(s, f) == (s.poolPage + f) * PAGESIZE;
  }

  /** Pages 0 to 30 of process a are the blocks of sector a - 1 under head 0, one to a cylinder. */
  lemma BlockPlace(v: Vpn)
    ensures 0 <= v.page <= 30 ==> BlockOf(v) == Block(v.page, v.asid - 1, 0)
  {}

  /** Two pages share a disk block exactly if they are one page, or both pages of one process
      past page 30. */
  lemma BlockOfInjective(v: Vpn, w: Vpn)
    ensures BlockOf(v) == BlockOf(w) <==> v == w || (v.asid == w.asid && v.page >= 31 && w.page >= 31)
  {}

  // ---- initialisation ----

  lemma InitialInv(s: State)
    requires Initial(s)
    ensures Inv(s)
  {
  }

  // ---- a process left alone ----

  /** Nothing process b relies on changes from s to t. */
  ghost predicate Quiet(s: State, t: State, b: int)
  {
    && Shape(s) && Shape(t) && s.nProc == t.nProc && s.tape == t.tape && |s.ram| == |t.ram|
    && b in s.phase && t.phase[b] == s.phase[b] && t.tapeBuf[b] == s.tapeBuf[b]
    && (forall v: Vpn :: v.asid == b && OutOf(s, v) ==> OutOf(t, v))
    && (InTape(s.phase[b]) || HoldsSwap(s.phase[b]) ==>
          forall v :: IsVpn(s, v) && v.asid == b ==> OnDisk(t, v) == OnDisk(s, v))
    && (HoldsDisk(s.phase[b]) ==> t.arm == s.arm)
    && (forall f :: 0 <= f < |s.ram| && WorksOn(s.phase[b], f) ==> t.ram[f] == s.ram[f] && t.pool[f] == s.pool[f])
    && (s.phase[b].Remapped? ==>
          var v := Vpn(b, s.phase[b].page);
          InMemory(s, v) ==> InMemory(t, v))
    && (s.phase[b].Evicting? ==>
          var v := s.phase[b].victim;
          && (OutOf(s, v) ==> OutOf(t, v)) && (IsVpn(s, v) ==> OnDisk(t, v) == OnDisk(s, v))
          && (v.asid in s.phase && !InTape(s.phase[v.asid]) ==> v.asid in t.phase && !InTape(t.phase[v.asid])))
  }

  lemma LeftAlone(s: State, t: State, b: int)
    requires Quiet(s, t, b) && ProcOk(s, b)
    ensures ProcOk(t, b)
  {
    hide GetCylinderNum, BlockOf, DiskAt, In, Out;
    if InTape(s.phase[b]) {
      forall j | 0 <= j < s.phase[b].i ensures Written(t, b, j) { assert Written(s, b, j); }
      if s.phase[b].Taping? && s.phase[b].stage == Releasing { assert Written(t, b, s.phase[b].i); }
    }
  }
}
