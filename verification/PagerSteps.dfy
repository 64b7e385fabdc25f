/** Every step of the pager, interleaved with any others, keeps the invariant. */
module PagerSteps {
  import opened Queues
  import opened PagerState
  import opened PagerInvariant

  // ---- steps that only change phases, locks and the arm ----

  /** t differs from s in the phase of a, in the locks, and in what only a uses. */
  ghost predicate Calm(s: State, t: State, a: int)
    requires a in s.phase && a in t.phase && a in s.tapeBuf && a in t.tapeBuf
  {
    && t == s.(phase := s.phase[a := t.phase[a]], swapHolder := t.swapHolder, diskHolder := t.diskHolder,
               arm := t.arm, tapeBuf := s.tapeBuf[a := t.tapeBuf[a]])
    && (t.arm == s.arm || HoldsDisk(s.phase[a]))
    && (InTape(t.phase[a]) ==> InTape(s.phase[a]))
    && (forall f :: Work(t, f) <==> Work(s, f))
  }

  lemma CalmTables(s: State, t: State, a: int)
    requires Inv(s) && a in s.phase && a in t.phase && a in t.tapeBuf && Calm(s, t, a)
    ensures Shape(t) && Tables(t) && TlbOk(t)
  {
    hide ProcOk, In, Out, Work;
    assert t.pte == s.pte && t.pool == s.pool && t.poolPage == s.poolPage;
    forall v | v in t.pte ensures EntryOk(t, v) { assert EntryOk(s, v); }
    forall f | 0 <= f < |t.pool| ensures SlotOk(t, f) { assert SlotOk(s, f); }
  }

  lemma CalmInv(s: State, t: State, a: int)
    requires Inv(s) && a in s.phase && a in t.phase && a in t.tapeBuf && Calm(s, t, a)
    requires Locks(t) && ProcOk(t, a)
    ensures Inv(t)
  {
    CalmTables(s, t, a);
    hide ProcOk, In, Out, Work, Tables, TlbOk, GetCylinderNum, BlockOf, DiskAt;
    forall b | b in t.phase ensures ProcOk(t, b) {
      if b != a {
        assert HoldsAsSaid(s, a) && HoldsAsSaid(s, b);
        assert Quiet(s, t, b);
        LeftAlone(s, t, b);
      }
    }
  }

  /** The locks after a changed phase and took or gave back what its phases say. */
  lemma LocksMove(s: State, t: State, a: int)
    requires Locks(s) && a in s.phase && a in t.phase && t.phase == s.phase[a := t.phase[a]]
    requires HoldsAsSaid(t, a)
    requires t.swapHolder == s.swapHolder || (s.swapHolder == None && t.swapHolder == Some(a)) || (s.swapHolder == Some(a) && t.swapHolder == None)
    requires t.diskHolder == s.diskHolder || (s.diskHolder == None && t.diskHolder == Some(a)) || (s.diskHolder == Some(a) && t.diskHolder == None)
    ensures Locks(t)
  {
    hide HoldsSwap, HoldsDisk;
    forall b | b in t.phase ensures HoldsAsSaid(t, b) { assert HoldsAsSaid(s, b); }
  }

  lemma LockStep(s: State, a: int)
    requires Inv(s) && CanGo(s, a) && (s.phase[a].Faulted? || s.phase[a].Remapped?)
    ensures Inv(Advance(s, a))
  {
    var t := Advance(s, a);
    assert HoldsAsSaid(s, a) && ProcOk(s, a);
    if t != s {
      hide Tables, TlbOk, GetCylinderNum, BlockOf, DiskAt, Out;
      assert s.tapeBuf == s.tapeBuf[a := t.tapeBuf[a]];
      LocksMove(s, t, a);
      CalmInv(s, t, a);
    }
  }

  /** A handler step that takes or returns the disk or moves its arm. */
  lemma HandlerMoves(s: State, t: State, a: int)
    requires Inv(s) && a in s.phase && a in t.phase
    requires t == s.(phase := s.phase[a := t.phase[a]], diskHolder := t.diskHolder, arm := t.arm)
    requires t.arm == s.arm || HoldsDisk(s.phase[a])
    requires HoldsSwap(s.phase[a]) && HoldsSwap(t.phase[a]) && !InTape(t.phase[a])
    requires forall f :: WorksOn(t.phase[a], f) <==> WorksOn(s.phase[a], f)
    requires HoldsDisk(t.phase[a]) <==> t.diskHolder == Some(a)
    requires t.diskHolder == s.diskHolder || (s.diskHolder == None && t.diskHolder == Some(a)) || (s.diskHolder == Some(a) && t.diskHolder == None)
    requires a in t.tape && a in t.tapeBuf && ProcOk(t, a)
    ensures Inv(t)
  {
    assert HoldsAsSaid(s, a);
    hide Tables, TlbOk, ProcOk, HoldsDisk, HoldsSwap, WorksOn;
    assert s.tapeBuf == s.tapeBuf[a := t.tapeBuf[a]];
    assert HoldsAsSaid(t, a);
    LocksMove(s, t, a);
    CalmInv(s, t, a);
  }

  lemma EvictCalm(s: State, a: int, page: int, f: nat, victim: Vpn, stage: Stage)
    requires Inv(s) && a in s.phase && s.phase[a] == Evicting(page, f, victim, stage) && stage != Moving && f < |s.ram|
    ensures Inv(Evict(s, a, page, f, victim, stage))
  {
    var t := Evict(s, a, page, f, victim, stage);
    assert HoldsAsSaid(s, a) && ProcOk(s, a);
    hide Tables, TlbOk, GetCylinderNum, BlockOf, DiskAt, Out, Inv, Locks;
    if t != s { HandlerMoves(s, t, a); }
  }

  lemma FetchCalm(s: State, a: int, page: int, f: nat, stage: Stage)
    requires Inv(s) && a in s.phase && s.phase[a] == Fetching(page, f, stage) && stage != Moving && f < |s.ram|
    ensures Inv(Fetch(s, a, page, f, stage))
  {
    var t := Fetch(s, a, page, f, stage);
    assert HoldsAsSaid(s, a) && ProcOk(s, a);
    hide Tables, TlbOk, GetCylinderNum, BlockOf, DiskAt, Out, Inv, Locks;
    if t != s { HandlerMoves(s, t, a); }
  }

  lemma TapeWritten(s: State, t: State, a: int, i: int)
    requires a in s.tape && WrittenTo(s, a, i) && AllOut(s, a)
    requires t.tape == s.tape && t.disk == s.disk && t.pte == s.pte && t.nProc == s.nProc
    ensures WrittenTo(t, a, i) && AllOut(t, a)
    ensures i < |s.tape[a]| && Written(s, a, i) ==> WrittenTo(t, a, i + 1) && Written(t, a, i)
  {
    hide GetCylinderNum, BlockOf, DiskAt, Out;
    forall j | 0 <= j < |s.tape[a]| && Written(s, a, j) ensures Written(t, a, j) {}
    forall v | IsVpn(t, v) && v.asid == a ensures OutOf(t, v) { assert OutOf(s, v); }
  }

  /** A tape step that is Calm as soon as the locks and the tape's own progress are right. */
  lemma TapeMoves(s: State, t: State, a: int)
    requires Inv(s) && a in s.phase && InTape(s.phase[a]) && a in t.phase && a in t.tapeBuf
    requires t == s.(phase := s.phase[a := t.phase[a]], diskHolder := t.diskHolder, arm := t.arm,
                     tapeBuf := s.tapeBuf[a := t.tapeBuf[a]])
    requires t.arm == s.arm || HoldsDisk(s.phase[a])
    requires InTape(t.phase[a]) || t.phase[a] == User
    requires HoldsDisk(t.phase[a]) <==> t.diskHolder == Some(a)
    requires t.diskHolder == s.diskHolder || (s.diskHolder == None && t.diskHolder == Some(a)) || (s.diskHolder == Some(a) && t.diskHolder == None)
    requires ProcOk(t, a)
    ensures Inv(t)
  {
    assert HoldsAsSaid(s, a);
    hide Tables, TlbOk, ProcOk, HoldsDisk;
    assert HoldsAsSaid(t, a);
    LocksMove(s, t, a);
    CalmInv(s, t, a);
  }

  lemma ReadInv(s: State, a: int, i: int)
    requires Inv(s) && a in s.phase && s.phase[a] == Reading(i)
    ensures Inv(ReadBlock(s, a, i))
  {
    var t := ReadBlock(s, a, i);
    assert HoldsAsSaid(s, a) && ProcOk(s, a);
    TapeWritten(s, t, a, i);
    hide Tables, TlbOk, GetCylinderNum, BlockOf, DiskAt, Out, WrittenTo, AllOut, Written, Inv, Locks;
    assert t.tapeBuf == s.tapeBuf[a := t.tapeBuf[a]];
    TapeMoves(s, t, a);
  }

  lemma TapeCalm(s: State, a: int, i: int, stage: Stage)
    requires Inv(s) && a in s.phase && s.phase[a] == Taping(i, stage) && stage != Moving
    ensures Inv(Tape(s, a, i, stage))
  {
    var t := Tape(s, a, i, stage);
    assert HoldsAsSaid(s, a) && ProcOk(s, a);
    TapeWritten(s, t, a, i);
    if t != s {
      hide Tables, TlbOk, GetCylinderNum, BlockOf, DiskAt, Out, WrittenTo, AllOut, Written, Inv, Locks;
      assert t.tapeBuf == s.tapeBuf[a := t.tapeBuf[a]];
      TapeMoves(s, t, a);
    }
  }

  lemma FaultInv(s: State, v: Vpn)
    requires Inv(s) && Enabled(s, Fault(v))
    ensures Inv(Step(s, Fault(v)))
  {
    var t := Step(s, Fault(v));
    Bits(s.pte[v]);
    assert EntryOk(s, v) && HoldsAsSaid(s, v.asid);
    hide Tables, TlbOk, GetCylinderNum, BlockOf, DiskAt;
    LocksMove(s, t, v.asid);
    assert Calm(s, t, v.asid);
    CalmInv(s, t, v.asid);
  }

  // ---- memory accesses ----

  /** Others' frames are not the one being replaced. */
  lemma NotWork(s: State, b: int, f: int)
    requires Locks(s) && b in s.phase && !Work(s, f)
    ensures !WorksOn(s.phase[b], f)
  {
    assert HoldsAsSaid(s, b);
  }

  /** An access goes to the frame the page is mapped in. */
  lemma AccessMapped(s: State, v: Vpn)
    requires Inv(s) && CanAccess(s, v)
    ensures v in s.pte && s.tlb[v] == s.pte[v] && Mapped(s, v, s.pte[v])
  {
    assert EntryOk(s, v);
    Bits(s.pte[v]);
  }

  lemma StoreInv(s: State, v: Vpn, off: nat, x: int)
    requires Inv(s) && Enabled(s, Store(v, off, x))
    ensures Inv(Step(s, Store(v, off, x)))
  {
    var t := Step(s, Store(v, off, x));
    AccessMapped(s, v);
    hide ProcOk, In, Out, GetCylinderNum, BlockOf, DiskAt;
    assert Locks(t) by { forall b | b in t.phase ensures HoldsAsSaid(t, b) { assert HoldsAsSaid(s, b); } }
    assert Tables(t) by {
      forall w | w in t.pte ensures EntryOk(t, w) { assert EntryOk(s, w); }
      forall g | 0 <= g < |t.pool| ensures SlotOk(t, g) { assert SlotOk(s, g); }
    }
    forall b | b in t.phase ensures ProcOk(t, b) { StoreOther(s, v, off, x, b); }
  }

  lemma StoreOther(s: State, v: Vpn, off: nat, x: int, b: int)
    requires Inv(s) && Enabled(s, Store(v, off, x)) && b in s.phase
    ensures ProcOk(Step(s, Store(v, off, x)), b)
  {
    var t := Step(s, Store(v, off, x));
    AccessMapped(s, v);
    hide ProcOk, In, Out, GetCylinderNum, BlockOf, DiskAt, Tables, TlbOk, Locks;
    NotWork(s, b, FrameOf(s, s.tlb[v]));
    assert Quiet(s, t, b);
    LeftAlone(s, t, b);
  }

  lemma RefillInv(s: State, v: Vpn)
    requires Inv(s) && Enabled(s, Refill(v))
    ensures Inv(Step(s, Refill(v)))
  {
    var t := Step(s, Refill(v));
    hide ProcOk, In, Out, GetCylinderNum, BlockOf, DiskAt;
    assert Locks(t) by { forall b | b in t.phase ensures HoldsAsSaid(t, b) { assert HoldsAsSaid(s, b); } }
    assert Tables(t) by {
      forall w | w in t.pte ensures EntryOk(t, w) { assert EntryOk(s, w); }
      forall g | 0 <= g < |t.pool| ensures SlotOk(t, g) { assert SlotOk(s, g); }
    }
    forall b | b in t.phase ensures ProcOk(t, b) {
      assert Quiet(s, t, b);
      LeftAlone(s, t, b);
    }
  }

  // ---- choosing a frame ----

  lemma ChooseLocks(s: State, t: State, a: int)
    requires Locks(s) && a in s.phase && s.phase[a].Locked?
    requires a in t.phase && t.phase == s.phase[a := t.phase[a]] && HoldsSwap(t.phase[a]) && !HoldsDisk(t.phase[a])
    requires t.swapHolder == s.swapHolder && t.diskHolder == s.diskHolder
    ensures Locks(t) && s.swapHolder == Some(a)
  {
    assert HoldsAsSaid(s, a);
    LocksMove(s, t, a);
  }

  /** An occupied frame's page is in, so its owner is past readTape. */
  lemma VictimIn(s: State, f: nat)
    requires Inv(s) && f < |s.pool| && s.pool[f].asid != UNOCCUPIEDFRAME && !Work(s, f)
    ensures var v := Vpn(s.pool[f].asid, s.pool[f].page);
      IsVpn(s, v) && v in s.pte && Mapped(s, v, s.pte[v]) && FrameOf(s, s.pte[v]) == f && !InTape(s.phase[v.asid])
  {
    var v := Vpn(s.pool[f].asid, s.pool[f].page);
    assert SlotOk(s, f) && EntryOk(s, v);
    Bits(s.pte[v]);
    assert ProcOk(s, v.asid);
    assert AllOut(s, v.asid) ==> OutOf(s, v);
  }

  lemma ChooseTables(s: State, t: State, a: int, f: nat)
    requires Inv(s) && a in s.phase && s.phase[a].Locked? && s.swapHolder == Some(a)
    requires f < |s.pool| && t.pool == s.pool && t.poolPage == s.poolPage && t.swapHolder == s.swapHolder
    requires a in t.phase && forall g :: WorksOn(t.phase[a], g) <==> g == f
    requires var v := Vpn(s.pool[f].asid, s.pool[f].page);
      t.pte == if s.pool[f].asid == UNOCCUPIEDFRAME then s.pte else if v in s.pte then s.pte[v := XorValid(s.pte[v])] else s.pte
    ensures Tables(t)
  {
    hide ProcOk, XorValid;
    var v := Vpn(s.pool[f].asid, s.pool[f].page);
    if s.pool[f].asid != UNOCCUPIEDFRAME { VictimIn(s, f); Bits(s.pte[v]); }
    forall w | w in t.pte ensures EntryOk(t, w) { assert EntryOk(s, w); }
    forall g | 0 <= g < |t.pool| ensures SlotOk(t, g) { assert SlotOk(s, g); }
  }

  /** Invalidating one entry disturbs nobody who does not hold the swap pool. */
  lemma ChooseOther(s: State, t: State, a: int, v: Vpn, b: int)
    requires Inv(s) && Shape(t) && s.swapHolder == Some(a) && a in s.phase && a in t.phase
    requires t == s.(phase := s.phase[a := t.phase[a]], pte := t.pte, tlb := t.tlb, nextFrame := t.nextFrame)
    requires !InTape(t.phase[a])
    requires t.pte == s.pte || (v in s.pte && t.pte == s.pte[v := XorValid(s.pte[v])] && Out(t.pte[v]))
    requires b != a && b in s.phase
    ensures ProcOk(t, b)
  {
    assert ProcOk(s, b) && HoldsAsSaid(s, b);
    hide Tables, ProcOk, TlbOk, GetCylinderNum, BlockOf, DiskAt, In, Out, XorValid;
    forall w | OutOf(s, w) ensures OutOf(t, w) {}
    assert Quiet(s, t, b);
    LeftAlone(s, t, b);
  }

  lemma ChooseShape(s: State, a: int, page: int, t: State)
    requires Inv(s) && a in s.phase && s.phase[a] == Locked(page) && s.swapHolder == Some(a)
    requires t == ChooseFrame(s, a, page)
    ensures Shape(t) && TlbOk(t)
  {
    ChooseVictim(s, a, page);
    assert t.pte.Keys == s.pte.Keys && t.phase.Keys == s.phase.Keys;
    assert t.tlb == map[] || (t.tlb == s.tlb && t.pte == s.pte);
    hide ChooseFrame, Tables, Procs, In, Out, XorValid, Locks;
  }

  lemma ChooseSelf(s: State, a: int, page: int, f: nat, t: State)
    requires Inv(s) && a in s.phase && s.phase[a] == Locked(page) && s.swapHolder == Some(a)
    requires f == (s.nextFrame + 1) % |s.pool| && t == ChooseFrame(s, a, page) && Shape(t)
    ensures ProcOk(t, a)
  {
    hide Tables, TlbOk, GetCylinderNum, BlockOf, DiskAt, In, Out, XorValid, HasValid, Locks;
    assert !Work(s, f) && ProcOk(s, a);
    var v := Vpn(s.pool[f].asid, s.pool[f].page);
    if s.pool[f].asid != UNOCCUPIEDFRAME { VictimIn(s, f); Bits(s.pte[v]); }
  }

  /** What the choice does to the tables: one entry at most becomes invalid. */
  lemma ChooseVictim(s: State, a: int, page: int)
    requires Inv(s) && a in s.phase && s.phase[a] == Locked(page) && s.swapHolder == Some(a)
    ensures var t := ChooseFrame(s, a, page);
      var v := Vpn(s.pool[(s.nextFrame + 1) % |s.pool|].asid, s.pool[(s.nextFrame + 1) % |s.pool|].page);
      && a in t.phase && t == s.(phase := s.phase[a := t.phase[a]], pte := t.pte, tlb := t.tlb, nextFrame := t.nextFrame)
      && !InTape(t.phase[a])
      && (t.pte == s.pte || (v in s.pte && t.pte == s.pte[v := XorValid(s.pte[v])] && Out(t.pte[v])))
  {
    hide GetCylinderNum, BlockOf, DiskAt, Tables, TlbOk, ProcOk, Locks;
    var f := (s.nextFrame + 1) % |s.pool|;
    assert !Work(s, f);
    if s.pool[f].asid != UNOCCUPIEDFRAME { VictimIn(s, f); Bits(s.pte[Vpn(s.pool[f].asid, s.pool[f].page)]); }
  }

  lemma ChooseOthers(s: State, a: int, page: int)
    requires Inv(s) && a in s.phase && s.phase[a] == Locked(page) && s.swapHolder == Some(a) && Shape(ChooseFrame(s, a, page))
    ensures forall b :: b in s.phase && b != a ==> ProcOk(ChooseFrame(s, a, page), b)
  {
    hide GetCylinderNum, BlockOf, DiskAt, Tables, In, Out, XorValid, Locks, ProcOk, TlbOk, Work, InTape, HoldsSwap, ChooseFrame;
    var t := ChooseFrame(s, a, page);
    var f := (s.nextFrame + 1) % |s.pool|;
    ChooseVictim(s, a, page);
    forall b | b in s.phase && b != a ensures ProcOk(t, b) {
      ChooseOther(s, t, a, Vpn(s.pool[f].asid, s.pool[f].page), b);
    }
  }

  lemma ChooseInv(s: State, a: int, page: int)
    requires Inv(s) && a in s.phase && s.phase[a] == Locked(page)
    ensures Inv(ChooseFrame(s, a, page))
  {
    hide GetCylinderNum, BlockOf, DiskAt, Tables, TlbOk;
    var t := ChooseFrame(s, a, page);
    var f := (s.nextFrame + 1) % |s.pool|;
    ChooseLocks(s, t, a);
    ChooseShape(s, a, page, t);
    ChooseSelf(s, a, page, f, t);
    ChooseTables(s, t, a, f);
    ChooseOthers(s, a, page);
    hide Locks, ProcOk;
  }

  // ---- transfers ----

  /** Only the pages, the disk and the phase of a change, and what a works on stays. */
  ghost predicate Transfer(s: State, t: State, a: int)
    requires a in s.phase && a in t.phase
  {
    && t == s.(phase := s.phase[a := t.phase[a]], ram := t.ram, disk := t.disk) && |t.ram| == |s.ram|
    && HoldsDisk(s.phase[a]) && HoldsDisk(t.phase[a])
    && (HoldsSwap(t.phase[a]) <==> HoldsSwap(s.phase[a])) && (InTape(t.phase[a]) <==> InTape(s.phase[a]))
    && (forall f :: WorksOn(t.phase[a], f) <==> WorksOn(s.phase[a], f))
  }

  lemma TransferTables(s: State, t: State, a: int)
    requires Inv(s) && a in s.phase && a in t.phase && Transfer(s, t, a)
    ensures Shape(t) && Locks(t) && Tables(t) && TlbOk(t)
  {
    hide ProcOk, In, Out, GetCylinderNum, BlockOf, DiskAt, WorksOn, HoldsDisk, HoldsSwap, InTape;
    assert forall f :: Work(t, f) <==> Work(s, f);
    assert Locks(t) by { forall b | b in t.phase ensures HoldsAsSaid(t, b) { assert HoldsAsSaid(s, b); } }
    forall w | w in t.pte ensures EntryOk(t, w) { assert EntryOk(s, w); }
    forall g | 0 <= g < |t.pool| ensures SlotOk(t, g) { assert SlotOk(s, g); }
  }

  /** A block written by a reaches no page that another process is moving. */
  lemma WroteElsewhere(s: State, t: State, a: int, v: Vpn, data: Page, b: int)
    requires Inv(s) && a in s.phase && a in t.phase && Transfer(s, t, a) && Shape(t)
    requires t.ram == s.ram && t.disk == s.disk[BlockOf(v) := data] && IsVpn(s, v)
    requires if InTape(s.phase[a]) then v.asid == a else v.asid in s.phase && !InTape(s.phase[v.asid])
    requires b != a && b in s.phase
    ensures ProcOk(t, b)
  {
    assert HoldsAsSaid(s, a) && HoldsAsSaid(s, b) && ProcOk(s, b);
    forall w | IsVpn(s, w) && w != v ensures OnDisk(t, w) == OnDisk(s, w) {
      if BlockOf(w) == BlockOf(v) { BlockOfInjective(v, w); }
    }
    hide GetCylinderNum, BlockOf, DiskAt, In, Out, Tables, TlbOk;
    assert Quiet(s, t, b);
    LeftAlone(s, t, b);
  }

  lemma EvictWrites(s: State, a: int, page: int, f: nat, victim: Vpn)
    requires Inv(s) && a in s.phase && s.phase[a] == Evicting(page, f, victim, Moving) && f < |s.ram|
    ensures var t := Evict(s, a, page, f, victim, Moving);
      && Inv(t) && t.disk == s.disk[BlockOf(victim) := s.ram[f]]
      && 0 <= victim.page <= 30 && BlockOf(victim) == Block(victim.page, victim.asid - 1, 0)
  {
    var t := Evict(s, a, page, f, victim, Moving);
    assert HoldsAsSaid(s, a) && ProcOk(s, a);
    TransferTables(s, t, a);
    forall b | b in t.phase ensures ProcOk(t, b) {
      if b != a { WroteElsewhere(s, t, a, victim, s.ram[f], b); }
    }
  }

  lemma TapeWrites(s: State, a: int, i: int)
    requires Inv(s) && a in s.phase && s.phase[a] == Taping(i, Moving)
    ensures var t := Tape(s, a, i, Moving);
      && Inv(t) && IsVpn(s, Vpn(a, i)) && t.disk == s.disk[BlockOf(Vpn(a, i)) := s.tape[a][i]]
      && 0 <= i <= 30 && BlockOf(Vpn(a, i)) == Block(i, a - 1, 0)
  {
    var t := Tape(s, a, i, Moving);
    var v := Vpn(a, i);
    assert HoldsAsSaid(s, a) && ProcOk(s, a);
    TransferTables(s, t, a);
    forall b | b in t.phase ensures ProcOk(t, b) {
      if b != a {
        WroteElsewhere(s, t, a, v, s.tape[a][i], b);
      } else {
        forall j | 0 <= j <= i ensures Written(t, a, j) {
          assert j < i ==> Written(s, a, j);
          if j < i && BlockOf(Vpn(a, j)) == BlockOf(v) { BlockOfInjective(v, Vpn(a, j)); }
        }
        forall w | IsVpn(t, w) && w.asid == a ensures OutOf(t, w) { assert OutOf(s, w); }
      }
    }
  }

  lemma FetchReads(s: State, a: int, page: int, f: nat)
    requires Inv(s) && a in s.phase && s.phase[a] == Fetching(page, f, Moving) && f < |s.ram|
    ensures var t := Fetch(s, a, page, f, Moving);
      && Inv(t) && t.ram == s.ram[f := OnDisk(s, Vpn(a, page))]
      && 0 <= page <= 30 && BlockOf(Vpn(a, page)) == Block(page, a - 1, 0)
  {
    var t := Fetch(s, a, page, f, Moving);
    assert HoldsAsSaid(s, a) && ProcOk(s, a);
    TransferTables(s, t, a);
    forall b | b in t.phase ensures ProcOk(t, b) {
      if b != a {
        assert HoldsAsSaid(s, b);
        hide GetCylinderNum, BlockOf, DiskAt, In, Out, Tables, TlbOk;
        assert Quiet(s, t, b);
        LeftAlone(s, t, b);
      }
    }
  }

  // ---- the pool and the page table ----

  lemma PoolTables(s: State, t: State, a: int, page: int, f: nat)
    requires Inv(s) && a in s.phase && s.phase[a] == Filled(page, f) && f < |s.pool| && t == UpdatePool(s, a, page, f)
    ensures Shape(t) && Locks(t) && Tables(t) && TlbOk(t)
  {
    assert HoldsAsSaid(s, a);
    hide ProcOk, In, Out, GetCylinderNum, BlockOf, DiskAt;
    assert forall g :: Work(s, g) <==> g == f;
    assert forall g :: Work(t, g) <==> g == f;
    LocksMove(s, t, a);
    forall w | w in t.pte ensures EntryOk(t, w) { assert EntryOk(s, w); }
    forall g | 0 <= g < |t.pool| ensures SlotOk(t, g) { assert SlotOk(s, g); }
  }

  lemma PoolInv(s: State, a: int, page: int, f: nat)
    requires Inv(s) && a in s.phase && s.phase[a] == Filled(page, f) && f < |s.pool|
    ensures Inv(UpdatePool(s, a, page, f))
  {
    var t := UpdatePool(s, a, page, f);
    assert HoldsAsSaid(s, a) && ProcOk(s, a);
    PoolTables(s, t, a, page, f);
    hide GetCylinderNum, BlockOf, DiskAt, In, Out, Tables, TlbOk;
    forall b | b in t.phase ensures ProcOk(t, b) {
      if b != a {
        assert HoldsAsSaid(s, b);
        assert Quiet(s, t, b);
        LeftAlone(s, t, b);
      }
    }
  }

  lemma TableTables(s: State, t: State, a: int, page: int, f: nat)
    requires Inv(s) && a in s.phase && s.phase[a] == Pooled(page, f) && t == UpdateTable(s, a, page, f)
    ensures Shape(t) && Locks(t) && Tables(t) && TlbOk(t) && InMemory(t, Vpn(a, page))
  {
    var v := Vpn(a, page);
    assert HoldsAsSaid(s, a) && ProcOk(s, a) && OutOf(s, v);
    RemapFrame(s, f, s.pte[v]);
    assert forall g :: Work(s, g) <==> g == f;
    hide ProcOk, Remap, FrameAddr, Out, GetCylinderNum, BlockOf, DiskAt;
    LocksMove(s, t, a);
    assert forall g :: !Work(t, g);
    forall w | w in t.pte ensures EntryOk(t, w) { assert EntryOk(s, w); }
    forall g | 0 <= g < |t.pool| ensures SlotOk(t, g) { assert SlotOk(s, g); }
  }

  lemma TableInv(s: State, a: int, page: int, f: nat)
    requires Inv(s) && a in s.phase && s.phase[a] == Pooled(page, f)
    ensures Inv(UpdateTable(s, a, page, f))
  {
    hide GetCylinderNum, BlockOf, DiskAt, In, Out, Tables, TlbOk, Remap, FrameAddr;
    var t := UpdateTable(s, a, page, f);
    assert HoldsAsSaid(s, a) && ProcOk(s, a);
    TableTables(s, t, a, page, f);
    forall b | b in t.phase ensures ProcOk(t, b) {
      if b != a {
        assert HoldsAsSaid(s, b);
        assert Quiet(s, t, b);
        LeftAlone(s, t, b);
      }
    }
  }

  // ---- every step ----

  lemma AdvanceInv(s: State, a: int)
    requires Inv(s) && CanGo(s, a)
    ensures Inv(Advance(s, a))
  {
    hide Inv, Tables, TlbOk;
    match s.phase[a]
    case User =>
    case Faulted(page) => LockStep(s, a);
    case Locked(page) => ChooseInv(s, a, page);
    case Evicting(page, f, victim, stage) =>
      if stage == Moving { EvictWrites(s, a, page, f, victim); } else { EvictCalm(s, a, page, f, victim, stage); }
    case Fetching(page, f, stage) =>
      if stage == Moving { FetchReads(s, a, page, f); } else { FetchCalm(s, a, page, f, stage); }
    case Filled(page, f) => PoolInv(s, a, page, f);
    case Pooled(page, f) => TableInv(s, a, page, f);
    case Remapped(page) => LockStep(s, a);
    case Reading(i) => ReadInv(s, a, i);
    case Taping(i, stage) =>
      if stage == Moving { TapeWrites(s, a, i); } else { TapeCalm(s, a, i, stage); }
  }

  lemma StepInv(s: State, e: Event)
    requires Inv(s) && Enabled(s, e)
    ensures Inv(Step(s, e))
  {
    hide Inv, Tables, TlbOk;
    match e
    case Load(v, off) =>
    case Store(v, off, x) => StoreInv(s, v, off, x);
    case Refill(v) => RefillInv(s, v);
    case Fault(v) => FaultInv(s, v);
    case Go(a) => AdvanceInv(s, a);
  }
}
