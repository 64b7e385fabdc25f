/** pager.c and initProc.c as they run: arrays and globals changed in place. Each piece that
    no other process can observe half done is one method, proved to be one step of the pager's
    state machine; UserTLBHandler and readTape are built from these. */
module PagerCode {
  import opened Queues
  import PS = PagerState
  import opened PagerInvariant
  import opened PagerSteps
  import opened PagerTheorems
  import opened PagerGuarantees
  import opened PagerWords

  type Page = PS.Page
  type Vpn = PS.Vpn
  type Slot = PS.Slot
  type Phase = PS.Phase
  type State = PS.State

  const TLBINVALIDLOAD: int := 2
  const TLBINVALIDSTORE: int := 3
  const READY: int := 1
  const EOT: int := 0
  const EOB: int := 2
  const NOBLOCK: int := 0

  predicate Numbered(a: int) { 1 <= a }

  class Pager {
    const nProc: nat
    const poolPage: nat
    const tape: map<int, seq<Page>>
    const frameSwapPool: array<Slot>
    const ram: array<Page>
    const entryHi: array2<nat>         // kuseg2PT of process asid is row asid - 1
    const entryLo: array2<nat>
    const tapeBuffer: array<Page>
    var disk: map<PS.Block, Page>
    var arm: int
    var tlb: map<Vpn, nat>
    var nextFrame: nat
    var swapmutex: int
    var diskSema: int
    ghost var swapHolder: Option<int>
    ghost var diskHolder: Option<int>
    ghost var phase: map<int, Phase>

    ghost predicate Valid()
      reads this
    {
      && frameSwapPool.Length == ram.Length > 0
      && entryLo.Length0 == nProc && entryLo.Length1 == MAXKUSEG
      && entryHi.Length0 == nProc && entryHi.Length1 == MAXKUSEG && entryHi != entryLo
      && tapeBuffer.Length == nProc && tapeBuffer != ram
      && swapmutex == (if swapHolder.None? then 1 else 0)
      && diskSema == (if diskHolder.None? then 1 else 0)
    }

    ghost function Entries(): map<Vpn, nat>
      reads this, entryLo
      requires Valid()
    {
      map a, page | 1 <= a <= nProc && 0 <= page < PS.TABLEPAGES :: PS.Vpn(a, page) := entryLo[a - 1, page]
    }

    ghost function Buffers(): map<int, Page>
      reads this, tapeBuffer
      requires Valid()
    {
      map a | 1 <= a <= nProc && Numbered(a) :: tapeBuffer[a - 1]
    }

    ghost function S(): State
      reads this, frameSwapPool, ram, entryLo, tapeBuffer
      requires Valid()
    {
      PS.State(nProc, poolPage, tape, ram[..], Buffers(), disk, arm, Entries(), tlb,
        frameSwapPool[..], nextFrame, swapHolder, diskHolder, phase)
    }

    // ---- test ----

    /** test's tables: every frame unoccupied, every page of every process dirty and invalid,
        the mutexes free, and each process about to read its tape. */
    constructor Test(nProc: nat, poolPage: nat, poolSize: nat, tape: map<int, seq<Page>>, disk: map<PS.Block, Page>, arm: int)
      requires poolSize > 0
      requires forall a :: 1 <= a <= nProc ==> a in tape && |tape[a]| <= PS.TABLEPAGES
      ensures Valid() && PS.Initial(S()) && S().nProc == nProc && S().tape == tape && S().disk == disk
      ensures forall n, i :: 0 <= n < nProc && 0 <= i < MAXKUSEG ==> entryHi[n, i] == Kuseg2EntryHi(n + 1, i)
      ensures fresh(frameSwapPool) && fresh(ram) && fresh(entryHi) && fresh(entryLo) && fresh(tapeBuffer)
      ensures nextFrame == 0 && swapmutex == diskSema == 1
    {
      this.nProc, this.poolPage, this.tape, this.disk, this.arm := nProc, poolPage, tape, disk, arm;
      frameSwapPool := new Slot[poolSize];
      ram := new Page[poolSize];
      entryHi := new nat[nProc, MAXKUSEG];
      entryLo := new nat[nProc, MAXKUSEG];
      tapeBuffer := new Page[nProc];
      tlb, nextFrame := map[], 0;
      swapmutex, diskSema, swapHolder, diskHolder := 1, 1, None, None;
      phase := map a | 1 <= a <= nProc && Numbered(a) :: PS.Reading(0);
      new;
      FreeFrames();
      FillTables();
    }

    method FreeFrames()
      requires Valid()
      modifies frameSwapPool
      ensures forall f :: 0 <= f < frameSwapPool.Length ==> frameSwapPool[f].asid == PS.UNOCCUPIEDFRAME
    {
      var i := 0;
      while i < frameSwapPool.Length
        invariant 0 <= i <= frameSwapPool.Length
        invariant forall f :: 0 <= f < i ==> frameSwapPool[f].asid == PS.UNOCCUPIEDFRAME
      {
        frameSwapPool[i] := frameSwapPool[i].(asid := PS.UNOCCUPIEDFRAME);
        i := i + 1;
      }
    }

    /** Every process's kuseg2 table: no frame, dirty, invalid; the last entry is the stack page's. */
    method FillTables()
      requires Valid()
      modifies entryHi, entryLo
      ensures forall n, i :: 0 <= n < nProc && 0 <= i < MAXKUSEG ==>
        entryHi[n, i] == Kuseg2EntryHi(n + 1, i) && entryLo[n, i] == 0x400
    {
      hide EntryHi;
      var n := 1;
      while n < nProc + 1
        invariant 1 <= n <= nProc + 1
        invariant forall m, j :: 0 <= m < n - 1 && 0 <= j < MAXKUSEG ==>
          entryHi[m, j] == Kuseg2EntryHi(m + 1, j) && entryLo[m, j] == PS.DIRTYON
      {
        var i := 0;
        while i < MAXKUSEG
          invariant 0 <= i <= MAXKUSEG
          invariant forall m, j :: 0 <= m < n - 1 && 0 <= j < MAXKUSEG ==>
            entryHi[m, j] == Kuseg2EntryHi(m + 1, j) && entryLo[m, j] == PS.DIRTYON
          invariant forall m, j :: m == n - 1 && 0 <= j < i ==>
            entryHi[m, j] == EntryHi(KUSEG2START + j, n) && entryLo[m, j] == PS.DIRTYON
        {
          entryHi[n - 1, i] := EntryHi(KUSEG2START + i, n);
          entryLo[n - 1, i] := PS.DIRTYON;
          i := i + 1;
        }
        entryHi[n - 1, MAXKUSEG - 1] := EntryHi(KUSEG2LAST, n);
        n := n + 1;
      }
    }

    // ---- P and V ----

    method TakeSwap(asid: int, page: int)
      requires Valid() && PS.CanGo(S(), asid) && S().phase[asid] == PS.Faulted(page) && swapmutex == 1
      modifies this
      ensures Valid() && S() == PS.Advance(old(S()), asid)
    {
      swapmutex := swapmutex - 1;
      swapHolder := Some(asid);
      phase := phase[asid := PS.Locked(page)];
    }

    method ReleaseSwap(asid: int, page: int)
      requires Valid() && PS.CanGo(S(), asid) && S().phase[asid] == PS.Remapped(page) && swapHolder == Some(asid)
      modifies this
      ensures Valid() && S() == PS.Advance(old(S()), asid)
    {
      swapmutex := swapmutex + 1;
      swapHolder := None;
      phase := phase[asid := PS.User];
    }

    method TakeDisk(asid: int, ghost next: Phase)
      requires Valid() && diskSema == 1
      modifies this
      ensures Valid() && S() == PS.TakeDisk(old(S()), asid, next)
    {
      diskSema := diskSema - 1;
      diskHolder := Some(asid);
      phase := phase[asid := next];
    }

    method ReleaseDisk(asid: int, ghost next: Phase)
      requires Valid() && diskHolder.Some?
      modifies this
      ensures Valid() && S() == PS.ReleaseDisk(old(S()), asid, next)
    {
      diskSema := diskSema + 1;
      diskHolder := None;
      phase := phase[asid := next];
    }

    // ---- the disk and the tape ----

    method Seek(asid: int, cylinder: int, ghost next: Phase)
      requires Valid()
      modifies this
      ensures Valid() && S() == PS.Seek(old(S()), asid, cylinder, next)
    {
      arm := cylinder;
      phase := phase[asid := next];
    }

    method WriteBlock(asid: int, sector: int, data: Page, ghost next: Phase)
      requires Valid()
      modifies this
      ensures Valid() && S() == PS.WriteBlock(old(S()), asid, sector, data, next)
    {
      disk := disk[PS.Block(arm, sector, PS.GetHeadNum(PS.KUSEG2)) := data];
      phase := phase[asid := next];
    }

    method ReadDisk(asid: int, page: int, f: nat)
      requires Valid() && PS.CanGo(S(), asid) && S().phase[asid] == PS.Fetching(page, f, PS.Moving)
      modifies this`phase, ram
      ensures Valid() && S() == PS.Advance(old(S()), asid)
    {
      var b := PS.Block(arm, PS.GetSectorNum(asid), PS.GetHeadNum(PS.KUSEG2));
      ram[f] := PS.DiskAt(disk, b);
      phase := phase[asid := PS.Fetching(page, f, PS.Releasing)];
      assert Entries() == old(Entries()) && Buffers() == old(Buffers());
    }

    /** READBLK of tape block i; mark says whether another block follows. */
    method ReadTapeBlock(asid: int, i: nat) returns (status: int, mark: int)
      requires Valid() && PS.CanGo(S(), asid) && S().phase[asid] == PS.Reading(i) && 1 <= asid <= nProc
      modifies this`phase, tapeBuffer
      ensures Valid() && S() == PS.Advance(old(S()), asid)
      ensures status == READY <==> i < |tape[asid]|
      ensures mark == EOB <==> i + 1 < |tape[asid]|
    {
      hide PS.ChooseFrame, PS.Evict, PS.Fetch, PS.UpdatePool, PS.UpdateTable, PS.Tape, PS.Zeros;
      if i < |tape[asid]| {
        tapeBuffer[asid - 1] := tape[asid][i];
        status, mark := READY, if i + 1 < |tape[asid]| then EOB else EOT;
        phase := phase[asid := PS.Taping(i, PS.WantDisk)];
        assert Buffers() == old(Buffers())[asid := tape[asid][i]];
      } else {
        status, mark := NOBLOCK, EOT;
        phase := phase[asid := PS.User];
        assert Buffers() == old(Buffers());
      }
      assert Entries() == old(Entries());
    }

    // ---- the handler's own pieces ----

    method FindFrame() returns (frame: nat)
      requires Valid()
      modifies this`nextFrame
      ensures Valid() && nextFrame == old(nextFrame) + 1 && frame == nextFrame % frameSwapPool.Length
    {
      nextFrame := nextFrame + 1;
      frame := nextFrame % frameSwapPool.Length;
    }

    method SetEntry(v: Vpn, e: nat)
      requires Valid() && 1 <= v.asid <= nProc && 0 <= v.page < PS.TABLEPAGES
      modifies this`tlb, entryLo
      ensures Valid() && tlb == map[] && Entries() == old(Entries())[v := e]
    {
      entryLo[v.asid - 1, v.page] := e;
      tlb := map[];
    }

    /** The victim's entry loses its valid bit and the TLB everything. */
    method Invalidate(v: Vpn)
      requires Valid() && 1 <= v.asid <= nProc && 0 <= v.page < PS.TABLEPAGES
      modifies this`tlb, entryLo
      ensures Valid() && tlb == map[] && v in old(Entries()) && Entries() == old(Entries())[v := PS.XorValid(old(Entries()[v]))]
    {
      assert Entries()[v] == entryLo[v.asid - 1, v.page];
      SetEntry(v, PS.XorValid(entryLo[v.asid - 1, v.page]));
    }

    /** findFrame, and if the frame is taken: invalidate its page and clear the TLB. */
    method ChooseFrame(asid: int, page: int) returns (frame: nat)
      requires Valid() && Inv(S()) && asid in phase && phase[asid] == PS.Locked(page)
      modifies this, entryLo
      ensures Valid() && |old(S()).pool| > 0 && S() == PS.ChooseFrame(old(S()), asid, page)
      ensures frame == (old(nextFrame) + 1) % frameSwapPool.Length
    {
      hide Inv, PS.XorValid, Mapped, PS.FrameOf, Work, PS.IsVpn, PS.ChooseFrame;
      ghost var s := S();
      frame := FindFrame();
      assert S() == s.(nextFrame := s.nextFrame + 1) && frameSwapPool[frame] == s.pool[frame];
      Unlocked(s, asid, frame);
      Chosen(s, asid, page, frame);
      if frameSwapPool[frame].asid != PS.UNOCCUPIEDFRAME {
        EvictOwner(asid, page, frame);
      } else {
        phase := phase[asid := PS.Fetching(page, frame, PS.WantDisk)];
      }
    }

    method EvictOwner(asid: int, page: int, frame: nat)
      requires Valid() && frame < frameSwapPool.Length && frameSwapPool[frame].asid != PS.UNOCCUPIEDFRAME
      requires var v := PS.Vpn(frameSwapPool[frame].asid, frameSwapPool[frame].page);
        1 <= v.asid <= nProc && 0 <= v.page < PS.TABLEPAGES
      modifies this`tlb, this`phase, entryLo
      ensures Valid()
      ensures var v := PS.Vpn(frameSwapPool[frame].asid, frameSwapPool[frame].page); v in old(S()).pte
      ensures var v := PS.Vpn(frameSwapPool[frame].asid, frameSwapPool[frame].page);
        S() == old(S()).(tlb := map[], pte := old(S()).pte[v := PS.XorValid(old(S()).pte[v])],
                         phase := old(phase)[asid := PS.Evicting(page, frame, v, PS.WantDisk)])
    {
      hide PS.XorValid;
      var v := PS.Vpn(frameSwapPool[frame].asid, frameSwapPool[frame].page);
      Invalidate(v);
      phase := phase[asid := PS.Evicting(page, frame, v, PS.WantDisk)];
    }

    method UpdatePool(asid: int, page: int, f: nat)
      requires Valid() && PS.CanGo(S(), asid) && S().phase[asid] == PS.Filled(page, f)
      modifies this`phase, frameSwapPool
      ensures Valid() && S() == PS.Advance(old(S()), asid) && phase == old(phase)[asid := PS.Pooled(page, f)]
    {
      frameSwapPool[f] := PS.Slot(asid, page);
      phase := phase[asid := PS.Pooled(page, f)];
      assert Entries() == old(Entries()) && Buffers() == old(Buffers());
    }

    method UpdateTable(asid: int, page: int, f: nat)
      requires Valid() && PS.CanGo(S(), asid) && S().phase[asid] == PS.Pooled(page, f)
      requires 1 <= asid <= nProc && 0 <= page < PS.TABLEPAGES
      modifies this`phase, this`tlb, entryLo
      ensures Valid() && S() == PS.Advance(old(S()), asid) && phase == old(phase)[asid := PS.Remapped(page)]
    {
      var frameAddr := PS.GetFrameAddr(poolPage * PS.PAGESIZE, f);
      assert S().pte[PS.Vpn(asid, page)] == entryLo[asid - 1, page];
      SetEntry(PS.Vpn(asid, page), PS.Remap(frameAddr, entryLo[asid - 1, page]));
      phase := phase[asid := PS.Remapped(page)];
    }

    /** Writes the victim back, with the backing store's mutex held around the pair. */
    method WriteBack(asid: int, page: int, frame: nat, victim: Vpn)
      requires Valid() && Inv(S()) && diskSema == 1 && frame < ram.Length
      requires asid in phase && phase[asid] == PS.Evicting(page, frame, victim, PS.WantDisk)
      modifies this
      ensures Valid() && Inv(S()) && diskSema == 1
      ensures S() == old(S()).(phase := old(phase)[asid := PS.Fetching(page, frame, PS.WantDisk)],
        arm := PS.GetCylinderNum(victim.page), disk := old(disk)[PS.BlockOf(victim) := old(ram[frame])])
      ensures 0 <= victim.page <= 30 && disk == old(disk)[PS.Block(victim.page, victim.asid - 1, 0) := ram[frame]]
      ensures FlatMemory(S()) == FlatMemory(old(S()))
    {
      hide Inv, FlatMemory, PS.GetCylinderNum, PS.GetSectorNum, PS.GetHeadNum, PS.BlockOf;
      ghost var s0 := S();
      TakeDisk(asid, PS.Evicting(page, frame, victim, PS.Seeking));
      ghost var s1 := S();
      EvictStep(s0, asid, page, frame, victim, PS.WantDisk, s1);
      Seek(asid, PS.GetCylinderNum(victim.page), PS.Evicting(page, frame, victim, PS.Moving));
      ghost var s2 := S();
      EvictStep(s1, asid, page, frame, victim, PS.Seeking, s2);
      WriteBlock(asid, PS.GetSectorNum(victim.asid), ram[frame], PS.Evicting(page, frame, victim, PS.Releasing));
      ghost var s3 := S();
      EvictStep(s2, asid, page, frame, victim, PS.Moving, s3);
      EvictWrites(s2, asid, page, frame, victim);
      ReleaseDisk(asid, PS.Fetching(page, frame, PS.WantDisk));
      EvictStep(s3, asid, page, frame, victim, PS.Releasing, S());
    }

    /** Reads the missing page into the frame. */
    method ReadIn(asid: int, page: int, frame: nat)
      requires Valid() && Inv(S()) && diskSema == 1 && frame < ram.Length
      requires asid in phase && phase[asid] == PS.Fetching(page, frame, PS.WantDisk)
      modifies this, ram
      ensures Valid() && Inv(S()) && diskSema == 1
      ensures S() == old(S()).(phase := old(phase)[asid := PS.Filled(page, frame)],
        arm := PS.GetCylinderNum(page), ram := old(ram[..])[frame := PS.OnDisk(old(S()), PS.Vpn(asid, page))])
      ensures 0 <= page <= 30 && (PS.Block(page, asid - 1, 0) in disk ==> ram[frame] == disk[PS.Block(page, asid - 1, 0)])
      ensures FlatMemory(S()) == FlatMemory(old(S()))
    {
      hide Inv, FlatMemory, PS.GetCylinderNum, PS.GetSectorNum, PS.GetHeadNum, PS.BlockOf, PS.DiskAt, HoldsSwap;
      SeekPage(asid, page, frame);
      ghost var s2 := S();
      Runs(s2, asid);
      ReadDisk(asid, page, frame);
      ghost var s3 := S();
      FetchStep(s2, asid, page, frame, PS.Moving, s3);
      FetchReads(s2, asid, page, frame);
      OnDiskIs(s2, PS.Vpn(asid, page));
      ReleaseDisk(asid, PS.Filled(page, frame));
      FetchStep(s3, asid, page, frame, PS.Releasing, S());
    }

    /** The disk is taken and its arm put on the page's cylinder. */
    method SeekPage(asid: int, page: int, frame: nat)
      requires Valid() && Inv(S()) && diskSema == 1 && frame < ram.Length
      requires asid in phase && phase[asid] == PS.Fetching(page, frame, PS.WantDisk)
      modifies this
      ensures Valid() && Inv(S()) && FlatMemory(S()) == FlatMemory(old(S()))
      ensures S() == old(S()).(phase := old(phase)[asid := PS.Fetching(page, frame, PS.Moving)],
        arm := PS.GetCylinderNum(page), diskHolder := Some(asid))
    {
      hide Inv, FlatMemory, PS.GetCylinderNum, PS.GetSectorNum, PS.GetHeadNum, PS.BlockOf, PS.DiskAt, HoldsSwap;
      ghost var s0 := S();
      Runs(s0, asid);
      TakeDisk(asid, PS.Fetching(page, frame, PS.Seeking));
      ghost var s1 := S();
      FetchStep(s0, asid, page, frame, PS.WantDisk, s1);
      Seek(asid, PS.GetCylinderNum(page), PS.Fetching(page, frame, PS.Moving));
      FetchStep(s1, asid, page, frame, PS.Seeking, S());
    }

    /** From the choice of a frame to the missing page in it. */
    method BringIn(asid: int, page: int) returns (frame: nat)
      requires Valid() && Inv(S()) && diskSema == 1 && asid in phase && phase[asid] == PS.Locked(page)
      modifies this, ram, entryLo
      ensures Valid() && Inv(S()) && diskSema == 1 && frame == (old(nextFrame) + 1) % frameSwapPool.Length
      ensures asid in phase && phase[asid] == PS.Filled(page, frame) && 0 <= page <= 30
      ensures |old(S()).pool| > 0 && S() == Fetched(old(S()), asid, page)
      ensures FlatMemory(S()) == FlatMemory(old(S()))
    {
      hide Inv, FlatMemory, PS.GetCylinderNum, PS.BlockOf, PS.DiskAt, PS.ChooseFrame, PS.Advance, Fetched, Emptied, PS.OnDisk;
      ghost var s1 := S();
      frame := MakeRoom(asid, page);
      ghost var s2 := S();
      ReadIn(asid, page, frame);
      FetchedParts(s1, asid, page, frame, s2, S());
    }

    /** The choice, and the write-back if the frame is taken. */
    method MakeRoom(asid: int, page: int) returns (frame: nat)
      requires Valid() && Inv(S()) && diskSema == 1 && asid in phase && phase[asid] == PS.Locked(page)
      modifies this, entryLo
      ensures Valid() && Inv(S()) && diskSema == 1 && frame == (old(nextFrame) + 1) % frameSwapPool.Length
      ensures asid in phase && phase[asid] == PS.Fetching(page, frame, PS.WantDisk)
      ensures |old(S()).pool| > 0 && S() == Emptied(old(S()), asid, page).(arm := arm) && FlatMemory(S()) == FlatMemory(old(S()))
    {
      hide Inv, FlatMemory, PS.GetCylinderNum, PS.BlockOf, PS.DiskAt, PS.ChooseFrame, PS.Advance, PS.OnDisk;
      ghost var s1 := S();
      Runs(s1, asid);
      frame := ChooseFrame(asid, page);
      var owner := frameSwapPool[frame];
      Chosen(s1, asid, page, frame);
      ChooseInv(s1, asid, page);
      ChooseFlat(s1, asid, page);
      assert s1.pool[frame] == owner;
      if owner.asid != PS.UNOCCUPIEDFRAME {
        WriteBack(asid, page, frame, PS.Vpn(owner.asid, owner.page));
      }
    }

    /** Enters the page in the swap pool and the page table and gives the mutex back. */
    method MapPage(asid: int, page: int, frame: nat)
      requires Valid() && Inv(S()) && asid in phase && phase[asid] == PS.Filled(page, frame)
      modifies this, frameSwapPool, entryLo
      ensures Valid() && Inv(S()) && frame < frameSwapPool.Length && S() == Mapping(old(S()), asid, page, frame)
      ensures FlatMemory(S()) == FlatMemory(old(S()))
    {
      hide Inv, FlatMemory, PS.Advance, Mapping;
      ghost var s4 := S();
      Runs(s4, asid);
      UpdatePool(asid, page, frame);
      ghost var s5 := S();
      GoStep(s4, asid, s5);
      Runs(s5, asid);
      UpdateTable(asid, page, frame);
      ghost var s6 := S();
      GoStep(s5, asid, s6);
      Runs(s6, asid);
      ReleaseSwap(asid, page);
      GoStep(s6, asid, S());
      MapMoves(s4, asid, page, frame, s5, s6);
    }

    /** The whole handler, when no other process runs between its pieces. It finds who it is
        in entryHi, why it is here in the cause of the exception, and the missing page in the
        s_asid word of the old area. Other exceptions than an invalid load or store end the
        process instead. */
    method UserTLBHandler(entryHiReg: nat, cause: nat, oldAsid: nat) returns (terminated: bool)
      requires Valid() && Inv(S()) && AsidOf(entryHiReg) in phase
      requires ExcCodeOf(cause) == TLBINVALIDLOAD || ExcCodeOf(cause) == TLBINVALIDSTORE ==>
        && SegmentOf(oldAsid) == PS.KUSEG2 && phase[AsidOf(entryHiReg)] == PS.Faulted(PageOf(oldAsid))
        && swapmutex == 1 && diskSema == 1
      modifies this, frameSwapPool, ram, entryLo
      ensures Valid() && Inv(S())
      ensures terminated == (ExcCodeOf(cause) != TLBINVALIDLOAD && ExcCodeOf(cause) != TLBINVALIDSTORE)
      ensures terminated ==> S() == old(S())
      ensures !terminated ==> |old(S()).pool| > 0 && S() == Served(old(S()), AsidOf(entryHiReg), PageOf(oldAsid))
      ensures FlatMemory(S()) == FlatMemory(old(S()))
      ensures terminated <==> cause / 4 % 32 != 2 && cause / 4 % 32 != 3
      ensures !terminated ==>
        var asid, page, f := entryHiReg / 64 % 64, oldAsid / 4096 % 0x40000, (old(nextFrame) + 1) % frameSwapPool.Length;
        && 1 <= asid <= nProc && page <= 30 && nextFrame == old(nextFrame) + 1
        && frameSwapPool[f] == PS.Slot(asid, page) && entryLo[asid - 1, page] == (poolPage + f) * 4096 + 0x600
    {
      hide Inv, FlatMemory, AsidOf, ExcCodeOf, SegmentOf, PageOf, Served;
      Fields(entryHiReg);
      Fields(cause);
      Fields(oldAsid);
      var asid := AsidOf(entryHiReg);
      var excCode := ExcCodeOf(cause);
      if excCode != TLBINVALIDLOAD && excCode != TLBINVALIDSTORE {
        terminated := true;
        return;
      }
      terminated := false;
      Serve(asid, PageOf(oldAsid));
    }

    /** A missing kuseg2 page. */
    method Serve(asid: int, page: int)
      requires Valid() && Inv(S()) && asid in phase && phase[asid] == PS.Faulted(page) && swapmutex == 1 && diskSema == 1
      modifies this, frameSwapPool, ram, entryLo
      ensures Valid() && Inv(S()) && |old(S()).pool| > 0 && S() == Served(old(S()), asid, page)
      ensures FlatMemory(S()) == FlatMemory(old(S()))
      ensures var f := (old(nextFrame) + 1) % frameSwapPool.Length;
        && 1 <= asid <= nProc && 0 <= page <= 30 && nextFrame == old(nextFrame) + 1
        && frameSwapPool[f] == PS.Slot(asid, page) && entryLo[asid - 1, page] == (poolPage + f) * 4096 + 0x600
    {
      hide Inv, FlatMemory, Fetched, Mapping, PS.Advance;
      ghost var s0 := S();
      Runs(s0, asid);
      TookSwap(s0, asid, page);
      TakeSwap(asid, page);
      GoStep(s0, asid, S());
      LockApart(s0, asid, page);
      var frame := BringIn(asid, page);
      MapPage(asid, page, frame);
      ServedIs(s0, asid, page);
      Resident(asid, page, frame);
    }

    /** Pool and table entry as the state has them. */
    lemma Resident(asid: int, page: int, f: nat)
      requires Valid() && 1 <= asid <= nProc && 0 <= page <= 30 && f < frameSwapPool.Length
      ensures S().pool[f] == frameSwapPool[f] && PS.Vpn(asid, page) in S().pte && S().pte[PS.Vpn(asid, page)] == entryLo[asid - 1, page]
      ensures S().nextFrame == nextFrame && S().poolPage == poolPage
    {}

    // ---- readTape ----

    /** Reads tape block i into the buffer; at the end of the tape the process goes on to user code. */
    method NextBlock(asid: int, i: nat) returns (status: int, mark: int)
      requires Valid() && Inv(S()) && asid in phase && phase[asid] == PS.Reading(i)
      modifies this`phase, tapeBuffer
      ensures Valid() && Inv(S()) && asid in tape
      ensures (status == READY <==> i < |tape[asid]|) && (mark == EOB <==> i + 1 < |tape[asid]|)
      ensures i < |tape[asid]| ==>
        S() == old(S()).(phase := old(phase)[asid := PS.Taping(i, PS.WantDisk)], tapeBuf := S().tapeBuf)
      ensures i >= |tape[asid]| ==> S() == old(S()).(phase := old(phase)[asid := PS.User])
    {
      hide Inv, PS.Advance;
      ghost var s := S();
      Runs(s, asid);
      status, mark := ReadTapeBlock(asid, i);
      ReadStep(s, asid, i, S());
    }

    /** Writes the tape buffer to the process's block i, with the backing store's mutex. */
    method StoreTapeBlock(asid: int, i: nat)
      requires Valid() && Inv(S()) && diskSema == 1 && asid in phase && phase[asid] == PS.Taping(i, PS.WantDisk)
      modifies this
      ensures Valid() && Inv(S()) && diskSema == 1 && asid in tape && i < |tape[asid]|
      ensures S() == old(S()).(arm := PS.GetCylinderNum(i), disk := old(disk)[PS.BlockOf(PS.Vpn(asid, i)) := tape[asid][i]],
        phase := old(phase)[asid := if i + 1 < |tape[asid]| then PS.Reading(i + 1) else PS.User])
      ensures disk == old(disk)[PS.Block(i, asid - 1, 0) := tape[asid][i]]
    {
      hide Inv, PS.GetCylinderNum, PS.GetSectorNum, PS.GetHeadNum, PS.BlockOf, HoldsSwap;
      SeekBlock(asid, i);
      ghost var s2 := S();
      Runs(s2, asid);
      WriteBlock(asid, PS.GetSectorNum(asid), tapeBuffer[asid - 1], PS.Taping(i, PS.Releasing));
      ghost var s3 := S();
      TapeStep(s2, asid, i, PS.Moving, s3);
      TapeWrites(s2, asid, i);
      ReleaseDisk(asid, if i + 1 < |tape[asid]| then PS.Reading(i + 1) else PS.User);
      TapeStep(s3, asid, i, PS.Releasing, S());
    }

    /** The disk is taken and its arm put on the cylinder of block i. */
    method SeekBlock(asid: int, i: nat)
      requires Valid() && Inv(S()) && diskSema == 1 && asid in phase && phase[asid] == PS.Taping(i, PS.WantDisk)
      modifies this
      ensures Valid() && Inv(S())
      ensures S() == old(S()).(phase := old(phase)[asid := PS.Taping(i, PS.Moving)], arm := PS.GetCylinderNum(i), diskHolder := Some(asid))
    {
      hide Inv, PS.GetCylinderNum, PS.GetSectorNum, PS.GetHeadNum, PS.BlockOf, HoldsSwap;
      ghost var s0 := S();
      Runs(s0, asid);
      TakeDisk(asid, PS.Taping(i, PS.Seeking));
      ghost var s1 := S();
      TapeStep(s0, asid, i, PS.WantDisk, s1);
      Seek(asid, PS.GetCylinderNum(i), PS.Taping(i, PS.Moving));
      TapeStep(s1, asid, i, PS.Seeking, S());
    }

    /** One turn of the loop: block i goes to the disk, and the next one, if any, into the buffer. */
    method MoveBlock(asid: int, i: nat, status: int, mark: int) returns (status': int, mark': int, more: bool)
      requires Valid() && Inv(S()) && diskSema == 1 && asid in phase && phase[asid] == PS.Taping(i, PS.WantDisk)
      requires asid in tape && status == READY && (mark == EOB <==> i + 1 < |tape[asid]|)
      modifies this, tapeBuffer
      ensures Valid() && Inv(S()) && diskSema == 1 && i < |tape[asid]|
      ensures (status' == READY && more <==> i + 1 < |tape[asid]|) && (more ==> (mark' == EOB <==> i + 2 < |tape[asid]|))
      ensures S() == old(S()).(arm := arm, tapeBuf := S().tapeBuf, disk := disk,
        phase := old(phase)[asid := if i + 1 < |tape[asid]| then PS.Taping(i + 1, PS.WantDisk) else PS.User])
      ensures disk == old(disk)[PS.BlockOf(PS.Vpn(asid, i)) := tape[asid][i]]
    {
      hide Inv, PS.GetCylinderNum, PS.GetSectorNum, PS.BlockOf, PS.Advance, HoldsSwap;
      status', mark' := status, mark;
      StoreTapeBlock(asid, i);
      more := mark == EOB;
      if more { status', mark' := NextBlock(asid, i + 1); }
    }

    /** Copies the tape to the process's part of the backing store, block by block, when no
        other process runs in between. */
    method ReadTape(procNum: int)
      requires Valid() && Inv(S()) && diskSema == 1 && procNum in phase && phase[procNum] == PS.Reading(0)
      modifies this, tapeBuffer
      ensures Valid() && Inv(S()) && diskSema == 1 && procNum in tape
      ensures S() == old(S()).(phase := old(phase)[procNum := PS.User], arm := arm, tapeBuf := S().tapeBuf, disk := disk)
      ensures disk == Copied(old(disk), procNum, tape[procNum], |tape[procNum]|)
      ensures forall b: PS.Block ::
        if b.sector == procNum - 1 && b.head == 0 && 0 <= b.cylinder < |tape[procNum]|
        then b in disk && disk[b] == tape[procNum][b.cylinder]
        else (b in disk <==> b in old(disk)) && (b in disk ==> disk[b] == old(disk)[b])
    {
      hide Inv, Copied, FlatMemory, PS.GetCylinderNum, PS.GetSectorNum, PS.BlockOf, PS.Advance, HoldsSwap;
      var i := 0;
      var moreToRead := true;
      ghost var s0 := S();
      Runs(s0, procNum);
      var tapeStatus, mark := NextBlock(procNum, 0);
      CopiedNone(disk, procNum, tape[procNum]);
      while tapeStatus == READY && moreToRead
        invariant Valid() && Inv(S()) && diskSema == 1
        invariant 0 <= i <= |tape[procNum]| && (tapeStatus == READY && moreToRead <==> i < |tape[procNum]|)
        invariant i < |tape[procNum]| ==> (mark == EOB <==> i + 1 < |tape[procNum]|)
        invariant S() == s0.(phase := s0.phase[procNum := if i < |tape[procNum]| then PS.Taping(i, PS.WantDisk) else PS.User],
          arm := arm, tapeBuf := S().tapeBuf, disk := disk)
        invariant disk == Copied(s0.disk, procNum, tape[procNum], i)
        decreases |tape[procNum]| - i
      {
        CopiedNext(s0.disk, procNum, tape[procNum], i);
        tapeStatus, mark, moreToRead := MoveBlock(procNum, i, tapeStatus, mark);
        i := i + 1;
      }
      TapeLengths(s0, procNum);
      CopiedAt(s0.disk, procNum, tape[procNum], |tape[procNum]|);
    }
  }

  /** The holder of the swap pool that works on no frame yet leaves every frame alone. */
  lemma Unlocked(s: State, a: int, f: nat)
    requires Inv(s) && a in s.phase && s.phase[a].Locked?
    ensures s.swapHolder == Some(a) && !Work(s, f)
  {
    assert HoldsAsSaid(s, a);
  }

  // ---- the handler as one transition ----

  /** The page table, the disk and the TLB once frame f has been taken from its page. */
  ghost function Evicted(s: State, f: nat): (map<Vpn, nat>, map<PS.Block, Page>, map<Vpn, nat>)
    requires f < |s.pool|
  {
    var owner := PS.Vpn(s.pool[f].asid, s.pool[f].page);
    if s.pool[f].asid != PS.UNOCCUPIEDFRAME && owner in s.pte && s.pte[owner] >= PS.VALIDON && f < |s.ram|
    then (s.pte[owner := s.pte[owner] - PS.VALIDON], s.disk[PS.BlockOf(owner) := s.ram[f]], map[])
    else (s.pte, s.disk, s.tlb)
  }

  /** Round-robin choice of a frame; its page, if it holds one, is written back and unmapped.
      Where that leaves the disk's arm does not matter. */
  ghost function Emptied(s: State, a: int, page: int): State
    requires |s.pool| > 0
  {
    var f := (s.nextFrame + 1) % |s.pool|;
    var (pte, disk, tlb) := Evicted(s, f);
    s.(nextFrame := s.nextFrame + 1, pte := pte, disk := disk, tlb := tlb,
       phase := s.phase[a := PS.Fetching(page, f, PS.WantDisk)])
  }

  /** The missing page is read into the frame so emptied. */
  ghost function Fetched(s: State, a: int, page: int): State
    requires |s.pool| > 0
  {
    var t, f := Emptied(s, a, page), (s.nextFrame + 1) % |s.pool|;
    t.(arm := PS.GetCylinderNum(page), phase := s.phase[a := PS.Filled(page, f)],
       ram := if f < |s.ram| then s.ram[f := PS.OnDisk(t, PS.Vpn(a, page))] else s.ram)
  }

  lemma FetchedParts(s: State, a: int, page: int, f: nat, u: State, t: State)
    requires |s.pool| > 0 && f == (s.nextFrame + 1) % |s.pool| && f < |s.ram| && u == Emptied(s, a, page).(arm := u.arm)
    requires t == u.(phase := u.phase[a := PS.Filled(page, f)], arm := PS.GetCylinderNum(page),
                     ram := u.ram[f := PS.OnDisk(u, PS.Vpn(a, page))])
    ensures t == Fetched(s, a, page)
  {
    hide PS.GetCylinderNum, PS.BlockOf, PS.DiskAt, Emptied;
    EmptiedParts(s, a, page, f);
    assert t.phase == s.phase[a := PS.Filled(page, f)];
  }

  lemma EmptiedParts(s: State, a: int, page: int, f: nat)
    requires |s.pool| > 0 && f == (s.nextFrame + 1) % |s.pool|
    ensures var t := Emptied(s, a, page); t.ram == s.ram && t.phase == s.phase[a := PS.Fetching(page, f, PS.WantDisk)]
  {}

  /** Frame f, filled with the page, is entered everywhere. */
  ghost function Mapping(s: State, a: int, page: int, f: nat): State
    requires f < |s.pool|
  {
    s.(pool := s.pool[f := PS.Slot(a, page)], tlb := map[], swapHolder := None,
       pte := s.pte[PS.Vpn(a, page) := PS.FrameAddr(s, f) + PS.DIRTYON + PS.VALIDON],
       phase := s.phase[a := PS.User])
  }

  /** A page fault served without interference. */
  ghost function Served(s: State, a: int, page: int): State
    requires |s.pool| > 0
  {
    Mapping(Fetched(s, a, page), a, page, (s.nextFrame + 1) % |s.pool|)
  }

  lemma ServedIs(s: State, a: int, page: int)
    requires |s.pool| > 0
    ensures var t, f := Served(s, a, page), (s.nextFrame + 1) % |s.pool|;
      && |t.pool| == |s.pool| && t.pool[f] == PS.Slot(a, page) && t.nextFrame == s.nextFrame + 1
      && PS.Vpn(a, page) in t.pte && t.pte[PS.Vpn(a, page)] == (s.poolPage + f) * 4096 + 0x600
  {
    hide PS.BlockOf, PS.DiskAt, PS.GetCylinderNum, Evicted;
  }

  lemma MapMoves(s: State, a: int, page: int, f: nat, t: State, u: State)
    requires Inv(s) && PS.CanGo(s, a) && s.phase[a] == PS.Filled(page, f) && t == PS.Advance(s, a)
    requires Inv(t) && PS.CanGo(t, a) && t.phase[a] == PS.Pooled(page, f) && u == PS.Advance(t, a)
    requires PS.CanGo(u, a) && u.phase[a] == PS.Remapped(page)
    ensures f < |s.pool| && PS.Advance(u, a) == Mapping(s, a, page, f)
  {
    hide Inv, PS.Remap, PS.Advance, PS.FrameOf, PS.HasValid;
    RemapExact(t, a, page, f);
    MapParts(s, a, page, f);
    MapParts(t, a, page, f);
    MapParts(u, a, page, f);
  }

  lemma MapParts(s: State, a: int, page: int, f: nat)
    requires PS.CanGo(s, a)
    ensures s.phase[a] == PS.Filled(page, f) ==> f < |s.pool| && PS.Advance(s, a) == PS.UpdatePool(s, a, page, f)
    ensures s.phase[a] == PS.Pooled(page, f) ==> PS.Advance(s, a) == PS.UpdateTable(s, a, page, f)
    ensures s.phase[a] == PS.Remapped(page) ==> PS.Advance(s, a) == s.(phase := s.phase[a := PS.User], swapHolder := None)
  {
    hide PS.UpdatePool, PS.UpdateTable;
  }

  lemma TookSwap(s: State, a: int, page: int)
    requires PS.CanGo(s, a) && s.phase[a] == PS.Faulted(page) && s.swapHolder == None
    ensures PS.Advance(s, a) == s.(phase := s.phase[a := PS.Locked(page)], swapHolder := Some(a))
  {}

  lemma LockApart(s: State, a: int, page: int)
    requires |s.pool| > 0
    ensures var t := s.(phase := s.phase[a := PS.Locked(page)], swapHolder := Some(a));
      Served(t, a, page) == Served(s, a, page)
  {
    hide PS.GetCylinderNum, PS.BlockOf, PS.DiskAt, Fetched;
    FetchedApart(s, a, page);
  }

  lemma FetchedApart(s: State, a: int, page: int)
    requires |s.pool| > 0
    ensures var t := s.(phase := s.phase[a := PS.Locked(page)], swapHolder := Some(a));
      Fetched(t, a, page) == Fetched(s, a, page).(swapHolder := Some(a))
  {
    hide PS.GetCylinderNum, PS.BlockOf, PS.DiskAt, Emptied;
    var t := s.(phase := s.phase[a := PS.Locked(page)], swapHolder := Some(a));
    EmptiedApart(s, a, page);
    assert t.phase[a := PS.Filled(page, (s.nextFrame + 1) % |s.pool|)] == s.phase[a := PS.Filled(page, (s.nextFrame + 1) % |s.pool|)];
  }

  lemma EmptiedApart(s: State, a: int, page: int)
    requires |s.pool| > 0
    ensures var t := s.(phase := s.phase[a := PS.Locked(page)], swapHolder := Some(a));
      Emptied(t, a, page) == Emptied(s, a, page).(swapHolder := Some(a))
  {
    hide PS.GetCylinderNum, PS.BlockOf, PS.DiskAt;
    var f := (s.nextFrame + 1) % |s.pool|;
    assert s.phase[a := PS.Locked(page)][a := PS.Fetching(page, f, PS.WantDisk)] == s.phase[a := PS.Fetching(page, f, PS.WantDisk)];
    EvictedApart(s, a, page, f);
    hide Evicted;
  }

  lemma EvictedApart(s: State, a: int, page: int, f: nat)
    requires f < |s.pool|
    ensures Evicted(s.(phase := s.phase[a := PS.Locked(page)], swapHolder := Some(a)), f) == Evicted(s, f)
  {
    hide PS.BlockOf;
  }

  lemma Runs(s: State, a: int)
    requires Inv(s) && a in s.phase
    ensures PS.CanGo(s, a) && 1 <= a <= s.nProc
    ensures s.phase[a].Pooled? ==> 0 <= s.phase[a].page < PS.TABLEPAGES
    ensures HoldsSwap(s.phase[a]) <==> s.swapHolder == Some(a)
    ensures HoldsDisk(s.phase[a]) <==> s.diskHolder == Some(a)
  {
    assert ProcOk(s, a) && HoldsAsSaid(s, a);
  }

  /** A move other than a tape's keeps the invariant and the flat memory. */
  lemma GoStep(s: State, a: int, t: State)
    requires Inv(s) && PS.CanGo(s, a) && t == PS.Advance(s, a) && !s.phase[a].Taping?
    ensures Inv(t) && FlatMemory(t) == FlatMemory(s)
  {
    hide Inv, FlatMemory, PS.Advance;
    AdvanceInv(s, a);
    AdvanceFlat(s, a);
  }

  lemma EvictStep(s: State, a: int, page: int, f: nat, victim: Vpn, stage: PS.Stage, t: State)
    requires Inv(s) && a in s.phase && s.phase[a] == PS.Evicting(page, f, victim, stage) && f < |s.ram|
    requires t == PS.Evict(s, a, page, f, victim, stage)
    ensures Inv(t) && FlatMemory(t) == FlatMemory(s)
  {
    hide Inv;
    if stage == PS.Moving { EvictWrites(s, a, page, f, victim); } else { EvictCalm(s, a, page, f, victim, stage); }
    EvictFlat(s, a, page, f, victim, stage);
  }

  lemma FetchStep(s: State, a: int, page: int, f: nat, stage: PS.Stage, t: State)
    requires Inv(s) && a in s.phase && s.phase[a] == PS.Fetching(page, f, stage) && f < |s.ram|
    requires t == PS.Fetch(s, a, page, f, stage)
    ensures Inv(t) && FlatMemory(t) == FlatMemory(s)
  {
    hide Inv;
    if stage == PS.Moving { FetchReads(s, a, page, f); } else { FetchCalm(s, a, page, f, stage); }
    FetchFlat(s, a, page, f, stage);
  }

  lemma OnDiskIs(s: State, v: Vpn)
    ensures PS.BlockOf(v) in s.disk ==> PS.OnDisk(s, v) == s.disk[PS.BlockOf(v)]
  {}

  /** What choosing frame f did. */
  lemma Chosen(s: State, a: int, page: int, f: nat)
    requires Inv(s) && a in s.phase && s.phase[a] == PS.Locked(page) && |s.pool| > 0 && f == (s.nextFrame + 1) % |s.pool|
    ensures f < |s.ram|
    ensures s.pool[f].asid == PS.UNOCCUPIEDFRAME ==>
      PS.ChooseFrame(s, a, page) == s.(nextFrame := s.nextFrame + 1, phase := s.phase[a := PS.Fetching(page, f, PS.WantDisk)])
    ensures s.pool[f].asid != PS.UNOCCUPIEDFRAME ==>
      var v := PS.Vpn(s.pool[f].asid, s.pool[f].page);
      1 <= v.asid <= s.nProc && 0 <= v.page < PS.TABLEPAGES && v in s.pte && s.pte[v] >= PS.VALIDON && PS.XorValid(s.pte[v]) == s.pte[v] - PS.VALIDON &&
      PS.ChooseFrame(s, a, page) == s.(nextFrame := s.nextFrame + 1, pte := s.pte[v := s.pte[v] - PS.VALIDON], tlb := map[],
                                       phase := s.phase[a := PS.Evicting(page, f, v, PS.WantDisk)])
  {
    Unlocked(s, a, f);
    if s.pool[f].asid != PS.UNOCCUPIEDFRAME { VictimIn(s, f); Bits(s.pte[PS.Vpn(s.pool[f].asid, s.pool[f].page)]); }
  }

  // ---- readTape as one transition ----

  /** The disk after the first n blocks of process a's tape are copied. */
  ghost function Copied(disk: map<PS.Block, Page>, a: int, blocks: seq<Page>, n: nat): map<PS.Block, Page>
    requires n <= |blocks|
  {
    if n == 0 then disk else Copied(disk, a, blocks, n - 1)[PS.BlockOf(PS.Vpn(a, n - 1)) := blocks[n - 1]]
  }

  lemma CopiedNone(disk: map<PS.Block, Page>, a: int, blocks: seq<Page>)
    ensures Copied(disk, a, blocks, 0) == disk
  {}

  lemma CopiedNext(disk: map<PS.Block, Page>, a: int, blocks: seq<Page>, n: nat)
    requires n < |blocks|
    ensures Copied(disk, a, blocks, n + 1) == Copied(disk, a, blocks, n)[PS.BlockOf(PS.Vpn(a, n)) := blocks[n]]
  {}

  lemma TapeLengths(s: State, a: int)
    requires Inv(s) && a in s.phase
    ensures a in s.tape && |s.tape[a]| <= 31
  {}

  /** Block i of the tape is at cylinder i, sector a - 1, head 0, and no other block has changed. */
  lemma {:induction false} CopiedAt(disk: map<PS.Block, Page>, a: int, blocks: seq<Page>, n: nat)
    requires n <= |blocks| <= 31
    ensures var t := Copied(disk, a, blocks, n); forall b: PS.Block ::
      if b.sector == a - 1 && b.head == 0 && 0 <= b.cylinder < n
      then b in t && t[b] == blocks[b.cylinder]
      else (b in t <==> b in disk) && (b in t ==> t[b] == disk[b])
  {
    if n > 0 {
      CopiedAt(disk, a, blocks, n - 1);
      BlockPlace(PS.Vpn(a, n - 1));
    }
  }

  lemma TapeStep(s: State, a: int, i: nat, stage: PS.Stage, t: State)
    requires Inv(s) && PS.CanGo(s, a) && s.phase[a] == PS.Taping(i, stage) && t == PS.Tape(s, a, i, stage)
    ensures Inv(t) && i < |s.tape[a]|
  {
    if stage == PS.Moving { TapeWrites(s, a, i); } else { TapeCalm(s, a, i, stage); }
    assert ProcOk(s, a);
    hide Tables, TlbOk, Locks;
  }

  lemma ReadStep(s: State, a: int, i: nat, t: State)
    requires Inv(s) && PS.CanGo(s, a) && s.phase[a] == PS.Reading(i) && t == PS.Advance(s, a)
    ensures Inv(t)
    ensures i < |s.tape[a]| ==>
      t == s.(phase := s.phase[a := PS.Taping(i, PS.WantDisk)], tapeBuf := s.tapeBuf[a := s.tape[a][i]])
    ensures i >= |s.tape[a]| ==> t == s.(phase := s.phase[a := PS.User])
  {
    ReadInv(s, a, i);
    hide Inv;
  }
}
