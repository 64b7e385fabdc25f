/** The demand pager of phase 3 as a step machine: frames, page tables, swap pool, TLB and
    disk, and the point each user process has reached in UserTLBHandler or readTape. */
module PagerState {
  import opened Queues

  const PAGESIZE: nat := 4096
  const DIRTYON: nat := 0x400
  const VALIDON: nat := 0x200
  const FRAMENUMMASK: nat := 0xFFF
  const KUSEG2: int := 2
  const KUSEG3: int := 3
  const KUSEG2HEAD: int := 0
  const KUSEG3HEAD: int := 1
  const UNOCCUPIEDFRAME: int := -1
  const TABLEPAGES: int := 31

  const PAGEWORDS: nat := 1024

  type Page = p: seq<int> | |p| == PAGEWORDS witness Zeros(PAGEWORDS)

  function Zeros(n: nat): (z: seq<int>)
    ensures |z| == n
  {
    if n == 0 then [] else Zeros(n - 1) + [0]
  }

  /** A kuseg2 page of user process asid. */
  datatype Vpn = Vpn(asid: int, page: int)

  /** A swap pool entry; asid is UNOCCUPIEDFRAME if the frame is free. */
  datatype Slot = Slot(asid: int, page: int)

  datatype Block = Block(cylinder: int, sector: int, head: int)

  // ---- arithmetic of initProc.c and pager.c ----

  function GetCylinderNum(page: int): int { if page >= 31 then 31 else page }

  function GetSectorNum(asid: int): int { asid - 1 }

  function GetHeadNum(segment: int): int { if segment == KUSEG2 then KUSEG2HEAD else KUSEG3HEAD }

  function BlockOf(v: Vpn): Block
  {
    Block(GetCylinderNum(v.page), GetSectorNum(v.asid), GetHeadNum(KUSEG2))
  }

  function GetFrameAddr(start: nat, frame: nat): nat { start + frame * PAGESIZE }

  /** Bit 9 of an entryLo word. */
  predicate HasValid(e: nat) { e / VALIDON % 2 == 1 }

  /** e ^ VALIDON, as PagerInvariant.WordOps proves. */
  function XorValid(e: nat): nat { if HasValid(e) then e - VALIDON else e + VALIDON }

  /** e | VALIDON */
  function OrValid(e: nat): nat { if HasValid(e) then e else e + VALIDON }

  /** frameAddr + ((e | VALIDON) & FRAMENUMMASK) */
  function Remap(frameAddr: nat, e: nat): nat { frameAddr + OrValid(e) % PAGESIZE }

  // ---- the state ----

  /** What a disk transaction does next. */
  datatype Stage = WantDisk | Seeking | Moving | Releasing

  /** What a user process does next. */
  datatype Phase =
    | Reading(i: int)                                            // readTape: read tape block i
    | Taping(i: int, stage: Stage)                               // readTape: write it to disk
    | User
    | Faulted(page: int)                                         // P(swapmutex)
    | Locked(page: int)                                          // findFrame, invalidate, TLBCLR
    | Evicting(page: int, frame: nat, victim: Vpn, stage: Stage) // write the victim back
    | Fetching(page: int, frame: nat, stage: Stage)              // read the missing page in
    | Filled(page: int, frame: nat)                              // update the swap pool
    | Pooled(page: int, frame: nat)                              // update the page table, TLBCLR
    | Remapped(page: int)                                        // V(swapmutex)

  datatype State = State(
    nProc: nat, poolPage: nat, tape: map<int, seq<Page>>,
    ram: seq<Page>, tapeBuf: map<int, Page>,
    disk: map<Block, Page>, arm: int,
    pte: map<Vpn, nat>, tlb: map<Vpn, nat>,
    pool: seq<Slot>, nextFrame: nat,
    swapHolder: Option<int>, diskHolder: Option<int>,
    phase: map<int, Phase>)

  predicate IsAsid(s: State, a: int) { 1 <= a <= s.nProc }

  predicate IsPage(page: int) { 0 <= page < TABLEPAGES }

  predicate IsVpn(s: State, v: Vpn) { IsAsid(s, v.asid) && IsPage(v.page) }

  function FrameAddr(s: State, f: nat): nat { GetFrameAddr(s.poolPage * PAGESIZE, f) }

  /** The frame an entryLo word points to. */
  function FrameOf(s: State, e: nat): int { e / PAGESIZE - s.poolPage }

  function DiskAt(disk: map<Block, Page>, b: Block): Page { if b in disk then disk[b] else Zeros(PAGEWORDS) }

  function OnDisk(s: State, v: Vpn): Page { DiskAt(s.disk, BlockOf(v)) }

  ghost predicate Shape(s: State)
  {
    && |s.pool| == |s.ram| > 0
    && (forall a :: IsAsid(s, a) <==> a in s.phase)
    && (forall a :: IsAsid(s, a) ==> a in s.tape && a in s.tapeBuf && |s.tape[a]| <= TABLEPAGES)
    && (forall v :: IsVpn(s, v) <==> v in s.pte)
  }

  // ---- steps ----

  function SetPhase(s: State, a: int, p: Phase): State { s.(phase := s.phase[a := p]) }

  /** findFrame, and if the frame is taken: clear the victim's valid bit and the TLB. */
  function ChooseFrame(s: State, a: int, page: int): State
    requires |s.pool| > 0
  {
    var next := s.nextFrame + 1;
    var f := next % |s.pool|;
    var t := s.(nextFrame := next);
    if s.pool[f].asid != UNOCCUPIEDFRAME then
      var victim := Vpn(s.pool[f].asid, s.pool[f].page);
      var e := if victim in s.pte then s.pte[victim] else 0;
      SetPhase(t.(pte := s.pte[victim := XorValid(e)], tlb := map[]), a, Evicting(page, f, victim, WantDisk))
    else
      SetPhase(t, a, Fetching(page, f, WantDisk))
  }

  /** P on the backing store's semaphore; a process that finds it taken does not move. */
  function TakeDisk(s: State, a: int, p: Phase): State
  {
    if s.diskHolder.None? then SetPhase(s, a, p).(diskHolder := Some(a)) else s
  }

  function ReleaseDisk(s: State, a: int, p: Phase): State { SetPhase(s, a, p).(diskHolder := None) }

  function Seek(s: State, a: int, cylinder: int, p: Phase): State { SetPhase(s, a, p).(arm := cylinder) }

  /** WRITEBLK goes to the cylinder the arm is at. */
  function WriteBlock(s: State, a: int, sector: int, data: Page, p: Phase): State
  {
    SetPhase(s, a, p).(disk := s.disk[Block(s.arm, sector, GetHeadNum(KUSEG2)) := data])
  }

  function Evict(s: State, a: int, page: int, f: nat, victim: Vpn, stage: Stage): State
    requires f < |s.ram|
  {
    match stage
    case WantDisk => TakeDisk(s, a, Evicting(page, f, victim, Seeking))
    case Seeking => Seek(s, a, GetCylinderNum(victim.page), Evicting(page, f, victim, Moving))
    case Moving => WriteBlock(s, a, GetSectorNum(victim.asid), s.ram[f], Evicting(page, f, victim, Releasing))
    case Releasing => ReleaseDisk(s, a, Fetching(page, f, WantDisk))
  }

  function Fetch(s: State, a: int, page: int, f: nat, stage: Stage): State
    requires f < |s.ram|
  {
    match stage
    case WantDisk => TakeDisk(s, a, Fetching(page, f, Seeking))
    case Seeking => Seek(s, a, GetCylinderNum(page), Fetching(page, f, Moving))
    case Moving =>
      var b := Block(s.arm, GetSectorNum(a), GetHeadNum(KUSEG2));
      SetPhase(s, a, Fetching(page, f, Releasing)).(ram := s.ram[f := DiskAt(s.disk, b)])
    case Releasing => ReleaseDisk(s, a, Filled(page, f))
  }

  /** readTape's READBLK from the tape; past the last block it is done. */
  function ReadBlock(s: State, a: int, i: int): State
    requires a in s.tape
  {
    if 0 <= i < |s.tape[a]|
    then SetPhase(s, a, Taping(i, WantDisk)).(tapeBuf := s.tapeBuf[a := s.tape[a][i]])
    else SetPhase(s, a, User)
  }

  function Tape(s: State, a: int, i: int, stage: Stage): State
    requires a in s.tape && a in s.tapeBuf
  {
    match stage
    case WantDisk => TakeDisk(s, a, Taping(i, Seeking))
    case Seeking => Seek(s, a, GetCylinderNum(i), Taping(i, Moving))
    case Moving => WriteBlock(s, a, GetSectorNum(a), s.tapeBuf[a], Taping(i, Releasing))
    case Releasing => ReleaseDisk(s, a, if i + 1 < |s.tape[a]| then Reading(i + 1) else User)
  }

  function UpdatePool(s: State, a: int, page: int, f: nat): State
    requires f < |s.pool|
  {
    SetPhase(s, a, Pooled(page, f)).(pool := s.pool[f := Slot(a, page)])
  }

  /** The new entry keeps the flag bits of the old one, and TLBCLR drops what was cached. */
  function UpdateTable(s: State, a: int, page: int, f: nat): State
  {
    var e := if Vpn(a, page) in s.pte then s.pte[Vpn(a, page)] else 0;
    SetPhase(s, a, Remapped(page)).(pte := s.pte[Vpn(a, page) := Remap(FrameAddr(s, f), e)], tlb := map[])
  }

  /** The next step of a process that is in the handler or in readTape. */
  function Advance(s: State, a: int): State
    requires CanGo(s, a)
  {
    match s.phase[a]
    case User => s
    case Faulted(page) =>
      if s.swapHolder.None? then SetPhase(s, a, Locked(page)).(swapHolder := Some(a)) else s
    case Locked(page) => ChooseFrame(s, a, page)
    case Evicting(page, f, victim, stage) => Evict(s, a, page, f, victim, stage)
    case Fetching(page, f, stage) => Fetch(s, a, page, f, stage)
    case Filled(page, f) => UpdatePool(s, a, page, f)
    case Pooled(page, f) => UpdateTable(s, a, page, f)
    case Remapped(page) => SetPhase(s, a, User).(swapHolder := None)
    case Reading(i) => ReadBlock(s, a, i)
    case Taping(i, stage) => Tape(s, a, i, stage)
  }

  datatype Event =
    | Load(v: Vpn, off: nat)
    | Store(v: Vpn, off: nat, x: int)
    | Refill(v: Vpn)
    | Fault(v: Vpn)
    | Go(a: int)

  /** Whoever accesses memory runs user code. The TLB is refilled from the page table, valid
      entry or not; it serves accesses through a valid entry and faults on an invalid one. */
  predicate Enabled(s: State, e: Event)
  {
    match e
    case Load(v, off) => CanAccess(s, v) && off < PAGEWORDS
    case Store(v, off, _) => CanAccess(s, v) && off < PAGEWORDS
    case Refill(v) => IsVpn(s, v) && v in s.pte
    case Fault(v) => Running(s, v.asid) && v in s.tlb && !HasValid(s.tlb[v])
    case Go(a) => CanGo(s, a)
  }

  /** Process a exists, and the frame it works on is a frame of the pool. */
  predicate CanGo(s: State, a: int)
  {
    && a in s.phase && a in s.tape && a in s.tapeBuf && |s.pool| == |s.ram| > 0
    && (s.phase[a].Evicting? || s.phase[a].Fetching? || s.phase[a].Filled? ==> s.phase[a].frame < |s.ram|)
  }

  predicate Running(s: State, a: int) { a in s.phase && s.phase[a] == User }

  predicate CanAccess(s: State, v: Vpn)
  {
    && Running(s, v.asid) && v in s.tlb && HasValid(s.tlb[v])
    && 0 <= FrameOf(s, s.tlb[v]) < |s.ram|
  }

  /** What a load sees: the word in the frame that the TLB names. */
  function Loaded(s: State, v: Vpn, off: nat): int
    requires CanAccess(s, v) && off < PAGEWORDS
  {
    s.ram[FrameOf(s, s.tlb[v])][off]
  }

  function Step(s: State, e: Event): State
    requires Enabled(s, e)
  {
    match e
    case Load(v, off) => s
    case Store(v, off, x) =>
      var f := FrameOf(s, s.tlb[v]);
      s.(ram := s.ram[f := s.ram[f][off := x]])
    case Refill(v) => s.(tlb := s.tlb[v := s.pte[v]])
    case Fault(v) => SetPhase(s, v.asid, Faulted(v.page))
    case Go(a) => Advance(s, a)
  }

  /** What test sets up, with every user process about to read its tape. */
  ghost predicate Initial(s: State)
  {
    && Shape(s)
    && (forall v :: v in s.pte ==> s.pte[v] == DIRTYON)
    && (forall f :: 0 <= f < |s.pool| ==> s.pool[f].asid == UNOCCUPIEDFRAME)
    && s.tlb == map[] && s.swapHolder == None && s.diskHolder == None
    && (forall a :: a in s.phase ==> s.phase[a] == Reading(0))
  }
}
