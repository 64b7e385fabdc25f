/** What the pager's users and maintainers may rely on, as consequences of the invariant and
    of the flat memory. */
module PagerGuarantees {
  import opened Queues
  import opened PagerState
  import opened PagerInvariant
  import opened PagerSteps
  import opened PagerTheorems

  // ---- the swap pool ----

  /** While nobody replaces a page, pool entry f names page v exactly if v's entry is valid and
      points to f. */
  lemma PoolIsInverse(s: State, f: nat, v: Vpn)
    requires Inv(s) && s.swapHolder == None && f < |s.pool| && IsVpn(s, v)
    ensures v in s.pte
    ensures s.pool[f] == Slot(v.asid, v.page) <==> HasValid(s.pte[v]) && FrameOf(s, s.pte[v]) == f
    ensures HasValid(s.pte[v]) ==> 0 <= FrameOf(s, s.pte[v]) < |s.pool|
    ensures s.pool[f].asid != UNOCCUPIEDFRAME ==> IsVpn(s, Vpn(s.pool[f].asid, s.pool[f].page))
  {
    assert EntryOk(s, v) && SlotOk(s, f);
    Bits(s.pte[v]);
  }

  /** At every moment, two resident pages are in different frames. */
  lemma NoSharedFrame(s: State, v: Vpn, w: Vpn)
    requires Inv(s) && v in s.pte && w in s.pte && HasValid(s.pte[v]) && HasValid(s.pte[w])
    requires FrameOf(s, s.pte[v]) == FrameOf(s, s.pte[w])
    ensures v == w
  {
    assert EntryOk(s, v) && EntryOk(s, w);
    Bits(s.pte[v]);
    Bits(s.pte[w]);
  }

  /** When the handler flips the victim's valid bit, the bit was set: the entry loses VALIDON
      and nothing else, and nobody can reach the page any more. */
  lemma EvictionClears(s: State, a: int, page: int)
    requires Inv(s) && CanGo(s, a) && s.phase[a] == Locked(page)
    ensures var t := Advance(s, a);
      t.phase[a].Evicting? ==>
        && var v := t.phase[a].victim;
        && v in s.pte && HasValid(s.pte[v]) && t.pte == s.pte[v := s.pte[v] - VALIDON]
        && !HasValid(t.pte[v]) && FrameOf(s, s.pte[v]) == t.phase[a].frame && !CanAccess(t, v)
  {
    var f := (s.nextFrame + 1) % |s.pool|;
    assert HoldsAsSaid(s, a) && !Work(s, f);
    if s.pool[f].asid != UNOCCUPIEDFRAME {
      var v := Vpn(s.pool[f].asid, s.pool[f].page);
      VictimIn(s, f);
      Bits(s.pte[v]);
      Bits(XorValid(s.pte[v]));
    }
  }

  /** The new entry is the frame's address plus the flags: the addition carries nowhere. */
  lemma RemapExact(s: State, a: int, page: int, f: nat)
    requires Inv(s) && CanGo(s, a) && s.phase[a] == Pooled(page, f)
    ensures var t := Advance(s, a); var v := Vpn(a, page);
      && v in t.pte && t.pte[v] == FrameAddr(s, f) + DIRTYON + VALIDON == (s.poolPage + f) * 4096 + 0x600
      && HasValid(t.pte[v]) && FrameOf(t, t.pte[v]) == f
  {
    assert ProcOk(s, a);
    var e := s.pte[Vpn(a, page)];
    RemapFrame(s, f, e);
    Bits(Remap(FrameAddr(s, f), e));
  }

  /** When the handler returns to the process, the page it faulted on is in. */
  lemma FaultServed(s: State, a: int, page: int)
    requires Inv(s) && CanGo(s, a) && s.phase[a] == Remapped(page)
    ensures var t := Advance(s, a); var v := Vpn(a, page);
      t.phase[a] == User && v in t.pte && HasValid(t.pte[v]) && Enabled(t, Refill(v)) && CanAccess(Step(t, Refill(v)), v)
  {
    assert ProcOk(s, a) && HoldsAsSaid(s, a);
    var v := Vpn(a, page);
    assert EntryOk(s, v);
    Bits(s.pte[v]);
  }

  // ---- the disk ----

  /** The block that process a is transferring. */
  function Target(a: int, p: Phase): Block
    requires HoldsDisk(p)
  {
    match p
    case Evicting(_, _, victim, _) => BlockOf(victim)
    case Fetching(page, _, _) => BlockOf(Vpn(a, page))
    case Taping(i, _) => BlockOf(Vpn(a, i))
  }

  /** The arm is where the process that issues READBLK or WRITEBLK moved it, and nobody else
      transfers. */
  lemma TransfersAtomic(s: State, a: int, b: int)
    requires Inv(s) && a in s.phase && HoldsDisk(s.phase[a]) && s.phase[a].stage == Moving
    ensures Block(s.arm, GetSectorNum(if s.phase[a].Evicting? then s.phase[a].victim.asid else a), KUSEG2HEAD) == Target(a, s.phase[a])
    ensures s.arm == match s.phase[a] { case Evicting(_, _, victim, _) => victim.page case Fetching(page, _, _) => page case Taping(i, _) => i case _ => 0 }
    ensures b in s.phase && HoldsDisk(s.phase[b]) ==> b == a
  {
    assert ProcOk(s, a) && HoldsAsSaid(s, a);
    if b in s.phase { assert HoldsAsSaid(s, b); }
  }

  // ---- no store is lost ----

  predicate Touches(op: Op, v: Vpn, off: nat)
  {
    (op.Write? && op.v == v && op.off == off) || (op.Fill? && op.v == v)
  }

  lemma {:induction false} OpsKeep(m: Memory, ops: seq<Op>, v: Vpn, off: nat)
    requires v in m && off < PAGEWORDS && forall op <- ops :: !Touches(op, v, off)
    ensures v in FlatAfter(m, ops) && FlatAfter(m, ops)[v][off] == m[v][off]
    decreases |ops|
  {
    if ops != [] {
      assert !Touches(ops[0], v, off);
      OpsKeep(FlatStep(m, ops[0]), ops[1..], v, off);
    }
  }

  function StageSteps(st: Stage): nat
  {
    match st case WantDisk => 3 case Seeking => 2 case Moving => 1 case Releasing => 0
  }

  /** How often a process in phase p moves before it runs user code again. */
  function StepsLeft(p: Phase, blocks: nat): nat
  {
    match p
    case User => 0
    case Remapped(_) => 1
    case Pooled(_, _) => 2
    case Filled(_, _) => 3
    case Fetching(_, _, st) => 4 + StageSteps(st)
    case Evicting(_, _, _, st) => 8 + StageSteps(st)
    case Locked(_) => 12
    case Faulted(_) => 13
    case Reading(i) => if 0 <= i < blocks then 5 * (blocks - i) else 1
    case Taping(i, st) => if 0 <= i < blocks then 5 * (blocks - i) - 4 + StageSteps(st) else 1
  }

  /** A move changes the phase of its own process only, brings it strictly nearer to user code,
      and does not lead back to readTape. */
  ghost predicate Moved(s: State, t: State, a: int)
    requires a in s.phase && a in s.tape
  {
    && a in t.phase && t.phase == s.phase[a := t.phase[a]] && t.tape == s.tape && t.nProc == s.nProc
    && (InTape(t.phase[a]) ==> InTape(s.phase[a]))
    && (t == s || (s.phase[a].Taping? && !(0 <= s.phase[a].i < |s.tape[a]|))
        || StepsLeft(t.phase[a], |s.tape[a]|) < StepsLeft(s.phase[a], |s.tape[a]|))
  }

  lemma AdvanceMoves(s: State, a: int)
    requires CanGo(s, a)
    ensures Moved(s, Advance(s, a), a)
  {
    match s.phase[a]
    case Locked(page) => ChooseMoves(s, a, page); hide ChooseFrame, Evict, Fetch, Tape, UpdateTable, Moved;
    case Evicting(page, f, victim, stage) => EvictMoves(s, a, page, f, victim, stage); hide ChooseFrame, Evict, Fetch, Tape, UpdateTable, Moved;
    case Fetching(page, f, stage) => FetchMoves(s, a, page, f, stage); hide ChooseFrame, Evict, Fetch, Tape, UpdateTable, Moved;
    case Taping(i, stage) => TapeMoved(s, a, i, stage); hide ChooseFrame, Evict, Fetch, Tape, UpdateTable, Moved;
    case _ => hide ChooseFrame, Evict, Fetch, Tape, Remap, FrameAddr;
  }

  lemma ChooseMoves(s: State, a: int, page: int)
    requires CanGo(s, a) && s.phase[a] == Locked(page)
    ensures Moved(s, ChooseFrame(s, a, page), a)
  {
    hide XorValid;
  }

  lemma EvictMoves(s: State, a: int, page: int, f: nat, victim: Vpn, stage: Stage)
    requires CanGo(s, a) && s.phase[a] == Evicting(page, f, victim, stage)
    ensures Moved(s, Evict(s, a, page, f, victim, stage), a)
  {
    hide GetCylinderNum;
  }

  lemma FetchMoves(s: State, a: int, page: int, f: nat, stage: Stage)
    requires CanGo(s, a) && s.phase[a] == Fetching(page, f, stage)
    ensures Moved(s, Fetch(s, a, page, f, stage), a)
  {
    hide GetCylinderNum, DiskAt;
  }

  lemma TapeMoved(s: State, a: int, i: int, stage: Stage)
    requires CanGo(s, a) && s.phase[a] == Taping(i, stage)
    ensures Moved(s, Tape(s, a, i, stage), a)
  {
    hide GetCylinderNum;
  }

  /** A process that has left readTape never returns to it. */
  lemma PastTape(s: State, e: Event, a: int)
    requires Inv(s) && Enabled(s, e) && a in s.phase && !InTape(s.phase[a])
    ensures a in Step(s, e).phase && !InTape(Step(s, e).phase[a])
  {
    hide Inv, Advance;
    if e.Go? { AdvanceMoves(s, e.a); }
  }

  predicate Stores(e: Event, v: Vpn, off: nat) { e.Store? && e.v == v && e.off == off }

  lemma {:induction false} OpsUntouched(s: State, es: seq<Event>, v: Vpn, off: nat)
    requires Inv(s) && Legal(s, es) && v.asid in s.phase && !InTape(s.phase[v.asid])
    requires forall e <- es :: !Stores(e, v, off)
    ensures forall op <- Ops(s, es) :: !Touches(op, v, off)
    decreases |es|
  {
    if es != [] {
      assert !Stores(es[0], v, off);
      StepInv(s, es[0]);
      PastTape(s, es[0], v.asid);
      OpsUntouched(Step(s, es[0]), es[1..], v, off);
      Untouched(s, es[0], v, off);
    }
  }

  /** A stored word is what the next load returns, however often and by whomever the page was
      evicted and read back in between. */
  lemma StoreKept(s: State, v: Vpn, off: nat, x: int, es: seq<Event>)
    requires Inv(s) && Enabled(s, Store(v, off, x)) && Legal(Step(s, Store(v, off, x)), es)
    requires forall e <- es :: !Stores(e, v, off)
    requires Enabled(After(Step(s, Store(v, off, x)), es), Load(v, off))
    ensures Loaded(After(Step(s, Store(v, off, x)), es), v, off) == x
  {
    var t := Step(s, Store(v, off, x));
    var u := After(t, es);
    StepInv(s, Store(v, off, x));
    StoreFlat(s, v, off, x);
    OpsUntouched(t, es, v, off);
    OpsKeep(FlatMemory(t), Ops(t, es), v, off);
    PagingInvisible(t, es);
    RunInv(t, es);
    LoadFlat(u, v, off);
    assert FlatMemory(u)[v] == Flat(u, v) && FlatMemory(t)[v][off] == x;
  }

  // ---- the initial image ----

  /** readTape has copied the blocks it has passed. */
  lemma TapeCopied(s: State, a: int, j: nat)
    requires Inv(s) && a in s.phase && InTape(s.phase[a]) && j < s.phase[a].i
    ensures a in s.tape && j < |s.tape[a]| && Vpn(a, j) in s.pte && Flat(s, Vpn(a, j)) == s.tape[a][j]
  {
    var v := Vpn(a, j);
    assert ProcOk(s, a) && Written(s, a, j) && OutOf(s, v);
    Bits(s.pte[v]);
    TapeNotLeaving(s, a, v);
  }

  /** When a process starts running its program, every block of its tape is in its memory. */
  lemma TapeFinished(s: State, a: int, j: nat)
    requires Inv(s) && CanGo(s, a) && InTape(s.phase[a]) && a in Advance(s, a).phase && !InTape(Advance(s, a).phase[a])
    requires j < |s.tape[a]|
    ensures Vpn(a, j) in Advance(s, a).pte && Flat(Advance(s, a), Vpn(a, j)) == s.tape[a][j]
  {
    var v := Vpn(a, j);
    LastBlock(s, a, j);
    AdvanceFlat(s, a);
    NotWrittenOf(s, a, v);
    hide Inv, Advance, Flat, OpOf;
    assert v in FlatMemory(s);
    assert v in FlatMemory(Advance(s, a));
    assert FlatMemory(Advance(s, a))[v] == FlatMemory(s)[v];
  }

  lemma NotWrittenOf(s: State, a: int, v: Vpn)
    requires Inv(s) && CanGo(s, a) && InTape(s.phase[a]) && a in Advance(s, a).phase && !InTape(Advance(s, a).phase[a])
    ensures OpOf(s, Go(a)) == Nothing
  {
    hide Inv;
  }

  /** readTape is left when all blocks are on the disk. */
  lemma AllWritten(s: State, a: int, j: nat)
    requires Inv(s) && CanGo(s, a) && InTape(s.phase[a]) && a in Advance(s, a).phase && !InTape(Advance(s, a).phase[a])
    requires j < |s.tape[a]|
    ensures Written(s, a, j) && OutOf(s, Vpn(a, j))
  {
    hide Tables, TlbOk, Locks, GetCylinderNum, BlockOf, DiskAt, Evict, Fetch, ChooseFrame, UpdateTable, Out;
    assert ProcOk(s, a) && IsVpn(s, Vpn(a, j));
  }

  lemma LastBlock(s: State, a: int, j: nat)
    requires Inv(s) && CanGo(s, a) && InTape(s.phase[a]) && a in Advance(s, a).phase && !InTape(Advance(s, a).phase[a])
    requires j < |s.tape[a]|
    ensures Vpn(a, j) in s.pte && Flat(s, Vpn(a, j)) == s.tape[a][j]
  {
    hide Advance, Inv, HasValid;
    var v := Vpn(a, j);
    AllWritten(s, a, j);
    Bits(s.pte[v]);
    TapeNotLeaving(s, a, v);
  }

  /** Word off of page v is the tape's, or readTape is still at work. */
  ghost predicate Imaged(s: State, v: Vpn, off: nat)
  {
    && v.asid in s.phase && v.asid in s.tape && 0 <= v.page < |s.tape[v.asid]| && off < PAGEWORDS && v in s.pte
    && (InTape(s.phase[v.asid]) || Flat(s, v)[off] == s.tape[v.asid][v.page][off])
  }

  lemma Untouched(s: State, e: Event, v: Vpn, off: nat)
    requires v.asid in s.phase && !InTape(s.phase[v.asid]) && !Stores(e, v, off)
    ensures !Touches(OpOf(s, e), v, off)
  {}

  lemma StepImaged(s: State, e: Event, v: Vpn, off: nat)
    requires Inv(s) && Enabled(s, e) && Imaged(s, v, off) && !Stores(e, v, off)
    ensures Imaged(Step(s, e), v, off) && Step(s, e).tape == s.tape
  {
    hide Inv, Step, Flat, Enabled, OpOf;
    var t := Step(s, e);
    StepFlat(s, e);
    StepTapes(s, e);
    assert v in FlatMemory(s);
    assert v in FlatMemory(t);
    if InTape(s.phase[v.asid]) {
      if !InTape(t.phase[v.asid]) { LeavesTape(s, e, v); }
    } else {
      Untouched(s, e, v, off);
      assert FlatMemory(t)[v][off] == FlatMemory(s)[v][off];
    }
  }

  lemma StepTapes(s: State, e: Event)
    requires Inv(s) && Enabled(s, e)
    ensures var t := Step(s, e);
      t.tape == s.tape && t.phase.Keys == s.phase.Keys
    ensures var t := Step(s, e);
      forall b :: b in s.phase && t.phase[b] != s.phase[b] ==> e == Go(b) || (e.Fault? && e.v.asid == b)
  {
    hide Inv, Advance;
    if e.Go? { AdvanceMoves(s, e.a); }
  }

  lemma LeavesTape(s: State, e: Event, v: Vpn)
    requires Inv(s) && Enabled(s, e) && v.asid in s.phase && v.asid in s.tape && 0 <= v.page < |s.tape[v.asid]|
    requires InTape(s.phase[v.asid])
    requires v.asid in Step(s, e).phase && !InTape(Step(s, e).phase[v.asid])
    ensures v in Step(s, e).pte && Flat(Step(s, e), v) == s.tape[v.asid][v.page]
  {
    StepTapes(s, e);
    hide Inv, Advance, Flat;
    TapeFinished(s, v.asid, v.page);
  }

  lemma {:induction false} RunImaged(s: State, es: seq<Event>, v: Vpn, off: nat)
    requires Inv(s) && Legal(s, es) && Imaged(s, v, off) && forall e <- es :: !Stores(e, v, off)
    ensures Imaged(After(s, es), v, off) && After(s, es).tape == s.tape
    decreases |es|
  {
    if es != [] {
      assert !Stores(es[0], v, off);
      StepImaged(s, es[0], v, off);
      StepInv(s, es[0]);
      RunImaged(Step(s, es[0]), es[1..], v, off);
    }
  }

  /** On every run since test, a word that was never stored to reads as the tape has it. */
  lemma ProgramLoaded(s: State, es: seq<Event>, v: Vpn, off: nat)
    requires Initial(s) && Legal(s, es) && IsVpn(s, v) && v.page < |s.tape[v.asid]|
    requires forall e <- es :: !Stores(e, v, off)
    requires Enabled(After(s, es), Load(v, off))
    ensures Loaded(After(s, es), v, off) == s.tape[v.asid][v.page][off]
  {
    InitialInv(s);
    RunInv(s, es);
    RunImaged(s, es, v, off);
    LoadFlat(After(s, es), v, off);
  }

  // ---- no deadlock ----

  predicate Busy(s: State, a: int) { a in s.phase && s.phase[a] != User }

  /** As long as some process is in the handler or in readTape, one of them can move. */
  lemma NoDeadlock(s: State, b: int) returns (a: int)
    requires Inv(s) && Busy(s, b)
    ensures CanGo(s, a) && IsAsid(s, a) && Advance(s, a) != s
  {
    a := if s.diskHolder.Some? then s.diskHolder.value else if s.swapHolder.Some? then s.swapHolder.value else b;
    assert HoldsAsSaid(s, a) && ProcOk(s, a) && HoldsAsSaid(s, b);
    hide Tables, TlbOk, GetCylinderNum, BlockOf, DiskAt, XorValid, Remap, FrameAddr;
    AdvanceMoves(s, a);
    assert Advance(s, a).phase[a] != s.phase[a];
  }

  ghost function StepsOf(s: State, a: int): nat
  {
    if a in s.phase && a in s.tape then StepsLeft(s.phase[a], |s.tape[a]|) else 0
  }

  ghost function StepsTo(s: State, n: nat): nat
  {
    if n == 0 then 0 else StepsOf(s, n) + StepsTo(s, n - 1)
  }

  /** Each move brings its process strictly nearer to user code and leaves the others' phases. */
  lemma MoveCounts(s: State, a: int)
    requires Inv(s) && CanGo(s, a) && Advance(s, a) != s
    ensures var t := Advance(s, a);
      t.tape == s.tape && t.nProc == s.nProc && StepsOf(t, a) < StepsOf(s, a) && forall b :: b != a ==> StepsOf(t, b) == StepsOf(s, b)
  {
    AdvanceMoves(s, a);
    assert ProcOk(s, a);
    hide Advance, Tables, TlbOk, Locks;
  }

  lemma {:induction false} TotalDrops(s: State, t: State, a: int, n: nat)
    requires StepsOf(t, a) < StepsOf(s, a) && forall b :: b != a ==> StepsOf(t, b) == StepsOf(s, b)
    ensures StepsTo(t, n) <= StepsTo(s, n) && (1 <= a <= n ==> StepsTo(t, n) < StepsTo(s, n))
  {
    if n > 0 { TotalDrops(s, t, a, n - 1); }
  }

  /** From every reachable state the handlers and tape readers can all run to completion. */
  lemma {:induction false} Quiesces(s: State) returns (es: seq<Event>)
    requires Inv(s)
    ensures Legal(s, es) && (forall e <- es :: e.Go?) && |es| <= StepsTo(s, s.nProc)
    ensures forall a :: !Busy(After(s, es), a)
    decreases StepsTo(s, s.nProc)
  {
    hide Inv, Advance, StepsOf;
    if b :| Busy(s, b) {
      var a := NoDeadlock(s, b);
      MoveCounts(s, a);
      AdvanceInv(s, a);
      var t := Step(s, Go(a));
      TotalDrops(s, t, a, s.nProc);
      var rest := Quiesces(t);
      es := [Go(a)] + rest;
      assert es[0] == Go(a) && es[1..] == rest;
    } else {
      es := [];
    }
  }
}
