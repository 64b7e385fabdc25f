/** The nucleus as a step machine: the events that enter it, the runs they make up, and
    the invariant every run keeps. */
module NucleusRuns {
  import opened Queues
  import opened Family
  import opened NucleusState
  import opened Processor
  import opened NucleusInvariant
  import opened NucleusKill

  /** SYS1 to SYS8, and the exceptions that are passed up to the process or kill it. */
  datatype Call =
    | Create(newState: Cpu)
    | Terminate
    | V(a: int)
    | P(a: int)
    | SetVector(kind: nat, v: Vector)
    | GetTime
    | WaitClock
    | WaitIo(line: int, dev: int, termRead: bool)
    | PassUp(kind: nat, handler: Cpu)

  /** oldState is the processor state in the old area when the handler starts. Tick lets
      time pass; Store is a process initialising a semaphore nobody waits on. */
  datatype Event =
    | Exec(call: Call, oldState: Cpu)
    | Plt
    | Timer(oldState: Cpu)
    | Device(line: int, dev: int, reg: DeviceReg, oldState: Cpu)
    | Tick(dt: nat)
    | Store(a: int, v: nat)

  predicate DeviceOk(line: int, dev: int) { INITIALDEVLINENUM <= line <= TERMINT && 0 <= dev < NUMDEVICESPERTYPE }

  /** What the handlers assume of the arguments a process passes and do not check. */
  predicate CallOk(k: Tables, call: Call)
  {
    match call
    case V(a) => IsUser(k, a)
    case P(a) => IsUser(k, a)
    case SetVector(kind, _) => kind < NUMEXCEPTIONTYPES
    case PassUp(kind, _) => kind < NUMEXCEPTIONTYPES
    case WaitIo(line, dev, termRead) => DeviceOk(line, dev) && (termRead ==> line == TERMINT)
    case _ => true
  }

  /** The calls that end in the death of the caller. */
  ghost predicate Kills(s: State, call: Call)
    requires HasCurrent(s) && CallOk(s.k, call)
  {
    match call
    case Terminate => true
    case SetVector(kind, _) => s.vectors[s.current.value][kind] != UNSET[kind]
    case PassUp(kind, _) => !HasVector(s, kind)
    case WaitIo(line, dev, termRead) => Val(s.k, SemAddr(s.k, IoIndex(line, dev, termRead))) >= 1
    case _ => false
  }

  ghost function Handle(s: State, call: Call, oldState: Cpu): State
    requires HasCurrent(s) && CallOk(s.k, call)
  {
    match call
    case Create(newState) => CreateProcess(s, oldState, newState)
    case Terminate => TerminateProcess(s)
    case V(a) => Verhogen(s, oldState, a)
    case P(a) => Passeren(s, oldState, a)
    case SetVector(kind, v) => ExceptionStateVec(s, oldState, kind, v)
    case GetTime => GetCpuTime(s, oldState)
    case WaitClock => WaitForClock(s, oldState)
    case WaitIo(line, dev, termRead) => WaitForIo(s, oldState, IoIndex(line, dev, termRead))
    case PassUp(kind, handler) => PassUpOrDie(s, kind, handler)
  }

  /** The machine has not been halted. */
  predicate Up(s: State) { s.mode == Running || s.mode == Waiting }

  ghost predicate Enabled(s: State, e: Event)
  {
    Shape(s) &&
    match e
    case Exec(call, _) => s.mode == Running && HasCurrent(s) && CallOk(s.k, call) && (Kills(s, call) ==> AccurateKids(s))
    case Plt => s.mode == Running && HasCurrent(s)
    case Timer(_) => Up(s)
    case Device(line, dev, _, _) => Up(s) && DeviceOk(line, dev)
    case Tick(_) => Up(s)
    case Store(a, v) => s.mode == Running && IsUser(s.k, a) && Waiters(s.k.asl, a) == []
  }

  function TimerInterrupt(s: State, oldState: Cpu): State
    requires Shape(s)
  {
    WakeClockShape(s);
    ExitInterruptHandler(s.(k := WakeClock(s.k)), oldState)
  }

  function DeviceInterrupt(s: State, line: int, dev: int, reg: DeviceReg, oldState: Cpu): State
    requires Shape(s)
  {
    WakeDeviceShape(s, InterruptIndex(line, dev, reg), DeviceStatus(line, reg));
    ExitInterruptHandler(WakeDevice(s, InterruptIndex(line, dev, reg), DeviceStatus(line, reg)), oldState)
  }

  ghost function Step(s: State, e: Event): State
    requires Enabled(s, e)
  {
    match e
    case Exec(call, oldState) => Handle(s, call, oldState)
    case Plt => PLTInterruptHandler(s)
    case Timer(oldState) => TimerInterrupt(s, oldState)
    case Device(line, dev, reg, oldState) => DeviceInterrupt(s, line, dev, reg, oldState)
    case Tick(dt) => s.(now := s.now + dt)
    case Store(a, v) => s.(k := SetVal(s.k, a, v))
  }

  lemma WakeClockShape(s: State)
    requires Shape(s)
    ensures Shape(s.(k := WakeClock(s.k)))
  {
    WakeClockWaits(s.k);
  }

  lemma WakeShape(k: Tables, a: int)
    requires InTable(k)
    ensures InTable(Wake(k, a))
  {
    var q := Waiters(k.asl, a);
    if q != [] {
      assert Waits(k.asl, a, q[0]);
      forall b: int, p: Pid | Waits(Wake(k, a).asl, b, p) ensures Waits(k.asl, b, p) {
        assert b == a ==> p in q[1..] && p in q;
      }
    }
  }

  lemma WakeDeviceShape(s: State, i: int, status: int)
    requires Shape(s)
    ensures Shape(WakeDevice(s, i, status))
  {
    var a := SemAddr(s.k, i);
    if Waiters(s.k.asl, a) != [] { assert Waits(s.k.asl, a, Waiters(s.k.asl, a)[0]); }
    WakeShape(SetVal(s.k, a, Val(s.k, a) + 1), a);
  }

  /** A sequence of events the machine can take from s. */
  ghost predicate Legal(s: State, run: seq<Event>)
    decreases |run|
  {
    run == [] || (Enabled(s, run[0]) && Legal(Step(s, run[0]), run[1..]))
  }

  ghost function After(s: State, run: seq<Event>): State
    requires Legal(s, run)
    decreases |run|
  {
    if run == [] then s else After(Step(s, run[0]), run[1..])
  }

  // ---- a free descriptor always exists when a running process blocks ----

  /** keys has no more elements than ps, each of them being f at some element of ps. */
  lemma {:induction false} ImageCount(keys: set<int>, ps: set<Pid>, f: seq<int>)
    requires forall p :: p in ps ==> p < |f|
    requires forall a :: a in keys ==> exists p :: p in ps && f[p] == a
    ensures |keys| <= |ps|
    decreases ps
  {
    if p :| p in ps {
      var fewer := keys - {f[p]};
      ImageCount(fewer, ps - {p}, f);
      assert |keys| <= |fewer| + 1;
    } else {
      assert forall a :: a !in keys;
      assert keys == {};
    }
  }

  ghost function Below(n: nat): (r: set<Pid>)
    ensures forall p: Pid :: p in r <==> p < n
    ensures |r| == n
  {
    if n == 0 then {} else Below(n - 1) + {n - 1}
  }

  /** The active descriptors are fewer than maxProc whenever some process runs, so
      insertBlocked, whose result BlockHelperFunction ignores, always succeeds. */
  lemma BlockingSucceeds(k: Tables, p: Pid, a: int)
    requires Core(k, Some(p)) && p < |k.semAdd|
    ensures |k.asl| < k.maxProc
    ensures InsertBlocked(k, a, p) == k.(asl := Enqueue(k.asl, a, p), semAdd := k.semAdd[p := a])
  {
    var others := set x: Pid | x in Below(k.maxProc) && x != p;
    forall b | b in k.asl.Keys ensures exists x :: x in others && k.semAdd[x] == b {
      var x := k.asl[b][0];
      assert Waits(k.asl, b, x);
      assert x in others && k.semAdd[x] == b;
    }
    ImageCount(k.asl.Keys, others, k.semAdd);
    assert others == Below(k.maxProc) - {p};
  }

  // ---- every step keeps the nucleus sound ----

  lemma SchedulerSound(s: State)
    requires Shape(s) && Core(s.k, None) && Forest(s.family, Live(s.k))
    ensures Sound(Scheduler(s))
  {
    if s.k.ready != [] {
      DispatchCore(s.k);
    }
    assert Live(Scheduler(s).k) == Live(s.k);
  }

  lemma CreateSound(s: State, oldState: Cpu, newState: Cpu)
    requires Sound(s) && s.current.Some?
    ensures Sound(CreateProcess(s, oldState, newState))
  {
    var t := CreateProcess(s, oldState, newState);
    if s.k.free != [] {
      var p := s.k.free[0];
      assert p in s.k.free;
      CreateCore(s.k, t.k, s.current, p);
      assert Live(t.k) == Live(s.k) + {p} && p !in Live(s.k);
      assert s.current.value in Live(s.k);
      AddChildKeeps(s.family, Live(s.k), s.current, p);
    }
  }

  lemma TerminateSound(s: State)
    requires Sound(s) && s.current.Some? && AccurateKids(s)
    ensures Sound(TerminateProcess(s))
  {
    KillExact(s);
    KillTree(s);
    assert Shape(KillFamily(s));
    SchedulerSound(KillFamily(s));
  }

  /** P, and SYS7 and SYS8 once they have counted the caller as soft-blocked. */
  lemma BlockHelperSound(s: State, t: State, oldState: Cpu, a: int)
    requires Sound(s) && s.current.Some? && (IsUser(s.k, a) || IsNucleus(s.k, a)) && Val(s.k, a) <= 0
    requires t == s.(k := s.k.(sem := s.k.sem[a := Val(s.k, a) - 1],
                     softBlockCount := s.k.softBlockCount + if IsNucleus(s.k, a) then 1 else 0))
    ensures HasCurrent(t) && Sound(BlockHelper(t, oldState, a))
  {
    var p := s.current.value;
    BlockingSucceeds(s.k, p, a);
    var k := InsertBlocked(t.k, a, p);
    BlockCore(s.k, k, p, a);
    var u := IncrementProcessTime(t, p).(saved := t.saved[p := oldState], k := k, current := None);
    assert Live(k) == Live(s.k);
    SchedulerSound(u);
  }

  lemma PasserenSound(s: State, oldState: Cpu, a: int)
    requires Sound(s) && s.current.Some? && IsUser(s.k, a)
    ensures Sound(Passeren(s, oldState, a))
  {
    var v := Val(s.k, a) - 1;
    if v < 0 {
      BlockHelperSound(s, s.(k := SetVal(s.k, a, v)), oldState, a);
    } else {
      assert SemOk(s.k, a);
      ValueSound(s, a, v);
    }
  }

  lemma ValueSound(s: State, a: int, v: int)
    requires Sound(s) && SemOk(SetVal(s.k, a, v), a)
    ensures Sound(s.(k := SetVal(s.k, a, v)))
  {
    ValueCore(s.k, s.current, a, v);
    assert Live(SetVal(s.k, a, v)) == Live(s.k);
  }

  lemma VerhogenSound(s: State, oldState: Cpu, a: int)
    requires Sound(s) && IsUser(s.k, a)
    ensures Sound(Verhogen(s, oldState, a))
  {
    var t := Verhogen(s, oldState, a);
    assert SemOk(s.k, a);
    if Waiters(s.k.asl, a) == [] {
      ValueSound(s, a, Val(s.k, a) + 1);
    } else {
      WakeCore(s.k, t.k, s.current, a);
      assert Live(t.k) == Live(s.k);
    }
  }

  /** The tables when SYS7 or SYS8 has counted the caller in and taken the semaphore down. */
  function SoftBlocking(k: Tables, a: int): Tables
  {
    k.(sem := k.sem[a := Val(k, a) - 1], softBlockCount := k.softBlockCount + 1)
  }

  lemma WaitForClockIs(s: State, oldState: Cpu)
    requires HasCurrent(s) && Val(s.k, Clock(s.k)) <= 0
    ensures WaitForClock(s, oldState) == BlockHelper(s.(k := SoftBlocking(s.k, Clock(s.k))), oldState, Clock(s.k))
  {
    var a, k := Clock(s.k), s.k.(softBlockCount := s.k.softBlockCount + 1);
    assert SetVal(k, a, Val(k, a) - 1) == SoftBlocking(s.k, a);
  }

  lemma SoftBlockSound(s: State, oldState: Cpu, a: int)
    requires Sound(s) && s.current.Some? && IsNucleus(s.k, a) && Val(s.k, a) <= 0
    ensures HasCurrent(s.(k := SoftBlocking(s.k, a)))
    ensures Sound(BlockHelper(s.(k := SoftBlocking(s.k, a)), oldState, a))
  {
    BlockHelperSound(s, s.(k := SoftBlocking(s.k, a)), oldState, a);
  }

  lemma WaitForClockSound(s: State, oldState: Cpu)
    requires Sound(s) && s.current.Some?
    ensures Sound(WaitForClock(s, oldState))
  {
    assert SemOk(s.k, Clock(s.k));
    WaitForClockIs(s, oldState);
    SoftBlockSound(s, oldState, Clock(s.k));
  }

  lemma WaitForIoBlocks(s: State, oldState: Cpu, i: int)
    requires HasCurrent(s) && Val(s.k, SemAddr(s.k, i)) <= 0
    requires Sound(BlockHelper(s.(k := SoftBlocking(s.k, SemAddr(s.k, i))), oldState, SemAddr(s.k, i)))
    ensures Sound(WaitForIo(s, oldState, i))
  {
    hide Sound, BlockHelper, TerminateProcess;
    var a := SemAddr(s.k, i);
    assert SetVal(s.k, a, Val(s.k, a) - 1).(softBlockCount := s.k.softBlockCount + 1) == SoftBlocking(s.k, a);
  }

  lemma WaitForIoDies(s: State, oldState: Cpu, i: int, t: State)
    requires HasCurrent(s) && Val(s.k, SemAddr(s.k, i)) >= 1
    requires t == s.(k := SetVal(s.k, SemAddr(s.k, i), Val(s.k, SemAddr(s.k, i)) - 1))
    requires HasCurrent(t) && Sound(TerminateProcess(t))
    ensures Sound(WaitForIo(s, oldState, i))
  {
    hide Sound, BlockHelper, TerminateProcess;
  }

  lemma WaitForIoSound(s: State, oldState: Cpu, i: int)
    requires Sound(s) && s.current.Some? && 0 <= i < DEVICECOUNT
    requires Val(s.k, SemAddr(s.k, i)) >= 1 ==> AccurateKids(s)
    ensures Sound(WaitForIo(s, oldState, i))
  {
    hide Core, Forest, Shape, TerminateProcess, BlockHelper, WaitForIo;
    var a := SemAddr(s.k, i);
    if Val(s.k, a) >= 1 {
      var t := s.(k := SetVal(s.k, a, Val(s.k, a) - 1));
      WaitForIoKills(s, t, a);
      WaitForIoDies(s, oldState, i, t);
    } else {
      SoftBlockSound(s, oldState, a);
      WaitForIoBlocks(s, oldState, i);
    }
  }

  lemma WaitForIoKills(s: State, t: State, a: int)
    requires Sound(s) && s.current.Some? && IsDevice(s.k, a) && Val(s.k, a) >= 1 && AccurateKids(s)
    requires t == s.(k := SetVal(s.k, a, Val(s.k, a) - 1))
    ensures HasCurrent(t) && Sound(TerminateProcess(t))
  {
    DeviceTaken(s, t, a);
    TerminateSound(t);
  }

  lemma DeviceTaken(s: State, t: State, a: int)
    requires Sound(s) && s.current.Some? && IsDevice(s.k, a) && Val(s.k, a) >= 1 && AccurateKids(s)
    requires t == s.(k := SetVal(s.k, a, Val(s.k, a) - 1))
    ensures Sound(t) && HasCurrent(t) && AccurateKids(t)
  {
    assert SemOk(s.k, a);
    ValueSound(s, a, Val(s.k, a) - 1);
    assert Doomed(t) == Doomed(s);
  }

  lemma PltSound(s: State)
    requires Sound(s) && s.current.Some?
    ensures Sound(PLTInterruptHandler(s))
  {
    var p := s.current.value;
    ReadyCore(s.k, p);
    var k := s.k.(ready := s.k.ready + [p]);
    assert Live(k) == Live(s.k);
    SchedulerSound(IncrementProcessTime(s, p).(k := k));
  }

  lemma ExitSound(s: State, oldState: Cpu)
    requires Sound(s)
    ensures Sound(ExitInterruptHandler(s, oldState))
  {
    if s.current.None? {
      SchedulerSound(s);
    }
  }

  lemma TimerSound(s: State, oldState: Cpu)
    requires Sound(s)
    ensures Sound(TimerInterrupt(s, oldState))
  {
    WakeClockCore(s.k, s.current);
    assert Live(WakeClock(s.k)) == Live(s.k);
    ExitSound(s.(k := WakeClock(s.k)), oldState);
  }

  lemma WakeDeviceSound(s: State, i: int, status: int)
    requires Sound(s) && 0 <= i < DEVICECOUNT
    ensures Sound(WakeDevice(s, i, status))
  {
    var a, t := SemAddr(s.k, i), WakeDevice(s, i, status);
    WakeDeviceShape(s, i, status);
    assert SemOk(s.k, a);
    if Waiters(s.k.asl, a) == [] {
      ValueSound(s, a, Val(s.k, a) + 1);
    } else {
      WakeCore(s.k, t.k, s.current, a);
      assert Live(t.k) == Live(s.k);
    }
  }

  lemma HandleSound(s: State, call: Call, oldState: Cpu)
    requires Sound(s) && s.current.Some? && CallOk(s.k, call)
    requires Kills(s, call) ==> AccurateKids(s)
    ensures Sound(Handle(s, call, oldState))
  {
    match call
    case Create(newState) => CreateSound(s, oldState, newState);
    case Terminate => TerminateSound(s);
    case V(a) => VerhogenSound(s, oldState, a);
    case P(a) => PasserenSound(s, oldState, a);
    case GetTime =>
    case WaitClock => WaitForClockSound(s, oldState);
    case WaitIo(line, dev, termRead) => WaitForIoSound(s, oldState, IoIndex(line, dev, termRead));
    case SetVector(kind, v) => if Kills(s, call) { TerminateSound(s); }
    case PassUp(kind, handler) => if Kills(s, call) { TerminateSound(s); }
  }

  lemma StepSound(s: State, e: Event)
    requires Sound(s) && Enabled(s, e)
    ensures Sound(Step(s, e))
  {
    match e
    case Exec(call, oldState) => HandleSound(s, call, oldState);
    case Plt => PltSound(s);
    case Timer(oldState) => TimerSound(s, oldState);
    case Device(line, dev, reg, oldState) =>
      WakeDeviceSound(s, InterruptIndex(line, dev, reg), DeviceStatus(line, reg));
      ExitSound(WakeDevice(s, InterruptIndex(line, dev, reg), DeviceStatus(line, reg)), oldState);
    case Tick(dt) =>
    case Store(a, v) =>
      assert SemOk(s.k, a);
      ValueSound(s, a, v);
  }

  /** Every run from a sound state stays sound. */
  lemma {:induction false} RunSound(s: State, run: seq<Event>)
    requires Sound(s) && Legal(s, run)
    ensures Sound(After(s, run))
    decreases |run|
  {
    if run != [] {
      StepSound(s, run[0]);
      RunSound(Step(s, run[0]), run[1..]);
    }
  }

  // ---- runs one step longer ----

  lemma {:induction false} Snoc(s: State, run: seq<Event>, e: Event)
    requires Legal(s, run) && Enabled(After(s, run), e)
    ensures Legal(s, run + [e]) && After(s, run + [e]) == Step(After(s, run), e)
    decreases |run|
  {
    if run == [] {
      assert [e][1..] == [];
    } else {
      assert (run + [e])[1..] == run[1..] + [e];
      Snoc(Step(s, run[0]), run[1..], e);
    }
  }

  /** One more step of the run from s, with the invariant. */
  lemma Extend(s: State, run: seq<Event>, e: Event) returns (longer: seq<Event>)
    requires Legal(s, run) && Enabled(After(s, run), e) && Sound(After(s, run))
    ensures longer == run + [e] && Legal(s, longer) && After(s, longer) == Step(After(s, run), e) && Sound(After(s, longer))
  {
    Snoc(s, run, e);
    StepSound(After(s, run), e);
    longer := run + [e];
  }
}
