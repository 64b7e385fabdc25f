/** What a process that makes a system call is promised, end to end. */
module NucleusCalls {
  import opened Queues
  import opened Family
  import opened NucleusState
  import opened Processor
  import opened NucleusInvariant
  import opened NucleusKill
  import opened NucleusRuns
  import opened NucleusTheorems
  import opened NucleusService
  import opened NucleusWakeups

  // ---- SYS1 ----

  /** SYS1 answers -1 exactly when maxProc processes are alive, and then has done nothing, and
      0 otherwise; the caller goes on in its own state. */
  lemma CreateReports(s: State, oldState: Cpu, newState: Cpu)
    requires Sound(s) && s.current.Some?
    ensures var t := CreateProcess(s, oldState, newState);
      && t.current == s.current && t.cpu == oldState.(v0 := if |Live(s.k)| == s.k.maxProc then -1 else 0)
      && (|Live(s.k)| == s.k.maxProc <==> s.k.processCount == s.k.maxProc)
      && (|Live(s.k)| == s.k.maxProc ==> t == s.(cpu := t.cpu))
      && (|Live(s.k)| < s.k.maxProc ==> |Live(t.k)| == |Live(s.k)| + 1)
      && |Live(s.k)| <= s.k.maxProc
  {
    CreateSound(s, oldState, newState);
    LiveCount(s.k, s.current);
    LiveCount(CreateProcess(s, oldState, newState).k, s.current);
  }

  /** The new process, a child of the caller, first runs in exactly the state SYS1 named. */
  lemma CreatedRuns(s: State, oldState: Cpu, newState: Cpu, run: seq<Event>)
    requires Sound(s) && s.current.Some? && s.k.free != []
    requires Enabled(s, Exec(Create(newState), oldState))
    requires var t := Step(s, Exec(Create(newState), oldState)); Legal(t, run) && FirstTurn(t, run, s.k.free[0])
    ensures var t := Step(s, Exec(Create(newState), oldState));
      && After(t, run).cpu == newState && s.k.free[0] in Live(t.k) && s.k.free[0] !in Live(s.k)
      && s.k.free[0] < |t.vectors| && t.vectors[s.k.free[0]] == seq(3, _ => Vector(0xFFFF_FFFF, 0xFFFF_FFFF))
      && IsChild(t.family, s.current.value, s.k.free[0])
  {
    var p := s.k.free[0];
    var t := Step(s, Exec(Create(newState), oldState));
    assert p in s.k.free;
    CreateSound(s, oldState, newState);
    CreatedReady(s, oldState, newState);
    hide Step, Sound, Enabled;
    ReadyResumes(t, run, p);
  }

  lemma CreatedReady(s: State, oldState: Cpu, newState: Cpu)
    requires Sound(s) && s.current.Some? && s.k.free != []
    ensures var t, p := CreateProcess(s, oldState, newState), s.k.free[0];
      && p in t.k.ready && p < |t.saved| && t.saved[p] == newState && p < |t.time| && t.time[p] == 0
      && p in Live(t.k) && IsChild(t.family, s.current.value, p) && t.current == s.current
      && p < |t.vectors| && |t.vectors[p]| == 3 && forall kind :: 0 <= kind < 3 ==> t.vectors[p][kind] == Vector(0xFFFF_FFFF, 0xFFFF_FFFF)
  {
    var t, p := CreateProcess(s, oldState, newState), s.k.free[0];
    assert p in s.k.free && s.current.value in Live(s.k);
    CreateSound(s, oldState, newState);
    assert t.family.kids[s.current.value][0] == p;
    assert p in t.k.ready;
  }

  // ---- SYS6 ----

  /** What SYS6 returns to p grows from one call to the next by exactly the time p ran in
      between. */
  lemma GetCpuTimeGrows(s: State, run: seq<Event>, p: Pid, first: Cpu, second: Cpu)
    requires Sound(s) && s.current == Some(p) && Legal(s, run) && Survives(s, run, p) && After(s, run).current == Some(p)
    ensures HasCurrent(s) && HasCurrent(After(s, run))
    ensures GetCpuTime(After(s, run), second).cpu.v0 == GetCpuTime(s, first).cpu.v0 + UsedBy(s, run, p)
  {
    CpuTimeExact(s, run, p);
    RunSound(s, run);
  }

  /** And it counts from nothing: a process's first report is all the time it has run. */
  lemma GetCpuTimeFromBirth(s: State, oldState: Cpu, newState: Cpu, run: seq<Event>, second: Cpu)
    requires Sound(s) && s.current.Some? && s.k.free != [] && Enabled(s, Exec(Create(newState), oldState))
    requires var t := Step(s, Exec(Create(newState), oldState));
      Legal(t, run) && Survives(t, run, s.k.free[0]) && After(t, run).current == Some(s.k.free[0])
    ensures var t := Step(s, Exec(Create(newState), oldState));
      HasCurrent(After(t, run)) && GetCpuTime(After(t, run), second).cpu.v0 == UsedBy(t, run, s.k.free[0])
  {
    var t, p := Step(s, Exec(Create(newState), oldState)), s.k.free[0];
    CreateSound(s, oldState, newState);
    CreatedReady(s, oldState, newState);
    assert p in s.k.free && s.current != Some(p);
    hide Step, Enabled;
    RunSound(t, run);
    hide Sound;
    CpuTimeExact(t, run, p);
  }

  // ---- SYS4 and SYS7 ----

  lemma WokenWaits(s: State, e: Event, p: Pid)
    requires Sound(s) && Enabled(s, e) && Wakes(s, e, p)
    ensures p < |s.k.semAdd| && IsDevice(s.k, s.k.semAdd[p])
  {
    assert Waits(s.k.asl, Raised(s.k, e), p);
  }

  /** A process that neither runs nor waits on a device next runs in its saved state. */
  lemma {:induction false} BlockedResumes(s: State, run: seq<Event>, p: Pid)
    requires Sound(s) && Legal(s, run) && FirstTurn(s, run, p) && p < |s.k.semAdd| && !IsDevice(s.k, s.k.semAdd[p])
    ensures p < |s.saved| && After(s, run).cpu == s.saved[p]
    decreases |run|
  {
    var e := run[0];
    var t := Step(s, e);
    if Wakes(s, e, p) { WokenWaits(s, e, p); }
    StepKept(s, e, p);
    StepSound(s, e);
    hide Step, Sound, Enabled, Wakes;
    if |run| > 1 {
      BlockedResumes(t, run[1..], p);
    } else {
      assert After(s, run) == t;
    }
  }

  /** A process that P blocks next runs where it left off, in the state it made the call with. */
  lemma PasserenResumes(s: State, oldState: Cpu, a: int, run: seq<Event>)
    requires Sound(s) && s.current.Some? && Enabled(s, Exec(P(a), oldState)) && Val(s.k, a) <= 0
    requires var t := Step(s, Exec(P(a), oldState)); Legal(t, run) && FirstTurn(t, run, s.current.value)
    ensures After(Step(s, Exec(P(a), oldState)), run).cpu == oldState
  {
    var t, p := Step(s, Exec(P(a), oldState)), s.current.value;
    PasserenSound(s, oldState, a);
    BlockingSucceeds(s.k, p, a);
    assert p < |t.saved| && t.saved[p] == oldState && t.k.semAdd[p] == a && !IsDevice(t.k, a);
    hide Step, Sound, Enabled;
    BlockedResumes(t, run, p);
  }

  /** So does a process that waits for the clock. */
  lemma WaitForClockResumes(s: State, oldState: Cpu, run: seq<Event>)
    requires Sound(s) && s.current.Some? && Enabled(s, Exec(WaitClock, oldState))
    requires var t := Step(s, Exec(WaitClock, oldState)); Legal(t, run) && FirstTurn(t, run, s.current.value)
    ensures After(Step(s, Exec(WaitClock, oldState)), run).cpu == oldState
  {
    var t, p := Step(s, Exec(WaitClock, oldState)), s.current.value;
    WaitForClockSound(s, oldState);
    ClockCallSaved(s, oldState);
    hide Step, Sound, Enabled;
    BlockedResumes(t, run, p);
  }

  lemma ClockCallSaved(s: State, oldState: Cpu)
    requires Sound(s) && s.current.Some?
    ensures var t, p := WaitForClock(s, oldState), s.current.value;
      p < |t.saved| && p < |t.k.semAdd| && t.saved[p] == oldState && t.k.semAdd[p] == Clock(s.k) && !IsDevice(t.k, Clock(s.k))
  {
    assert SemOk(s.k, Clock(s.k));
    WaitForClockIs(s, oldState);
    BlockingSucceeds(s.k, s.current.value, Clock(s.k));
  }

  // ---- SYS5 ----

  /** SYS5 records the two areas for the caller and that kind of exception, and nothing else. */
  lemma VectorStored(s: State, oldState: Cpu, kind: nat, v: Vector)
    requires Sound(s) && s.current.Some? && kind < 3 && !Kills(s, SetVector(kind, v))
    ensures var t, p := ExceptionStateVec(s, oldState, kind, v), s.current.value;
      && t == s.(vectors := t.vectors, cpu := oldState)
      && p < |s.vectors| == |t.vectors| && |s.vectors[p]| == |t.vectors[p]| == 3
      && t.vectors[p][kind].oldArea == v.oldArea && t.vectors[p][kind].newArea == v.newArea
      && (forall j: nat :: j < 3 && j != kind ==> t.vectors[p][j] == s.vectors[p][j])
      && (forall q: Pid :: q < |s.vectors| && q != p ==> t.vectors[q] == s.vectors[q])
  {
  }

  /** A handler can be named once: the second SYS5 of the same kind kills, unless the first
      named no area at all; and an exception of that kind is passed up exactly when both
      areas were named. */
  lemma VectorOnce(s: State, oldState: Cpu, kind: nat, v: Vector, w: Vector)
    requires Sound(s) && s.current.Some? && kind < NUMEXCEPTIONTYPES && !Kills(s, SetVector(kind, v))
    ensures var t := ExceptionStateVec(s, oldState, kind, v);
      && HasCurrent(t) && t.current == s.current && t.cpu == oldState
      && (Kills(t, SetVector(kind, w)) <==> v != Vector(NULLADDR, NULLADDR))
      && (Kills(t, PassUp(kind, oldState)) <==> v.oldArea == NULLADDR || v.newArea == NULLADDR)
  {
  }

  /** Process p has named areas for exceptions of the given kind. */
  predicate Named(s: State, p: Pid, kind: nat)
  {
    p < |s.vectors| && kind < |s.vectors[p]| && s.vectors[p][kind] != Vector(NULLADDR, NULLADDR)
  }

  lemma CreateVectors(s: State, oldState: Cpu, newState: Cpu, p: Pid)
    requires HasCurrent(s) && p in Live(s.k)
    ensures var t := CreateProcess(s, oldState, newState); p < |s.vectors| == |t.vectors| && t.vectors[p] == s.vectors[p]
  {
    assert s.k.free != [] ==> s.k.free[0] in s.k.free;
  }

  lemma TerminateVectors(s: State)
    requires HasCurrent(s)
    ensures TerminateProcess(s).vectors == s.vectors
  {
    KillReadyShrinks(s.k, s.current, Doomed(s));
  }

  lemma HandleVectors(s: State, call: Call, oldState: Cpu, p: Pid, kind: nat)
    requires HasCurrent(s) && CallOk(s.k, call) && p in Live(s.k) && Named(s, p, kind)
    ensures var t := Handle(s, call, oldState); Named(t, p, kind) && t.vectors[p][kind] == s.vectors[p][kind]
  {
    hide TerminateProcess, CreateProcess;
    match call
    case Create(newState) => CreateVectors(s, oldState, newState, p);
    case V(_) =>
    case P(_) =>
    case GetTime =>
    case WaitClock =>
    case WaitIo(line, dev, termRead) =>
      var a := SemAddr(s.k, IoIndex(line, dev, termRead));
      if Val(s.k, a) >= 1 { TerminateVectors(s.(k := SetVal(s.k, a, Val(s.k, a) - 1))); }
    case _ => if Kills(s, call) { TerminateVectors(s); }
  }

  lemma StepVectors(s: State, e: Event, p: Pid, kind: nat)
    requires Sound(s) && Enabled(s, e) && p in Live(s.k) && Named(s, p, kind)
    ensures var t := Step(s, e); Named(t, p, kind) && t.vectors[p][kind] == s.vectors[p][kind]
  {
    hide Handle, Core;
    match e
    case Exec(call, oldState) => HandleVectors(s, call, oldState, p, kind);
    case Plt =>
    case Timer(_) =>
    case Device(line, dev, reg, _) => WakeDeviceShape(s, InterruptIndex(line, dev, reg), DeviceStatus(line, reg));
    case Tick(_) =>
    case Store(_, _) =>
  }

  /** Areas once named for a kind of exception are named for good: on every run that it
      survives, the process has the same ones at the end, a further SYS5 of that kind would
      kill it, and its exceptions of that kind are passed up exactly if both areas were named. */
  lemma {:induction false} NamedForGood(s: State, run: seq<Event>, p: Pid, kind: nat)
    requires Sound(s) && Legal(s, run) && Survives(s, run, p) && kind < NUMEXCEPTIONTYPES && Named(s, p, kind)
    ensures var t := After(s, run);
      && Sound(t) && Named(t, p, kind) && t.vectors[p][kind] == s.vectors[p][kind]
      && (t.current == Some(p) ==> forall v :: Kills(t, SetVector(kind, v)))
      && (t.current == Some(p) ==> forall h ::
            Kills(t, PassUp(kind, h)) <==> s.vectors[p][kind].oldArea == NULLADDR || s.vectors[p][kind].newArea == NULLADDR)
    decreases |run|
  {
    if run != [] {
      StepVectors(s, run[0], p, kind);
      StepSound(s, run[0]);
      NamedForGood(Step(s, run[0]), run[1..], p, kind);
    }
  }

  // ---- calls and interrupts that return at once ----

  /** The calls that neither block nor kill. */
  ghost predicate Returns(s: State, call: Call)
    requires HasCurrent(s) && CallOk(s.k, call)
  {
    !Kills(s, call) && !call.WaitClock? && !call.WaitIo? && (call.P? ==> Val(s.k, call.a) >= 1)
  }

  /** A call that neither blocks nor kills returns at once: the caller goes on in the state it
      made the call with, or in its handler's state, except for the result in v0; and of all
      saved states only its own changes, and only where an exception is passed up. */
  lemma CallReturns(s: State, call: Call, oldState: Cpu)
    requires Sound(s) && s.current.Some? && CallOk(s.k, call) && Returns(s, call)
    ensures var t := Handle(s, call, oldState);
      && t.current == s.current && t.mode == s.mode && t.dispatches == s.dispatches
      && t.cpu == (if call.PassUp? then call.handler
                   else if call.Create? || call.GetTime? then oldState.(v0 := t.cpu.v0) else oldState)
      && (forall p :: p in Live(s.k) && s.current != Some(p) ==> p < |t.saved| && t.saved[p] == s.saved[p])
      && var c := s.current.value; c < |s.saved| == |t.saved| && t.saved[c] == if call.PassUp? then call.handler else s.saved[c]
  {
    forall p | p in Live(s.k) && s.current != Some(p) ensures Kept(s, Handle(s, call, oldState), p, s.saved[p]) {
      HandleKept(s, call, oldState, p);
    }
    hide TerminateProcess, BlockHelper, Sound, Wake;
    match call
    case Create(_) => assert s.k.free != [] ==> s.k.free[0] in s.k.free;
    case V(_) =>
    case P(_) =>
    case SetVector(_, _) =>
    case GetTime =>
    case PassUp(_, _) =>
  }

  /** What becomes of the caller of each call: whether it goes on, waits, and for what, or dies. */
  lemma CallersFate(s: State, call: Call, oldState: Cpu)
    requires Sound(s) && s.current.Some? && CallOk(s.k, call) && (Kills(s, call) ==> AccurateKids(s))
    ensures s.current.value < |s.vectors|
    ensures var t, p := Handle(s, call, oldState), s.current.value;
      match call
      case Create(_) => t.current == Some(p)
      case Terminate => p in t.k.free
      case V(_) => t.current == Some(p)
      case P(a) => if Val(s.k, a) >= 1 then t.current == Some(p) else Waits(t.k.asl, a, p)
      case SetVector(kind, _) =>
        kind < |s.vectors[p]| &&
        if s.vectors[p][kind] == Vector(0xFFFF_FFFF, 0xFFFF_FFFF) then t.current == Some(p) else p in t.k.free
      case GetTime => t.current == Some(p)
      case WaitClock => Waits(t.k.asl, s.k.semBase + 4 * 48, p)
      case WaitIo(line, dev, termRead) =>
        var a := s.k.semBase + 4 * ((line - 3) * 8 + dev + if termRead then 8 else 0);
        if Val(s.k, a) >= 1 then p in t.k.free else Waits(t.k.asl, a, p)
      case PassUp(kind, _) =>
        kind < |s.vectors[p]| &&
        if s.vectors[p][kind].oldArea != 0xFFFF_FFFF && s.vectors[p][kind].newArea != 0xFFFF_FFFF
        then t.current == Some(p) else p in t.k.free
  {
    hide TerminateProcess, WaitForIo, Passeren, AccurateKids, Core;
    match call
    case Create(_) =>
    case V(_) =>
    case P(a) => if Val(s.k, a) < 1 { PasserenWaits(s, oldState, a); } else { PasserenGoesOn(s, oldState, a); }
    case GetTime =>
    case WaitClock => WaitForClockWaits(s, oldState);
    case WaitIo(line, dev, termRead) => WaitForIoFate(s, oldState, IoIndex(line, dev, termRead));
    case _ => if Kills(s, call) { CallerDies(s); }
  }

  lemma PasserenGoesOn(s: State, oldState: Cpu, a: int)
    requires HasCurrent(s) && Val(s.k, a) >= 1
    ensures Passeren(s, oldState, a).current == s.current
  {}

  lemma CallerDies(s: State)
    requires Sound(s) && s.current.Some? && AccurateKids(s)
    ensures s.current.value in TerminateProcess(s).k.free
  {
    CallerFreed(s);
  }

  lemma BlockHelperWaits(s: State, oldState: Cpu, a: int)
    requires HasCurrent(s) && (a in s.k.asl || |s.k.asl| < s.k.maxProc)
    ensures Waits(BlockHelper(s, oldState, a).k.asl, a, s.current.value)
  {
    EnqueueWaits(s.k.asl, a, s.current.value);
  }

  lemma PasserenWaits(s: State, oldState: Cpu, a: int)
    requires Sound(s) && s.current.Some? && Val(s.k, a) < 1 && IsUser(s.k, a)
    ensures Waits(Passeren(s, oldState, a).k.asl, a, s.current.value)
  {
    BlockingSucceeds(s.k, s.current.value, a);
    hide BlockHelper;
    BlockHelperWaits(s.(k := SetVal(s.k, a, Val(s.k, a) - 1)), oldState, a);
  }

  lemma WaitForClockWaits(s: State, oldState: Cpu)
    requires Sound(s) && s.current.Some?
    ensures Waits(WaitForClock(s, oldState).k.asl, s.k.semBase + 4 * 48, s.current.value)
  {
    assert SemOk(s.k, Clock(s.k));
    BlockingSucceeds(s.k, s.current.value, Clock(s.k));
    WaitForClockIs(s, oldState);
    BlockHelperWaits(s.(k := SoftBlocking(s.k, Clock(s.k))), oldState, Clock(s.k));
  }

  lemma WaitForIoFate(s: State, oldState: Cpu, i: int)
    requires Sound(s) && s.current.Some? && 0 <= i < DEVICECOUNT && (Val(s.k, SemAddr(s.k, i)) >= 1 ==> AccurateKids(s))
    ensures var t, a, p := WaitForIo(s, oldState, i), s.k.semBase + 4 * i, s.current.value;
      if Val(s.k, a) >= 1 then p in t.k.free else Waits(t.k.asl, a, p)
  {
    hide TerminateProcess, BlockHelper, Core;
    var a := SemAddr(s.k, i);
    var t := SetVal(s.k, a, Val(s.k, a) - 1);
    if Val(s.k, a) >= 1 {
      DeviceTaken(s, s.(k := t), a);
      CallerDies(s.(k := t));
    } else {
      BlockingSucceeds(s.k, s.current.value, a);
      BlockHelperWaits(s.(k := t.(softBlockCount := t.softBlockCount + 1)), oldState, a);
    }
  }

  // ---- interrupts ----

  predicate OnlyInterrupts(run: seq<Event>)
  {
    forall e :: e in run ==> e.Timer? || e.Device? || e.Tick?
  }

  /** The state that the last interrupt of the run interrupted, or c. */
  function LastState(c: Cpu, run: seq<Event>): Cpu
    decreases |run|
  {
    if run == [] then c else LastState(if run[0].Timer? || run[0].Device? then run[0].oldState else c, run[1..])
  }

  /** The running process does not notice interrupts, however many: between two instructions
      of its own it stays the one that runs, in its own state, in the same turn and with the
      same total, and those behind it in the ready queue stay in front of those woken. */
  lemma {:induction false} InterruptsInvisible(s: State, run: seq<Event>)
    requires Sound(s) && s.current.Some? && Legal(s, run) && OnlyInterrupts(run)
    ensures var t, p := After(s, run), s.current.value;
      && t.current == Some(p) && t.cpu == LastState(s.cpu, run) && t.mode == s.mode
      && t.startTime == s.startTime && t.time == s.time && t.dispatches == s.dispatches
      && p < |s.saved| == |t.saved| && t.saved[p] == s.saved[p] && s.k.ready <= t.k.ready
    decreases |run|
  {
    if run != [] {
      var e := run[0];
      assert e in run;
      InterruptInvisible(s, e);
      StepSound(s, e);
      hide Step, Sound, Enabled;
      assert OnlyInterrupts(run[1..]);
      InterruptsInvisible(Step(s, e), run[1..]);
    }
  }

  lemma InterruptInvisible(s: State, e: Event)
    requires Sound(s) && s.current.Some? && Enabled(s, e) && (e.Timer? || e.Device? || e.Tick?)
    ensures var t, p := Step(s, e), s.current.value;
      && t.current == Some(p) && t.cpu == LastState(s.cpu, [e]) && t.mode == s.mode
      && t.startTime == s.startTime && t.time == s.time && t.dispatches == s.dispatches
      && p < |s.saved| == |t.saved| && t.saved[p] == s.saved[p] && s.k.ready <= t.k.ready
  {
    assert [e][1..] == [];
    if e.Device? {
      var a := SemAddr(s.k, InterruptIndex(e.line, e.dev, e.reg));
      if Waiters(s.k.asl, a) != [] { assert Waits(s.k.asl, a, Waiters(s.k.asl, a)[0]); }
    }
  }
}
