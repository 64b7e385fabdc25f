/** What a process can expect of the nucleus over a whole run: its turn comes, its time is
    accounted for, and it resumes where it blocked. */
module NucleusService {
  import opened Queues
  import opened Family
  import opened NucleusState
  import opened Processor
  import opened NucleusInvariant
  import opened NucleusKill
  import opened NucleusRuns
  import opened NucleusTheorems

  // ---- no starvation ----

  lemma IndexAppend<T>(q: seq<T>, r: seq<T>, p: T)
    requires p in q
    ensures p in q + r && IndexOf(q + r, p) == IndexOf(q, p)
  {
    var k := IndexOf(q, p);
    assert (q + r)[k] == p;
    assert forall i :: 0 <= i < k ==> (q + r)[i] == q[i];
  }

  lemma {:induction false} WithoutAdvances<T>(q: seq<T>, gone: set<T>, p: T)
    requires p in q && p !in gone
    ensures p in Without(q, gone) && IndexOf(Without(q, gone), p) <= IndexOf(q, p)
  {
    if q[0] != p {
      WithoutAdvances(q[1..], gone, p);
      var r := Without(q[1..], gone);
      if q[0] !in gone {
        assert ([q[0]] + r)[1..] == r;
      }
    }
  }

  /** p is still ready in u, with no more processes ahead of it, and nobody was dispatched. */
  ghost predicate Ahead(s: State, u: State, p: Pid)
  {
    && p in s.k.ready && p in u.k.ready && NoDup(u.k.ready)
    && u.dispatches == s.dispatches && IndexOf(u.k.ready, p) <= IndexOf(s.k.ready, p)
  }

  /** From s to t, the ready process p was dispatched, was killed, or still waits its turn
      with one process fewer ahead of it for every dispatch made. */
  ghost predicate Fair(s: State, t: State, p: Pid)
  {
    p in s.k.ready &&
    (t.current == Some(p) || p in t.k.free ||
     (p in t.k.ready && t.dispatches + IndexOf(t.k.ready, p) <= s.dispatches + IndexOf(s.k.ready, p)))
  }

  lemma SchedulerFair(s: State, u: State, p: Pid)
    requires Ahead(s, u, p) && forall x :: x in u.k.ready ==> x < |u.saved|
    ensures Fair(s, Scheduler(u), p)
  {
    var q := u.k.ready;
    if q[0] != p {
      assert q == [q[0]] + q[1..];
      assert IndexOf(q, p) == 1 + IndexOf(q[1..], p);
    }
  }

  lemma AppendAhead(s: State, u: State, p: Pid, more: seq<Pid>)
    requires p in s.k.ready && u.k.ready == s.k.ready + more && u.dispatches == s.dispatches && NoDup(u.k.ready)
    ensures Ahead(s, u, p)
  {
    IndexAppend(s.k.ready, more, p);
  }

  lemma TerminateFair(s: State, p: Pid)
    requires Sound(s) && s.current.Some? && AccurateKids(s) && p in s.k.ready
    ensures Fair(s, TerminateProcess(s), p)
  {
    KillExact(s);
    var u := KillFamily(s);
    if p in Doomed(s) {
      assert p in u.k.free;
    } else {
      WithoutAdvances(s.k.ready, Members(Doomed(s)), p);
      SchedulerFair(s, u, p);
    }
  }

  lemma BlockHelperFair(s: State, t: State, oldState: Cpu, a: int, p: Pid)
    requires Sound(s) && HasCurrent(t) && t.k.ready == s.k.ready && t.dispatches == s.dispatches && p in s.k.ready
    ensures Fair(s, BlockHelper(t, oldState, a), p)
  {
    var c := t.current.value;
    var u := IncrementProcessTime(t, c).(saved := t.saved[c := oldState], k := InsertBlocked(t.k, a, c), current := None);
    SchedulerFair(s, u, p);
  }

  lemma WaitForIoFair(s: State, oldState: Cpu, i: int, p: Pid)
    requires Sound(s) && s.current.Some? && 0 <= i < DEVICECOUNT && p in s.k.ready
    requires Val(s.k, SemAddr(s.k, i)) >= 1 ==> AccurateKids(s)
    ensures Fair(s, WaitForIo(s, oldState, i), p)
  {
    hide Scheduler, TerminateProcess, BlockHelper, Core;
    var a := SemAddr(s.k, i);
    var t := SetVal(s.k, a, Val(s.k, a) - 1);
    if Val(s.k, a) >= 1 {
      DeviceTaken(s, s.(k := t), a);
      TerminateFair(s.(k := t), p);
    } else {
      BlockHelperFair(s, s.(k := t.(softBlockCount := t.softBlockCount + 1)), oldState, a, p);
    }
  }

  lemma VerhogenFair(s: State, oldState: Cpu, a: int, p: Pid)
    requires Sound(s) && IsUser(s.k, a) && p in s.k.ready
    ensures Fair(s, Verhogen(s, oldState, a), p)
  {
    VerhogenSound(s, oldState, a);
    var t := Verhogen(s, oldState, a);
    var more := if t.k.ready == s.k.ready then [] else [Waiters(s.k.asl, a)[0]];
    assert t.k.ready == s.k.ready + more;
    AppendAhead(s, t, p, more);
  }

  lemma HandleFair(s: State, call: Call, oldState: Cpu, p: Pid)
    requires Sound(s) && s.current.Some? && CallOk(s.k, call) && p in s.k.ready
    requires Kills(s, call) ==> AccurateKids(s)
    ensures Fair(s, Handle(s, call, oldState), p)
  {
    hide Scheduler, KillFamily, WaitForIo, BlockHelper, Verhogen;
    match call
    case Create(newState) => CreateFair(s, oldState, newState, p);
    case V(a) => VerhogenFair(s, oldState, a, p);
    case P(a) =>
      if Val(s.k, a) - 1 < 0 { BlockHelperFair(s, s.(k := SetVal(s.k, a, Val(s.k, a) - 1)), oldState, a, p); }
    case GetTime =>
    case WaitClock => WaitForClockFair(s, oldState, p);
    case WaitIo(line, dev, termRead) => WaitForIoFair(s, oldState, IoIndex(line, dev, termRead), p);
    case _ => if Kills(s, call) { TerminateFair(s, p); }
  }

  lemma CreateFair(s: State, oldState: Cpu, newState: Cpu, p: Pid)
    requires Sound(s) && s.current.Some? && p in s.k.ready
    ensures Fair(s, CreateProcess(s, oldState, newState), p)
  {
    if s.k.free != [] {
      var t := CreateProcess(s, oldState, newState);
      assert s.k.free[0] in s.k.free;
      AppendNoDup(s.k.ready, s.k.free[0]);
      AppendAhead(s, t, p, [s.k.free[0]]);
    }
  }

  lemma WaitForClockFair(s: State, oldState: Cpu, p: Pid)
    requires Sound(s) && s.current.Some? && p in s.k.ready
    ensures Fair(s, WaitForClock(s, oldState), p)
  {
    assert SemOk(s.k, Clock(s.k));
    WaitForClockIs(s, oldState);
    BlockHelperFair(s, s.(k := SoftBlocking(s.k, Clock(s.k))), oldState, Clock(s.k), p);
  }

  lemma ExitFair(s: State, u: State, oldState: Cpu, p: Pid)
    requires Ahead(s, u, p) && Shape(u)
    ensures Fair(s, ExitInterruptHandler(u, oldState), p)
  {
    if u.current.None? {
      SchedulerFair(s, u, p);
    }
  }

  lemma TimerFair(s: State, oldState: Cpu, p: Pid)
    requires Sound(s) && p in s.k.ready
    ensures Fair(s, TimerInterrupt(s, oldState), p)
  {
    WakeClockCore(s.k, s.current);
    WakeClockShape(s);
    var u := s.(k := WakeClock(s.k));
    AppendAhead(s, u, p, Waiters(s.k.asl, Clock(s.k)));
    ExitFair(s, u, oldState, p);
  }

  lemma DeviceFair(s: State, line: int, dev: int, reg: DeviceReg, oldState: Cpu, p: Pid)
    requires Sound(s) && DeviceOk(line, dev) && p in s.k.ready
    ensures Fair(s, DeviceInterrupt(s, line, dev, reg, oldState), p)
  {
    var i, status := InterruptIndex(line, dev, reg), DeviceStatus(line, reg);
    var u := WakeDevice(s, i, status);
    WakeDeviceSound(s, i, status);
    var more := if u.k.ready == s.k.ready then [] else [Waiters(s.k.asl, SemAddr(s.k, i))[0]];
    assert u.k.ready == s.k.ready + more;
    AppendAhead(s, u, p, more);
    ExitFair(s, u, oldState, p);
  }

  lemma StepFair(s: State, e: Event, p: Pid)
    requires Sound(s) && Enabled(s, e) && p in s.k.ready
    ensures Fair(s, Step(s, e), p)
  {
    hide Handle, Scheduler, DeviceInterrupt, TimerInterrupt;
    match e
    case Exec(call, oldState) => HandleFair(s, call, oldState, p);
    case Plt =>
      var c := s.current.value;
      AppendNoDup(s.k.ready, c);
      var u := IncrementProcessTime(s, c).(k := s.k.(ready := s.k.ready + [c]));
      AppendAhead(s, u, p, [c]);
      SchedulerFair(s, u, p);
    case Timer(oldState) => TimerFair(s, oldState, p);
    case Device(line, dev, reg, oldState) => DeviceFair(s, line, dev, reg, oldState, p);
    case Tick(dt) =>
    case Store(a, v) =>
  }

  /** Somewhere along the run p runs or is killed. */
  ghost predicate Served(s: State, run: seq<Event>, p: Pid)
    requires Legal(s, run)
    decreases |run|
  {
    s.current == Some(p) || p in s.k.free || (run != [] && Served(Step(s, run[0]), run[1..], p))
  }

  /** No starvation: a ready process with k others ahead of it is dispatched, or killed, on
      every run that makes more than k dispatches. */
  lemma {:induction false} NoStarvation(s: State, run: seq<Event>, p: Pid)
    requires Sound(s) && Legal(s, run) && p in s.k.ready
    requires After(s, run).dispatches > s.dispatches + IndexOf(s.k.ready, p)
    ensures Served(s, run, p)
    decreases |run|
  {
    if run != [] {
      var t := Step(s, run[0]);
      StepFair(s, run[0], p);
      StepSound(s, run[0]);
      if t.current != Some(p) && p !in t.k.free {
        NoStarvation(t, run[1..], p);
      }
    }
  }

  /** Event e ends the turn of the process run: its slice is up, it is killed, or it waits. */
  ghost predicate EndsTurn(s: State, e: Event)
    requires Enabled(s, e)
  {
    match e
    case Plt => true
    case Exec(P(a), _) => Val(s.k, a) <= 0
    case Exec(call, _) => Kills(s, call) || call.WaitClock? || call.WaitIo?
    case _ => false
  }

  /** Scheduler(u) ends a turn of s, and p is still ready for the next. */
  lemma SchedulerDispatches(u: State, p: Pid)
    requires p in u.k.ready && forall x :: x in u.k.ready ==> x < |u.saved|
    ensures Scheduler(u).dispatches == u.dispatches + 1
  {}

  lemma TerminateDispatches(s: State, p: Pid)
    requires Sound(s) && s.current.Some? && AccurateKids(s) && p in s.k.ready
    ensures p in TerminateProcess(s).k.free || TerminateProcess(s).dispatches == s.dispatches + 1
  {
    KillReadyShrinks(s.k, s.current, Doomed(s));
    KillExact(s);
    WithoutMembers(s.k.ready, Members(Doomed(s)));
    if p !in Doomed(s) { SchedulerDispatches(KillFamily(s), p); }
  }

  lemma BlockHelperDispatches(s: State, oldState: Cpu, a: int, p: Pid)
    requires HasCurrent(s) && p in s.k.ready
    ensures BlockHelper(s, oldState, a).dispatches == s.dispatches + 1
  {}

  lemma WaitForIoDispatches(s: State, oldState: Cpu, i: int, p: Pid)
    requires Sound(s) && s.current.Some? && 0 <= i < DEVICECOUNT && p in s.k.ready
    requires Val(s.k, SemAddr(s.k, i)) >= 1 ==> AccurateKids(s)
    ensures p in WaitForIo(s, oldState, i).k.free || WaitForIo(s, oldState, i).dispatches == s.dispatches + 1
  {
    hide TerminateProcess, BlockHelper, Core;
    var a := SemAddr(s.k, i);
    var t := SetVal(s.k, a, Val(s.k, a) - 1);
    if Val(s.k, a) >= 1 {
      DeviceTaken(s, s.(k := t), a);
      TerminateDispatches(s.(k := t), p);
    } else {
      BlockHelperDispatches(s.(k := t.(softBlockCount := t.softBlockCount + 1)), oldState, a, p);
    }
  }

  lemma PasserenDispatches(s: State, oldState: Cpu, a: int, p: Pid)
    requires HasCurrent(s) && p in s.k.ready
    ensures Passeren(s, oldState, a).dispatches == s.dispatches + if Val(s.k, a) <= 0 then 1 else 0
  {
    hide BlockHelper;
    if Val(s.k, a) <= 0 { BlockHelperDispatches(s.(k := SetVal(s.k, a, Val(s.k, a) - 1)), oldState, a, p); }
  }

  /** As long as somebody is ready, whatever ends a turn starts another. */
  lemma TurnAfterTurn(s: State, e: Event, p: Pid)
    requires Sound(s) && Enabled(s, e) && p in s.k.ready
    ensures var t := Step(s, e); p in t.k.free || t.dispatches >= s.dispatches + if EndsTurn(s, e) then 1 else 0
  {
    hide TerminateProcess, Passeren, WaitForIo, Core, AccurateKids;
    match e
    case Exec(P(a), oldState) => PasserenDispatches(s, oldState, a, p);
    case Exec(WaitClock, oldState) =>
      ClockNeverPositive(s);
      PasserenDispatches(s.(k := s.k.(softBlockCount := s.k.softBlockCount + 1)), oldState, Clock(s.k), p);
    case Exec(WaitIo(line, dev, termRead), oldState) => WaitForIoDispatches(s, oldState, IoIndex(line, dev, termRead), p);
    case Exec(call, oldState) => if Kills(s, call) { TerminateDispatches(s, p); }
    case Timer(_) => WakeClockShape(s);
    case Device(line, dev, reg, _) => WakeDeviceShape(s, InterruptIndex(line, dev, reg), DeviceStatus(line, reg));
    case _ =>
  }

  lemma ClockNeverPositive(s: State)
    requires Sound(s)
    ensures Val(s.k, Clock(s.k)) <= 0
  {
    assert SemOk(s.k, Clock(s.k));
  }

  /** How many turns end along the run. */
  ghost function TurnsEnded(s: State, run: seq<Event>): nat
    requires Legal(s, run)
    decreases |run|
  {
    if run == [] then 0 else (if EndsTurn(s, run[0]) then 1 else 0) + TurnsEnded(Step(s, run[0]), run[1..])
  }

  /** Round robin: a ready process with k others ahead of it runs, or is killed, on every run
      on which more than k turns end, be it that slices are up or that callers wait or die. */
  lemma {:induction false} ServedInTurn(s: State, run: seq<Event>, p: Pid)
    requires Sound(s) && Legal(s, run) && p in s.k.ready && TurnsEnded(s, run) > IndexOf(s.k.ready, p)
    ensures Served(s, run, p)
    decreases |run|
  {
    var t := Step(s, run[0]);
    StepFair(s, run[0], p);
    StepSound(s, run[0]);
    TurnAfterTurn(s, run[0], p);
    hide Step, Enabled, Sound, EndsTurn;
    if t.current != Some(p) && p !in t.k.free {
      ServedInTurn(t, run[1..], p);
    }
  }

  // ---- processor time ----

  /** What SYS6 would report for p were run the running process: its completed turns and,
      if it runs, the open one. */
  function CpuOf(s: State, run: Option<Pid>, p: Pid): int
    requires p < |s.time|
  {
    s.time[p] + if run == Some(p) then s.now - s.startTime else 0
  }

  function Sum(q: seq<int>): int
  {
    if q == [] then 0 else q[0] + Sum(q[1..])
  }

  lemma {:induction false} SumUpdate(q: seq<int>, k: nat, v: int)
    requires k < |q|
    ensures Sum(q[k := v]) == Sum(q) - q[k] + v
  {
    if k > 0 {
      assert q[k := v][1..] == q[1..][k - 1 := v];
      SumUpdate(q[1..], k - 1, v);
    }
  }

  /** Completed turns and the open one together never exceed the time elapsed since boot. */
  ghost predicate Timed(s: State, run: Option<Pid>)
  {
    && s.startTime <= s.now
    && (forall p: Pid :: p < |s.time| ==> s.time[p] >= 0)
    && Sum(s.time) + (if run.Some? then s.now - s.startTime else 0) <= s.now
  }

  lemma TurnTimed(s: State, p: Pid)
    requires p < |s.time| && Timed(s, Some(p))
    ensures Timed(IncrementProcessTime(s, p), None)
  {
    SumUpdate(s.time, p, s.time[p] + (s.now - s.startTime));
  }

  lemma SameTimed(s: State, t: State, run: Option<Pid>)
    requires Timed(s, run) && t.time == s.time && t.startTime == s.startTime && t.now == s.now
    ensures Timed(t, run) && Timed(t, None)
  {
  }

  lemma SchedulerTimed(u: State)
    requires Timed(u, None) && forall x :: x in u.k.ready ==> x < |u.saved|
    ensures Timed(Scheduler(u), Scheduler(u).current)
  {
  }

  lemma TerminateTimed(s: State)
    requires HasCurrent(s) && Timed(s, s.current)
    ensures Timed(TerminateProcess(s), TerminateProcess(s).current)
  {
    KillReadyShrinks(s.k, s.current, Doomed(s));
    SameTimed(s, KillFamily(s), s.current);
    SchedulerTimed(KillFamily(s));
  }

  lemma BlockHelperTimed(s: State, oldState: Cpu, a: int)
    requires HasCurrent(s) && Timed(s, s.current)
    ensures Timed(BlockHelper(s, oldState, a), BlockHelper(s, oldState, a).current)
  {
    var c := s.current.value;
    TurnTimed(s, c);
    var u := IncrementProcessTime(s, c).(saved := s.saved[c := oldState], k := InsertBlocked(s.k, a, c), current := None);
    SameTimed(IncrementProcessTime(s, c), u, None);
    SchedulerTimed(u);
  }

  lemma WaitForIoTimed(s: State, oldState: Cpu, i: int)
    requires HasCurrent(s) && Timed(s, s.current)
    ensures Timed(WaitForIo(s, oldState, i), WaitForIo(s, oldState, i).current)
  {
    hide TerminateProcess, BlockHelper, Timed;
    var a := SemAddr(s.k, i);
    var t := SetVal(s.k, a, Val(s.k, a) - 1);
    SameTimed(s, s.(k := t), s.current);
    SameTimed(s, s.(k := t.(softBlockCount := t.softBlockCount + 1)), s.current);
    if Val(s.k, a) >= 1 {
      TerminateTimed(s.(k := t));
    } else {
      BlockHelperTimed(s.(k := t.(softBlockCount := t.softBlockCount + 1)), oldState, a);
    }
  }

  lemma PasserenTimed(s: State, oldState: Cpu, a: int)
    requires HasCurrent(s) && Timed(s, s.current)
    ensures Timed(Passeren(s, oldState, a), Passeren(s, oldState, a).current)
  {
    var t := s.(k := SetVal(s.k, a, Val(s.k, a) - 1));
    if Val(s.k, a) - 1 < 0 { BlockHelperTimed(t, oldState, a); }
  }

  lemma CreateTimed(s: State, oldState: Cpu, newState: Cpu)
    requires HasCurrent(s) && Timed(s, s.current)
    ensures Timed(CreateProcess(s, oldState, newState), s.current)
  {
    if s.k.free != [] {
      assert s.k.free[0] in s.k.free;
      SumUpdate(s.time, s.k.free[0], 0);
    }
  }

  lemma HandleTimed(s: State, call: Call, oldState: Cpu)
    requires HasCurrent(s) && Timed(s, s.current) && CallOk(s.k, call)
    ensures Timed(Handle(s, call, oldState), Handle(s, call, oldState).current)
  {
    hide TerminateProcess, Passeren, WaitForIo;
    match call
    case Create(newState) => CreateTimed(s, oldState, newState);
    case V(a) =>
    case P(a) => PasserenTimed(s, oldState, a);
    case GetTime =>
    case WaitClock => PasserenTimed(s.(k := s.k.(softBlockCount := s.k.softBlockCount + 1)), oldState, Clock(s.k));
    case WaitIo(line, dev, termRead) => WaitForIoTimed(s, oldState, IoIndex(line, dev, termRead));
    case _ => if Kills(s, call) { TerminateTimed(s); }
  }

  lemma ExitTimed(s: State, oldState: Cpu)
    requires Shape(s) && Timed(s, s.current)
    ensures Timed(ExitInterruptHandler(s, oldState), ExitInterruptHandler(s, oldState).current)
  {
    if s.current.None? { SchedulerTimed(s); }
  }

  lemma StepTimed(s: State, e: Event)
    requires Enabled(s, e) && Timed(s, s.current)
    ensures Timed(Step(s, e), Step(s, e).current)
  {
    hide Handle, Scheduler, ExitInterruptHandler;
    match e
    case Exec(call, oldState) => HandleTimed(s, call, oldState);
    case Plt =>
      TurnTimed(s, s.current.value);
      SchedulerTimed(IncrementProcessTime(s, s.current.value).(k := s.k.(ready := s.k.ready + [s.current.value])));
    case Timer(oldState) =>
      WakeClockShape(s);
      ExitTimed(s.(k := WakeClock(s.k)), oldState);
    case Device(line, dev, reg, oldState) =>
      WakeDeviceShape(s, InterruptIndex(line, dev, reg), DeviceStatus(line, reg));
      ExitTimed(WakeDevice(s, InterruptIndex(line, dev, reg), DeviceStatus(line, reg)), oldState);
    case Tick(dt) =>
    case Store(a, v) =>
  }

  /** From s to t, p's reported time grew by more. */
  predicate Grew(s: State, t: State, p: Pid, more: int)
  {
    p < |s.time| && p < |t.time| && CpuOf(t, t.current, p) == CpuOf(s, s.current, p) + more
  }

  lemma SchedulerGrew(s: State, u: State, p: Pid)
    requires p < |s.time| && p < |u.time| && u.time[p] == CpuOf(s, s.current, p)
    requires forall x :: x in u.k.ready ==> x < |u.saved|
    ensures Grew(s, Scheduler(u), p, 0)
  {
  }

  lemma CallerFreed(s: State)
    requires Sound(s) && s.current.Some? && AccurateKids(s)
    ensures s.current.value in KillFamily(s).k.free && InTable(KillFamily(s).k) && |KillFamily(s).saved| == KillFamily(s).k.maxProc
  {
    DoomedKillable(s);
    KillExact(s);
  }

  lemma TerminateGrew(s: State, p: Pid)
    requires Sound(s) && s.current.Some? && AccurateKids(s) && p < s.k.maxProc && p !in TerminateProcess(s).k.free
    ensures Grew(s, TerminateProcess(s), p, 0)
  {
    CallerFreed(s);
    SchedulerGrew(s, KillFamily(s), p);
  }

  lemma BlockHelperGrew(s: State, oldState: Cpu, a: int, p: Pid)
    requires HasCurrent(s) && p < s.k.maxProc
    ensures Grew(s, BlockHelper(s, oldState, a), p, 0)
  {
    var c := s.current.value;
    SchedulerGrew(s, IncrementProcessTime(s, c).(saved := s.saved[c := oldState], k := InsertBlocked(s.k, a, c), current := None), p);
  }

  lemma WaitForIoGrew(s: State, oldState: Cpu, i: int, p: Pid)
    requires Sound(s) && s.current.Some? && 0 <= i < DEVICECOUNT && p < s.k.maxProc
    requires Val(s.k, SemAddr(s.k, i)) >= 1 ==> AccurateKids(s)
    requires p !in WaitForIo(s, oldState, i).k.free
    ensures Grew(s, WaitForIo(s, oldState, i), p, 0)
  {
    hide TerminateProcess, BlockHelper, Core;
    var a := SemAddr(s.k, i);
    var t := SetVal(s.k, a, Val(s.k, a) - 1);
    if Val(s.k, a) >= 1 {
      DeviceTaken(s, s.(k := t), a);
      TerminateGrew(s.(k := t), p);
    } else {
      BlockHelperGrew(s.(k := t.(softBlockCount := t.softBlockCount + 1)), oldState, a, p);
    }
  }

  lemma PasserenGrew(s: State, oldState: Cpu, a: int, p: Pid)
    requires HasCurrent(s) && p < s.k.maxProc
    ensures Grew(s, Passeren(s, oldState, a), p, 0)
  {
    if Val(s.k, a) - 1 < 0 { BlockHelperGrew(s.(k := SetVal(s.k, a, Val(s.k, a) - 1)), oldState, a, p); }
  }

  lemma CreateGrew(s: State, oldState: Cpu, newState: Cpu, p: Pid)
    requires HasCurrent(s) && p in Live(s.k)
    ensures Grew(s, CreateProcess(s, oldState, newState), p, 0)
  {
    hide AddChild, Ranked;
    assert s.k.free != [] ==> s.k.free[0] in s.k.free;
  }

  lemma VerhogenGrew(s: State, oldState: Cpu, a: int, p: Pid)
    requires HasCurrent(s) && p < s.k.maxProc
    ensures Grew(s, Verhogen(s, oldState, a), p, 0)
  {
    hide Wake, Ranked;
  }

  lemma HandleGrew(s: State, call: Call, oldState: Cpu, p: Pid)
    requires Sound(s) && s.current.Some? && CallOk(s.k, call) && p in Live(s.k)
    requires Kills(s, call) ==> AccurateKids(s)
    requires p !in Handle(s, call, oldState).k.free
    ensures Grew(s, Handle(s, call, oldState), p, 0)
  {
    hide TerminateProcess, Passeren, WaitForIo, Verhogen, CreateProcess, Core, AccurateKids;
    match call
    case Create(newState) => CreateGrew(s, oldState, newState, p);
    case V(a) => VerhogenGrew(s, oldState, a, p);
    case P(a) => PasserenGrew(s, oldState, a, p);
    case GetTime =>
    case WaitClock => PasserenGrew(s.(k := s.k.(softBlockCount := s.k.softBlockCount + 1)), oldState, Clock(s.k), p);
    case WaitIo(line, dev, termRead) => WaitForIoGrew(s, oldState, IoIndex(line, dev, termRead), p);
    case _ => if Kills(s, call) { TerminateGrew(s, p); }
  }

  /** The processor time that passes in event e while p runs. */
  function Used(s: State, e: Event, p: Pid): nat
  {
    if e.Tick? && s.current == Some(p) then e.dt else 0
  }

  lemma StepGrew(s: State, e: Event, p: Pid)
    requires Sound(s) && Enabled(s, e) && p in Live(s.k) && p !in Step(s, e).k.free
    ensures Grew(s, Step(s, e), p, Used(s, e, p))
  {
    hide Handle, Scheduler;
    match e
    case Exec(call, oldState) => HandleGrew(s, call, oldState, p);
    case Plt =>
      SchedulerGrew(s, IncrementProcessTime(s, s.current.value).(k := s.k.(ready := s.k.ready + [s.current.value])), p);
    case Timer(oldState) =>
      WakeClockShape(s);
      if s.current.None? { SchedulerGrew(s, s.(k := WakeClock(s.k)), p); }
    case Device(line, dev, reg, oldState) =>
      var i, status := InterruptIndex(line, dev, reg), DeviceStatus(line, reg);
      WakeDeviceShape(s, i, status);
      if s.current.None? { SchedulerGrew(s, WakeDevice(s, i, status), p); }
    case Tick(dt) =>
    case Store(a, v) =>
  }

  ghost function UsedBy(s: State, run: seq<Event>, p: Pid): nat
    requires Legal(s, run)
    decreases |run|
  {
    if run == [] then 0 else Used(s, run[0], p) + UsedBy(Step(s, run[0]), run[1..], p)
  }

  ghost predicate Survives(s: State, run: seq<Event>, p: Pid)
    requires Legal(s, run)
    decreases |run|
  {
    p in Live(s.k) && (run != [] ==> Survives(Step(s, run[0]), run[1..], p))
  }

  /** Processor time is exact: over any run it survives, the time SYS6 reports for p grows by
      exactly the time that passed while p was the running process; so it never falls. */
  lemma {:induction false} CpuTimeExact(s: State, run: seq<Event>, p: Pid)
    requires Sound(s) && Legal(s, run) && Survives(s, run, p)
    ensures Grew(s, After(s, run), p, UsedBy(s, run, p))
    decreases |run|
  {
    if run != [] {
      StepGrew(s, run[0], p);
      StepSound(s, run[0]);
      CpuTimeExact(Step(s, run[0]), run[1..], p);
    }
  }

  lemma {:induction false} RunTimed(s: State, run: seq<Event>)
    requires Legal(s, run) && Timed(s, s.current)
    ensures Timed(After(s, run), After(s, run).current)
    decreases |run|
  {
    if run != [] {
      StepTimed(s, run[0]);
      RunTimed(Step(s, run[0]), run[1..]);
    }
  }

  lemma {:induction false} SumZeros(n: nat)
    ensures Sum(seq(n, _ => 0)) == 0
  {
    if n > 0 {
      assert seq(n, _ => 0)[1..] == seq(n - 1, _ => 0);
      SumZeros(n - 1);
    }
  }

  lemma BootTimed(maxProc: nat, semBase: int, init: Cpu, zero: Cpu)
    requires BootOk(maxProc, semBase)
    ensures Timed(Boot(maxProc, semBase, init, zero), Boot(maxProc, semBase, init, zero).current)
  {
    SumZeros(maxProc);
  }

  /** On every run from boot, where the clock starts at 0, no total is negative, and all totals
      and the open turn together never exceed the time that has passed. */
  lemma CpuTimeBounded(maxProc: nat, semBase: int, init: Cpu, zero: Cpu, run: seq<Event>)
    requires BootOk(maxProc, semBase) && Legal(Boot(maxProc, semBase, init, zero), run)
    ensures Boot(maxProc, semBase, init, zero).now == 0
    ensures var t := After(Boot(maxProc, semBase, init, zero), run);
      && (forall p: Pid :: p < |t.time| ==> 0 <= t.time[p])
      && 0 <= Sum(t.time) + (if t.current.Some? then t.now - t.startTime else 0) <= t.now
  {
    BootTimed(maxProc, semBase, init, zero);
    RunTimed(Boot(maxProc, semBase, init, zero), run);
    SumPositive(After(Boot(maxProc, semBase, init, zero), run).time);
  }

  lemma {:induction false} SumPositive(q: seq<int>)
    requires forall p :: 0 <= p < |q| ==> q[p] >= 0
    ensures Sum(q) >= 0
  {
    if q != [] { SumPositive(q[1..]); }
  }
}
