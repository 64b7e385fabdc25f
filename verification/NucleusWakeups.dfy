/** A process that blocks on I/O resumes with the processor state it blocked with, v0 being
    the status of the device it waited for. */
module NucleusWakeups {
  import opened Queues
  import opened Family
  import opened NucleusState
  import opened Processor
  import opened NucleusInvariant
  import opened NucleusKill
  import opened NucleusRuns
  import opened NucleusService

  // ---- which device a semaphore stands for ----

  /** WaitForIo's index is one of the 48 device semaphores and tells the devices apart. */
  lemma IoIndexInjective(line: int, dev: int, recv: bool, line': int, dev': int, recv': bool)
    requires DeviceOk(line, dev) && (recv ==> line == TERMINT)
    requires DeviceOk(line', dev') && (recv' ==> line' == TERMINT)
    requires IoIndex(line, dev, recv) == IoIndex(line', dev', recv')
    ensures line == line' && dev == dev' && recv == recv'
    ensures 0 <= IoIndex(line, dev, recv) < DEVICECOUNT
  {
  }

  /** The semaphore that interrupt e raises. */
  function Raised(k: Tables, e: Event): int
    requires e.Device?
  {
    SemAddr(k, InterruptIndex(e.line, e.dev, e.reg))
  }

  /** Interrupt e wakes p. */
  predicate Wakes(s: State, e: Event, p: Pid)
  {
    && e.Device?
    && Val(s.k, Raised(s.k, e)) + 1 <= 0
    && Waiters(s.k.asl, Raised(s.k, e)) != []
    && Waiters(s.k.asl, Raised(s.k, e))[0] == p
  }

  // ---- what one step does to the saved state of a process that does not run ----

  /** p is not running; from s to t its saved state became saved, p_semAdd stayed, and if p
      was dispatched that state was loaded. */
  predicate Kept(s: State, t: State, p: Pid, saved: Cpu)
  {
    && s.current != Some(p) && t.k.semBase == s.k.semBase
    && p < |t.saved| && t.saved[p] == saved
    && p < |s.k.semAdd| && p < |t.k.semAdd| && t.k.semAdd[p] == s.k.semAdd[p]
    && (t.current == Some(p) ==> t.cpu == saved)
  }

  lemma SchedulerKept(s: State, u: State, p: Pid, saved: Cpu)
    requires s.current != Some(p) && u.k.semBase == s.k.semBase && p < |u.saved| && u.saved[p] == saved
    requires p < |s.k.semAdd| && p < |u.k.semAdd| && u.k.semAdd[p] == s.k.semAdd[p]
    requires forall x :: x in u.k.ready ==> x < |u.saved|
    ensures Kept(s, Scheduler(u), p, saved)
  {
  }

  lemma TerminateKept(s: State, p: Pid)
    requires HasCurrent(s) && p < s.k.maxProc && s.current != Some(p)
    ensures Kept(s, TerminateProcess(s), p, s.saved[p])
  {
    KillReadyShrinks(s.k, s.current, Doomed(s));
    SchedulerKept(s, KillFamily(s), p, s.saved[p]);
  }

  lemma BlockHelperKept(s: State, oldState: Cpu, a: int, p: Pid)
    requires HasCurrent(s) && p < s.k.maxProc && s.current != Some(p)
    ensures Kept(s, BlockHelper(s, oldState, a), p, s.saved[p])
  {
    var c := s.current.value;
    SchedulerKept(s, IncrementProcessTime(s, c).(saved := s.saved[c := oldState], k := InsertBlocked(s.k, a, c), current := None),
                  p, s.saved[p]);
  }

  lemma HandleKept(s: State, call: Call, oldState: Cpu, p: Pid)
    requires HasCurrent(s) && CallOk(s.k, call) && p in Live(s.k) && s.current != Some(p)
    ensures Kept(s, Handle(s, call, oldState), p, s.saved[p])
  {
    hide TerminateProcess, BlockHelper;
    match call
    case Create(newState) => assert s.k.free != [] ==> s.k.free[0] in s.k.free;
    case V(a) =>
    case P(a) =>
      if Val(s.k, a) - 1 < 0 { BlockHelperKept(s.(k := SetVal(s.k, a, Val(s.k, a) - 1)), oldState, a, p); }
    case GetTime =>
    case WaitClock =>
      var a, k := Clock(s.k), s.k.(softBlockCount := s.k.softBlockCount + 1);
      if Val(k, a) - 1 < 0 { BlockHelperKept(s.(k := SetVal(k, a, Val(k, a) - 1)), oldState, a, p); }
    case WaitIo(line, dev, termRead) =>
      var a := SemAddr(s.k, IoIndex(line, dev, termRead));
      var t := SetVal(s.k, a, Val(s.k, a) - 1);
      if Val(s.k, a) >= 1 {
        TerminateKept(s.(k := t), p);
      } else {
        BlockHelperKept(s.(k := t.(softBlockCount := t.softBlockCount + 1)), oldState, a, p);
      }
    case _ => if Kills(s, call) { TerminateKept(s, p); }
  }

  function SavedAfter(s: State, e: Event, p: Pid): Cpu
    requires p < |s.saved|
  {
    if Wakes(s, e, p) then s.saved[p].(v0 := DeviceStatus(e.line, e.reg)) else s.saved[p]
  }

  lemma StepKept(s: State, e: Event, p: Pid)
    requires Enabled(s, e) && p in Live(s.k) && s.current != Some(p)
    ensures Kept(s, Step(s, e), p, SavedAfter(s, e, p))
  {
    hide Handle, Scheduler;
    match e
    case Exec(call, oldState) => HandleKept(s, call, oldState, p);
    case Plt =>
      SchedulerKept(s, IncrementProcessTime(s, s.current.value).(k := s.k.(ready := s.k.ready + [s.current.value])), p, s.saved[p]);
    case Timer(oldState) =>
      WakeClockShape(s);
      if s.current.None? { SchedulerKept(s, s.(k := WakeClock(s.k)), p, s.saved[p]); }
    case Device(line, dev, reg, oldState) =>
      var u := WakeDevice(s, InterruptIndex(line, dev, reg), DeviceStatus(line, reg));
      WakeDeviceShape(s, InterruptIndex(line, dev, reg), DeviceStatus(line, reg));
      if s.current.None? { SchedulerKept(s, u, p, SavedAfter(s, e, p)); }
    case Tick(dt) =>
    case Store(a, v) =>
  }

  // ---- a process blocked on a device stays blocked until that device interrupts ----

  /** p was killed, or still waits in t where its p_semAdd said in s. */
  predicate StillWaits(s: State, t: State, p: Pid)
  {
    p < |s.k.semAdd| && (p in t.k.free || Waits(t.k.asl, s.k.semAdd[p], p))
  }

  predicate OnDevice(k: Tables, p: Pid)
  {
    Blocked(k, p) && IsDevice(k, k.semAdd[p])
  }

  lemma TerminateStillWaits(s: State, p: Pid)
    requires Sound(s) && s.current.Some? && AccurateKids(s) && OnDevice(s.k, p)
    ensures StillWaits(s, TerminateProcess(s), p)
  {
    KillExact(s);
    if p !in Doomed(s) {
      WithoutMembers(Waiters(s.k.asl, s.k.semAdd[p]), Members(Doomed(s)));
    }
  }

  lemma BlockHelperStillWaits(s: State, oldState: Cpu, a: int, p: Pid)
    requires HasCurrent(s) && OnDevice(s.k, p)
    ensures StillWaits(s, BlockHelper(s, oldState, a), p)
  {
    EnqueueWaits(s.k.asl, a, s.current.value);
  }

  lemma VerhogenStillWaits(s: State, oldState: Cpu, a: int, p: Pid)
    requires Sound(s) && OnDevice(s.k, p) && IsUser(s.k, a)
    ensures StillWaits(s, Verhogen(s, oldState, a), p)
  {
    assert NoDup(Waiters(s.k.asl, a));
    if Waiters(s.k.asl, a) != [] {
      DequeueWaits(s.k.asl, a);
    }
  }

  lemma HandleStillWaits(s: State, call: Call, oldState: Cpu, p: Pid)
    requires Sound(s) && s.current.Some? && CallOk(s.k, call) && OnDevice(s.k, p)
    requires Kills(s, call) ==> AccurateKids(s)
    ensures StillWaits(s, Handle(s, call, oldState), p)
  {
    hide TerminateProcess, BlockHelper, Verhogen, Core;
    match call
    case Create(newState) =>
    case V(a) => VerhogenStillWaits(s, oldState, a, p);
    case P(a) =>
      if Val(s.k, a) - 1 < 0 { BlockHelperStillWaits(s.(k := SetVal(s.k, a, Val(s.k, a) - 1)), oldState, a, p); }
    case GetTime =>
    case WaitClock =>
      var a, k := Clock(s.k), s.k.(softBlockCount := s.k.softBlockCount + 1);
      if Val(k, a) - 1 < 0 { BlockHelperStillWaits(s.(k := SetVal(k, a, Val(k, a) - 1)), oldState, a, p); }
    case WaitIo(line, dev, termRead) =>
      var a := SemAddr(s.k, IoIndex(line, dev, termRead));
      var t := SetVal(s.k, a, Val(s.k, a) - 1);
      if Val(s.k, a) >= 1 {
        DeviceTaken(s, s.(k := t), a);
        TerminateStillWaits(s.(k := t), p);
      } else {
        BlockHelperStillWaits(s.(k := t.(softBlockCount := t.softBlockCount + 1)), oldState, a, p);
      }
    case _ => if Kills(s, call) { TerminateStillWaits(s, p); }
  }

  lemma DeviceStillWaits(s: State, i: int, status: int, p: Pid)
    requires Sound(s) && OnDevice(s.k, p)
    requires Val(s.k, SemAddr(s.k, i)) + 1 <= 0 && Waiters(s.k.asl, SemAddr(s.k, i)) != [] ==>
      Waiters(s.k.asl, SemAddr(s.k, i))[0] != p
    ensures StillWaits(s, WakeDevice(s, i, status), p)
  {
    var a := SemAddr(s.k, i);
    assert NoDup(Waiters(s.k.asl, a));
    if Waiters(s.k.asl, a) != [] {
      DequeueWaits(s.k.asl, a);
    }
  }

  lemma StepStillWaits(s: State, e: Event, p: Pid)
    requires Sound(s) && Enabled(s, e) && OnDevice(s.k, p) && !Wakes(s, e, p)
    ensures StillWaits(s, Step(s, e), p)
  {
    hide Handle, WakeDevice, Core;
    match e
    case Exec(call, oldState) => HandleStillWaits(s, call, oldState, p);
    case Plt =>
    case Timer(oldState) => WakeClockWaits(s.k);
    case Device(line, dev, reg, oldState) =>
      WakeDeviceShape(s, InterruptIndex(line, dev, reg), DeviceStatus(line, reg));
      DeviceStillWaits(s, InterruptIndex(line, dev, reg), DeviceStatus(line, reg), p);
    case Tick(dt) =>
    case Store(a, v) =>
  }

  /** The interrupt that wakes p makes it ready, or runs it at once if nobody was ready. */
  lemma WokenReady(s: State, e: Event, p: Pid)
    requires Sound(s) && Enabled(s, e) && Wakes(s, e, p)
    ensures p in Step(s, e).k.ready || Step(s, e).current == Some(p)
  {
    var i, status := InterruptIndex(e.line, e.dev, e.reg), DeviceStatus(e.line, e.reg);
    var u := WakeDevice(s, i, status);
    WakeDeviceShape(s, i, status);
    assert u.k.ready == s.k.ready + [p];
    if s.current.None? {
      assert u.k.ready == [u.k.ready[0]] + u.k.ready[1..];
      assert p in u.k.ready;
    }
  }

  // ---- whole runs ----

  /** The run ends with p's first turn: p lives and does not run until its last step. */
  ghost predicate FirstTurn(s: State, run: seq<Event>, p: Pid)
    requires Legal(s, run)
    decreases |run|
  {
    p in Live(s.k) && s.current != Some(p) && run != [] &&
    if |run| == 1 then Step(s, run[0]).current == Some(p) else FirstTurn(Step(s, run[0]), run[1..], p)
  }

  /** A ready process next runs in its saved state. */
  lemma {:induction false} ReadyResumes(s: State, run: seq<Event>, p: Pid)
    requires Sound(s) && Legal(s, run) && FirstTurn(s, run, p) && p in s.k.ready
    ensures After(s, run).cpu == s.saved[p]
    decreases |run|
  {
    var e := run[0];
    assert !Wakes(s, e, p) by {
      if Wakes(s, e, p) { assert Waits(s.k.asl, Raised(s.k, e), p); }
    }
    StepKept(s, e, p);
    StepSound(s, e);
    if |run| > 1 {
      StepFair(s, e, p);
      ReadyResumes(Step(s, e), run[1..], p);
    } else {
      assert After(s, run) == Step(s, e);
    }
  }

  /** After interrupt e of the device whose semaphore is at a, c is saved with e's status in v0. */
  predicate Returned(k: Tables, e: Event, a: int, saved: Cpu, c: Cpu)
  {
    && e.Device? && DeviceOk(e.line, e.dev) && Raised(k, e) == a
    && c == saved.(v0 := DeviceStatus(e.line, e.reg))
  }

  /** Event n of the run is the interrupt that wakes p. */
  ghost predicate WokenAt(s: State, run: seq<Event>, n: nat, p: Pid)
  {
    n < |run| && Legal(s, run[..n]) && Wakes(After(s, run[..n]), run[n], p)
  }

  /** Event n of the run wakes p, and at the end of the run p's saved state is loaded with the
      status that event n reports, n being an interrupt of the device p waited for. */
  ghost predicate ResumesWith(s: State, run: seq<Event>, n: nat, p: Pid)
    requires Legal(s, run)
  {
    && WokenAt(s, run, n, p) && p < |s.k.semAdd| && p < |s.saved|
    && Returned(s.k, run[n], s.k.semAdd[p], s.saved[p], After(s, run).cpu)
  }

  lemma WokenLater(s: State, run: seq<Event>, n: nat, p: Pid)
    requires Legal(s, run) && run != [] && ResumesWith(Step(s, run[0]), run[1..], n, p)
    requires var t := Step(s, run[0]);
      t.k.semBase == s.k.semBase && p < |s.saved| && p < |s.k.semAdd| && t.k.semAdd[p] == s.k.semAdd[p] && t.saved[p] == s.saved[p]
    ensures ResumesWith(s, run, n + 1, p)
  {
    assert run[..n + 1][0] == run[0] && run[..n + 1][1..] == run[1..][..n];
  }

  lemma WokenResumes(s: State, run: seq<Event>, p: Pid)
    requires Sound(s) && Legal(s, run) && FirstTurn(s, run, p) && OnDevice(s.k, p) && Wakes(s, run[0], p)
    ensures ResumesWith(s, run, 0, p)
  {
    var e := run[0];
    StepKept(s, e, p);
    StepSound(s, e);
    assert Waits(s.k.asl, Raised(s.k, e), p);
    WokenReady(s, e, p);
    if |run| > 1 { ReadyResumes(Step(s, e), run[1..], p); }
    assert run[..0] == [];
  }

  /** A process blocked on a device next runs in its saved state, with v0 the status reported
      by that same device in the interrupt that woke the process. */
  lemma {:induction false} DeviceResumes(s: State, run: seq<Event>, p: Pid)
    requires Sound(s) && Legal(s, run) && FirstTurn(s, run, p) && OnDevice(s.k, p)
    ensures exists n: nat :: ResumesWith(s, run, n, p)
    decreases |run|
  {
    if Wakes(s, run[0], p) {
      WokenResumes(s, run, p);
    } else {
      NotWoken(s, run, p);
      var t := Step(s, run[0]);
      hide Step, Enabled, Sound, ResumesWith, Wakes, OnDevice, FirstTurn;
      DeviceResumes(t, run[1..], p);
      var n: nat :| ResumesWith(t, run[1..], n, p);
      WokenLater(s, run, n, p);
    }
  }

  /** A step that does not wake p leaves it what it needs. */
  lemma NotWoken(s: State, run: seq<Event>, p: Pid)
    requires Sound(s) && Legal(s, run) && FirstTurn(s, run, p) && OnDevice(s.k, p) && !Wakes(s, run[0], p)
    ensures |run| > 1 && p < |s.saved| && p < |s.k.semAdd|
    ensures var t := Step(s, run[0]);
      && Sound(t) && FirstTurn(t, run[1..], p) && OnDevice(t.k, p) && p < |t.saved| && p < |t.k.semAdd|
      && t.k.semBase == s.k.semBase && t.k.semAdd[p] == s.k.semAdd[p] && t.saved[p] == s.saved[p]
  {
    var e := run[0];
    StepKept(s, e, p);
    StepSound(s, e);
    StepStillWaits(s, e, p);
    NotYet(s, Step(s, e), p);
  }

  lemma NotYet(s: State, t: State, p: Pid)
    requires Sound(t) && StillWaits(s, t, p) && OnDevice(s.k, p) && Kept(s, t, p, t.saved[p]) && p < |t.saved|
    ensures t.current != Some(p) && (p in Live(t.k) ==> OnDevice(t.k, p))
  {
    if p !in t.k.free {
      assert Waits(t.k.asl, s.k.semAdd[p], p);
    }
  }

  /** SYS8 end to end: a process that waits for a device and is not killed next runs in the
      state it made the call with, v0 holding the status reported in the interrupt that woke
      it, which came from that very device. A terminal's interrupt is a receive's if its
      transmitter reads 1, READY, and then reports the receiver's status; otherwise it is a
      transmission's and reports the transmitter's. */
  lemma WaitForIoReturnsStatus(s: State, oldState: Cpu, line: int, dev: int, termRead: bool, run: seq<Event>)
    requires Sound(s) && s.current.Some? && Enabled(s, Exec(WaitIo(line, dev, termRead), oldState))
    requires !Kills(s, WaitIo(line, dev, termRead))
    requires var t := Step(s, Exec(WaitIo(line, dev, termRead), oldState));
      Legal(t, run) && FirstTurn(t, run, s.current.value)
    ensures var t := Step(s, Exec(WaitIo(line, dev, termRead), oldState));
      exists n: nat :: n < |run| && WokenAt(t, run, n, s.current.value) && var e := run[n];
        && e.Device? && e.line == line && e.dev == dev && (termRead <==> line == 7 && e.reg.data0 % 16 == 1)
        && After(t, run).cpu == oldState.(v0 := if line == 7 && !termRead then e.reg.data0 else e.reg.status)
  {
    var p, i := s.current.value, IoIndex(line, dev, termRead);
    var t := Step(s, Exec(WaitIo(line, dev, termRead), oldState));
    WaitForIoSound(s, oldState, i);
    WaitForIoParks(s, oldState, i);
    DeviceResumes(t, run, p);
    var n: nat :| ResumesWith(t, run, n, p);
    var e := run[n];
    IoIndexInjective(line, dev, termRead, e.line, e.dev, IsReceive(e.line, e.reg));
    assert After(t, run).cpu == oldState.(v0 := if line == 7 && !termRead then e.reg.data0 else e.reg.status);
  }

  lemma WaitForIoParks(s: State, oldState: Cpu, i: int)
    requires Sound(s) && s.current.Some? && 0 <= i < DEVICECOUNT && Val(s.k, SemAddr(s.k, i)) <= 0
    ensures var t, p := WaitForIo(s, oldState, i), s.current.value;
      t.k.semBase == s.k.semBase && p < |t.saved| && t.saved[p] == oldState &&
      OnDevice(t.k, p) && t.k.semAdd[p] == SemAddr(s.k, i)
  {
    var p, a := s.current.value, SemAddr(s.k, i);
    BlockingSucceeds(s.k, p, a);
    EnqueueWaits(s.k.asl, a, p);
  }
}
