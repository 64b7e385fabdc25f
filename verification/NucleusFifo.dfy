/** Semaphores are fair: whoever waits is released in turn, on a user semaphore by V, on a
    device's by its interrupts, on the clock with everybody else. */
module NucleusFifo {
  import opened Queues
  import opened Family
  import opened NucleusState
  import opened Processor
  import opened NucleusInvariant
  import opened NucleusKill
  import opened NucleusRuns
  import opened NucleusService
  import opened NucleusWakeups

  /** e is a V on the semaphore at a. */
  predicate IsV(e: Event, a: int) { e.Exec? && e.call == V(a) }

  /** How many of those that wait on a event e lets go, the clock's tick all of them. */
  function Served(s: State, e: Event, a: int): nat
  {
    if IsV(e, a) || (e.Device? && Raised(s.k, e) == a) then 1
    else if e.Timer? && a == Clock(s.k) then |Waiters(s.k.asl, a)|
    else 0
  }

  function Place(k: Tables, a: int, p: Pid): nat
    requires Waits(k.asl, a, p)
  {
    IndexOf(Waiters(k.asl, a), p)
  }

  /** From s to t, p was killed, was among the first passed in line and is released, or moved
      up by passed. */
  ghost predicate MovedUp(s: State, t: State, a: int, p: Pid, passed: nat)
    requires Waits(s.k.asl, a, p)
  {
    || p in t.k.free
    || (passed > Place(s.k, a, p) && (p in t.k.ready || t.current == Some(p)))
    || (Waits(t.k.asl, a, p) && Place(t.k, a, p) + passed <= Place(s.k, a, p))
  }

  lemma SameLine(s: State, t: State, a: int, p: Pid)
    requires Waits(s.k.asl, a, p) && Waiters(t.k.asl, a) == Waiters(s.k.asl, a)
    ensures MovedUp(s, t, a, p, 0)
  {}

  lemma TerminateLine(s: State, a: int, p: Pid)
    requires Sound(s) && s.current.Some? && AccurateKids(s) && Waits(s.k.asl, a, p)
    ensures MovedUp(s, TerminateProcess(s), a, p, 0)
  {
    KillExact(s);
    if p !in Doomed(s) { WithoutAdvances(Waiters(s.k.asl, a), Members(Doomed(s)), p); }
  }

  lemma BlockHelperLine(s: State, oldState: Cpu, b: int, a: int, p: Pid)
    requires HasCurrent(s) && Waits(s.k.asl, a, p)
    ensures MovedUp(s, BlockHelper(s, oldState, b), a, p, 0)
  {
    EnqueueWaits(s.k.asl, b, s.current.value);
    IndexAppend(Waiters(s.k.asl, a), [s.current.value], p);
  }

  lemma VerhogenLine(s: State, oldState: Cpu, b: int, a: int, p: Pid)
    requires Sound(s) && Waits(s.k.asl, a, p) && IsUser(s.k, b)
    ensures MovedUp(s, Verhogen(s, oldState, b), a, p, if b == a then 1 else 0)
  {
    var q := Waiters(s.k.asl, a);
    assert NoDup(Waiters(s.k.asl, b)) && NoDup(q) && SemOk(s.k, a);
    if Waiters(s.k.asl, b) != [] { DequeueWaits(s.k.asl, b); }
    hide Core, Coherent;
    if b == a && q[0] != p { NextInLine(q, p); }
  }

  lemma NextInLine<T>(q: seq<T>, p: T)
    requires p in q && q[0] != p
    ensures p in q[1..] && IndexOf(q, p) == 1 + IndexOf(q[1..], p)
  {
    assert q == [q[0]] + q[1..];
  }

  lemma WaitForIoLine(s: State, oldState: Cpu, i: int, a: int, p: Pid)
    requires Sound(s) && s.current.Some? && 0 <= i < DEVICECOUNT && Waits(s.k.asl, a, p)
    requires Val(s.k, SemAddr(s.k, i)) >= 1 ==> AccurateKids(s)
    ensures MovedUp(s, WaitForIo(s, oldState, i), a, p, 0)
  {
    hide TerminateProcess, BlockHelper, Core;
    var b := SemAddr(s.k, i);
    var t := SetVal(s.k, b, Val(s.k, b) - 1);
    if Val(s.k, b) >= 1 {
      DeviceTaken(s, s.(k := t), b);
      TerminateLine(s.(k := t), a, p);
    } else {
      BlockHelperLine(s.(k := t.(softBlockCount := t.softBlockCount + 1)), oldState, b, a, p);
    }
  }

  lemma PasserenLine(s: State, oldState: Cpu, b: int, a: int, p: Pid)
    requires HasCurrent(s) && Waits(s.k.asl, a, p)
    ensures MovedUp(s, Passeren(s, oldState, b), a, p, 0)
  {
    hide BlockHelper;
    if Val(s.k, b) - 1 < 0 { BlockHelperLine(s.(k := SetVal(s.k, b, Val(s.k, b) - 1)), oldState, b, a, p); }
  }

  lemma HandleLine(s: State, call: Call, oldState: Cpu, a: int, p: Pid)
    requires Sound(s) && s.current.Some? && CallOk(s.k, call) && Waits(s.k.asl, a, p)
    requires Kills(s, call) ==> AccurateKids(s)
    ensures MovedUp(s, Handle(s, call, oldState), a, p, if call == V(a) then 1 else 0)
  {
    hide TerminateProcess, Passeren, WaitForIo, Verhogen, Core;
    match call
    case V(b) => VerhogenLine(s, oldState, b, a, p);
    case P(b) => PasserenLine(s, oldState, b, a, p);
    case Create(newState) =>
    case GetTime =>
    case WaitClock => PasserenLine(s.(k := s.k.(softBlockCount := s.k.softBlockCount + 1)), oldState, Clock(s.k), a, p);
    case WaitIo(line, dev, termRead) => WaitForIoLine(s, oldState, IoIndex(line, dev, termRead), a, p);
    case _ => if Kills(s, call) { TerminateLine(s, a, p); }
  }

  lemma DeviceLine(s: State, i: int, status: int, a: int, p: Pid)
    requires Sound(s) && 0 <= i < DEVICECOUNT && Waits(s.k.asl, a, p)
    ensures MovedUp(s, WakeDevice(s, i, status), a, p, if SemAddr(s.k, i) == a then 1 else 0)
  {
    var b, q := SemAddr(s.k, i), Waiters(s.k.asl, a);
    assert NoDup(Waiters(s.k.asl, b)) && NoDup(q) && SemOk(s.k, b);
    if Waiters(s.k.asl, b) != [] { DequeueWaits(s.k.asl, b); }
    hide Core, Coherent;
    if b == a && q[0] != p { NextInLine(q, p); }
  }

  lemma TimerLine(s: State, a: int, p: Pid)
    requires Sound(s) && Waits(s.k.asl, a, p)
    ensures MovedUp(s, s.(k := WakeClock(s.k)), a, p, if a == Clock(s.k) then |Waiters(s.k.asl, a)| else 0)
  {
    WakeClockWaits(s.k);
  }

  lemma StepLine(s: State, e: Event, a: int, p: Pid)
    requires Sound(s) && Enabled(s, e) && Waits(s.k.asl, a, p)
    ensures MovedUp(s, Step(s, e), a, p, Served(s, e, a))
  {
    hide Handle, WakeDevice, WakeClock, Core, MovedUp;
    match e
    case Exec(call, oldState) => HandleLine(s, call, oldState, a, p);
    case Plt => SameLine(s, Step(s, e), a, p);
    case Timer(oldState) =>
      WakeClockShape(s);
      TimerLine(s, a, p);
      ExitLine(s, s.(k := WakeClock(s.k)), oldState, a, p, Served(s, e, a));
    case Device(line, dev, reg, oldState) =>
      var i, status := InterruptIndex(line, dev, reg), DeviceStatus(line, reg);
      WakeDeviceShape(s, i, status);
      DeviceLine(s, i, status, a, p);
      ExitLine(s, WakeDevice(s, i, status), oldState, a, p, Served(s, e, a));
    case Tick(dt) => SameLine(s, Step(s, e), a, p);
    case Store(b, v) => SameLine(s, Step(s, e), a, p);
  }

  /** Leaving an interrupt changes no semaphore's queue, and dispatches a ready process at most. */
  lemma ExitLine(s: State, u: State, oldState: Cpu, a: int, p: Pid, passed: nat)
    requires Shape(u) && Waits(s.k.asl, a, p) && MovedUp(s, u, a, p, passed)
    ensures MovedUp(s, ExitInterruptHandler(u, oldState), a, p, passed)
  {
    if p in u.k.ready { assert p == u.k.ready[0] || p in u.k.ready[1..]; }
  }

  /** Along the run, how many of those that wait on a are let go. */
  ghost function ServedOn(s: State, run: seq<Event>, a: int): nat
    requires Legal(s, run)
    decreases |run|
  {
    if run == [] then 0 else Served(s, run[0], a) + ServedOn(Step(s, run[0]), run[1..], a)
  }

  /** Somewhere along the run p no longer waits: it is ready, runs, or has been killed. */
  ghost predicate Released(s: State, run: seq<Event>, p: Pid)
    requires Legal(s, run)
    decreases |run|
  {
    || p in s.k.ready || p in s.k.free || s.current == Some(p)
    || (run != [] && Released(Step(s, run[0]), run[1..], p))
  }

  /** First come, first served: with k processes ahead of it, a process that waits is released,
      or killed, on every run with more than k V operations on its semaphore, or more than k
      interrupts of its device. */
  lemma {:induction false} FirstComeFirstServed(s: State, run: seq<Event>, a: int, p: Pid)
    requires Sound(s) && Legal(s, run) && Waits(s.k.asl, a, p) && ServedOn(s, run, a) > Place(s.k, a, p)
    ensures Released(s, run, p)
    decreases |run|
  {
    var t := Step(s, run[0]);
    StepLine(s, run[0], a, p);
    StepSound(s, run[0]);
    hide Step, Enabled, Sound, Served;
    if Waits(t.k.asl, a, p) && Place(t.k, a, p) + Served(s, run[0], a) <= Place(s.k, a, p) {
      FirstComeFirstServed(t, run[1..], a, p);
    } else {
      assert Released(t, run[1..], p);
    }
  }

  /** Whoever waits for the clock is released at its next tick, or killed before. */
  lemma {:induction false} ClockServesAll(s: State, run: seq<Event>, e: Event, p: Pid)
    requires Sound(s) && Legal(s, run) && Waits(s.k.asl, Clock(s.k), p) && e in run && e.Timer?
    ensures Released(s, run, p)
    decreases |run|
  {
    var t, a := Step(s, run[0]), Clock(s.k);
    StepLine(s, run[0], a, p);
    StepSound(s, run[0]);
    StepKept(s, run[0], p);
    assert Clock(t.k) == a;
    if !run[0].Timer? && Waits(t.k.asl, a, p) {
      assert e in run[1..];
      hide Step, Enabled, Sound, Served;
      ClockServesAll(t, run[1..], e, p);
    } else {
      hide Step, Enabled, Sound;
      assert Released(t, run[1..], p);
    }
  }
}
