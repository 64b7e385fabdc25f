/** What every run of the nucleus from boot has: conservation of processes, semaphores in
    agreement with their queues, and sound scheduler verdicts. */
module NucleusTheorems {
  import opened Queues
  import opened Family
  import opened NucleusState
  import opened Processor
  import opened NucleusInvariant
  import opened NucleusKill
  import opened NucleusRuns
  import opened NucleusClock

  // ---- boot ----

  ghost predicate BootOk(maxProc: nat, semBase: int)
  {
    maxProc > 0 && 0 <= semBase && semBase + WORDLEN * SEMCOUNT <= NULLADDR
  }

  /** The first state in which a process runs. */
  ghost function Boot(maxProc: nat, semBase: int, init: Cpu, zero: Cpu): State
    requires BootOk(maxProc, semBase)
  {
    Scheduler(Booted(maxProc, semBase, init, zero))
  }

  /** main establishes the invariant. */
  lemma BootSound(maxProc: nat, semBase: int, init: Cpu, zero: Cpu)
    requires BootOk(maxProc, semBase)
    ensures Sound(Boot(maxProc, semBase, init, zero))
  {
    var s := Booted(maxProc, semBase, init, zero);
    BootCore(s);
    assert forall p: Pid, c: Pid :: !IsChild(s.family, p, c);
    SchedulerSound(s);
  }

  lemma BootCore(s: State)
    requires exists init, zero :: BootOk(s.k.maxProc, s.k.semBase) && s == Booted(s.k.maxProc, s.k.semBase, init, zero)
    ensures Shape(s) && Core(s.k, None)
  {
    var k := s.k;
    assert forall i :: 0 <= i < |k.free| ==> k.free[i] == i + 1;
    forall p: Pid | p < k.maxProc ensures p in k.free || p in k.ready {
      if p > 0 { assert k.free[p - 1] == p; }
    }
    assert forall a :: Waiters(k.asl, a) == [];
    assert forall a: int, p: Pid :: !Waits(k.asl, a, p);
    assert forall a :: Val(k, a) == 0;
    assert SoftSet(k) == {};
  }

  lemma {:induction false} ZeroSemsAt(base: int, n: nat, i: nat)
    requires i < n
    ensures base + 4 * i in ZeroSems(base, n)
  {
    if i < n - 1 { ZeroSemsAt(base, n - 1, i); }
  }

  /** The first process runs in the state that main gave it, a root of the tree with no time
      used and no areas named, alone, with all 49 semaphores at 0. */
  lemma FirstTurnIs(maxProc: nat, semBase: int, init: Cpu, zero: Cpu)
    requires BootOk(maxProc, semBase)
    ensures var s := Boot(maxProc, semBase, init, zero);
      && s.mode == Running && s.current == Some(0) && s.cpu == init && s.now == s.startTime == 0
      && s.k.processCount == 1 && s.k.softBlockCount == 0 && s.k.ready == [] && s.k.asl == map[] && |s.k.free| == maxProc - 1
      && (forall i :: 0 <= i < 49 ==> semBase + 4 * i in s.k.sem && s.k.sem[semBase + 4 * i] == 0)
      && |s.time| == |s.family.kids| == |s.family.prnt| == |s.vectors| == maxProc
      && (forall p :: 0 <= p < maxProc ==> s.time[p] == 0 && s.family.kids[p] == [] && s.family.prnt[p] == None)
      && s.vectors[0] == seq(3, _ => Vector(0xFFFF_FFFF, 0xFFFF_FFFF))
  {
    forall i | 0 <= i < 49 ensures semBase + 4 * i in ZeroSems(semBase, 49) { ZeroSemsAt(semBase, 49, i); }
  }

  // ---- the invariant spelt out ----

  /** In how many of the four places a table entry is. */
  function PlaceCount(s: State, p: Pid): nat
  {
    (if p in s.k.free then 1 else 0) + (if p in s.k.ready then 1 else 0) +
    (if s.current == Some(p) then 1 else 0) + (if Blocked(s.k, p) then 1 else 0)
  }

  /** Conservation on all runs: every process table entry is in exactly one of the free
      list, the ready queue, one semaphore's queue and currentProcess, and nowhere twice;
      processCount is the number of entries not free. */
  lemma Conservation(maxProc: nat, semBase: int, init: Cpu, zero: Cpu, run: seq<Event>)
    requires BootOk(maxProc, semBase) && Legal(Boot(maxProc, semBase, init, zero), run)
    ensures var t := After(Boot(maxProc, semBase, init, zero), run);
      && (forall p: Pid :: p < t.k.maxProc ==> PlaceCount(t, p) == 1)
      && (forall a: int, b: int, p: Pid :: Waits(t.k.asl, a, p) && Waits(t.k.asl, b, p) ==> a == b)
      && NoDup(t.k.free) && NoDup(t.k.ready) && (forall a :: NoDup(Waiters(t.k.asl, a)))
      && t.k.processCount == |Live(t.k)|
  {
    BootSound(maxProc, semBase, init, zero);
    RunSound(Boot(maxProc, semBase, init, zero), run);
    var t := After(Boot(maxProc, semBase, init, zero), run);
    LiveCount(t.k, t.current);
    forall p: Pid | p < t.k.maxProc ensures PlaceCount(t, p) == 1 {
      assert Blocked(t.k, p) ==> Waits(t.k.asl, t.k.semAdd[p], p);
    }
  }

  lemma LiveCount(k: Tables, run: Option<Pid>)
    requires Core(k, run)
    ensures k.processCount == |Live(k)|
  {
    MembersCount(k.free);
    assert Live(k) == Below(k.maxProc) - Members(k.free);
    SplitCount(Below(k.maxProc), Members(k.free));
    assert Below(k.maxProc) * Members(k.free) == Members(k.free);
  }

  /** Semaphores on all runs: a user semaphore's negative value is the number of its
      waiters; the clock's value is never positive and its negation is the number of clock
      waiters; a device semaphore has at most as many waiters as its value is below zero;
      softBlockCount exceeds the number of device and clock waiters by exactly the number
      of clock waiters killed. */
  lemma SemaphoreCoherence(maxProc: nat, semBase: int, init: Cpu, zero: Cpu, run: seq<Event>)
    requires BootOk(maxProc, semBase) && Legal(Boot(maxProc, semBase, init, zero), run)
    ensures var k := After(Boot(maxProc, semBase, init, zero), run).k;
      && (forall a :: IsUser(k, a) ==> |Waiters(k.asl, a)| == Deficit(Val(k, a)))
      && (forall i :: 0 <= i < DEVICECOUNT ==> |Waiters(k.asl, SemAddr(k, i))| <= Deficit(Val(k, SemAddr(k, i))))
      && Val(k, Clock(k)) <= 0 && |Waiters(k.asl, Clock(k))| == -Val(k, Clock(k))
      && k.softBlockCount == |SoftSet(k)| + VictimsOn(Boot(maxProc, semBase, init, zero), run)
  {
    BootSound(maxProc, semBase, init, zero);
    RunSound(Boot(maxProc, semBase, init, zero), run);
    RunCounts(Boot(maxProc, semBase, init, zero), run);
    var k := After(Boot(maxProc, semBase, init, zero), run).k;
    assert SemOk(k, Clock(k));
    forall a | IsUser(k, a) ensures |Waiters(k.asl, a)| == Deficit(Val(k, a)) {
      assert SemOk(k, a);
    }
    forall i | 0 <= i < DEVICECOUNT ensures |Waiters(k.asl, SemAddr(k, i))| <= Deficit(Val(k, SemAddr(k, i))) {
      assert SemOk(k, SemAddr(k, i));
    }
  }

  // ---- scheduler verdicts ----

  /** What the scheduler saw when it last gave a verdict. */
  predicate Verdict(s: State)
  {
    && (s.mode == Running <==> s.current.Some?)
    && (s.mode != Running ==> s.k.ready == [])
    && (s.mode == Halted ==> s.k.processCount == 0)
    && (s.mode == Panicked ==> s.k.processCount != 0 && s.k.softBlockCount == 0)
    && (s.mode == Waiting ==> s.k.processCount != 0 && s.k.softBlockCount != 0)
  }

  lemma HandleVerdict(s: State, call: Call, oldState: Cpu)
    requires Verdict(s) && s.mode == Running && HasCurrent(s) && CallOk(s.k, call)
    ensures Verdict(Handle(s, call, oldState))
  {
    hide KillFamily, CreateProcess, Enqueue, Dequeue;
    if call.Create? {
      CreateVerdict(s, oldState, call.newState);
    }
  }

  lemma CreateVerdict(s: State, oldState: Cpu, newState: Cpu)
    requires Verdict(s) && s.mode == Running && HasCurrent(s)
    ensures Verdict(CreateProcess(s, oldState, newState))
  {
  }

  lemma StepVerdict(s: State, e: Event)
    requires Verdict(s) && Enabled(s, e)
    ensures Verdict(Step(s, e))
  {
    hide Handle, Dequeue;
    if e.Exec? {
      HandleVerdict(s, e.call, e.oldState);
    }
  }

  lemma {:induction false} RunVerdict(s: State, run: seq<Event>)
    requires Verdict(s) && Legal(s, run)
    ensures Verdict(After(s, run))
    decreases |run|
  {
    if run != [] {
      StepVerdict(s, run[0]);
      RunVerdict(Step(s, run[0]), run[1..]);
    }
  }

  /** On every run: HALT only when every table entry is free; PANIC only when every live
      process waits on a semaphore that is neither a device's nor the clock's. A machine that
      stops with live processes but nobody on a device or the clock panics, as it should, if
      the run has killed no clock waiter; once it has killed one, it waits for nobody instead,
      and will never panic again. */
  lemma VerdictSound(maxProc: nat, semBase: int, init: Cpu, zero: Cpu, run: seq<Event>)
    requires BootOk(maxProc, semBase) && Legal(Boot(maxProc, semBase, init, zero), run)
    ensures var t := After(Boot(maxProc, semBase, init, zero), run);
      && (t.mode == Halted ==> Live(t.k) == {})
      && (t.mode == Panicked ==> Live(t.k) != {})
      && (t.mode == Panicked ==> forall p :: p in Live(t.k) ==> Blocked(t.k, p) && IsUser(t.k, t.k.semAdd[p]))
      && (t.mode == Panicked ==> VictimsOn(Boot(maxProc, semBase, init, zero), run) == 0)
      && (t.mode == Waiting && VictimsOn(Boot(maxProc, semBase, init, zero), run) == 0 ==> SoftSet(t.k) != {})
      && (t.mode in {Waiting, Panicked} && SoftSet(t.k) == {} ==>
            (t.mode == Waiting <==> VictimsOn(Boot(maxProc, semBase, init, zero), run) > 0))
  {
    BootSound(maxProc, semBase, init, zero);
    RunSound(Boot(maxProc, semBase, init, zero), run);
    RunCounts(Boot(maxProc, semBase, init, zero), run);
    RunVerdict(Boot(maxProc, semBase, init, zero), run);
    var t := After(Boot(maxProc, semBase, init, zero), run);
    LiveCount(t.k, t.current);
    if t.mode == Panicked {
      AllOnUserSems(t);
    }
  }

  lemma AllOnUserSems(t: State)
    requires Sound(t) && t.current.None? && t.k.ready == [] && t.k.softBlockCount == 0
    ensures forall p :: p in Live(t.k) ==> Blocked(t.k, p) && IsUser(t.k, t.k.semAdd[p])
  {
    assert SoftSet(t.k) == {};
    forall p | p in Live(t.k) ensures Blocked(t.k, p) && IsUser(t.k, t.k.semAdd[p]) {
      assert Waits(t.k.asl, t.k.semAdd[p], p);
      assert p !in SoftSet(t.k);
    }
  }

  /** What an interval timer or device interrupt wakes, were it to come in state s. */
  function Interrupted(s: State, e: Event): State
    requires Shape(s)
  {
    match e
    case Timer(_) => s.(k := WakeClock(s.k))
    case Device(line, dev, reg, _) => WakeDevice(s, InterruptIndex(line, dev, reg), DeviceStatus(line, reg))
    case _ => s
  }

  predicate IsInterrupt(e: Event)
  {
    e.Timer? || (e.Device? && DeviceOk(e.line, e.dev))
  }

  ghost function InterruptedBy(s: State, irqs: seq<Event>): (t: State)
    requires Sound(s) && forall e :: e in irqs ==> IsInterrupt(e)
    ensures Sound(t)
    decreases |irqs|
  {
    if irqs == [] then s else
    assert irqs[0] in irqs;
    InterruptedSound(s, irqs[0]);
    InterruptedBy(Interrupted(s, irqs[0]), irqs[1..])
  }

  lemma InterruptedSound(s: State, e: Event)
    requires Sound(s) && IsInterrupt(e)
    ensures Sound(Interrupted(s, e))
  {
    if e.Timer? {
      WakeClockCore(s.k, s.current);
      WakeClockShape(s);
      assert Live(WakeClock(s.k)) == Live(s.k);
    } else {
      WakeDeviceSound(s, InterruptIndex(e.line, e.dev, e.reg), DeviceStatus(e.line, e.reg));
    }
  }

  lemma NobodyAt(k: Tables, run: Option<Pid>, a: int)
    requires Core(k, run) && SoftSet(k) == {} && IsNucleus(k, a)
    ensures Waiters(k.asl, a) == []
  {
    assert forall p: Pid :: Waits(k.asl, a, p) ==> p in SoftSet(k);
    assert Waiters(k.asl, a) != [] ==> Waits(k.asl, a, Waiters(k.asl, a)[0]);
  }

  /** Once nobody waits on a device or the clock and nobody is ready, no sequence of timer and
      device interrupts makes any process ready. */
  lemma {:induction false} NothingWakes(s: State, irqs: seq<Event>)
    requires Sound(s) && s.k.ready == [] && SoftSet(s.k) == {}
    requires forall e :: e in irqs ==> IsInterrupt(e)
    ensures InterruptedBy(s, irqs).k.ready == []
    decreases |irqs|
  {
    if irqs != [] {
      var e := irqs[0];
      assert e in irqs;
      InterruptedSound(s, e);
      var a := if e.Timer? then Clock(s.k) else SemAddr(s.k, InterruptIndex(e.line, e.dev, e.reg));
      NobodyAt(s.k, s.current, a);
      var t := Interrupted(s, e);
      assert t.k.asl == s.k.asl;
      assert SoftSet(t.k) == SoftSet(s.k);
      NothingWakes(t, irqs[1..]);
    }
  }

  /** A panic is final: were the machine that has panicked left on, no sequence of timer and
      device interrupts would make any process ready. */
  lemma PanicIsFinal(maxProc: nat, semBase: int, init: Cpu, zero: Cpu, run: seq<Event>, irqs: seq<Event>)
    requires BootOk(maxProc, semBase) && Legal(Boot(maxProc, semBase, init, zero), run)
    requires After(Boot(maxProc, semBase, init, zero), run).mode == Panicked && forall e :: e in irqs ==> IsInterrupt(e)
    ensures Sound(After(Boot(maxProc, semBase, init, zero), run))
    ensures InterruptedBy(After(Boot(maxProc, semBase, init, zero), run), irqs).k.ready == []
  {
    BootSound(maxProc, semBase, init, zero);
    RunSound(Boot(maxProc, semBase, init, zero), run);
    RunVerdict(Boot(maxProc, semBase, init, zero), run);
    NothingWakes(After(Boot(maxProc, semBase, init, zero), run), irqs);
  }
}
