/** What a semaphore's value stands for: over any run it is what it was, plus one for every V
    and interrupt and killed waiter, less one for every P and wait. */
module NucleusValues {
  import opened Queues
  import opened Family
  import opened Processor
  import opened NucleusState
  import opened NucleusInvariant
  import opened NucleusKill
  import opened NucleusRuns

  /** Those among ps that wait on a. */
  ghost function WaitingOn(k: Tables, a: int, ps: set<Pid>): set<Pid>
  {
    set p | p in ps && Waits(k.asl, a, p)
  }

  /** By how much the call changes the value at a, besides what a kill does to it. */
  function Asked(k: Tables, call: Call, a: int): int
  {
    match call
    case V(b) => if a == b then 1 else 0
    case P(b) => if a == b then -1 else 0
    case WaitClock => if a == k.semBase + 4 * 48 then -1 else 0
    case WaitIo(line, dev, termRead) =>
      if a == k.semBase + 4 * ((line - 3) * 8 + dev + if termRead then 8 else 0) then -1 else 0
    case _ => 0
  }

  /** A kill gives every semaphore but the devices' back what its dead waiters took. */
  ghost function GivenBack(s: State, a: int): nat
    requires HasCurrent(s)
  {
    if s.k.semBase <= a <= s.k.semBase + 4 * 47 then 0 else |WaitingOn(s.k, a, Members(Doomed(s)))|
  }

  /** By how much event e changes the value at a. */
  ghost function Change(s: State, e: Event, a: int): int
    requires Enabled(s, e)
  {
    match e
    case Exec(call, _) => Asked(s.k, call, a) + if Kills(s, call) then GivenBack(s, a) else 0
    case Timer(_) => if a == s.k.semBase + 4 * 48 then -Val(s.k, a) else 0
    case Device(line, dev, reg, _) =>
      if a == s.k.semBase + 4 * ((line - 3) * 8 + dev + if line == 7 && reg.data0 % 16 == 1 then 8 else 0) then 1 else 0
    case Store(b, v) => if a == b then v - Val(s.k, a) else 0
    case Plt => 0
    case Tick(_) => 0
  }

  // ---- one kill ----

  lemma KillOneValue(k: Tables, cur: Option<Pid>, p: Pid, a: int)
    requires p < |k.semAdd|
    ensures Val(KillOne(k, cur, p), a) ==
      Val(k, a) + if cur != Some(p) && k.semAdd[p] == a != NULLADDR && !IsDevice(k, a) then 1 else 0
  {}

  lemma OneMoreWaiting(k: Tables, a: int, rest: seq<Pid>, p: Pid)
    requires p !in rest
    ensures |WaitingOn(k, a, Members(rest + [p]))| == |WaitingOn(k, a, Members(rest))| + if Waits(k.asl, a, p) then 1 else 0
  {
    assert WaitingOn(k, a, Members(rest + [p])) == WaitingOn(k, a, Members(rest)) + (if Waits(k.asl, a, p) then {p} else {});
  }

  /** Whom the test takes for a waiter of a is one. */
  lemma TestIsRight(k: Tables, cur: Pid, p: Pid, a: int)
    requires Core(k, Some(cur)) && p < |k.semAdd| && (p == cur || ((p in k.ready || Blocked(k, p)) && Accurate(k, p)))
    ensures p != cur && k.semAdd[p] == a != NULLADDR <==> Waits(k.asl, a, p)
  {
  }

  lemma {:induction false} KillAllValue(k: Tables, cur: Pid, order: seq<Pid>, a: int)
    requires Core(k, Some(cur)) && Killable(k, Some(cur), order) && !IsDevice(k, a)
    ensures forall p :: p in order ==> p < |k.semAdd|
    ensures Val(KillAll(k, Some(cur), order), a) == Val(k, a) + |WaitingOn(k, a, Members(order))|
    decreases |order|
  {
    hide Places, Coherent, Counted;
    if order == [] {
      assert WaitingOn(k, a, Members(order)) == {};
    } else {
      hide WaitingOn, KillOne;
      var n := |order| - 1;
      var rest, p := order[..n], order[n];
      assert order == rest + [p];
      KillablePart(k, Some(cur), order, rest, [], [p]);
      assert rest + [] == rest && p !in rest && p in order;
      KillAllValue(k, cur, rest, a);
      TestIsRight(k, cur, p, a);
      hide Core, Killable;
      KillOneValue(KillAll(k, Some(cur), rest), Some(cur), p, a);
      OneMoreWaiting(k, a, rest, p);
    }
  }

  lemma {:induction false} KillAllDevice(k: Tables, cur: Option<Pid>, order: seq<Pid>, a: int)
    requires IsDevice(k, a) && forall p :: p in order ==> p < |k.semAdd|
    ensures Val(KillAll(k, cur, order), a) == Val(k, a)
    decreases |order|
  {
    if order != [] {
      var n := |order| - 1;
      assert forall p :: p in order[..n] ==> p in order;
      KillAllDevice(k, cur, order[..n], a);
      assert order[n] in order;
      hide KillOne;
      KillOneValue(KillAll(k, cur, order[..n]), cur, order[n], a);
    }
  }

  lemma TerminateValue(s: State, a: int)
    requires Sound(s) && s.current.Some? && AccurateKids(s)
    ensures Val(TerminateProcess(s).k, a) == Val(s.k, a) + GivenBack(s, a)
  {
    DoomedKillable(s);
    KillReadyShrinks(s.k, s.current, Doomed(s));
    if IsDevice(s.k, a) {
      KillAllDevice(s.k, s.current, Doomed(s), a);
    } else {
      KillAllValue(s.k, s.current.value, Doomed(s), a);
    }
  }

  // ---- one step ----

  lemma BlockHelperValue(s: State, oldState: Cpu, b: int, a: int)
    requires HasCurrent(s)
    ensures Val(BlockHelper(s, oldState, b).k, a) == Val(s.k, a)
  {}

  lemma PasserenValue(s: State, oldState: Cpu, b: int, a: int)
    requires HasCurrent(s)
    ensures Val(Passeren(s, oldState, b).k, a) == Val(s.k, a) - if a == b then 1 else 0
  {
    hide BlockHelper;
    BlockHelperValue(s.(k := SetVal(s.k, b, Val(s.k, b) - 1)), oldState, b, a);
  }

  lemma WaitForIoValue(s: State, oldState: Cpu, i: int, a: int)
    requires Sound(s) && s.current.Some? && 0 <= i < DEVICECOUNT
    requires Val(s.k, SemAddr(s.k, i)) >= 1 ==> AccurateKids(s)
    ensures Val(WaitForIo(s, oldState, i).k, a) == Val(s.k, a) - (if a == s.k.semBase + 4 * i then 1 else 0)
      + if Val(s.k, SemAddr(s.k, i)) >= 1 then GivenBack(s, a) else 0
  {
    hide TerminateProcess, BlockHelper, Core, AccurateKids;
    var b := SemAddr(s.k, i);
    var v := Val(s.k, b) - 1;
    var t := s.(k := SetVal(s.k, b, v));
    if v >= 0 {
      DeviceTaken(s, t, b);
      TerminateValue(t, a);
      assert WaitingOn(t.k, a, Members(Doomed(t))) == WaitingOn(s.k, a, Members(Doomed(s)));
    } else {
      BlockHelperValue(t.(k := t.k.(softBlockCount := t.k.softBlockCount + 1)), oldState, b, a);
    }
  }

  lemma HandleValue(s: State, call: Call, oldState: Cpu, a: int)
    requires Sound(s) && s.current.Some? && CallOk(s.k, call) && (Kills(s, call) ==> AccurateKids(s))
    ensures Val(Handle(s, call, oldState).k, a) == Val(s.k, a) + Asked(s.k, call, a) + if Kills(s, call) then GivenBack(s, a) else 0
  {
    hide TerminateProcess, Passeren, WaitForIo, Core, AccurateKids, GivenBack;
    match call
    case Create(_) =>
    case V(_) =>
    case P(b) => PasserenValue(s, oldState, b, a);
    case GetTime =>
    case WaitClock => PasserenValue(s.(k := s.k.(softBlockCount := s.k.softBlockCount + 1)), oldState, Clock(s.k), a);
    case WaitIo(line, dev, termRead) => WaitForIoValue(s, oldState, IoIndex(line, dev, termRead), a);
    case _ => if Kills(s, call) { TerminateValue(s, a); }
  }

  /** Every event changes every semaphore's value by what the event says. */
  lemma StepValue(s: State, e: Event, a: int)
    requires Sound(s) && Enabled(s, e)
    ensures Val(Step(s, e).k, a) == Val(s.k, a) + Change(s, e, a)
  {
    hide Handle, Core, GivenBack;
    match e
    case Exec(call, oldState) => HandleValue(s, call, oldState, a);
    case Plt =>
    case Timer(oldState) => WakeClockShape(s);
    case Device(line, dev, reg, oldState) =>
      WakeDeviceShape(s, InterruptIndex(line, dev, reg), DeviceStatus(line, reg));
    case Tick(_) =>
    case Store(_, _) =>
  }

  // ---- whole runs ----

  ghost function Changes(s: State, run: seq<Event>, a: int): int
    requires Legal(s, run)
    decreases |run|
  {
    if run == [] then 0 else Change(s, run[0], a) + Changes(Step(s, run[0]), run[1..], a)
  }

  /** On every run every semaphore's value is what it was plus what was done to it. */
  lemma {:induction false} RunValue(s: State, run: seq<Event>, a: int)
    requires Sound(s) && Legal(s, run)
    ensures Val(After(s, run).k, a) == Val(s.k, a) + Changes(s, run, a)
    decreases |run|
  {
    if run != [] {
      StepValue(s, run[0], a);
      StepSound(s, run[0]);
      hide Step, Enabled, Sound, Change;
      RunValue(Step(s, run[0]), run[1..], a);
    }
  }
}
