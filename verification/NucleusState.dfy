/** The nucleus as one value: the process table field by field, the queues as sequences,
    the active semaphore list as a map, and one function for every way control enters the
    nucleus. A function's result is the state when LDST, WAIT, HALT or PANIC ends the step. */
module NucleusState {
  import opened Queues
  import opened Family
  import opened Processor

  const WORDLEN: int := 4
  const DEVICECOUNT: int := 48
  const ITSEMINDEX: int := 48
  const SEMCOUNT: int := 49
  const INITIALDEVLINENUM: int := 3
  const NUMDEVICESPERTYPE: int := 8
  const TERMINT: int := 7
  const READY: int := 1
  const SYS1FAIL: int := -1
  const SYS1SUCCESS: int := 0
  const TLBEXCEPTION: nat := 0
  const PROGRAMTRAPEXCEPTION: nat := 1
  const SYSCALLEXCEPTION: nat := 2

  /** The two state areas named by SYS5, as addresses. */
  datatype Vector = Vector(oldArea: int, newArea: int)

  const UNSET: seq<Vector> := [Vector(NULLADDR, NULLADDR), Vector(NULLADDR, NULLADDR), Vector(NULLADDR, NULLADDR)]

  const NEVERSET: seq<Vector> := [Vector(0, 0), Vector(0, 0), Vector(0, 0)]

  datatype Mode = Running | Waiting | Halted | Panicked

  /** The queues, semaphores and counters of the nucleus. clockKills, the number of clock
      waiters killed so far, is history the C code does not keep. */
  datatype Tables = Tables(
    maxProc: nat, semBase: int,
    free: seq<Pid>, ready: seq<Pid>, asl: map<int, seq<Pid>>, semAdd: seq<int>, sem: map<int, int>,
    processCount: int, softBlockCount: int, clockKills: nat)

  /** cpu is the last processor state loaded and now the time of day clock; dispatches, the
      number of turns given so far, is history. */
  datatype State = State(
    k: Tables, current: Option<Pid>, mode: Mode,
    family: Family, saved: seq<Cpu>, vectors: seq<seq<Vector>>,
    time: seq<int>, startTime: int, cpu: Cpu,
    now: int, dispatches: nat)

  // ---- semaphores ----

  function SemAddr(k: Tables, i: int): int { k.semBase + WORDLEN * i }

  function Clock(k: Tables): int { SemAddr(k, ITSEMINDEX) }

  /** The address comparison of HoneyIKilledTheKids: first to last device semaphore. */
  predicate IsDevice(k: Tables, a: int) { SemAddr(k, 0) <= a <= SemAddr(k, DEVICECOUNT - 1) }

  predicate IsNucleus(k: Tables, a: int) { IsDevice(k, a) || a == Clock(k) }

  /** A semaphore a process may name: outside the nucleus's array, below the end sentinel. */
  predicate IsUser(k: Tables, a: int)
  {
    0 <= a < NULLADDR && !(k.semBase <= a < SemAddr(k, SEMCOUNT))
  }

  function Val(k: Tables, a: int): int { if a in k.sem then k.sem[a] else 0 }

  function SetVal(k: Tables, a: int, v: int): Tables { k.(sem := k.sem[a := v]) }

  // ---- well-shaped states: table fields are as long as the table, pointers point into it ----

  ghost predicate InTable(k: Tables)
  {
    && |k.semAdd| == k.maxProc
    && (forall p :: p in k.free ==> p < k.maxProc)
    && (forall p :: p in k.ready ==> p < k.maxProc)
    && (forall a: int, p: Pid :: Waits(k.asl, a, p) ==> p < k.maxProc)
  }

  ghost predicate Shape(s: State)
  {
    && InTable(s.k)
    && |s.saved| == |s.vectors| == |s.time| == s.k.maxProc
    && Sized(s.family, s.k.maxProc)
    && (forall p: Pid :: p < s.k.maxProc ==> |s.vectors[p]| == NUMEXCEPTIONTYPES)
    && (s.current.Some? ==> s.current.value < s.k.maxProc)
  }

  ghost predicate HasCurrent(s: State) { Shape(s) && Ranked(s.family) && s.current.Some? }

  // ---- what the handlers do to the tables ----

  /** What killing p does to the tables; cur is currentProcess. */
  function KillOne(k: Tables, cur: Option<Pid>, p: Pid): Tables
    requires p < |k.semAdd|
  {
    var a := k.semAdd[p];
    var out :=
      if cur == Some(p) then k
      else if a == NULLADDR then k.(ready := Delete(k.ready, p))
      else
        var t := k.(asl := Unqueue(k.asl, a, p),
                    clockKills := if a == Clock(k) && Waits(k.asl, a, p) then k.clockKills + 1 else k.clockKills);
        if IsDevice(k, a) then t.(softBlockCount := k.softBlockCount - 1) else SetVal(t, a, Val(k, a) + 1);
    out.(processCount := k.processCount - 1, free := k.free + [p])
  }

  ghost function KillAll(k: Tables, cur: Option<Pid>, order: seq<Pid>): (r: Tables)
    requires forall p :: p in order ==> p < |k.semAdd|
    ensures r.semAdd == k.semAdd && r.maxProc == k.maxProc && r.semBase == k.semBase
    decreases |order|
  {
    if order == [] then k else
    var n := |order| - 1;
    assert forall p :: p in order[..n] ==> p in order;
    assert order[n] in order;
    KillOne(KillAll(k, cur, order[..n]), cur, order[n])
  }

  function Wake(k: Tables, a: int): Tables
  {
    if Waiters(k.asl, a) == [] then k else
    k.(asl := Dequeue(k.asl, a), ready := k.ready + [Waiters(k.asl, a)[0]])
  }

  /** insertBlocked: a new descriptor is needed when nobody waits on a, and maxProc exist. */
  function InsertBlocked(k: Tables, a: int, p: Pid): Tables
    requires p < |k.semAdd|
  {
    if a in k.asl || |k.asl| < k.maxProc
    then k.(asl := Enqueue(k.asl, a, p), semAdd := k.semAdd[p := a])
    else k
  }

  /** All clock waiters become ready in the order they waited. */
  function WakeClock(k: Tables): Tables
  {
    k.(ready := k.ready + Waiters(k.asl, Clock(k)), asl := k.asl - {Clock(k)},
       softBlockCount := k.softBlockCount - |Waiters(k.asl, Clock(k))|,
       sem := k.sem[Clock(k) := 0])
  }

  // ---- scheduler.c ----

  function Scheduler(s: State): State
    requires forall p :: p in s.k.ready ==> p < |s.saved|
  {
    if s.k.ready != [] then
      var p := s.k.ready[0];
      assert p in s.k.ready;
      s.(k := s.k.(ready := s.k.ready[1..]), current := Some(p), mode := Running,
         startTime := s.now, cpu := s.saved[p], dispatches := s.dispatches + 1)
    else
      s.(current := None,
         mode := if s.k.processCount == 0 then Halted else if s.k.softBlockCount == 0 then Panicked else Waiting)
  }

  // ---- exceptions.c ----

  function CreateProcess(s: State, oldState: Cpu, newState: Cpu): State
    requires HasCurrent(s)
  {
    if s.k.free == [] then s.(cpu := oldState.(v0 := SYS1FAIL)) else
    var p := s.k.free[0];
    assert p in s.k.free;
    s.(k := s.k.(free := s.k.free[1..], ready := s.k.ready + [p], processCount := s.k.processCount + 1,
                 semAdd := s.k.semAdd[p := NULLADDR]),
       family := AddChild(s.family, s.current, p),
       saved := s.saved[p := newState], vectors := s.vectors[p := UNSET],
       time := s.time[p := 0], cpu := oldState.(v0 := SYS1SUCCESS))
  }

  /** The running process and its progeny, in the order they are killed. */
  ghost function Doomed(s: State): seq<Pid>
    requires HasCurrent(s)
  {
    KillOrder(s.family, s.current.value)
  }

  ghost function KillFamily(s: State): State
    requires HasCurrent(s)
  {
    s.(k := KillAll(s.k, s.current, Doomed(s)),
       family := Prune(s.family, s.current.value, Members(Doomed(s))))
  }

  ghost function TerminateProcess(s: State): State
    requires HasCurrent(s)
  {
    KillReadyShrinks(s.k, s.current, Doomed(s));
    Scheduler(KillFamily(s))
  }

  lemma KillReadyShrinks(k: Tables, cur: Option<Pid>, order: seq<Pid>)
    requires forall p :: p in order ==> p < |k.semAdd|
    ensures forall q :: q in KillAll(k, cur, order).ready ==> q in k.ready
    decreases |order|
  {
    if order != [] {
      var n := |order| - 1;
      assert forall p :: p in order[..n] ==> p in order;
      KillReadyShrinks(k, cur, order[..n]);
    }
  }

  function Verhogen(s: State, oldState: Cpu, a: int): State
  {
    var v := Val(s.k, a) + 1;
    var t := SetVal(s.k, a, v);
    s.(k := if v <= 0 then Wake(t, a) else t, cpu := oldState)
  }

  function IncrementProcessTime(s: State, p: Pid): State
    requires p < |s.time|
  {
    s.(time := s.time[p := s.time[p] + (s.now - s.startTime)])
  }

  function BlockHelper(s: State, oldState: Cpu, a: int): State
    requires HasCurrent(s)
  {
    var p := s.current.value;
    Scheduler(IncrementProcessTime(s, p).(
      saved := s.saved[p := oldState], k := InsertBlocked(s.k, a, p), current := None))
  }

  function Passeren(s: State, oldState: Cpu, a: int): State
    requires HasCurrent(s)
  {
    var v := Val(s.k, a) - 1;
    var t := s.(k := SetVal(s.k, a, v));
    if v < 0 then BlockHelper(t, oldState, a) else t.(cpu := oldState)
  }

  ghost function ExceptionStateVec(s: State, oldState: Cpu, kind: nat, v: Vector): State
    requires HasCurrent(s) && kind < NUMEXCEPTIONTYPES
  {
    var p := s.current.value;
    if s.vectors[p][kind] == UNSET[kind]
    then s.(vectors := s.vectors[p := s.vectors[p][kind := v]], cpu := oldState)
    else TerminateProcess(s)
  }

  function GetCpuTime(s: State, oldState: Cpu): State
    requires HasCurrent(s)
  {
    s.(cpu := oldState.(v0 := s.time[s.current.value] + (s.now - s.startTime)))
  }

  function WaitForClock(s: State, oldState: Cpu): State
    requires HasCurrent(s)
  {
    Passeren(s.(k := s.k.(softBlockCount := s.k.softBlockCount + 1)), oldState, Clock(s.k))
  }

  function IoIndex(line: int, dev: int, termRead: bool): int
  {
    (line - INITIALDEVLINENUM) * NUMDEVICESPERTYPE + dev + if termRead then NUMDEVICESPERTYPE else 0
  }

  ghost function WaitForIo(s: State, oldState: Cpu, i: int): State
    requires HasCurrent(s)
  {
    var a := SemAddr(s.k, i);
    var v := Val(s.k, a) - 1;
    var t := SetVal(s.k, a, v);
    if v < 0
    then BlockHelper(s.(k := t.(softBlockCount := t.softBlockCount + 1)), oldState, a)
    else TerminateProcess(s.(k := t))
  }

  predicate HasVector(s: State, kind: nat)
    requires s.current.Some? && s.current.value < |s.vectors| && kind < |s.vectors[s.current.value]|
  {
    var v := s.vectors[s.current.value][kind];
    v.oldArea != NULLADDR && v.newArea != NULLADDR
  }

  /** handler is the processor state stored in the new area the process named. */
  ghost function PassUpOrDie(s: State, kind: nat, handler: Cpu): State
    requires HasCurrent(s) && kind < NUMEXCEPTIONTYPES
  {
    if HasVector(s, kind)
    then s.(saved := s.saved[s.current.value := handler], cpu := handler)
    else TerminateProcess(s)
  }

  // ---- interrupts.c ----

  function PLTInterruptHandler(s: State): State
    requires HasCurrent(s)
  {
    var p := s.current.value;
    Scheduler(IncrementProcessTime(s, p).(k := s.k.(ready := s.k.ready + [p])))
  }

  function ExitInterruptHandler(s: State, oldState: Cpu): State
    requires Shape(s)
  {
    if s.current.None? then Scheduler(s) else s.(cpu := oldState)
  }

  /** The registers of an interrupting device: status (also a terminal's receive status)
      and data0 (also a terminal's transmit status). */
  datatype DeviceReg = DeviceReg(status: int, data0: int)

  predicate IsReceive(line: int, reg: DeviceReg)
  {
    line == TERMINT && reg.data0 % 16 == READY
  }

  function InterruptIndex(line: int, dev: int, reg: DeviceReg): int
  {
    (line - INITIALDEVLINENUM) * NUMDEVICESPERTYPE + dev + if IsReceive(line, reg) then NUMDEVICESPERTYPE else 0
  }

  function DeviceStatus(line: int, reg: DeviceReg): int
  {
    if line == TERMINT && !IsReceive(line, reg) then reg.data0 else reg.status
  }

  function WakeDevice(s: State, i: int, status: int): State
    requires Shape(s)
  {
    var a := SemAddr(s.k, i);
    var v := Val(s.k, a) + 1;
    var t := SetVal(s.k, a, v);
    if v <= 0 && Waiters(s.k.asl, a) != [] then
      var p := Waiters(s.k.asl, a)[0];
      assert Waits(s.k.asl, a, p);
      s.(saved := s.saved[p := s.saved[p].(v0 := status)],
         k := Wake(t, a).(softBlockCount := t.softBlockCount - 1))
    else s.(k := t)
  }

  // ---- initial.c ----

  /** The first n semaphores of the array at base, all 0. */
  function ZeroSems(base: int, n: nat): (r: map<int, int>)
    ensures forall a :: a in r ==> r[a] == 0
  {
    if n == 0 then map[] else ZeroSems(base, n - 1)[base + WORDLEN * (n - 1) := 0]
  }

  /** The state main hands to the scheduler: one process, the initial one, is ready. The
      fields of entries that were never allocated are static memory's zeros. */
  function Booted(maxProc: nat, semBase: int, init: Cpu, zero: Cpu): State
    requires maxProc > 0
  {
    State(
      Tables(maxProc, semBase, seq(maxProc - 1, i => i + 1), [0], map[], seq(maxProc, _ => 0)[0 := NULLADDR],
             ZeroSems(semBase, SEMCOUNT), 1, 0, 0),
      None, Running,
      Family(seq(maxProc, _ => []), seq(maxProc, _ => None), seq(maxProc, _ => 0), 1),
      seq(maxProc, _ => zero)[0 := init], seq(maxProc, _ => NEVERSET)[0 := UNSET],
      seq(maxProc, _ => 0), 0, zero, 0, 0)
  }
}
