/** Processor state areas as they lie in memory, and the register-by-register copy between
    two of them. */
module StateAreas {
  import opened NucleusState
  import opened Processor

  const STATEREGNUM: nat := 31
  const V0: nat := 1

  class StateArea {
    var asid: int
    var cause: int
    var status: int
    var pc: int
    const reg: array<int>

    constructor ()
      ensures reg.Length == STATEREGNUM && fresh(reg)
    {
      reg := new int[STATEREGNUM];
    }

    /** The processor state that the area holds. */
    ghost function Value(): (c: Cpu)
      reads this, reg
      requires reg.Length == STATEREGNUM
      ensures c.asid == asid && c.cause == cause && c.status == status && c.pc == pc
      ensures c.v0 == reg[1] && |c.reg| == 30 && c.reg[0] == reg[0] && forall i :: 2 <= i < 31 ==> c.reg[i - 1] == reg[i]
    {
      var r := reg[..];
      Cpu(asid, cause, status, pc, r[V0], r[..V0] + r[V0 + 1..])
    }
  }

  /** After the copy newState holds what oldState held; they may be one and the same area. */
  method CopyState(newState: StateArea, oldState: StateArea)
    requires newState.reg.Length == oldState.reg.Length == STATEREGNUM
    modifies newState, newState.reg
    ensures newState.Value() == old(oldState.Value())
    ensures newState.asid == old(oldState.asid) && newState.cause == old(oldState.cause)
    ensures newState.status == old(oldState.status) && newState.pc == old(oldState.pc)
    ensures newState.reg[..] == old(oldState.reg[..])
    ensures newState.reg != oldState.reg && newState != oldState ==> oldState.Value() == old(oldState.Value())
  {
    ghost var was := oldState.reg[..];
    newState.asid := oldState.asid;
    newState.cause := oldState.cause;
    newState.status := oldState.status;
    newState.pc := oldState.pc;
    var i := 0;
    while i < STATEREGNUM
      invariant 0 <= i <= STATEREGNUM
      invariant forall j :: 0 <= j < i ==> newState.reg[j] == was[j]
      invariant forall j :: i <= j < STATEREGNUM ==> oldState.reg[j] == was[j]
      invariant newState.reg != oldState.reg ==> oldState.reg[..] == was
      modifies newState.reg
    {
      newState.reg[i] := oldState.reg[i];
      i := i + 1;
    }
    assert newState.reg[..] == was;
  }
}
