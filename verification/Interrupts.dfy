/** The two bit searches of interrupts.c: the highest-priority pending line in the cause
    register and the highest-priority pending device in a line's bit map. */
module Interrupts {

  const MASKCAUSEREG: bv32 := 0x0000FF00
  const LINE0: bv32 := 0x00000100
  const MASKDEVBITMAP: bv32 := 0x000000FF
  const DEVICE0: bv32 := 0x00000001
  const NUMLINES: nat := 8
  const NUMDEVICES: nat := 8

  /** first shifted left i times. */
  function Shifted(first: bv32, i: nat): bv32
  {
    if i == 0 then first else Shifted(first, i - 1) << 1
  }

  /** Bit number i of the field that starts at the bit first is set. */
  predicate Pending(reg: bv32, first: bv32, i: nat)
  {
    reg & Shifted(first, i) != 0
  }

  /** Bit number i is the lowest that is set of the field that starts at the bit first. */
  ghost predicate LowestPending(reg: bv32, first: bv32, i: nat)
  {
    Pending(reg, first, i) && forall j: nat :: j < i ==> !Pending(reg, first, j)
  }

  /** The eight bits of each field lie inside its mask. */
  lemma LineInside(i: nat)
    requires i < NUMLINES
    ensures Shifted(LINE0, i) & MASKCAUSEREG == Shifted(LINE0, i)
  {
    LineMask(i);
  }

  lemma LineMask(i: nat)
    requires i < NUMLINES
    ensures Shifted(LINE0, i) == [0x100, 0x200, 0x400, 0x800, 0x1000, 0x2000, 0x4000, 0x8000][i]
  {
    assert Shifted(LINE0, 0) == 0x100;
    assert Shifted(LINE0, 1) == 0x200;
    assert Shifted(LINE0, 2) == 0x400;
    assert Shifted(LINE0, 3) == 0x800;
    assert Shifted(LINE0, 4) == 0x1000;
    assert Shifted(LINE0, 5) == 0x2000;
    assert Shifted(LINE0, 6) == 0x4000;
    assert Shifted(LINE0, 7) == 0x8000;
  }

  lemma DeviceInside(i: nat)
    requires i < NUMDEVICES
    ensures Shifted(DEVICE0, i) & MASKDEVBITMAP == Shifted(DEVICE0, i)
  {
    DeviceMask(i);
  }

  lemma DeviceMask(i: nat)
    requires i < NUMDEVICES
    ensures Shifted(DEVICE0, i) == [0x1, 0x2, 0x4, 0x8, 0x10, 0x20, 0x40, 0x80][i]
  {
    assert Shifted(DEVICE0, 0) == 0x1;
    assert Shifted(DEVICE0, 1) == 0x2;
    assert Shifted(DEVICE0, 2) == 0x4;
    assert Shifted(DEVICE0, 3) == 0x8;
    assert Shifted(DEVICE0, 4) == 0x10;
    assert Shifted(DEVICE0, 5) == 0x20;
    assert Shifted(DEVICE0, 6) == 0x40;
    assert Shifted(DEVICE0, 7) == 0x80;
  }

  /** What each turn of the search does to its copy of the register, which is masked on
      every turn, and to the bit it looks at. */
  predicate Searching(reg: bv32, mask: bv32, first: bv32, i: nat, copy: bv32, bit: bv32)
  {
    (copy == reg || copy == reg & mask) && bit == Shifted(first, i)
  }

  lemma SearchTest(reg: bv32, mask: bv32, first: bv32, i: nat, copy: bv32, bit: bv32)
    requires Searching(reg, mask, first, i, copy, bit) && Shifted(first, i) & mask == Shifted(first, i)
    ensures (copy & mask) & bit != 0 <==> Pending(reg, first, i)
  {
    hide Shifted, Pending;
    SearchBit(reg, mask, copy, bit);
    PendingIs(reg, first, i, bit);
  }

  lemma PendingIs(reg: bv32, first: bv32, i: nat, bit: bv32)
    requires bit == Shifted(first, i)
    ensures Pending(reg, first, i) <==> reg & bit != 0
  {
    hide Shifted;
  }

  lemma SearchNext(reg: bv32, mask: bv32, first: bv32, i: nat, copy: bv32, bit: bv32)
    requires Searching(reg, mask, first, i, copy, bit)
    ensures Searching(reg, mask, first, i + 1, copy & mask, bit << 1)
  {
    hide Shifted;
    ShiftedNext(first, i);
    MaskTwice(reg, mask, copy);
  }

  lemma MaskTwice(reg: bv32, mask: bv32, copy: bv32)
    requires copy == reg || copy == reg & mask
    ensures copy & mask == reg & mask
  {
  }

  lemma ShiftedNext(first: bv32, i: nat)
    ensures Shifted(first, i + 1) == Shifted(first, i) << 1
  {
  }

  lemma SearchBit(reg: bv32, mask: bv32, copy: bv32, bit: bv32)
    requires copy == reg || copy == reg & mask
    requires bit & mask == bit
    ensures (copy & mask) & bit == reg & bit
  {
  }

  /** The lowest line with a pending interrupt. */
  method DetermineLine(causeReg: bv32) returns (lineNum: nat)
    requires exists i: nat :: i < NUMLINES && Pending(causeReg, LINE0, i)
    ensures lineNum < NUMLINES && LowestPending(causeReg, LINE0, lineNum)
  {
    hide Shifted, Pending, Searching;
    var i := 0;
    var lineOn := LINE0;
    var copy := causeReg;
    var foundLine := false;
    lineNum := 0;
    SearchStarts(causeReg, MASKCAUSEREG, LINE0);
    while i < NUMLINES && !foundLine
      invariant i <= NUMLINES && Searching(causeReg, MASKCAUSEREG, LINE0, i, copy, lineOn)
      invariant !foundLine ==> forall j: nat :: j < i ==> !Pending(causeReg, LINE0, j)
      invariant foundLine ==> lineNum < NUMLINES && LowestPending(causeReg, LINE0, lineNum)
    {
      LineInside(i);
      SearchTest(causeReg, MASKCAUSEREG, LINE0, i, copy, lineOn);
      SearchNext(causeReg, MASKCAUSEREG, LINE0, i, copy, lineOn);
      copy := copy & MASKCAUSEREG;
      var interruptOn := copy & lineOn;
      if interruptOn != 0 {
        foundLine := true;
        lineNum := i;
      }
      i := i + 1;
      lineOn := lineOn << 1;
    }
  }

  /** Line i is bit 8 + i of the cause register, device i bit i of the bit map. */
  lemma LineBit(reg: bv32, i: nat)
    requires i < 8
    ensures Pending(reg, LINE0, i) <==> reg & [0x100, 0x200, 0x400, 0x800, 0x1000, 0x2000, 0x4000, 0x8000][i] != 0
  {
    LineMask(i);
  }

  lemma DeviceBit(reg: bv32, i: nat)
    requires i < 8
    ensures Pending(reg, DEVICE0, i) <==> reg & [0x1, 0x2, 0x4, 0x8, 0x10, 0x20, 0x40, 0x80][i] != 0
  {
    DeviceMask(i);
  }

  lemma SearchStarts(reg: bv32, mask: bv32, first: bv32)
    ensures Searching(reg, mask, first, 0, reg, first)
  {
  }

  /** The lowest device with a pending interrupt. */
  method DetermineDevice(devBitMap: bv32) returns (devNum: nat)
    requires exists j: nat :: j < NUMDEVICES && Pending(devBitMap, DEVICE0, j)
    ensures devNum < NUMDEVICES && LowestPending(devBitMap, DEVICE0, devNum)
  {
    hide Shifted, Pending, Searching;
    var j := 0;
    var deviceOn := DEVICE0;
    var copy := devBitMap;
    var foundDevice := false;
    devNum := 0;
    SearchStarts(devBitMap, MASKDEVBITMAP, DEVICE0);
    while j < NUMDEVICES && !foundDevice
      invariant j <= NUMDEVICES && Searching(devBitMap, MASKDEVBITMAP, DEVICE0, j, copy, deviceOn)
      invariant !foundDevice ==> forall i: nat :: i < j ==> !Pending(devBitMap, DEVICE0, i)
      invariant foundDevice ==> devNum < NUMDEVICES && LowestPending(devBitMap, DEVICE0, devNum)
    {
      DeviceInside(j);
      SearchTest(devBitMap, MASKDEVBITMAP, DEVICE0, j, copy, deviceOn);
      SearchNext(devBitMap, MASKDEVBITMAP, DEVICE0, j, copy, deviceOn);
      copy := copy & MASKDEVBITMAP;
      var interruptOn := copy & deviceOn;
      if interruptOn != 0 {
        foundDevice := true;
        devNum := j;
      }
      j := j + 1;
      deviceOn := deviceOn << 1;
    }
  }
}
