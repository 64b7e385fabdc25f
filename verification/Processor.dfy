/** The processor as the nucleus sees it: states, and the NULL address. */
module Processor {
  const NULLADDR: int := 0xFFFF_FFFF
  const NUMEXCEPTIONTYPES: nat := 3

  /** A processor state area; v0 is register 1, reg the other thirty registers. */
  datatype Cpu = Cpu(asid: int, cause: int, status: int, pc: int, v0: int, reg: seq<int>)
}
