/** The words of the MMU that test writes and UserTLBHandler takes apart: entryHi, which holds
    segment, page and ASID, and the cause register. */
module PagerWords {
  import Words

  const EXCCODEMASK: nat := 0x7C
  const EXCCODESHIFT: nat := 2
  const SEGMASK: nat := 0xC0000000
  const SEGSHIFT: nat := 30
  const PAGEMASK: nat := 0x3FFFF000
  const PAGESHIFT: nat := 12
  const ASIDMASK: nat := 0xFC0
  const ASIDSHIFT: nat := 6
  const KUSEG2START: nat := 0x80000
  const KUSEG2LAST: nat := 0xBFFFF
  const MAXKUSEG: nat := 32

  function AsidOf(entryHi: nat): nat { Words.Shr(Words.And(entryHi, ASIDMASK), ASIDSHIFT) }

  function ExcCodeOf(cause: nat): nat { Words.Shr(Words.And(cause, EXCCODEMASK), EXCCODESHIFT) }

  function SegmentOf(entryHi: nat): nat { Words.Shr(Words.And(entryHi, SEGMASK), SEGSHIFT) }

  function PageOf(entryHi: nat): nat { Words.Shr(Words.And(entryHi, PAGEMASK), PAGESHIFT) }

  /** (vpn << PAGESHIFT) | (n << ASIDSHIFT) */
  function EntryHi(vpn: nat, n: nat): nat
  {
    Words.Or(Words.Shl(vpn, PAGESHIFT), Words.Shl(n, ASIDSHIFT))
  }

  /** What test writes to entry i of process n's kuseg2 table; the last one is the stack page. */
  function Kuseg2EntryHi(n: nat, i: nat): nat
  {
    EntryHi(if i == MAXKUSEG - 1 then KUSEG2LAST else KUSEG2START + i, n)
  }

  lemma Masks()
    ensures ASIDMASK == Words.Shl(63, 6) && EXCCODEMASK == Words.Shl(31, 2)
    ensures PAGEMASK == Words.Shl(0x3FFFF, 12) && SEGMASK == Words.Shl(3, 30)
  {
    hide Words.Shl, Words.Pow2;
    Words.Powers();
    Words.HighPowers();
    Words.ShlIs(63, 6);
    Words.ShlIs(31, 2);
    Words.ShlIs(0x3FFFF, 12);
    Words.ShlIs(3, 30);
  }

  /** The masks and shifts are fields of the word. */
  lemma Fields(w: nat)
    ensures AsidOf(w) == w / 64 % 64
    ensures ExcCodeOf(w) == w / 4 % 32
    ensures PageOf(w) == w / 4096 % 0x40000
    ensures SegmentOf(w) == w / 0x40000000 % 4
  {
    hide Words.And, Words.Pow2, Words.Shr, Words.Shl;
    Masks();
    Words.Powers();
    Words.HighPowers();
    Words.Field(w, 6, 6);
    Words.Field(w, 5, 2);
    Words.Field(w, 18, 12);
    Words.Field(w, 2, 30);
  }

  lemma EntryHiIs(vpn: nat, n: nat)
    requires n < 64
    ensures EntryHi(vpn, n) == vpn * 4096 + n * 64
  {
    hide Words.Or, Words.Pow2, Words.Shl;
    Words.Powers();
    Words.ShlIs(n, 6);
    Words.ShlIs(vpn, 12);
    Words.OrApart(vpn, n * 64, 12);
  }

  /** From the word that test wrote for entry i the handler reads back its process and kuseg2,
      and the index of the entry for every page but the last, the stack's. */
  lemma HandlerReadsEntryHi(n: nat, i: nat)
    requires n < 64 && i < MAXKUSEG
    ensures var w := Kuseg2EntryHi(n, i);
      AsidOf(w) == n && SegmentOf(w) == 2 && (PageOf(w) == i <==> i != MAXKUSEG - 1)
  {
    hide AsidOf, SegmentOf, PageOf, EntryHi;
    var vpn := if i == MAXKUSEG - 1 then KUSEG2LAST else KUSEG2START + i;
    EntryHiIs(vpn, n);
    Fields(EntryHi(vpn, n));
    Parts(vpn, n);
  }

  lemma Parts(vpn: nat, n: nat)
    requires n < 64
    ensures var w := vpn * 4096 + n * 64; w / 64 == vpn * 64 + n && w / 4096 == vpn && w / 0x40000000 == vpn / 0x40000
  {}
}
