/** Bitwise operations on non-negative machine words, bit by bit, and what they do to a word
    arithmetically. */
module Words {
  function Xor(a: nat, b: nat): nat
  {
    if a == 0 && b == 0 then 0 else (a % 2 + b % 2) % 2 + 2 * Xor(a / 2, b / 2)
  }

  function Or(a: nat, b: nat): nat
  {
    if a == 0 && b == 0 then 0 else (if a % 2 + b % 2 > 0 then 1 else 0) + 2 * Or(a / 2, b / 2)
  }

  function And(a: nat, b: nat): nat
  {
    if a == 0 || b == 0 then 0 else (if a % 2 + b % 2 == 2 then 1 else 0) + 2 * And(a / 2, b / 2)
  }

  function Pow2(k: nat): (p: nat)
    ensures p > 0
  {
    if k == 0 then 1 else 2 * Pow2(k - 1)
  }

  /** Bit k of a. */
  predicate Bit(a: nat, k: nat)
  {
    if k == 0 then a % 2 == 1 else Bit(a / 2, k - 1)
  }

  /** Bit k is the parity of the word shifted right k times. */
  lemma {:induction false} BitIs(a: nat, k: nat)
    ensures Bit(a, k) <==> a / Pow2(k) % 2 == 1
  {
    if k > 0 {
      BitIs(a / 2, k - 1);
      DivTwice(a, Pow2(k - 1));
    }
  }

  lemma DivTwice(a: nat, p: nat)
    requires p > 0
    ensures a / 2 / p == a / (2 * p)
  {
    var q, r := a / (2 * p), a % (2 * p);
    assert a == 2 * (p * q) + r;
    assert a / 2 == p * q + r / 2 && r / 2 < p;
    DivUnique(a / 2, p, q, r / 2);
  }

  lemma MulMonotone(p: nat, q: nat, q': nat)
    requires q < q'
    ensures p * q + p <= p * q'
  {
    assert p * q' == p * q + p * (q' - q);
    assert p * (q' - q) == p + p * (q' - q - 1);
  }

  lemma SplitUnique(p: nat, q: nat, r: nat, q': nat, r': nat)
    requires p * q + r == p * q' + r' && r < p && r' < p
    ensures q == q' && r == r'
  {
    if q < q' { MulMonotone(p, q, q'); }
    if q' < q { MulMonotone(p, q', q); }
  }

  lemma DivUnique(a: nat, p: nat, q: nat, r: nat)
    requires a == p * q + r && r < p
    ensures a / p == q && a % p == r
  {
    SplitUnique(p, q, r, a / p, a % p);
  }

  lemma ModTwice(a: nat, p: nat)
    requires p > 0
    ensures a % (2 * p) == a % 2 + 2 * (a / 2 % p)
  {
    var q, r := a / 2 / p, a / 2 % p;
    assert a / 2 == p * q + r;
    assert 2 * (p * q) == (2 * p) * q;
    DivUnique(a, 2 * p, q, 2 * r + a % 2);
  }

  lemma {:induction false} XorZero(a: nat)
    ensures Xor(a, 0) == a && Or(a, 0) == a
  {
    if a > 0 { XorZero(a / 2); }
  }

  lemma LowestBit(a: nat)
    ensures Xor(a, 1) == (if a % 2 == 1 then a - 1 else a + 1) && Or(a, 1) == if a % 2 == 1 then a else a + 1
  {
    XorZero(a / 2);
  }

  lemma XorHigher(a: nat, m: nat)
    requires m > 0
    ensures Xor(a, 2 * m) == a % 2 + 2 * Xor(a / 2, m)
  {
    hide Xor;
    XorUnfold(a, 2 * m);
    Halves(m);
  }

  lemma Halves(m: nat)
    ensures 2 * m % 2 == 0 && 2 * m / 2 == m
  {}

  lemma XorUnfold(a: nat, b: nat)
    requires b > 0
    ensures Xor(a, b) == (a % 2 + b % 2) % 2 + 2 * Xor(a / 2, b / 2)
  {}

  lemma OrHigher(a: nat, m: nat)
    requires m > 0
    ensures Or(a, 2 * m) == a % 2 + 2 * Or(a / 2, m)
  {
    hide Or;
    OrUnfold(a, 2 * m);
    Halves(m);
  }

  lemma OrUnfold(a: nat, b: nat)
    requires b > 0
    ensures Or(a, b) == (if a % 2 + b % 2 > 0 then 1 else 0) + 2 * Or(a / 2, b / 2)
  {}

  /** XOR with one bit takes the bit away if it was set and adds it if not. */
  lemma {:induction false} XorBit(a: nat, k: nat)
    ensures Bit(a, k) ==> a >= Pow2(k)
    ensures Xor(a, Pow2(k)) == if Bit(a, k) then a - Pow2(k) else a + Pow2(k)
  {
    hide Xor;
    if k == 0 {
      LowestBit(a);
    } else {
      XorBit(a / 2, k - 1);
      XorHigher(a, Pow2(k - 1));
    }
  }

  lemma {:induction false} OrBit(a: nat, k: nat)
    ensures Or(a, Pow2(k)) == if Bit(a, k) then a else a + Pow2(k)
  {
    hide Or;
    if k == 0 {
      LowestBit(a);
    } else {
      OrBit(a / 2, k - 1);
      OrHigher(a, Pow2(k - 1));
    }
  }

  lemma AndOnes(a: nat, m: nat)
    ensures And(a, 2 * m + 1) == a % 2 + 2 * And(a / 2, m)
  {
    if m == 0 { assert And(a / 2, 0) == 0; }
  }

  function Rem(a: nat, p: nat): nat
    requires p > 0
  {
    a % p
  }

  lemma RemTwice(a: nat, p: nat)
    requires p > 0
    ensures Rem(a, 2 * p) == a % 2 + 2 * Rem(a / 2, p)
  {
    ModTwice(a, p);
  }

  lemma {:induction false} AndRem(a: nat, k: nat)
    ensures And(a, Pow2(k) - 1) == Rem(a, Pow2(k))
  {
    hide And, Rem;
    if k == 0 {
      AndRemNone(a);
    } else {
      AndRem(a / 2, k - 1);
      AndRemNext(a, Pow2(k - 1));
    }
  }

  lemma AndRemNone(a: nat)
    ensures And(a, 0) == Rem(a, 1) == 0
  {}

  lemma AndRemNext(a: nat, p: nat)
    requires p > 0 && And(a / 2, p - 1) == Rem(a / 2, p)
    ensures And(a, 2 * p - 1) == Rem(a, 2 * p)
  {
    hide And, Rem;
    RemTwice(a, p);
    AndOnes(a, p - 1);
    assert 2 * p - 1 == 2 * (p - 1) + 1;
  }

  /** AND with a mask of k ones is the remainder. */
  lemma AndMask(a: nat, k: nat)
    ensures And(a, Pow2(k) - 1) == a % Pow2(k)
  {
    hide And, Pow2;
    AndRem(a, k);
  }

  /** a << k */
  function Shl(a: nat, k: nat): nat { if k == 0 then a else 2 * Shl(a, k - 1) }

  /** a >> k */
  function Shr(a: nat, k: nat): nat { if k == 0 then a else Shr(a / 2, k - 1) }

  lemma {:induction false} ShrIs(a: nat, k: nat)
    ensures Shr(a, k) == a / Pow2(k)
  {
    if k > 0 {
      ShrIs(a / 2, k - 1);
      DivTwice(a, Pow2(k - 1));
    }
  }

  lemma {:induction false} ShlIs(a: nat, k: nat)
    ensures Shl(a, k) == a * Pow2(k)
  {
    if k > 0 {
      ShlIs(a, k - 1);
      var p := Pow2(k - 1);
      assert a * (2 * p) == 2 * (a * p);
    }
  }

  lemma AndEven(a: nat, m: nat)
    ensures And(a, 2 * m) == 2 * And(a / 2, m)
  {}

  /** Masking and then shifting right is shifting right and then masking. */
  lemma {:induction false} ShrMasked(a: nat, m: nat, k: nat)
    ensures Shr(And(a, Shl(m, k)), k) == And(Shr(a, k), m)
  {
    if k > 0 {
      hide And;
      AndEven(a, Shl(m, k - 1));
      ShrMasked(a / 2, m, k - 1);
    }
  }

  /** Masking and shifting takes a field of w bits out of a word. */
  lemma Field(a: nat, w: nat, k: nat)
    ensures Shr(And(a, Shl(Pow2(w) - 1, k)), k) == a / Pow2(k) % Pow2(w)
  {
    hide And, Pow2, Shr, Shl;
    ShrMasked(a, Pow2(w) - 1, k);
    AndMask(Shr(a, k), w);
    ShrIs(a, k);
  }

  lemma OrEven(a: nat, b: nat)
    ensures Or(2 * a, b) == b % 2 + 2 * Or(a, b / 2)
  {}

  /** OR of two words that share no bit is their sum. */
  lemma {:induction false} OrApart(a: nat, b: nat, k: nat)
    requires b < Pow2(k)
    ensures Or(Shl(a, k), b) == Shl(a, k) + b
  {
    if k == 0 {
      XorZero(a);
    } else {
      hide Or;
      OrApart(a, b / 2, k - 1);
      OrEven(Shl(a, k - 1), b);
    }
  }

  lemma Powers()
    ensures Pow2(2) == 4 && Pow2(5) == 32 && Pow2(6) == 64 && Pow2(9) == 0x200 && Pow2(12) == 0x1000
  {
    assert Pow2(6) == 0x40;
    assert Pow2(9) == 0x200;
  }

  lemma HighPowers()
    ensures Pow2(18) == 0x40000 && Pow2(30) == 0x40000000
  {
    Powers();
    assert Pow2(15) == 0x8000;
    assert Pow2(18) == 0x40000;
    assert Pow2(21) == 0x200000;
    assert Pow2(24) == 0x1000000;
    assert Pow2(27) == 0x8000000;
  }
}
