/** 64-bit words: shifting, setting and testing single bits. */
module Bits {
  // The word operations have names so that a proof about bit positions need not
  // look inside them.

  function And(x: bv64, y: bv64): bv64 { x & y }

  function Or(x: bv64, y: bv64): bv64 { x | y }

  function Double(x: bv64): bv64 { x << 1 }

  function Shl(b: bv64, n: nat): bv64
    requires n < 64
  {
    b << n
  }

  /** Bit d alone. */
  function Mask(d: nat): bv64
    requires d < 64
  {
    Shl(1, d)
  }

  predicate Test(b: bv64, d: nat)
    requires d < 64
  {
    And(b, Mask(d)) != 0
  }

  // Facts about words alone.

  lemma DoubleOneHot(m: bv64)
    requires m & (m - 1) == 0
    ensures Double(m) & (Double(m) - 1) == 0
  {
  }

  lemma TopBitAlone(m: bv64)
    requires m & (m - 1) == 0
    requires Double(m) != 0
    ensures m < 0x8000_0000_0000_0000
  {
  }

  lemma AndOfDoubles(x: bv64, m: bv64)
    requires m < 0x8000_0000_0000_0000
    ensures And(Double(x), Double(m)) != 0 <==> And(x, m) != 0
  {
  }

  lemma LowBitOfDouble(x: bv64)
    ensures And(Double(x), 1) == 0
    ensures And(1, Double(x)) == 0
  {
  }

  lemma AndOfOr(b: bv64, m: bv64, n: bv64)
    ensures And(m, n) == 0 ==> And(Or(b, m), n) == And(b, n)
    ensures And(Or(b, m), m) == m
  {
  }

  lemma AndFacts(x: bv64, y: bv64)
    ensures And(x, y) == And(y, x)
    ensures And(x, x) == x
    ensures And(0, x) == 0
  {
  }

  lemma DoubleZero()
    ensures Double(0) == 0
  {
  }

  // The machine shift is repeated doubling. The solver sees that only for literal amounts,
  // so every amount has its turn.

  predicate Doubles(b: bv64, n: nat) { n < 63 && Shl(b, n + 1) == Double(Shl(b, n)) }

  lemma Doubles0(b: bv64)
    ensures Doubles(b, 0) && Doubles(b, 1) && Doubles(b, 2) && Doubles(b, 3)
    ensures Doubles(b, 4) && Doubles(b, 5) && Doubles(b, 6) && Doubles(b, 7)
    ensures Doubles(b, 8) && Doubles(b, 9) && Doubles(b, 10) && Doubles(b, 11)
    ensures Doubles(b, 12) && Doubles(b, 13) && Doubles(b, 14) && Doubles(b, 15)
  {
    assert Shl(b, 0) == b << 0 && Shl(b, 1) == b << 1 && Shl(b, 2) == b << 2 && Shl(b, 3) == b << 3
      && Shl(b, 4) == b << 4 && Shl(b, 5) == b << 5 && Shl(b, 6) == b << 6 && Shl(b, 7) == b << 7
      && Shl(b, 8) == b << 8 && Shl(b, 9) == b << 9 && Shl(b, 10) == b << 10 && Shl(b, 11) == b << 11
      && Shl(b, 12) == b << 12 && Shl(b, 13) == b << 13 && Shl(b, 14) == b << 14 && Shl(b, 15) == b << 15
      && Shl(b, 16) == b << 16;
    hide Shl;
    assert Shl(b, 1) == Double(Shl(b, 0)) && Shl(b, 2) == Double(Shl(b, 1)) && Shl(b, 3) == Double(Shl(b, 2))
      && Shl(b, 4) == Double(Shl(b, 3)) && Shl(b, 5) == Double(Shl(b, 4)) && Shl(b, 6) == Double(Shl(b, 5))
      && Shl(b, 7) == Double(Shl(b, 6)) && Shl(b, 8) == Double(Shl(b, 7)) && Shl(b, 9) == Double(Shl(b, 8))
      && Shl(b, 10) == Double(Shl(b, 9)) && Shl(b, 11) == Double(Shl(b, 10)) && Shl(b, 12) == Double(Shl(b, 11))
      && Shl(b, 13) == Double(Shl(b, 12)) && Shl(b, 14) == Double(Shl(b, 13)) && Shl(b, 15) == Double(Shl(b, 14))
      && Shl(b, 16) == Double(Shl(b, 15));
    hide Double;
  }

  lemma Doubles16(b: bv64)
    ensures Doubles(b, 16) && Doubles(b, 17) && Doubles(b, 18) && Doubles(b, 19)
    ensures Doubles(b, 20) && Doubles(b, 21) && Doubles(b, 22) && Doubles(b, 23)
    ensures Doubles(b, 24) && Doubles(b, 25) && Doubles(b, 26) && Doubles(b, 27)
    ensures Doubles(b, 28) && Doubles(b, 29) && Doubles(b, 30) && Doubles(b, 31)
  {
    assert Shl(b, 16) == b << 16 && Shl(b, 17) == b << 17 && Shl(b, 18) == b << 18 && Shl(b, 19) == b << 19
      && Shl(b, 20) == b << 20 && Shl(b, 21) == b << 21 && Shl(b, 22) == b << 22 && Shl(b, 23) == b << 23
      && Shl(b, 24) == b << 24 && Shl(b, 25) == b << 25 && Shl(b, 26) == b << 26 && Shl(b, 27) == b << 27
      && Shl(b, 28) == b << 28 && Shl(b, 29) == b << 29 && Shl(b, 30) == b << 30 && Shl(b, 31) == b << 31
      && Shl(b, 32) == b << 32;
    hide Shl;
    assert Shl(b, 17) == Double(Shl(b, 16)) && Shl(b, 18) == Double(Shl(b, 17)) && Shl(b, 19) == Double(Shl(b, 18))
      && Shl(b, 20) == Double(Shl(b, 19)) && Shl(b, 21) == Double(Shl(b, 20)) && Shl(b, 22) == Double(Shl(b, 21))
      && Shl(b, 23) == Double(Shl(b, 22)) && Shl(b, 24) == Double(Shl(b, 23)) && Shl(b, 25) == Double(Shl(b, 24))
      && Shl(b, 26) == Double(Shl(b, 25)) && Shl(b, 27) == Double(Shl(b, 26)) && Shl(b, 28) == Double(Shl(b, 27))
      && Shl(b, 29) == Double(Shl(b, 28)) && Shl(b, 30) == Double(Shl(b, 29)) && Shl(b, 31) == Double(Shl(b, 30))
      && Shl(b, 32) == Double(Shl(b, 31));
    hide Double;
  }

  lemma Doubles32(b: bv64)
    ensures Doubles(b, 32) && Doubles(b, 33) && Doubles(b, 34) && Doubles(b, 35)
    ensures Doubles(b, 36) && Doubles(b, 37) && Doubles(b, 38) && Doubles(b, 39)
    ensures Doubles(b, 40) && Doubles(b, 41) && Doubles(b, 42) && Doubles(b, 43)
    ensures Doubles(b, 44) && Doubles(b, 45) && Doubles(b, 46) && Doubles(b, 47)
  {
    assert Shl(b, 32) == b << 32 && Shl(b, 33) == b << 33 && Shl(b, 34) == b << 34 && Shl(b, 35) == b << 35
      && Shl(b, 36) == b << 36 && Shl(b, 37) == b << 37 && Shl(b, 38) == b << 38 && Shl(b, 39) == b << 39
      && Shl(b, 40) == b << 40 && Shl(b, 41) == b << 41 && Shl(b, 42) == b << 42 && Shl(b, 43) == b << 43
      && Shl(b, 44) == b << 44 && Shl(b, 45) == b << 45 && Shl(b, 46) == b << 46 && Shl(b, 47) == b << 47
      && Shl(b, 48) == b << 48;
    hide Shl;
    assert Shl(b, 33) == Double(Shl(b, 32)) && Shl(b, 34) == Double(Shl(b, 33)) && Shl(b, 35) == Double(Shl(b, 34))
      && Shl(b, 36) == Double(Shl(b, 35)) && Shl(b, 37) == Double(Shl(b, 36)) && Shl(b, 38) == Double(Shl(b, 37))
      && Shl(b, 39) == Double(Shl(b, 38)) && Shl(b, 40) == Double(Shl(b, 39)) && Shl(b, 41) == Double(Shl(b, 40))
      && Shl(b, 42) == Double(Shl(b, 41)) && Shl(b, 43) == Double(Shl(b, 42)) && Shl(b, 44) == Double(Shl(b, 43))
      && Shl(b, 45) == Double(Shl(b, 44)) && Shl(b, 46) == Double(Shl(b, 45)) && Shl(b, 47) == Double(Shl(b, 46))
      && Shl(b, 48) == Double(Shl(b, 47));
    hide Double;
  }

  lemma Doubles48(b: bv64)
    ensures Doubles(b, 48) && Doubles(b, 49) && Doubles(b, 50) && Doubles(b, 51)
    ensures Doubles(b, 52) && Doubles(b, 53) && Doubles(b, 54) && Doubles(b, 55)
    ensures Doubles(b, 56) && Doubles(b, 57) && Doubles(b, 58) && Doubles(b, 59)
    ensures Doubles(b, 60) && Doubles(b, 61) && Doubles(b, 62)
  {
    assert Shl(b, 48) == b << 48 && Shl(b, 49) == b << 49 && Shl(b, 50) == b << 50 && Shl(b, 51) == b << 51
      && Shl(b, 52) == b << 52 && Shl(b, 53) == b << 53 && Shl(b, 54) == b << 54 && Shl(b, 55) == b << 55
      && Shl(b, 56) == b << 56 && Shl(b, 57) == b << 57 && Shl(b, 58) == b << 58 && Shl(b, 59) == b << 59
      && Shl(b, 60) == b << 60 && Shl(b, 61) == b << 61 && Shl(b, 62) == b << 62 && Shl(b, 63) == b << 63;
    hide Shl;
    assert Shl(b, 49) == Double(Shl(b, 48)) && Shl(b, 50) == Double(Shl(b, 49)) && Shl(b, 51) == Double(Shl(b, 50))
      && Shl(b, 52) == Double(Shl(b, 51)) && Shl(b, 53) == Double(Shl(b, 52)) && Shl(b, 54) == Double(Shl(b, 53))
      && Shl(b, 55) == Double(Shl(b, 54)) && Shl(b, 56) == Double(Shl(b, 55)) && Shl(b, 57) == Double(Shl(b, 56))
      && Shl(b, 58) == Double(Shl(b, 57)) && Shl(b, 59) == Double(Shl(b, 58)) && Shl(b, 60) == Double(Shl(b, 59))
      && Shl(b, 61) == Double(Shl(b, 60)) && Shl(b, 62) == Double(Shl(b, 61)) && Shl(b, 63) == Double(Shl(b, 62));
    hide Double;
  }

  lemma DoublesDef(b: bv64, n: nat)
    requires Doubles(b, n)
    ensures n < 63 && Shl(b, n + 1) == Double(Shl(b, n))
  {
    hide Shl, Double;
  }

  /** Shifting by one more place doubles. */
  lemma ShlStep(b: bv64, n: nat)
    requires n < 63
    ensures Doubles(b, n)
  {
    hide *;
    if n < 16 {
      Doubles0(b);
    } else if n < 32 {
      Doubles16(b);
    } else if n < 48 {
      Doubles32(b);
    } else {
      Doubles48(b);
    }
  }

  // Masks are non-zero, one-hot and disjoint.

  lemma MaskStep(d: nat)
    requires d < 63
    ensures Mask(0) == 1
    ensures Mask(d + 1) == Double(Mask(d))
  {
    ShlStep(1, d);
    ShlZero(1);
    hide Shl, Double;
  }

  lemma ShlZero(b: bv64)
    ensures Shl(b, 0) == b
  {
  }

  lemma TopMask()
    ensures Mask(63) == 0x8000000000000000
  {
  }

  /** A mask that has not run off the word had not before. */
  lemma {:induction false} MaskBelow(i: nat, j: nat)
    requires i <= j < 64 && Mask(j) != 0
    ensures Mask(i) != 0
  {
    hide *;
    if i < j {
      MaskStep(j - 1);
      DoubleZero();
      MaskBelow(i, j - 1);
    }
  }

  lemma {:induction false} MaskOneHot(d: nat)
    requires d < 64
    ensures Mask(d) & (Mask(d) - 1) == 0
  {
    hide *;
    if d == 0 {
      MaskStep(0);
    } else {
      MaskOneHot(d - 1);
      DoubleOneHot(Mask(d - 1));
      MaskStep(d - 1);
    }
  }

  lemma MaskNonZero(d: nat)
    requires d < 64
    ensures Mask(d) != 0
  {
    hide *;
    TopMask();
    MaskBelow(d, 63);
  }

  lemma MaskFits(d: nat)
    requires d < 63
    ensures Mask(d) < 0x8000_0000_0000_0000
  {
    hide *;
    MaskNonZero(d + 1);
    MaskStep(d);
    MaskOneHot(d);
    TopBitAlone(Mask(d));
  }

  lemma {:induction false} MasksDisjoint(i: nat, j: nat)
    requires i < j < 64
    ensures And(Mask(i), Mask(j)) == 0
  {
    hide *;
    MaskStep(j - 1);
    if i == 0 {
      LowBitOfDouble(Mask(j - 1));
    } else {
      MasksDisjoint(i - 1, j - 1);
      MaskFits(j - 1);
      MaskStep(i - 1);
      AndOfDoubles(Mask(i - 1), Mask(j - 1));
    }
  }

  // What shifting and setting do to each bit.

  lemma TestDef(b: bv64, d: nat)
    requires d < 64
    ensures Test(b, d) <==> And(b, Mask(d)) != 0
  {
  }

  lemma TestOfDouble(x: bv64, d: nat)
    requires d < 64
    ensures Test(Double(x), d) <==> 0 < d && Test(x, d - 1)
  {
    hide *;
    TestDef(Double(x), d);
    if d == 0 {
      MaskStep(0);
      LowBitOfDouble(x);
    } else {
      TestDef(x, d - 1);
      MaskStep(d - 1);
      MaskFits(d - 1);
      AndOfDoubles(x, Mask(d - 1));
    }
  }

  /** Bit d of a word shifted by s is bit d - s of the word, and 0 below s. */
  lemma {:induction false} TestOfShl(b: bv64, s: nat, d: nat)
    requires s < 64 && d < 64
    ensures Test(Shl(b, s), d) <==> s <= d && Test(b, d - s)
  {
    hide *;
    ShlZero(b);
    if s > 0 {
      ShlStep(b, s - 1);
      DoublesDef(b, s - 1);
      TestOfDouble(Shl(b, s - 1), d);
      if d > 0 { TestOfShl(b, s - 1, d - 1); }
    }
  }

  /** Setting bit e changes bit e alone. */
  lemma TestOfSet(b: bv64, e: nat, d: nat)
    requires e < 64 && d < 64
    ensures Test(Or(b, Mask(e)), d) <==> d == e || Test(b, d)
  {
    hide *;
    TestDef(Or(b, Mask(e)), d);
    TestDef(b, d);
    AndOfOr(b, Mask(e), Mask(d));
    AndFacts(Mask(e), Mask(d));
    MaskNonZero(e);
    if e < d {
      MasksDisjoint(e, d);
    } else if d < e {
      MasksDisjoint(d, e);
    }
  }

  lemma ZeroTests(d: nat)
    requires d < 64
    ensures !Test(0, d)
  {
    hide *;
    TestDef(0, d);
    AndFacts(Mask(d), 0);
  }
}
