/**
 * The 64 bits of a Swift `Int64`, held as a `bv64` in two's complement
 * (bit 63 is the sign bit).
 *
 * Bit membership and shifts by a variable distance are defined one place at
 * a time, so every fact below is proved from facts about single-place shifts.
 * The lemmas translate each bitwise operation into the set of bit indices it
 * produces; `Bits` is the abstraction the rest of the model reasons with.
 */
module Int64Bits {

  const SignBit: bv64 := 0x8000_0000_0000_0000
  const AllOnes: bv64 := 0xFFFF_FFFF_FFFF_FFFF

  /** Bit i of x is 1 (bit 0 is the least significant). */
  predicate IsSet(x: bv64, i: nat)
    decreases i
  {
    if i == 0 then x & 1 == 1 else IsSet(x >> 1, i - 1)
  }

  /** The indices of the bits of x that are 1. */
  ghost function Bits(x: bv64): set<nat>
  {
    set i: nat | i < 64 && IsSet(x, i)
  }

  /** x shifted left by n places; bits shifted past bit 63 are lost. */
  function ShiftLeftBy(x: bv64, n: nat): bv64
    decreases n
  {
    if n == 0 then x else ShiftLeftBy(x << 1, n - 1)
  }

  /** x shifted right by n places, filling with zeros (logical shift). */
  function ShiftRightBy(x: bv64, n: nat): bv64
    decreases n
  {
    if n == 0 then x else ShiftRightBy(x >> 1, n - 1)
  }

  /** x shifted right by one place, keeping the sign bit (arithmetic shift). */
  function ArithShiftRight1(x: bv64): bv64
  {
    (x >> 1) | (x & SignBit)
  }

  /** x shifted right by n places, filling with copies of the sign bit. */
  function ArithShiftRightBy(x: bv64, n: nat): bv64
    decreases n
  {
    if n == 0 then x else ArithShiftRightBy(ArithShiftRight1(x), n - 1)
  }

  // ---------------------------------------------------------------------
  // Single-bit facts, by induction on the bit index

  lemma {:induction false} ZeroBit(i: nat)
    ensures !IsSet(0, i)
  {
    if i > 0 {
      ZeroBit(i - 1);
    }
  }

  ghost predicate AndClaim(x: bv64, y: bv64, i: nat) {
    IsSet(x & y, i) <==> IsSet(x, i) && IsSet(y, i)
  }

  lemma AndStep(x: bv64, y: bv64, i: nat)
    requires 0 < i && AndClaim(x >> 1, y >> 1, i - 1)
    ensures AndClaim(x, y, i)
  {
    assert (x & y) >> 1 == (x >> 1) & (y >> 1);
  }

  lemma AndBase(x: bv64, y: bv64)
    ensures AndClaim(x, y, 0)
  {
  }

  lemma {:induction false} AndBit(x: bv64, y: bv64, i: nat)
    ensures IsSet(x & y, i) <==> IsSet(x, i) && IsSet(y, i)
  {
    AndClaimHolds(x, y, i);
  }

  lemma {:induction false} AndClaimHolds(x: bv64, y: bv64, i: nat)
    ensures AndClaim(x, y, i)
  {
    if i == 0 {
      AndBase(x, y);
    } else {
      AndClaimHolds(x >> 1, y >> 1, i - 1);
      AndStep(x, y, i);
    }
  }

  ghost predicate OrClaim(x: bv64, y: bv64, i: nat) {
    IsSet(x | y, i) <==> IsSet(x, i) || IsSet(y, i)
  }

  lemma OrStep(x: bv64, y: bv64, i: nat)
    requires 0 < i && OrClaim(x >> 1, y >> 1, i - 1)
    ensures OrClaim(x, y, i)
  {
    assert (x | y) >> 1 == (x >> 1) | (y >> 1);
  }

  lemma OrBase(x: bv64, y: bv64)
    ensures OrClaim(x, y, 0)
  {
  }

  lemma {:induction false} OrClaimHolds(x: bv64, y: bv64, i: nat)
    ensures OrClaim(x, y, i)
  {
    if i == 0 {
      OrBase(x, y);
    } else {
      OrClaimHolds(x >> 1, y >> 1, i - 1);
      OrStep(x, y, i);
    }
  }

  lemma {:induction false} OrBit(x: bv64, y: bv64, i: nat)
    ensures IsSet(x | y, i) <==> IsSet(x, i) || IsSet(y, i)
  {
    OrClaimHolds(x, y, i);
  }

  ghost predicate XorClaim(x: bv64, y: bv64, i: nat) {
    IsSet(x ^ y, i) <==> IsSet(x, i) != IsSet(y, i)
  }

  lemma XorShift(x: bv64, y: bv64)
    ensures (x ^ y) >> 1 == (x >> 1) ^ (y >> 1)
  {
  }

  lemma XorStep(x: bv64, y: bv64, i: nat)
    requires 0 < i && XorClaim(x >> 1, y >> 1, i - 1)
    ensures XorClaim(x, y, i)
  {
    XorShift(x, y);
    assert IsSet(x ^ y, i) == IsSet((x >> 1) ^ (y >> 1), i - 1);
    assert IsSet(x, i) == IsSet(x >> 1, i - 1);
    assert IsSet(y, i) == IsSet(y >> 1, i - 1);
  }

  lemma XorBase(x: bv64, y: bv64)
    ensures XorClaim(x, y, 0)
  {
  }

  lemma {:induction false} XorClaimHolds(x: bv64, y: bv64, i: nat)
    ensures XorClaim(x, y, i)
  {
    if i == 0 {
      XorBase(x, y);
    } else {
      XorClaimHolds(x >> 1, y >> 1, i - 1);
      XorStep(x, y, i);
    }
  }

  lemma {:induction false} XorBit(x: bv64, y: bv64, i: nat)
    ensures IsSet(x ^ y, i) <==> IsSet(x, i) != IsSet(y, i)
  {
    XorClaimHolds(x, y, i);
  }

  // ---------------------------------------------------------------------
  // Logical right shifts

  lemma {:induction false} ShiftRightByBit(x: bv64, n: nat, i: nat)
    ensures IsSet(ShiftRightBy(x, n), i) <==> IsSet(x, i + n)
  {
    if n > 0 {
      ShiftRightByBit(x >> 1, n - 1, i);
    }
  }

  lemma {:induction false} ShiftRightByAdd(x: bv64, a: nat, b: nat)
    ensures ShiftRightBy(x, a + b) == ShiftRightBy(ShiftRightBy(x, a), b)
  {
    if a > 0 {
      ShiftRightByAdd(x >> 1, a - 1, b);
    }
  }

  lemma {:induction false} ShiftRightByZero(n: nat)
    ensures ShiftRightBy(0, n) == 0
  {
    if n > 0 {
      ShiftRightByZero(n - 1);
    }
  }

  lemma ShiftRightBy1(x: bv64)
    ensures ShiftRightBy(x, 1) == x >> 1
  {
    assert ShiftRightBy(x, 1) == ShiftRightBy(x >> 1, 0);
  }

  lemma ShiftRightBy2(x: bv64)
    ensures ShiftRightBy(x, 2) == x >> 2
  {
    ShiftRightByAdd(x, 1, 1);
    ShiftRightBy1(x);
    ShiftRightBy1(x >> 1);
  }

  lemma ShiftRightBy4(x: bv64)
    ensures ShiftRightBy(x, 4) == x >> 4
  {
    ShiftRightByAdd(x, 2, 2);
    ShiftRightBy2(x);
    ShiftRightBy2(x >> 2);
  }

  lemma ShiftRightBy8(x: bv64)
    ensures ShiftRightBy(x, 8) == x >> 8
  {
    ShiftRightByAdd(x, 4, 4);
    ShiftRightBy4(x);
    ShiftRightBy4(x >> 4);
  }

  lemma ShiftRightBy16(x: bv64)
    ensures ShiftRightBy(x, 16) == x >> 16
  {
    ShiftRightByAdd(x, 8, 8);
    ShiftRightBy8(x);
    ShiftRightBy8(x >> 8);
  }

  lemma ShiftRightBy32(x: bv64)
    ensures ShiftRightBy(x, 32) == x >> 32
  {
    ShiftRightByAdd(x, 16, 16);
    ShiftRightBy16(x);
    ShiftRightBy16(x >> 16);
  }

  lemma ShiftRightBy63(x: bv64)
    ensures ShiftRightBy(x, 63) == x >> 63
  {
    ShiftRightByAdd(x, 32, 31);
    ShiftRightBy32(x);
    ShiftRightByAdd(x >> 32, 16, 15);
    ShiftRightBy16(x >> 32);
    ShiftRightByAdd(x >> 48, 8, 7);
    ShiftRightBy8(x >> 48);
    ShiftRightByAdd(x >> 56, 4, 3);
    ShiftRightBy4(x >> 56);
    ShiftRightByAdd(x >> 60, 2, 1);
    ShiftRightBy2(x >> 60);
    ShiftRightBy1(x >> 62);
  }

  lemma ShiftRightBy64(x: bv64)
    ensures ShiftRightBy(x, 64) == 0
  {
    ShiftRightByAdd(x, 32, 32);
    ShiftRightBy32(x);
    ShiftRightBy32(x >> 32);
  }

  /** Every bit above 63 is 0. */
  lemma HighBit(x: bv64, i: nat)
    requires 64 <= i
    ensures !IsSet(x, i)
  {
    ShiftRightBy64(x);
    ShiftRightByBit(x, 64, i - 64);
    ZeroBit(i - 64);
  }

  // ---------------------------------------------------------------------
  // The sign bit and the all-ones word

  function Min(a: nat, b: nat): nat
  {
    if a <= b then a else b
  }

  lemma TopBit(x: bv64)
    ensures IsSet(x, 63) <==> x & SignBit != 0
  {
    ShiftRightByBit(x, 63, 0);
    ShiftRightBy63(x);
  }

  ghost predicate IsLowMask(y: bv64) {
    y & (y + 1) == 0
  }

  lemma LowMaskShift(y: bv64)
    requires IsLowMask(y)
    ensures IsLowMask(y >> 1)
  {
  }

  lemma {:induction false} LowMaskStays(y: bv64, k: nat)
    requires IsLowMask(y)
    ensures IsLowMask(ShiftRightBy(y, k))
  {
    if k > 0 {
      LowMaskShift(y);
      LowMaskStays(y >> 1, k - 1);
    }
  }

  lemma LowMaskBottom(y: bv64)
    requires IsLowMask(y) && y != 0
    ensures y & 1 == 1
  {
  }

  lemma AllOnesBit(k: nat)
    ensures IsSet(AllOnes, k) <==> k < 64
  {
    if k < 64 {
      ShiftRightBy63(AllOnes);
      ShiftRightByAdd(AllOnes, k, 63 - k);
      if ShiftRightBy(AllOnes, k) == 0 {
        ShiftRightByZero(63 - k);
        assert false;
      }
      LowMaskStays(AllOnes, k);
      LowMaskBottom(ShiftRightBy(AllOnes, k));
      ShiftRightByBit(AllOnes, k, 0);
    } else {
      HighBit(AllOnes, k);
    }
  }

  lemma SignBitBit(i: nat)
    ensures IsSet(SignBit, i) <==> i == 63
  {
    if i < 63 {
      assert SignBit & (AllOnes >> 1) == 0;
      AndBit(SignBit, AllOnes >> 1, i);
      ZeroBit(i);
      AllOnesBit(i + 1);
    } else if i == 63 {
      TopBit(SignBit);
    } else {
      HighBit(SignBit, i);
    }
  }

  // ---------------------------------------------------------------------
  // Arithmetic right shifts and left shifts

  lemma OrWithUnset(a: bv64, b: bv64, i: nat)
    requires !IsSet(b, i)
    ensures IsSet(a | b, i) == IsSet(a, i)
  {
    OrBit(a, b, i);
  }

  lemma SignPart(x: bv64, i: nat)
    ensures IsSet(x & SignBit, i) <==> i == 63 && IsSet(x, 63)
  {
    AndBit(x, SignBit, i);
    SignBitBit(i);
  }

  lemma ArithShiftRight1Low(x: bv64, i: nat)
    requires i < 63
    ensures IsSet(ArithShiftRight1(x), i) <==> IsSet(x, i + 1)
  {
    SignPart(x, i);
    OrWithUnset(x >> 1, x & SignBit, i);
  }

  lemma ArithShiftRight1Top(x: bv64)
    ensures IsSet(ArithShiftRight1(x), 63) <==> IsSet(x, 63)
  {
    HighBit(x, 64);
    assert !IsSet(x >> 1, 63);
    SignPart(x, 63);
    OrBit(x >> 1, x & SignBit, 63);
  }

  lemma ArithShiftRight1Bit(x: bv64, i: nat)
    ensures IsSet(ArithShiftRight1(x), i) <==> i < 64 && IsSet(x, Min(i + 1, 63))
  {
    if i < 63 {
      ArithShiftRight1Low(x, i);
    } else if i == 63 {
      ArithShiftRight1Top(x);
    } else {
      HighBit(ArithShiftRight1(x), i);
    }
  }

  lemma {:induction false} ArithShiftRightByAdd(x: bv64, a: nat, b: nat)
    ensures ArithShiftRightBy(x, a + b) == ArithShiftRightBy(ArithShiftRightBy(x, a), b)
    decreases a
  {
    if a > 0 {
      ArithShiftRightByAdd(ArithShiftRight1(x), a - 1, b);
    }
  }

  lemma {:induction false} ArithShiftRightByBit(x: bv64, n: nat, i: nat)
    ensures IsSet(ArithShiftRightBy(x, n), i) <==> i < 64 && IsSet(x, Min(i + n, 63))
    decreases n
  {
    if n == 0 {
      if i >= 64 {
        HighBit(x, i);
      }
    } else {
      ArithShiftRightByBit(ArithShiftRight1(x), n - 1, i);
      if i < 64 {
        ArithShiftRight1Bit(x, Min(i + n - 1, 63));
      }
    }
  }

  lemma ShiftLeftThenRight(x: bv64)
    ensures (x << 1) >> 1 == x & (AllOnes >> 1)
  {
  }

  lemma ShiftLeft1Low(x: bv64, i: nat)
    requires 0 < i < 64
    ensures IsSet(x << 1, i) <==> IsSet(x, i - 1)
  {
    ShiftLeftThenRight(x);
    assert IsSet(x << 1, i) == IsSet((x << 1) >> 1, i - 1);
    AndBit(x, AllOnes >> 1, i - 1);
    AllOnesBit(i);
    assert IsSet(AllOnes, i) == IsSet(AllOnes >> 1, i - 1);
  }

  lemma ShiftLeft1Bottom(x: bv64)
    ensures !IsSet(x << 1, 0)
  {
  }

  lemma ShiftLeft1Bit(x: bv64, i: nat)
    ensures IsSet(x << 1, i) <==> 0 < i < 64 && IsSet(x, i - 1)
  {
    if i >= 64 {
      HighBit(x << 1, i);
    } else if i > 0 {
      ShiftLeft1Low(x, i);
    } else {
      ShiftLeft1Bottom(x);
    }
  }

  lemma {:induction false} ShiftLeftByBit(x: bv64, n: nat, i: nat)
    ensures IsSet(ShiftLeftBy(x, n), i) <==> n <= i < 64 && IsSet(x, i - n)
    decreases n
  {
    if n == 0 {
      if i >= 64 {
        HighBit(x, i);
      }
    } else {
      ShiftLeftByBit(x << 1, n - 1, i);
      if n - 1 <= i {
        ShiftLeft1Bit(x, i - n + 1);
      }
    }
  }

  // ---------------------------------------------------------------------
  // A word is determined by its set bits

  lemma ShiftRightOneMore(x: bv64, n: nat)
    ensures ShiftRightBy(x, n + 1) == ShiftRightBy(x, n) >> 1
  {
    ShiftRightByAdd(x, n, 1);
    ShiftRightBy1(ShiftRightBy(x, n));
  }

  lemma ZeroFromParts(y: bv64)
    requires y >> 1 == 0 && y & 1 != 1
    ensures y == 0
  {
  }

  lemma {:induction false} ZeroDown(x: bv64, n: nat)
    requires n <= 64
    requires forall i: nat :: n <= i < 64 ==> !IsSet(x, i)
    ensures ShiftRightBy(x, n) == 0
    decreases 64 - n
  {
    if n == 64 {
      ShiftRightBy64(x);
    } else {
      ZeroDown(x, n + 1);
      ShiftRightOneMore(x, n);
      ShiftRightByBit(x, n, 0);
      ZeroFromParts(ShiftRightBy(x, n));
    }
  }

  /** A word is zero exactly when none of its 64 bits is set. */
  lemma ZeroIffNoBits(x: bv64)
    ensures x == 0 <==> Bits(x) == {}
  {
    if Bits(x) == {} {
      forall i: nat | i < 64
        ensures !IsSet(x, i)
      {
        assert i !in Bits(x);
      }
      ZeroDown(x, 0);
    } else {
      var i :| i in Bits(x);
      ZeroBit(i);
    }
  }

  /** Two words with the same set bits are equal. */
  lemma BitsInjective(x: bv64, y: bv64)
    requires Bits(x) == Bits(y)
    ensures x == y
  {
    var z := x ^ y;
    forall i: nat | i < 64
      ensures !IsSet(z, i)
    {
      XorBit(x, y, i);
      assert IsSet(x, i) <==> i in Bits(x);
      assert IsSet(y, i) <==> i in Bits(y);
    }
    assert Bits(z) == {};
    ZeroIffNoBits(z);
  }

  // ---------------------------------------------------------------------
  // Set-level views of the operations

  lemma BitsAnd(x: bv64, y: bv64)
    ensures Bits(x & y) == Bits(x) * Bits(y)
  {
    forall i: nat
      ensures i in Bits(x & y) <==> i in Bits(x) * Bits(y)
    {
      AndBit(x, y, i);
    }
  }

  lemma BitsOr(x: bv64, y: bv64)
    ensures Bits(x | y) == Bits(x) + Bits(y)
  {
    forall i: nat
      ensures i in Bits(x | y) <==> i in Bits(x) + Bits(y)
    {
      OrBit(x, y, i);
    }
  }

  lemma BitsXor(x: bv64, y: bv64)
    ensures Bits(x ^ y) == (Bits(x) - Bits(y)) + (Bits(y) - Bits(x))
  {
    forall i: nat
      ensures i in Bits(x ^ y) <==> i in (Bits(x) - Bits(y)) + (Bits(y) - Bits(x))
    {
      XorBit(x, y, i);
    }
  }

  lemma SymmetricDifferenceOfDisjoint(a: set<nat>, b: set<nat>)
    requires a * b == {}
    ensures (a - b) + (b - a) == a + b
  {
    forall i | i in a + b
      ensures i in (a - b) + (b - a)
    {
      assert i !in a * b;
    }
  }

  lemma BitsAnd3(p: bv64, q: bv64, r: bv64)
    ensures Bits((p & q) & r) == Bits(p) * Bits(q) * Bits(r)
  {
    BitsAnd(p & q, r);
    BitsAnd(p, q);
  }

  lemma BitsAnd4(p: bv64, q: bv64, r: bv64, w: bv64)
    ensures Bits(((p & q) & r) & w) == Bits(p) * Bits(q) * Bits(r) * Bits(w)
  {
    BitsAnd3(p, q, r);
    BitsAnd((p & q) & r, w);
  }

  /** A conjunction of four words is non-zero when their bit sets share an index. */
  lemma And4NonZero(p: bv64, q: bv64, r: bv64, w: bv64)
    ensures ((p & q) & r) & w != 0 <==> Bits(p) * Bits(q) * Bits(r) * Bits(w) != {}
  {
    ZeroIffNoBits(((p & q) & r) & w);
    BitsAnd4(p, q, r, w);
  }

  /** On words with no bit in common, exclusive or and inclusive or agree. */
  lemma XorDisjointIsOr(x: bv64, y: bv64)
    requires Bits(x) * Bits(y) == {}
    ensures x ^ y == x | y
  {
    BitsXor(x, y);
    BitsOr(x, y);
    SymmetricDifferenceOfDisjoint(Bits(x), Bits(y));
    BitsInjective(x ^ y, x | y);
  }

  /** `1 << h` has exactly bit h set, for h < 64. */
  lemma BitsSingle(h: nat)
    requires h < 64
    ensures Bits(ShiftLeftBy(1, h)) == {h}
  {
    forall i: nat
      ensures i in Bits(ShiftLeftBy(1, h)) <==> i == h
    {
      ShiftLeftByBit(1, h, i);
      if h <= i < 64 {
        OneBit(i - h);
      }
    }
  }

  lemma OneBit(i: nat)
    ensures IsSet(1, i) <==> i == 0
  {
    if i > 0 {
      ZeroBit(i - 1);
    }
  }
}
