/** Bitwise operations on C ints, for the bit options of the argument parser and the length bytes of packets. */
module Bits {
  const WORD: nat := 0x1_0000_0000

  function Pow2(n: nat): nat {
    if n == 0 then 1 else 2 * Pow2(n - 1)
  }

  /** Bit i of a natural number. */
  predicate Bit(a: nat, i: nat) {
    if i == 0 then a % 2 == 1 else Bit(a / 2, i - 1)
  }

  function Or(a: nat, b: nat): nat
    decreases a + b
  {
    if a == 0 then b else if b == 0 then a
    else 2 * Or(a / 2, b / 2) + if a % 2 == 1 || b % 2 == 1 then 1 else 0
  }

  function AndNot(a: nat, b: nat): nat {
    if a == 0 then 0 else 2 * AndNot(a / 2, b / 2) + if a % 2 == 1 && b % 2 == 0 then 1 else 0
  }

  /** The 32-bit pattern of an int, and the int of a pattern. */
  function Pattern(v: int): (u: nat)
    ensures u < WORD
  {
    v % WORD
  }

  function Signed(u: nat): int {
    if u < 0x8000_0000 then u else u - WORD
  }

  /** v | mask. */
  function SetBits(v: int, mask: int): int {
    Signed(Or(Pattern(v), Pattern(mask)))
  }

  /** v & ~mask. */
  function ClearBits(v: int, mask: int): int {
    Signed(AndNot(Pattern(v), Pattern(mask)))
  }

  lemma {:induction false} ZeroHasNoBits(i: nat)
    ensures !Bit(0, i)
  {
    if i > 0 {
      ZeroHasNoBits(i - 1);
    }
  }

  lemma {:induction false} OrBit(a: nat, b: nat, i: nat)
    ensures Bit(Or(a, b), i) <==> Bit(a, i) || Bit(b, i)
  {
    ZeroHasNoBits(i);
    if a != 0 && b != 0 && i > 0 {
      assert Or(a, b) / 2 == Or(a / 2, b / 2);
      OrBit(a / 2, b / 2, i - 1);
    }
  }

  lemma {:induction false} AndNotBit(a: nat, b: nat, i: nat)
    ensures Bit(AndNot(a, b), i) <==> Bit(a, i) && !Bit(b, i)
  {
    ZeroHasNoBits(i);
    if a != 0 && i > 0 {
      assert AndNot(a, b) / 2 == AndNot(a / 2, b / 2);
      AndNotBit(a / 2, b / 2, i - 1);
    }
  }

  lemma {:induction false} OrBounded(a: nat, b: nat, n: nat)
    requires a < Pow2(n) && b < Pow2(n)
    ensures Or(a, b) < Pow2(n)
  {
    if a != 0 && b != 0 {
      OrBounded(a / 2, b / 2, n - 1);
    }
  }

  lemma {:induction false} AndNotBounded(a: nat, b: nat)
    ensures AndNot(a, b) <= a
  {
    if a != 0 {
      AndNotBounded(a / 2, b / 2);
    }
  }

  lemma {:induction false} WordIsPow2()
    ensures Pow2(32) == WORD
  {
    assert Pow2(8) == 256 by {
      assert Pow2(4) == 16;
    }
    assert Pow2(16) == 0x1_0000 by {
      assert Pow2(12) == 0x1000;
    }
    assert Pow2(24) == 0x100_0000 by {
      assert Pow2(20) == 0x10_0000;
    }
    assert Pow2(28) == 0x1000_0000;
  }

  lemma {:induction false} PatternOfSigned(u: nat)
    requires u < WORD
    ensures Pattern(Signed(u)) == u
  {
  }

  lemma {:induction false} SetPattern(v: int, mask: int)
    ensures Pattern(SetBits(v, mask)) == Or(Pattern(v), Pattern(mask))
  {
    var a, b := Pattern(v), Pattern(mask);
    WordIsPow2();
    OrBounded(a, b, 32);
    PatternOfSigned(Or(a, b));
  }

  lemma {:induction false} ClearPattern(v: int, mask: int)
    ensures Pattern(ClearBits(v, mask)) == AndNot(Pattern(v), Pattern(mask))
  {
    var a, b := Pattern(v), Pattern(mask);
    AndNotBounded(a, b);
    PatternOfSigned(AndNot(a, b));
  }

  /** Setting and clearing affect exactly the bits of the mask. */
  lemma {:induction false} MaskedBits(v: int, mask: int, i: nat)
    ensures Bit(Pattern(SetBits(v, mask)), i) <==> Bit(Pattern(v), i) || Bit(Pattern(mask), i)
    ensures Bit(Pattern(ClearBits(v, mask)), i) <==> Bit(Pattern(v), i) && !Bit(Pattern(mask), i)
  {
    SetPattern(v, mask);
    ClearPattern(v, mask);
    OrBit(Pattern(v), Pattern(mask), i);
    AndNotBit(Pattern(v), Pattern(mask), i);
  }

  // ---- Or on bytes ----

  lemma {:induction false} OrTwice(a: nat, q: nat, r: nat)
    requires r < 2
    ensures Or(2 * a, 2 * q + r) == 2 * Or(a, q) + r
  {
  }

  function Shift(a: nat, n: nat): nat {
    if n == 0 then a else 2 * Shift(a, n - 1)
  }

  /** What is below the last n bits of one number only meets zeros in the other. */
  lemma {:induction false} OrShifted(a: nat, q: nat, r: nat, n: nat)
    requires r < Pow2(n)
    ensures Or(Shift(a, n), Shift(q, n) + r) == Shift(Or(a, q), n) + r
  {
    if n > 0 {
      OrShifted(a, q, r / 2, n - 1);
      OrTwice(Shift(a, n - 1), Shift(q, n - 1) + r / 2, r % 2);
    }
  }

  lemma {:induction false} ShiftByte(a: nat)
    ensures Shift(a, 8) == 256 * a
  {
    assert Shift(a, 1) == 2 * a;
    assert Shift(a, 2) == 4 * a;
    assert Shift(a, 4) == 16 * a;
    assert Shift(a, 6) == 64 * a;
  }

  lemma {:induction false} OrByte(a: nat, q: nat, r: nat)
    requires r < 256
    ensures Or(256 * a, 256 * q + r) == 256 * Or(a, q) + r
  {
    assert Pow2(8) == 256 by {
      assert Pow2(4) == 16;
    }
    OrShifted(a, q, r, 8);
    ShiftByte(a);
    ShiftByte(q);
    ShiftByte(Or(a, q));
  }

  /** All ones cover everything. */
  lemma {:induction false} OrWithOnes(a: nat, n: nat)
    requires a < Pow2(n)
    ensures Or(a, Pow2(n) - 1) == Pow2(n) - 1
  {
    if n > 0 && a > 0 {
      var ones := Pow2(n) - 1;
      assert ones / 2 == Pow2(n - 1) - 1 && ones % 2 == 1;
      OrWithOnes(a / 2, n - 1);
    }
  }

  /** (x << 8) | y for two chars: y fills the last eight bits, and a negative y covers all the others. */
  lemma {:induction false} OrOfChars(x: int, y: int)
    requires -128 <= x < 256 && -128 <= y < 256
    ensures SetBits(256 * x, y) == if y < 0 then y else 256 * x + y
  {
    var high := if x < 0 then x + 0x100_0000 else x;
    ShiftedPattern(x, high);
    if y < 0 {
      NegativeChar(y);
      CoveredByOnes(high, y + 256);
    } else {
      OrByte(high, 0, y);
    }
  }

  lemma {:induction false} NegativeChar(y: int)
    requires -128 <= y < 0
    ensures Pattern(y) == 0xffff_ff00 + (y + 256) && Signed(Pattern(y)) == y
  {
  }

  lemma {:induction false} ShiftedPattern(x: int, high: nat)
    requires -128 <= x < 256 && high == if x < 0 then x + 0x100_0000 else x
    ensures Pattern(256 * x) == 256 * high
  {
  }

  lemma {:induction false} CoveredByOnes(high: nat, low: nat)
    requires high < 0x100_0000 && low < 256
    ensures Or(256 * high, 0xffff_ff00 + low) == 0xffff_ff00 + low
  {
    OrByte(high, 0xff_ffff, low);
    PowerOfThreeBytes();
    OrWithOnes(high, 24);
  }

  lemma {:induction false} PowerOfThreeBytes()
    ensures Pow2(24) == 0x100_0000
  {
    assert Pow2(8) == 256 by {
      assert Pow2(4) == 16;
    }
    assert Pow2(16) == 0x1_0000 by {
      assert Pow2(12) == 0x1000;
    }
    assert Pow2(20) == 0x10_0000;
  }
}
