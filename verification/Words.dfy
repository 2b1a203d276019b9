/** 64-bit words as numbers, and bitwise exclusive or on them. */
module Words {

  const UINT64_LIMIT: nat := 0x1_0000_0000_0000_0000

  type uint64 = x: int | 0 <= x < UINT64_LIMIT

  /** Exclusive or, bit by bit from the low end. */
  function XorBits(a: nat, b: nat, width: nat): nat
  {
    if width == 0 then 0
    else (if a % 2 == b % 2 then 0 else 1) + 2 * XorBits(a / 2, b / 2, width - 1)
  }

  function Pow2(n: nat): nat { if n == 0 then 1 else 2 * Pow2(n - 1) }

  lemma {:induction false} XorBitsBound(a: nat, b: nat, width: nat)
    ensures XorBits(a, b, width) < Pow2(width)
  {
    if width == 0 {
    } else {
      XorBitsBound(a / 2, b / 2, width - 1);
    }
  }

  lemma {:induction false} XorBitsZero(a: nat, width: nat)
    requires a < Pow2(width)
    ensures XorBits(a, 0, width) == a
    ensures XorBits(a, a, width) == 0
  {
    if width == 0 {
    } else {
      XorBitsZero(a / 2, width - 1);
    }
  }

  lemma {:induction false} XorBitsCommutes(a: nat, b: nat, width: nat)
    ensures XorBits(a, b, width) == XorBits(b, a, width)
  {
    if width == 0 {
    } else {
      XorBitsCommutes(a / 2, b / 2, width - 1);
    }
  }

  lemma XorBitsStep(a: nat, b: nat, width: nat)
    requires width > 0
    ensures XorBits(a, b, width) % 2 == if a % 2 == b % 2 then 0 else 1
    ensures XorBits(a, b, width) / 2 == XorBits(a / 2, b / 2, width - 1)
  {}

  lemma XorBitsAgree(a: nat, b: nat, c: nat, d: nat, width: nat)
    requires width > 0
    requires (a % 2 == b % 2) == (c % 2 == d % 2)
    requires XorBits(a / 2, b / 2, width - 1) == XorBits(c / 2, d / 2, width - 1)
    ensures XorBits(a, b, width) == XorBits(c, d, width)
  {}

  lemma {:induction false} XorBitsAssociates(a: nat, b: nat, c: nat, width: nat)
    ensures XorBits(XorBits(a, b, width), c, width) == XorBits(a, XorBits(b, c, width), width)
  {
    if width == 0 {
    } else {
      XorBitsStep(a, b, width);
      XorBitsStep(b, c, width);
      XorBitsAssociates(a / 2, b / 2, c / 2, width - 1);
      XorBitsAgree(XorBits(a, b, width), c, a, XorBits(b, c, width), width);
    }
  }

  lemma {:induction false} Pow2Sum(m: nat, n: nat)
    ensures Pow2(m + n) == Pow2(m) * Pow2(n)
  {
    if m == 0 {
    } else {
      Pow2Sum(m - 1, n);
    }
  }

  lemma Pow2Is64()
    ensures Pow2(64) == UINT64_LIMIT
  {
    assert Pow2(16) == 0x1_0000 by {
      assert Pow2(8) == 0x100;
      Pow2Sum(8, 8);
    }
    Pow2Sum(16, 16);
    Pow2Sum(32, 32);
  }

  function Xor(a: uint64, b: uint64): uint64
  {
    XorBitsBound(a, b, 64);
    Pow2Is64();
    XorBits(a, b, 64)
  }

  // ---- bits ----

  /** Bit `i`, counted from the low end. */
  function Bit(a: nat, i: nat): nat
  {
    if i == 0 then a % 2 else Bit(a / 2, i - 1)
  }

  lemma {:induction false} XorBitsBit(a: nat, b: nat, width: nat, i: nat)
    requires i < width
    ensures Bit(XorBits(a, b, width), i) == 1 <==> Bit(a, i) != Bit(b, i)
    ensures Bit(XorBits(a, b, width), i) == 0 <==> Bit(a, i) == Bit(b, i)
  {
    XorBitsStep(a, b, width);
    if i == 0 {
    } else {
      XorBitsBit(a / 2, b / 2, width - 1, i - 1);
    }
  }

  /** Each of the 64 bits is set exactly when the two words differ in it. */
  lemma XorBit(a: uint64, b: uint64, i: nat)
    requires i < 64
    ensures Bit(Xor(a, b), i) == 1 <==> Bit(a, i) != Bit(b, i)
    ensures Bit(Xor(a, b), i) == 0 <==> Bit(a, i) == Bit(b, i)
  {
    XorBitsBit(a, b, 64, i);
  }

  /** The words form a commutative group in which every element is its own inverse. */
  lemma XorGroup(a: uint64, b: uint64, c: uint64)
    ensures Xor(Xor(a, b), c) == Xor(a, Xor(b, c))
    ensures Xor(a, b) == Xor(b, a)
    ensures Xor(a, 0) == a
    ensures Xor(a, a) == 0
  {
    Pow2Is64();
    XorBitsAssociates(a, b, c, 64);
    XorBitsCommutes(a, b, 64);
    XorBitsZero(a, 64);
  }
}
