/** Fixed-width integers and small helper types shared by every module. */
module Words {
  const TWO64: nat := 0x1_0000_0000_0000_0000

  /** The range of uint64_t and of a 64-bit size_t. */
  type u64 = x: nat | x < TWO64

  /** `x += 1` on an unsigned 64-bit variable. */
  function Inc(x: u64): u64 {
    if x + 1 == TWO64 then 0 else x + 1
  }

  /** `x -= 1` on an unsigned 64-bit variable. */
  function Dec(x: u64): u64 {
    if x == 0 then TWO64 - 1 else x - 1
  }

  datatype Option<+T> = None | Some(value: T) {
    function UnwrapOr(other: T): T {
      if Some? then value else other
    }
  }

  // ----- Exclusive-or of unsigned words -----

  /** The bitwise exclusive-or, bit by bit from the lowest. */
  function XorBits(a: nat, b: nat): nat
    decreases a + b
  {
    if a == 0 then b
    else if b == 0 then a
    else 2 * XorBits(a / 2, b / 2) + (if a % 2 == b % 2 then 0 else 1)
  }

  function Pow2(n: nat): nat {
    if n == 0 then 1 else 2 * Pow2(n - 1)
  }

  /** `a ^ b` on uint64_t. */
  function Xor(a: u64, b: u64): u64 {
    Pow2Of64();
    XorFits(a, b, 64);
    XorBits(a, b)
  }

  lemma {:induction false} Pow2Of64()
    ensures Pow2(64) == TWO64
  {
    Pow2Add(4, 4);
    Pow2Add(8, 8);
    Pow2Add(16, 16);
    Pow2Add(32, 32);
    assert Pow2(4) == 2 * Pow2(3) == 16;
  }

  lemma {:induction false} Pow2Add(m: nat, n: nat)
    ensures Pow2(m + n) == Pow2(m) * Pow2(n)
  {
    if m > 0 {
      Pow2Add(m - 1, n);
      Regroup(Pow2(m - 1), Pow2(n));
    }
  }

  lemma {:induction false} Regroup(x: nat, y: nat)
    ensures 2 * (x * y) == (2 * x) * y
  {
  }

  lemma {:induction false} XorFits(a: nat, b: nat, n: nat)
    requires a < Pow2(n) && b < Pow2(n)
    ensures XorBits(a, b) < Pow2(n)
  {
    if n > 0 && a != 0 && b != 0 {
      XorFits(a / 2, b / 2, n - 1);
    }
  }

  lemma {:induction false} XorHalves(a: nat, b: nat)
    ensures XorBits(a, b) / 2 == XorBits(a / 2, b / 2)
    ensures XorBits(a, b) % 2 == if a % 2 == b % 2 then 0 else 1
  {
    if a != 0 && b != 0 {
      var rest, bit := XorBits(a / 2, b / 2), if a % 2 == b % 2 then 0 else 1;
      assert XorBits(a, b) == 2 * rest + bit;
      Halves(rest, bit);
    } else {
      assert XorBits(0, b / 2) == b / 2;
    }
  }

  lemma {:induction false} Halves(q: nat, r: nat)
    requires r < 2
    ensures (2 * q + r) / 2 == q && (2 * q + r) % 2 == r
  {
  }

  /** Bit n of x, counted from the lowest. */
  function Bit(x: nat, n: nat): (bit: nat)
    ensures bit < 2
  {
    if n == 0 then x % 2 else Bit(x / 2, n - 1)
  }

  /** Bit n of the exclusive-or is set exactly when it is set in one of the two. */
  lemma {:induction false} XorBit(a: u64, b: u64, n: nat)
    ensures Bit(Xor(a, b), n) == 1 <==> Bit(a, n) != Bit(b, n)
  {
    XorBitsBit(a, b, n);
  }

  lemma {:induction false} XorBitsBit(a: nat, b: nat, n: nat)
    ensures Bit(XorBits(a, b), n) == if Bit(a, n) == Bit(b, n) then 0 else 1
    decreases n
  {
    XorHalves(a, b);
    if n > 0 {
      XorBitsBit(a / 2, b / 2, n - 1);
    }
  }

  /** A word is known by its bits. */
  lemma {:induction false} SameBits(a: nat, b: nat)
    requires forall n: nat :: Bit(a, n) == Bit(b, n)
    ensures a == b
    decreases a + b
  {
    assert Bit(a, 0) == Bit(b, 0);
    if a + b > 0 {
      forall n: nat
        ensures Bit(a / 2, n) == Bit(b / 2, n)
      {
        assert Bit(a, n + 1) == Bit(b, n + 1);
      }
      SameBits(a / 2, b / 2);
    }
  }

  lemma {:induction false} XorBitsCommutative(a: nat, b: nat)
    ensures XorBits(a, b) == XorBits(b, a)
    decreases a + b
  {
    if a != 0 && b != 0 {
      XorBitsCommutative(a / 2, b / 2);
    }
  }

  lemma {:induction false} XorBitsAssociative(a: nat, b: nat, c: nat)
    ensures XorBits(XorBits(a, b), c) == XorBits(a, XorBits(b, c))
    decreases a + b + c
  {
    if a != 0 && b != 0 && c != 0 {
      XorBitsAssociative(a / 2, b / 2, c / 2);
      XorHalves(a, b);
      XorHalves(b, c);
      XorHalves(XorBits(a, b), c);
      XorHalves(a, XorBits(b, c));
    }
  }

  lemma {:induction false} XorBitsZeroIffEqual(a: nat, b: nat)
    ensures XorBits(a, b) == 0 <==> a == b
    decreases a + b
  {
    if a != 0 && b != 0 {
      XorBitsZeroIffEqual(a / 2, b / 2);
    }
  }

  lemma {:induction false} XorAssociative(a: u64, b: u64, c: u64)
    ensures Xor(Xor(a, b), c) == Xor(a, Xor(b, c))
  {
    XorBitsAssociative(a, b, c);
  }

  lemma {:induction false} XorSwap(a: u64, x: u64, y: u64)
    ensures Xor(Xor(a, x), y) == Xor(Xor(a, y), x)
  {
    XorBitsAssociative(a, x, y);
    XorBitsCommutative(x, y);
    XorBitsAssociative(a, y, x);
  }

  lemma {:induction false} XorCancels(a: u64, x: u64)
    ensures Xor(Xor(a, x), x) == a
  {
    XorBitsAssociative(a, x, x);
    XorBitsZeroIffEqual(x, x);
    XorBitsCommutative(a, 0);
  }

  lemma {:induction false} XorZeroIffEqual(a: u64, b: u64)
    ensures Xor(a, b) == 0 <==> a == b
  {
    XorBitsZeroIffEqual(a, b);
  }
}
