/**
 * Unsigned bit arithmetic on natural numbers: powers of two, single-bit
 * tests and clears (the `x & (1 << i)` and `x & ~(1 << i)` idioms),
 * floor-log2 and the text form of a fixed-width bitset.
 */
module Bits {

  /** 2^n, i.e. `1 << n` for an unsigned operand. */
  function Pow2(n: nat): (r: nat)
    ensures r >= 1
  {
    if n == 0 then 1 else 2 * Pow2(n - 1)
  }

  /** Bit i of x is set: `(x & (1 << i)) != 0`. */
  predicate TestBit(x: nat, i: nat)
    ensures TestBit(x, i) ==> x > 0
  {
    if i == 0 then x % 2 == 1 else TestBit(x / 2, i - 1)
  }

  /** x with bit i cleared: `x & ~(1 << i)`; a value whose bit i is clear is unchanged. */
  function ClearBit(x: nat, i: nat): (r: nat)
    ensures r <= x
    ensures !TestBit(x, i) ==> r == x
  {
    if i == 0 then x - x % 2 else 2 * ClearBit(x / 2, i - 1) + x % 2
  }

  /** Floor of the base-2 logarithm (0 for 0 and 1). */
  function IntLog2(n: nat): nat
  {
    if n <= 1 then 0 else 1 + IntLog2(n / 2)
  }

  /** The character `std::bitset::to_string` prints for one bit. */
  function BitChar(b: bool): char
  {
    if b then '1' else '0'
  }

  /**
   * `std::bitset<w>(x).to_string()`: w characters, the most significant
   * bit first.
   */
  function ToBinary(x: nat, w: nat): (r: seq<char>)
    ensures |r| == w
    ensures forall k :: 0 <= k < |r| ==> r[k] == '0' || r[k] == '1'
  {
    if w == 0 then [] else ToBinary(x / 2, w - 1) + [BitChar(x % 2 == 1)]
  }

  lemma {:induction false} Pow2Monotone(m: nat, n: nat)
    requires m <= n
    ensures Pow2(m) <= Pow2(n)
  {
    if m < n {
      Pow2Monotone(m, n - 1);
    }
  }

  /** Shifting left by a+b is shifting by a, then by b. */
  lemma {:induction false} Pow2Add(a: nat, b: nat)
    ensures Pow2(a + b) == Pow2(a) * Pow2(b)
  {
    if b > 0 {
      Pow2Add(a, b - 1);
      assert Pow2(a + b) == 2 * Pow2(a + b - 1);
    }
  }

  /** A set bit i means the value is at least 2^i. */
  lemma {:induction false} TestBitBound(x: nat, i: nat)
    requires TestBit(x, i)
    ensures Pow2(i) <= x
  {
    if i > 0 {
      TestBitBound(x / 2, i - 1);
    }
  }

  /** IntLog2(n) is the exponent of the largest power of two not above n. */
  lemma {:induction false} IntLog2Bounds(n: nat)
    requires n >= 1
    ensures Pow2(IntLog2(n)) <= n < 2 * Pow2(IntLog2(n))
  {
    if n >= 2 {
      IntLog2Bounds(n / 2);
      assert Pow2(IntLog2(n)) == 2 * Pow2(IntLog2(n / 2));
    }
  }

  lemma {:induction false} ZeroHasNoBits(i: nat)
    ensures !TestBit(0, i)
  {
    if i > 0 {
      ZeroHasNoBits(i - 1);
    }
  }

  /** The all-ones mask 2^n - 1 has exactly the bits 0..n-1 set. */
  lemma {:induction false} AllOnesBits(n: nat, i: nat)
    ensures TestBit(Pow2(n) - 1, i) <==> i < n
  {
    if n == 0 {
      ZeroHasNoBits(i);
    } else {
      var m := Pow2(n) - 1;
      assert m == 2 * (Pow2(n - 1) - 1) + 1;
      assert m % 2 == 1 && m / 2 == Pow2(n - 1) - 1;
      if i > 0 {
        AllOnesBits(n - 1, i - 1);
      }
    }
  }

  /** Clearing a set bit subtracts exactly 2^i. */
  lemma {:induction false} ClearBitValue(x: nat, i: nat)
    requires TestBit(x, i)
    ensures ClearBit(x, i) == x - Pow2(i)
  {
    if i > 0 {
      ClearBitValue(x / 2, i - 1);
    }
  }

  /** Clearing bit i leaves every other bit as it was and bit i unset. */
  lemma {:induction false} ClearBitBits(x: nat, i: nat, j: nat)
    ensures TestBit(ClearBit(x, i), j) <==> TestBit(x, j) && j != i
  {
    var c := ClearBit(x, i);
    if i == 0 {
      assert c == 2 * (x / 2);
      if j > 0 {
        assert c / 2 == x / 2;
      }
    } else {
      assert c % 2 == x % 2 && c / 2 == ClearBit(x / 2, i - 1);
      if j > 0 {
        ClearBitBits(x / 2, i - 1, j - 1);
      }
    }
  }

  /** The floor-log2 of 2^i is i: the slot index recovered from x - y. */
  lemma {:induction false} IntLog2OfPow2(i: nat)
    ensures IntLog2(Pow2(i)) == i
  {
    if i > 0 {
      Pow2Monotone(1, i);
      assert Pow2(i) / 2 == Pow2(i - 1);
      IntLog2OfPow2(i - 1);
    }
  }

  /** Two values below 2^w with the same w low bits are equal. */
  lemma {:induction false} BitsDetermineValue(x: nat, y: nat, w: nat)
    requires x < Pow2(w) && y < Pow2(w)
    requires forall j :: 0 <= j < w ==> (TestBit(x, j) <==> TestBit(y, j))
    ensures x == y
  {
    if w > 0 {
      assert TestBit(x, 0) <==> TestBit(y, 0);
      forall j | 0 <= j < w - 1
        ensures TestBit(x / 2, j) <==> TestBit(y / 2, j)
      {
        assert TestBit(x, j + 1) <==> TestBit(y, j + 1);
      }
      BitsDetermineValue(x / 2, y / 2, w - 1);
    }
  }

  /** The j-th bit of x is printed at position w-1-j of its bitset text. */
  lemma {:induction false} ToBinaryAt(x: nat, w: nat, j: nat)
    requires j < w
    ensures |ToBinary(x, w)| == w
    ensures ToBinary(x, w)[w - 1 - j] == BitChar(TestBit(x, j))
  {
    if j > 0 {
      ToBinaryAt(x / 2, w - 1, j - 1);
    }
  }

  /** Distinct values below 2^w have distinct bitset texts. */
  lemma ToBinaryInjective(x: nat, y: nat, w: nat)
    requires x < Pow2(w) && y < Pow2(w)
    requires ToBinary(x, w) == ToBinary(y, w)
    ensures x == y
  {
    forall j | 0 <= j < w
      ensures TestBit(x, j) <==> TestBit(y, j)
    {
      ToBinaryAt(x, w, j);
      ToBinaryAt(y, w, j);
    }
    BitsDetermineValue(x, y, w);
  }
}
