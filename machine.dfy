/**
  The C types and operators of a 64-bit target that the bump allocator and the
  file readers compute with: `size_t`, `int`, `char` bytes, and the bitwise
  AND behind the alignment mask `& ~7`.
*/
module Machine {

  /** 2^64: one past the largest `size_t` value. */
  const SIZE_T_LIMIT: nat := 0x1_0000_0000_0000_0000

  /** The largest value of the 32-bit C `int` used for file sizes. */
  const INT_MAX: nat := 0x7FFF_FFFF

  /** The largest value of the 64-bit C `long` that `ftell` returns. */
  const LONG_MAX: nat := 0x7FFF_FFFF_FFFF_FFFF

  type SizeT = x: nat | x < SIZE_T_LIMIT

  type Int32 = x: int | -0x8000_0000 <= x <= 0x7FFF_FFFF

  type Byte = bv8

  /** A pointer that is either NULL or designates a byte offset. */
  datatype Option<T> = None | Some(value: T)

  /** `~7` on `size_t`: the `int` value -8 converted to an unsigned 64-bit value. */
  const NOT_SEVEN: nat := SIZE_T_LIMIT - 8

  function Pow2(k: nat): (r: nat)
    ensures r >= 1
  {
    if k == 0 then 1 else 2 * Pow2(k - 1)
  }

  /** C's `&` on unsigned values, one bit at a time from the least significant. */
  function BitAnd(a: nat, b: nat): (r: nat)
    ensures r <= a && r <= b
  {
    if a == 0 || b == 0 then 0
    else 2 * BitAnd(a / 2, b / 2) + (a % 2) * (b % 2)
  }

  lemma {:induction false} Pow2Add(a: nat, b: nat)
    ensures Pow2(a + b) == Pow2(a) * Pow2(b)
  {
    if a > 0 {
      Pow2Add(a - 1, b);
    }
  }

  /** 2^61, the weight of the highest bit kept by `& ~7` once the three low bits are gone. */
  lemma Pow2Of61()
    ensures Pow2(61) == 0x2000_0000_0000_0000
  {
    assert Pow2(10) == 1024;
    Pow2Add(10, 10);
    Pow2Add(20, 20);
    Pow2Add(40, 20);
    Pow2Add(60, 1);
  }

  /** ANDing with a mask of ones keeps every bit of a smaller value. */
  lemma {:induction false} BitAndLowOnes(x: nat, k: nat)
    requires x < Pow2(k)
    ensures BitAnd(x, Pow2(k) - 1) == x
  {
    if x != 0 {
      var p := Pow2(k - 1);
      assert (2 * p - 1) / 2 == p - 1 && (2 * p - 1) % 2 == 1;
      BitAndLowOnes(x / 2, k - 1);
    }
  }

  /** A mask whose lowest bit is clear shifts out the lowest bit of the value. */
  lemma BitAndEvenMask(x: nat, m: nat)
    ensures BitAnd(x, 2 * m) == 2 * BitAnd(x / 2, m)
  {
    if x != 0 && m != 0 {
      assert (2 * m) / 2 == m && (2 * m) % 2 == 0;
    }
  }

  /** `x & ~7` on a `size_t` clears exactly the three low bits of `x`. */
  lemma MaskClearsLowBits(x: nat)
    requires x < SIZE_T_LIMIT
    ensures BitAnd(x, NOT_SEVEN) == x - x % 8
  {
    var m := Pow2(61) - 1;
    Pow2Of61();
    assert NOT_SEVEN == 2 * (2 * (2 * m));
    BitAndEvenMask(x, 2 * (2 * m));
    BitAndEvenMask(x / 2, 2 * m);
    BitAndEvenMask(x / 2 / 2, m);
    assert x / 2 / 2 / 2 == x / 8;
    BitAndLowOnes(x / 8, 61);
  }

  /** Adding a multiple of 8 modulo 2^64 keeps the remainder modulo 8. */
  lemma WrapKeepsResidue(a: nat, b: nat)
    requires a < SIZE_T_LIMIT && b < SIZE_T_LIMIT && b % 8 == 0
    ensures (a + b) % SIZE_T_LIMIT % 8 == a % 8
  {
    var q := 0x2000_0000_0000_0000;
    assert SIZE_T_LIMIT == 8 * q;
    if a + b >= SIZE_T_LIMIT {
      assert (a + b) % SIZE_T_LIMIT == a + b - 8 * q;
      assert (a + b - 8 * q) % 8 == (a + b) % 8;
    }
  }
}
