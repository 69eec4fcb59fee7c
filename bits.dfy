/** Powers of two and single-bit tests, as the mesher uses them on the cube
    configuration index (`1 << i`) and on edge masks (`1 << i & edges`). */
module Bits {

  /** 2^n, the value of `1 << n` for the small shift counts used here. */
  function Pow2(n: nat): (p: nat)
    ensures p >= 1
  {
    if n == 0 then 1 else 2 * Pow2(n - 1)
  }

  /** Bit `i` of `v`. Division and remainder are Euclidean, so for a negative
      `v` this is bit `i` of its two's-complement form, as `1 << i & v != 0`. */
  predicate Bit(v: int, i: nat)
    decreases i
  {
    if i == 0 then v % 2 == 1 else Bit(v / 2, i - 1)
  }

  /** A value below 2^n has no bit set at position n or above. */
  lemma {:induction false} BitAboveWidth(a: int, n: nat, i: nat)
    requires 0 <= a < Pow2(n) && n <= i
    ensures !Bit(a, i)
  {
    if i == 0 {
      assert a == 0;
    } else if n == 0 {
      assert a == 0 && a / 2 == 0;
      BitAboveWidth(a / 2, 0, i - 1);
    } else {
      BitAboveWidth(a / 2, n - 1, i - 1);
    }
  }

  /** Adding 2^n to a value below 2^n sets bit n and leaves every other bit. */
  lemma {:induction false} BitOfAddPow2(a: int, n: nat, i: nat)
    requires 0 <= a < Pow2(n)
    ensures Bit(a + Pow2(n), i) <==> (i == n || (i < n && Bit(a, i)))
  {
    if n == 0 {
      assert a == 0;
      if i > 0 {
        BitAboveWidth(0, 0, i - 1);
      }
    } else if i > 0 {
      assert (a + Pow2(n)) / 2 == a / 2 + Pow2(n - 1);
      BitOfAddPow2(a / 2, n - 1, i - 1);
    }
  }
}
