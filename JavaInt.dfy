/** Java's 32-bit `int`: the range of the type and the wrap-around of its arithmetic. */
module JavaInt {

  const INT_MIN: int := -0x8000_0000
  const INT_MAX: int := 0x7fff_ffff
  const MODULUS: int := 0x1_0000_0000

  /** The values of a Java `int`. Integer.parseInt only ever produces one of these. */
  type int32 = x: int | -0x8000_0000 <= x <= 0x7fff_ffff

  /** The `int` that Java's arithmetic leaves behind when the exact result is `x`:
      two's complement wrap-around modulo 2^32. */
  function Wrap32(x: int): (r: int32)
    ensures (x - r) % MODULUS == 0
    ensures INT_MIN <= x <= INT_MAX ==> r == x
  {
    var m := x % MODULUS;
    if m <= INT_MAX then m else m - MODULUS
  }

  /** Two exact values that differ by a multiple of 2^32 wrap to the same `int`. */
  lemma Wrap32Congruent(x: int, y: int)
    requires (x - y) % MODULUS == 0
    ensures Wrap32(x) == Wrap32(y)
  {
  }

  lemma ModAddMultiple(y: int, q: int)
    ensures (y + q * MODULUS) % MODULUS == y % MODULUS
  {
  }

  /** Wrapping an intermediate product does not change the wrapped end result:
      Java's `(a * b) * k` in `int` equals the exact `a * b * k` taken modulo 2^32. */
  lemma Wrap32Mul(x: int, k: int)
    ensures Wrap32(Wrap32(x) * k) == Wrap32(x * k)
  {
    var w := Wrap32(x);
    var q := (x - w) / MODULUS;
    assert x - w == q * MODULUS;
    assert x * k - w * k == (q * k) * MODULUS by {
      assert x * k - w * k == (x - w) * k;
    }
    ModAddMultiple(w * k, q * k);
    assert (x * k) % MODULUS == (w * k) % MODULUS;
    assert (x * k - w * k) % MODULUS == 0 by {
      ModAddMultiple(0, q * k);
    }
    Wrap32Congruent(x * k, w * k);
  }
}
