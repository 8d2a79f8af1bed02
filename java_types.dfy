/**
 * Java primitive arithmetic the time-test code relies on: 64-bit `long`
 * and 32-bit `int` with two's-complement wrap-around, and Java's integer
 * division and remainder, which truncate toward zero.
 */
module JavaTypes {

  const LONG_MIN: int := -0x8000_0000_0000_0000
  const LONG_MAX: int := 0x7FFF_FFFF_FFFF_FFFF
  const INT_MIN: int := -0x8000_0000
  const INT_MAX: int := 0x7FFF_FFFF

  type Long = x: int | LONG_MIN <= x <= LONG_MAX
  type Int32 = x: int | INT_MIN <= x <= INT_MAX

  /** Thread identities (Java `Thread` objects compared by identity). */
  type ThreadId = nat

  /** The exceptions the modelled code can throw. */
  datatype JavaError = IllegalArgumentException | IllegalStateException

  datatype Result<T> = Ok(value: T) | Err(error: JavaError)

  /** The outcome of a `void` method: it returns normally or throws. */
  datatype Outcome = Pass | Fail(error: JavaError)

  datatype Option<T> = None | Some(value: T)

  /** The value a Java `long` expression yields for the mathematical value `x`. */
  function Wrap64(x: int): (r: Long)
    ensures LONG_MIN <= x <= LONG_MAX ==> r == x
    ensures (r - x) % 0x1_0000_0000_0000_0000 == 0
  {
    (x - LONG_MIN) % 0x1_0000_0000_0000_0000 + LONG_MIN
  }

  /** The value a Java `int` expression yields for the mathematical value `x`. */
  function Wrap32(x: int): (r: Int32)
    ensures INT_MIN <= x <= INT_MAX ==> r == x
    ensures (r - x) % 0x1_0000_0000 == 0
  {
    (x - INT_MIN) % 0x1_0000_0000 + INT_MIN
  }

  /** Java's `x / d` for a positive divisor: the quotient truncated toward zero. */
  function JavaDiv(x: int, d: int): (q: int)
    requires d > 0
    ensures x >= 0 ==> 0 <= q && q * d <= x < q * d + d
    ensures x < 0 ==> q <= 0 && q * d - d < x <= q * d
  {
    if x >= 0 then
      DivBracket(x, d);
      x / d
    else
      DivBracket(-x, d);
      assert -((-x) / d) * d == -(((-x) / d) * d);
      -((-x) / d)
  }

  /** Euclidean division of a non-negative dividend brackets it between consecutive multiples. */
  lemma DivBracket(n: int, d: int)
    requires n >= 0 && d > 0
    ensures 0 <= n / d
    ensures (n / d) * d <= n < (n / d) * d + d
  {
    var q, m := n / d, n % d;
    assert n == q * d + m && 0 <= m < d;
  }

  /** Java's `x % d` for a positive divisor: the remainder takes the sign of `x`. */
  function JavaRem(x: int, d: int): (r: int)
    requires d > 0
    ensures x == JavaDiv(x, d) * d + r
    ensures x >= 0 ==> 0 <= r < d
    ensures x < 0 ==> -d < r <= 0
  {
    if x >= 0 then x % d else -((-x) % d)
  }

  /**
   * Adding one and then subtracting one in 32-bit arithmetic returns the
   * starting value, even across the wrap-around at INT_MAX.
   */
  lemma IncDecWrap32(c: Int32)
    ensures Wrap32(Wrap32(c + 1) - 1) == c
  {
    if c == INT_MAX {
      assert Wrap32(c + 1) == INT_MIN;
    }
  }

  /** Subtracting one and then adding one in 32-bit arithmetic returns the starting value. */
  lemma DecIncWrap32(c: Int32)
    ensures Wrap32(Wrap32(c - 1) + 1) == c
  {
    if c == INT_MIN {
      assert Wrap32(c - 1) == INT_MAX;
    }
  }
}
