/**
 * The two Java integer conversions the labeler relies on: the narrowing cast
 * `(int)` applied to a floating-point coordinate, and 32-bit `int` addition.
 */
module JavaInt {

  const INT_MIN: int := -0x8000_0000
  const INT_MAX: int := 0x7fff_ffff

  /** A Java `int`. */
  type Int32 = n: int | -0x8000_0000 <= n <= 0x7fff_ffff

  /**
   * Java's `(int)` cast of a finite floating-point value: the value is rounded
   * toward zero, and a value beyond the `int` range saturates at its bound.
   */
  function ToInt(r: real): (n: Int32)
    ensures 0.0 <= r <= INT_MAX as real ==> n as real <= r < n as real + 1.0
    ensures INT_MIN as real <= r < 0.0 ==> n as real - 1.0 < r <= n as real
    ensures r >= INT_MAX as real ==> n == INT_MAX
    ensures r <= INT_MIN as real ==> n == INT_MIN
    ensures 0.0 <= r ==> 0 <= n
    ensures r <= 0.0 ==> n <= 0
  {
    var t := if r >= 0.0 then r.Floor else -((-r).Floor);
    if t > INT_MAX then INT_MAX else if t < INT_MIN then INT_MIN else t
  }

  /** Casting a whole number that fits in an `int` gives that number back. */
  lemma ToIntWhole(k: Int32)
    ensures ToInt(k as real) == k
  {
    if k < 0 {
      assert (-(k as real)).Floor == -(k as int);
    }
  }

  /** Casting is monotone: it never reverses the order of two coordinates. */
  lemma ToIntMonotone(a: real, b: real)
    requires a <= b
    ensures ToInt(a) <= ToInt(b)
  {
    if a < 0.0 && b < 0.0 {
      assert (-b).Floor <= (-a).Floor;
    }
  }

  /**
   * Java's `int` addition: the mathematical sum, wrapped around modulo 2^32
   * into the `int` range when it overflows.
   */
  function AddInt(a: Int32, b: Int32): (s: Int32)
    ensures (s - (a + b)) % 0x1_0000_0000 == 0
    ensures INT_MIN <= a + b <= INT_MAX ==> s == a + b
  {
    var t := a + b;
    if t > INT_MAX then t - 0x1_0000_0000 else if t < INT_MIN then t + 0x1_0000_0000 else t
  }
}
