/** Go's `int` on a 64-bit platform: two's-complement values whose `+` and `-`
    wrap around instead of overflowing. */
module GoInt {

  const Modulus: int := 0x1_0000_0000_0000_0000
  const MinInt: int := -0x8000_0000_0000_0000
  const MaxInt: int := 0x7fff_ffff_ffff_ffff

  type Int = x: int | MinInt <= x <= MaxInt

  /** Reduces a mathematical integer to the 64-bit int with the same low 64 bits. */
  function Wrap(x: int): (r: Int)
    ensures (x - r) % Modulus == 0
    ensures MinInt <= x <= MaxInt ==> r == x
  {
    (x - MinInt) % Modulus + MinInt
  }

  /** The template helper `add`: `a + b` on Go ints. The result is the true sum
      when it fits, and is off by exactly 2^64 when the sum overflows. */
  function Add(a: Int, b: Int): (r: Int)
    ensures MinInt <= a + b <= MaxInt ==> r == a + b
    ensures a + b > MaxInt ==> r == a + b - Modulus
    ensures a + b < MinInt ==> r == a + b + Modulus
  {
    Wrap(a + b)
  }

  /** The template helper `sub`: `a - b` on Go ints, wrapping like `Add`. */
  function Sub(a: Int, b: Int): (r: Int)
    ensures MinInt <= a - b <= MaxInt ==> r == a - b
    ensures a - b > MaxInt ==> r == a - b - Modulus
    ensures a - b < MinInt ==> r == a - b + Modulus
  {
    Wrap(a - b)
  }

  /** `sub(add(a, b), b) == a` for every pair of ints, overflow included. */
  lemma SubAddInverse(a: Int, b: Int)
    ensures Sub(Add(a, b), b) == a
  {
  }

  /** `add(sub(a, b), b) == a` for every pair of ints, overflow included. */
  lemma AddSubInverse(a: Int, b: Int)
    ensures Add(Sub(a, b), b) == a
  {
  }
}
