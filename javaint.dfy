/**
 * Java's 32-bit `int` arithmetic, written out so that the model can say
 * exactly where an expression of MusicPlayer.java leaves the range of `int`.
 */
module JavaInt {

  /** Integer.MAX_VALUE; also the largest possible length of a Java array. */
  const MaxInt: int := 0x7fff_ffff
  const MinInt: int := -0x8000_0000

  predicate InRange(x: int) {
    MinInt <= x <= MaxInt
  }

  /** Two's-complement wrap-around of an exact result into `int`. */
  function Wrap(x: int): (r: int)
    ensures InRange(r)
    ensures InRange(x) ==> r == x
    ensures (r - x) % 0x1_0000_0000 == 0
  {
    (x - MinInt) % 0x1_0000_0000 + MinInt
  }

  /**
   * Java's `%`: the remainder of division rounded toward zero, so the result
   * has the sign of the dividend (Dafny's own `%` is never negative).
   */
  function Rem(a: int, b: int): (r: int)
    requires b != 0
    ensures a >= 0 ==> 0 <= r < if b > 0 then b else -b
    ensures a < 0 ==> -(if b > 0 then b else -b) < r <= 0
    ensures a >= 0 && b > 0 ==> r == a % b
  {
    var m := if b > 0 then b else -b;
    if a >= 0 then a % m else -((-a) % m)
  }
}
