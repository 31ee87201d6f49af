/**
 * Pixel coordinates of the player's box. The game stores positions as
 * doubles and turns an edge into a pixel with `(int) (v + 0.5)`: the Java
 * cast truncates toward zero, so this is round-half-up only for
 * v >= -0.5. On the negative side it rounds toward zero instead.
 */
module Pixels {

  /** Java's narrowing conversion from double to int (truncation toward zero). */
  function JavaIntCast(v: real): (r: int)
    ensures v >= 0.0 ==> 0 <= r && r as real <= v < r as real + 1.0
    ensures v < 0.0 ==> r <= 0 && r as real - 1.0 < v <= r as real
  {
    if v >= 0.0 then v.Floor else -((-v).Floor)
  }

  /** The pixel an edge at coordinate v is drawn on: `(int) (v + 0.5)`. */
  function Pixel(v: real): (p: int)
    ensures v >= -0.5 ==> v - 0.5 < p as real <= v + 0.5
    ensures v < -0.5 ==> v + 0.5 <= p as real < v + 1.5
  {
    JavaIntCast(v + 0.5)
  }

  /** On the non-negative half-plane, shifting a coordinate by a whole
      number of units shifts its pixel by the same amount. */
  lemma PixelShift(v: real, k: int)
    requires v >= -0.5 && k >= 0
    ensures Pixel(v + k as real) == Pixel(v) + k
  {
    var p, q := Pixel(v), Pixel(v + k as real);
    assert v - 0.5 < p as real <= v + 0.5;
    assert v + k as real - 0.5 < q as real <= v + k as real + 0.5;
  }

  /** Whole coordinates land on their own pixel when they are non-negative,
      and one pixel to the right of it when they are negative. */
  lemma PixelOfWhole(n: int)
    ensures n >= 0 ==> Pixel(n as real) == n
    ensures n < 0 ==> Pixel(n as real) == n + 1
  {
    var p := Pixel(n as real);
    if n >= 0 {
      assert n as real - 0.5 < p as real <= n as real + 0.5;
    } else {
      assert n as real + 0.5 <= p as real < n as real + 1.5;
    }
  }

  /** Left of the origin the cast does not round to nearest: -1.2 is drawn
      on pixel 0, not on pixel -1. */
  lemma PixelNotNearestBelowZero()
    ensures Pixel(-1.2) == 0
  {
  }
}
