/**
 * The colour arithmetic shared by algorist/transform.py, algorist/contextfree.py
 * and algorist/cfdg.py: a colour is a hue/saturation/value/alpha quadruple; a
 * colour scope adds to the hue and keeps its fractional part (`math.modf`, which
 * keeps the sign) and multiplies saturation, value and alpha, clamped to [0, 1]
 * (`bl_math.clamp` with its default bounds).
 */
module Colors {
  import opened Wrappers

  datatype Hsva = Hsva(h: real, s: real, v: real, a: real)

  datatype Rgba = Rgba(r: real, g: real, b: real, a: real)

  /** Python's `colorsys.hsv_to_rgb`, library code that is kept uninterpreted. */
  type RgbConversion = (real, real, real) -> (real, real, real)

  /** The default colour of a Transform and of a contextfree Context. */
  const DefaultColor: Hsva := Hsva(0.0, 0.0, 1.0, 1.0)

  predicate IsInteger(x: real)
  {
    x.Floor as real == x
  }

  function Abs(x: real): real
  {
    if x < 0.0 then -x else x
  }

  /**
   * `math.modf(x)[0]`: the fractional part, with the sign of `x`. The three
   * properties determine it: it differs from `x` by an integer, lies strictly
   * between -1 and 1, and never has the opposite sign of `x`.
   */
  function Frac(x: real): (f: real)
    ensures IsInteger(x - f)
    ensures -1.0 < f < 1.0
    ensures x >= 0.0 ==> 0.0 <= f
    ensures x <= 0.0 ==> f <= 0.0
  {
    if x >= 0.0 then
      var n := x.Floor;
      assert n as real <= x < n as real + 1.0;
      assert x - (x - n as real) == n as real;
      x - n as real
    else
      var n := (-x).Floor;
      assert n as real <= -x < n as real + 1.0;
      assert x - (x + n as real) == (-n) as real;
      x + n as real
  }

  /** `bl_math.clamp(x)`, bounds 0 and 1. */
  function Clamp(x: real): (c: real)
    ensures 0.0 <= c <= 1.0
    ensures 0.0 <= x <= 1.0 ==> c == x
  {
    if x < 0.0 then 0.0 else if x > 1.0 then 1.0 else x
  }

  /** Clamping picks the point of [0, 1] nearest to its argument. */
  lemma ClampIsNearest(x: real, y: real)
    requires 0.0 <= y <= 1.0
    ensures Abs(x - Clamp(x)) <= Abs(x - y)
  {
  }

  /**
   * The colour a colour scope installs, computed from `base`: a hue delta is
   * added and reduced with modf, a factor for saturation, value or alpha
   * multiplies and is clamped; a component not given passes through.
   */
  function ComposeColor(base: Hsva, hue: Option<real>, saturation: Option<real>,
                        value: Option<real>, alpha: Option<real>): (c: Hsva)
    ensures hue.None? ==> c.h == base.h
    ensures hue.Some? ==> -1.0 < c.h < 1.0 && IsInteger(base.h + hue.value - c.h)
    ensures saturation.None? ==> c.s == base.s
    ensures saturation.Some? ==> 0.0 <= c.s <= 1.0
    ensures value.None? ==> c.v == base.v
    ensures value.Some? ==> 0.0 <= c.v <= 1.0
    ensures alpha.None? ==> c.a == base.a
    ensures alpha.Some? ==> 0.0 <= c.a <= 1.0
    ensures saturation.Some? && 0.0 <= base.s * saturation.value <= 1.0 ==> c.s == base.s * saturation.value
    ensures value.Some? && 0.0 <= base.v * value.value <= 1.0 ==> c.v == base.v * value.value
    ensures alpha.Some? && 0.0 <= base.a * alpha.value <= 1.0 ==> c.a == base.a * alpha.value
  {
    Hsva(
      if hue.None? then base.h else Frac(base.h + hue.value),
      if saturation.None? then base.s else Clamp(base.s * saturation.value),
      if value.None? then base.v else Clamp(base.v * value.value),
      if alpha.None? then base.a else Clamp(base.a * alpha.value))
  }

  /** `hsva_to_rgba` (transform.py and blender.py): alpha passes through unchanged. */
  function HsvaToRgba(c: Hsva, conv: RgbConversion): (r: Rgba)
    ensures r.a == c.a
    ensures (r.r, r.g, r.b) == conv(c.h, c.s, c.v)
  {
    var rgb := conv(c.h, c.s, c.v);
    Rgba(rgb.0, rgb.1, rgb.2, c.a)
  }

  /** A full turn of hue leaves a hue in [0, 1) unchanged. */
  lemma FullTurnKeepsHue(h: real)
    requires 0.0 <= h < 1.0
    ensures Frac(h + 1.0) == h
  {
    assert (h + 1.0).Floor == 1;
  }

  /** Two hue steps agree with one step by their sum, up to a whole turn. */
  lemma {:induction false} HueStepsCongruent(h: real, d1: real, d2: real)
    ensures IsInteger(Frac(Frac(h + d1) + d2) - Frac(h + d1 + d2))
  {
    var a := Frac(h + d1);
    var k1 := (h + d1) - a;
    var k2 := (a + d2) - Frac(a + d2);
    var k3 := (h + d1 + d2) - Frac(h + d1 + d2);
    assert IsInteger(k1) && IsInteger(k2) && IsInteger(k3);
    assert Frac(a + d2) - Frac(h + d1 + d2) == k3 - k1 - k2;
    IntegerDifference(k3, k1, k2);
  }

  lemma IntegerDifference(x: real, y: real, z: real)
    requires IsInteger(x) && IsInteger(y) && IsInteger(z)
    ensures IsInteger(x - y - z)
  {
    assert x - y - z == (x.Floor - y.Floor - z.Floor) as real;
  }

  /**
   * When the running hue and the second step are not negative, stepping by
   * `d1` and then `d2` gives exactly the hue that stepping by `d1 + d2` gives
   * (0.3 then 0.8 is 1.1).
   */
  lemma {:induction false} HueStepsCompose(h: real, d1: real, d2: real)
    requires h + d1 >= 0.0 && d2 >= 0.0
    ensures Frac(Frac(h + d1) + d2) == Frac(h + d1 + d2)
  {
    var a := h + d1;
    var n := a.Floor;
    var f := a - n as real;
    assert Frac(a) == f && 0.0 <= f < 1.0;
    var m := (f + d2).Floor;
    assert (a + d2).Floor == n + m by {
      assert a + d2 == (n + m) as real + ((f + d2) - m as real);
    }
  }

  /** With a negative step the two ways can differ by a whole turn: 0.9 + 0.8 - 0.8. */
  lemma HueStepsCanDiffer()
    ensures Frac(Frac(0.9 + 0.8) + -0.8) == -0.1
    ensures Frac(0.9 + 0.8 + -0.8) == 0.9
  {
    assert (0.9 + 0.8).Floor == 1;
    assert (0.1).Floor == 0;
    assert (0.9).Floor == 0;
  }

  /** A saturation factor of 10 on a base saturation of 0.5 clamps to exactly 1. */
  lemma SaturationClamps(base: Hsva)
    requires base.s == 0.5
    ensures ComposeColor(base, None, Some(10.0), None, None).s == 1.0
  {
  }
}
