/**
 * algorist/random.py: the three sampling helpers. The process-wide random source
 * is not modelled; each helper receives the draw it would have taken from it.
 */
module Random {
  import opened Wrappers

  /** `randint` refuses an empty range `[0, sides - 1]` with a ValueError. */
  datatype RandomError = EmptyRange

  /** rnd(r): `u` is the draw of `random.random()`, which lies in [0, 1). */
  function Rnd(r: real, u: real): (v: real)
    requires 0.0 <= u < 1.0
    ensures r > 0.0 ==> -r <= v < r
    ensures r == 0.0 ==> v == 0.0
    ensures r < 0.0 ==> r < v <= -r
    ensures u == 0.5 ==> v == 0.0
  {
    var k := 2.0 * u - 1.0;
    ProductSigns(k + 1.0, r);
    ProductSigns(1.0 - k, r);
    assert (k + 1.0) * r == k * r + r && (1.0 - k) * r == r - k * r;
    assert (u - 0.5) * 2.0 * r == k * r;
    (u - 0.5) * 2.0 * r
  }

  /** prnd(r): `u` is the draw of `random.random()`. */
  function Prnd(r: real, u: real): (v: real)
    requires 0.0 <= u < 1.0
    ensures r > 0.0 ==> 0.0 <= v < r
    ensures r == 0.0 ==> v == 0.0
    ensures r < 0.0 ==> r < v <= 0.0
  {
    ProductSigns(u, r);
    ProductSigns(1.0 - u, r);
    assert (1.0 - u) * r == r - u * r;
    u * r
  }

  /** The sign of a product of a non-negative factor and a signed one. */
  lemma ProductSigns(a: real, b: real)
    requires a >= 0.0
    ensures b > 0.0 ==> a * b >= 0.0 && (a > 0.0 ==> a * b > 0.0)
    ensures b < 0.0 ==> a * b <= 0.0 && (a > 0.0 ==> a * b < 0.0)
  {
  }

  /**
   * coinflip(sides): `draw` is the result of `random.randint(0, sides - 1)`,
   * which exists only when that range is not empty.
   */
  function Coinflip(sides: int, draw: int): (r: Result<bool, RandomError>)
    requires sides >= 1 ==> 0 <= draw < sides
    ensures r.Failure? <==> sides < 1
    ensures r.Success? ==> (r.value <==> draw == 1)
  {
    if sides < 1 then Failure(EmptyRange) else Success(draw == 1)
  }

  /** The draws for which a coin with `sides` sides comes up true. */
  ghost function WinningDraws(sides: int): set<int>
  {
    set d | 0 <= d < sides && Coinflip(sides, d) == Success(true)
  }

  /** A one-sided coin always comes up false: its only draw is 0. */
  lemma OneSidedCoinIsFalse(draw: int)
    requires 0 <= draw < 1
    ensures Coinflip(1, draw) == Success(false)
  {
  }

  /**
   * For two or more sides exactly one of the `sides` equally likely draws wins,
   * and it is the literal draw 1, whatever the number of sides.
   */
  lemma {:induction false} ExactlyOneWinningDraw(sides: int)
    requires sides >= 2
    ensures WinningDraws(sides) == {1}
    ensures |WinningDraws(sides)| == 1
  {
    var w := WinningDraws(sides);
    forall d | d in w ensures d == 1 {
    }
    assert 1 in w;
    assert w == {1};
  }
}
