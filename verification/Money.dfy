/** The two roundings of the fare and wallet code, on exact reals. */
module Money {

  /** JavaScript's Math.round: the nearest integer, halves upward. */
  function Round(x: real): (r: int)
    ensures r as real - 0.5 <= x < r as real + 0.5
  {
    (x + 0.5).Floor
  }

  /** Round to the paisa. */
  function Round2(x: real): (r: real)
    ensures WholePaise(r)
    ensures -0.005 < r - x <= 0.005
  {
    var n := Round(x * 100.0);
    assert (n as real / 100.0) * 100.0 == n as real;
    n as real / 100.0
  }

  /** JavaScript's Math.ceil. */
  function Ceil(x: real): (r: int)
    ensures r as real - 1.0 < x <= r as real
  {
    -((-x).Floor)
  }

  predicate Whole(x: real) {
    x.Floor as real == x
  }

  predicate WholePaise(x: real) {
    Whole(x * 100.0)
  }

  function Abs(x: int): nat {
    if x < 0 then -x else x
  }

  lemma RoundOfWhole(n: int)
    ensures Round(n as real) == n
  {
  }

  lemma Round2OfWholePaise(x: real)
    requires WholePaise(x)
    ensures Round2(x) == x
  {
    RoundOfWhole((x * 100.0).Floor);
  }

  lemma WholeIff(x: real, n: int)
    requires x == n as real
    ensures Whole(x) && x.Floor == n
  {
  }

  lemma WholeSum(x: real, y: real)
    requires Whole(x) && Whole(y)
    ensures Whole(x + y) && Whole(x - y)
  {
    WholeIff(x + y, x.Floor + y.Floor);
    WholeIff(x - y, x.Floor - y.Floor);
  }

  /** Rounding a sum of whole paise to the paisa changes nothing. */
  lemma RoundingWholePaise(x: real, y: real)
    requires WholePaise(x) && WholePaise(y)
    ensures WholePaise(x + y) && Round2(x + y) == x + y
    ensures WholePaise(x - y) && Round2(x - y) == x - y
  {
    WholeSum(x * 100.0, y * 100.0);
    assert (x + y) * 100.0 == x * 100.0 + y * 100.0;
    assert (x - y) * 100.0 == x * 100.0 - y * 100.0;
    Round2OfWholePaise(x + y);
    Round2OfWholePaise(x - y);
  }

  lemma WholeRupeesAreWholePaise(n: int)
    ensures WholePaise(n as real)
  {
    assert n as real * 100.0 == (n * 100) as real;
  }

  lemma RoundKeepsOrder(x: real, y: real)
    requires x <= y
    ensures Round(x) <= Round(y)
  {
  }

  lemma Round2KeepsOrder(x: real, y: real)
    requires x <= y
    ensures Round2(x) <= Round2(y)
  {
    RoundKeepsOrder(x * 100.0, y * 100.0);
  }

  /** Rounding keeps the order of two amounts scaled alike. */
  lemma ScaledKeepsOrder(x: real, y: real, k: real)
    requires x <= y && 0.0 <= k
    ensures x * k <= y * k && Round(x * k) <= Round(y * k) && Round2(x * k) <= Round2(y * k)
  {
    var a, b := x * k, y * k;
    assert a <= b;
    RoundKeepsOrder(a, b);
    Round2KeepsOrder(a, b);
  }

  /** Products of non-negative reals keep order in both factors. */
  lemma ProductKeepsOrder(a: real, b: real, c: real, d: real)
    requires 0.0 <= a <= b && 0.0 <= c <= d
    ensures 0.0 <= a * c <= b * d
  {
  }
}
