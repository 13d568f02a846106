/**
  Travel minutes on the grid: Euclidean distance, scaled, rounded half to even,
  and lifted to a minimum. Rounding breaks the triangle inequality, but never by
  more than one minute.
 */
module Grid {
  import opened Domain
  import opened Maximality

  /** `round(x)` to the nearest integer, ties to the even one, for x >= 0. */
  function Round(x: real): (r: int)
    requires x >= 0.0
    ensures x - 0.5 <= r as real <= x + 0.5
    ensures r as real == x - 0.5 || r as real == x + 0.5 ==> r % 2 == 0
    ensures r >= 0
  {
    var f := x.Floor;
    var rest := x - f as real;
    if rest < 0.5 || (rest == 0.5 && f % 2 == 0) then f else f + 1
  }

  function Times(x: real, y: real): real {
    x * y
  }

  function Square(x: real): real {
    Times(x, x)
  }

  /** `d` is the hypotenuse over the coordinate differences. */
  ghost predicate IsDistance(a: Point, b: Point, d: real) {
    d >= 0.0 && d * d == Square(a.x - b.x) + Square(a.y - b.y)
  }

  /** `math.hypot` on exact reals. */
  ghost predicate Hypot(dist: (Point, Point) -> real) {
    forall a, b :: IsDistance(a, b, dist(a, b))
  }

  lemma Positive(x: real, y: real)
    requires x > 0.0 && y > 0.0
    ensures Times(x, y) > 0.0
  {
  }

  lemma SquareGrows(x: real, y: real)
    requires x > y >= 0.0
    ensures x * x > y * y
  {
    var d := x - y;
    Positive(d, x + y);
    assert x * x == y * y + d * (y + x) by {
      assert x * x == (y + d) * x == y * x + d * x;
      assert y * x == y * (y + d) == y * y + y * d;
    }
  }

  lemma SquareOrder(x: real, y: real)
    requires y >= 0.0 && Square(x) <= Square(y)
    ensures x <= y
  {
    if x > y {
      SquareGrows(x, y);
    }
  }

  /** Cauchy-Schwarz in the plane: the inner product is at most the product of the lengths. */
  lemma InnerProduct(p: real, q: real, r: real, s: real, u: real, v: real)
    requires u >= 0.0 && v >= 0.0
    requires u * u == p * p + q * q && v * v == r * r + s * s
    ensures p * r + q * s <= u * v
  {
    var dot, cross := p * r + q * s, p * s - q * r;
    assert (u * v) * (u * v) == (u * u) * (v * v);
    Lagrange(p, q, r, s);
    assert cross * cross >= 0.0;
    assert Square(dot) <= Square(u * v);
    assert u * v >= 0.0;
    SquareOrder(dot, u * v);
  }

  lemma Lagrange(p: real, q: real, r: real, s: real)
    ensures (p * p + q * q) * (r * r + s * s)
         == (p * r + q * s) * (p * r + q * s) + (p * s - q * r) * (p * s - q * r)
  {
    var a, b, c, d := p * r, q * s, p * s, q * r;
    assert (p * p) * (r * r) == a * a && (q * q) * (s * s) == b * b;
    assert (p * p) * (s * s) == c * c && (q * q) * (r * r) == d * d;
    assert a * b == c * d;
    assert (a + b) * (a + b) == a * a + 2.0 * (a * b) + b * b;
    assert (c - d) * (c - d) == c * c - 2.0 * (c * d) + d * d;
    assert (p * p + q * q) * (r * r + s * s)
        == (p * p) * (r * r) + (p * p) * (s * s) + (q * q) * (r * r) + (q * q) * (s * s);
  }

  lemma Triangle(dist: (Point, Point) -> real, a: Point, b: Point, c: Point)
    requires Hypot(dist)
    ensures dist(a, c) <= dist(a, b) + dist(b, c)
  {
    var u, v, d := dist(a, b), dist(b, c), dist(a, c);
    assert IsDistance(a, b, u) && IsDistance(b, c, v) && IsDistance(a, c, d);
    var p, q, r, s := a.x - b.x, a.y - b.y, b.x - c.x, b.y - c.y;
    InnerProduct(p, q, r, s, u, v);
    assert a.x - c.x == p + r && a.y - c.y == q + s;
    assert Square(p + r) == p * p + 2.0 * (p * r) + r * r;
    assert Square(q + s) == q * q + 2.0 * (q * s) + s * s;
    assert Square(u + v) == u * u + 2.0 * (u * v) + v * v;
    assert Square(d) <= Square(u + v);
    SquareOrder(d, u + v);
  }

  /** The distance is zero only from a place to itself. */
  lemma ZeroDistance(dist: (Point, Point) -> real, a: Point, b: Point)
    requires Hypot(dist)
    ensures dist(a, b) == 0.0 <==> a == b
  {
    var d := dist(a, b);
    assert IsDistance(a, b, d);
    if a == b {
      SquareSign(d);
    } else {
      NonZeroSum(a.x - b.x, a.y - b.y);
    }
  }

  lemma NonZeroSum(x: real, y: real)
    requires x != 0.0 || y != 0.0
    ensures Square(x) + Square(y) > 0.0
  {
    SquareSign(x);
    SquareSign(y);
  }

  lemma SquareSign(x: real)
    ensures if x == 0.0 then Square(x) == 0.0 else Square(x) > 0.0
  {
    if x != 0.0 {
      NonZeroSquare(x);
    }
  }

  lemma NonZeroSquare(x: real)
    requires x != 0.0
    ensures Square(x) > 0.0
  {
    if x > 0.0 {
      Positive(x, x);
    } else {
      NegativeSquare(x);
    }
  }

  lemma NegativeSquare(x: real)
    requires x < 0.0
    ensures Square(x) > 0.0
  {
    var n := 0.0 - x;
    Positive(n, n);
    NegatedSquare(x, n);
  }

  lemma NegatedSquare(x: real, n: real)
    requires n == 0.0 - x
    ensures Square(x) == Square(n)
  {
    assert n * n == 0.0 - x * n;
    assert x * n == 0.0 - x * x;
  }

  /** `EuclideanTravelTimeProvider.minutes`. */
  function Minutes(dist: (Point, Point) -> real, perUnit: real, least: nat, a: Point, b: Point): nat
    requires perUnit > 0.0 && dist(a, b) >= 0.0
  {
    if dist(a, b) == 0.0 then 0
    else
      assert Times(dist(a, b), perUnit) >= 0.0;
      var rounded := Round(Times(dist(a, b), perUnit));
      if rounded >= least then rounded else least
  }

  /** A travel function that is the grid provider with some scale and minimum. */
  ghost predicate IsGrid(m: Travel, dist: (Point, Point) -> real, perUnit: real, least: nat) {
    && Hypot(dist) && perUnit > 0.0
    && forall a, b :: dist(a, b) >= 0.0 && m(a, b) == Minutes(dist, perUnit, least, a, b)
  }

  lemma RoundSum(x: real, y: real, z: real)
    requires 0.0 <= x && 0.0 <= y && 0.0 <= z <= x + y
    ensures Round(z) <= Round(x) + Round(y) + 1
  {
    assert Round(z) as real <= z + 0.5 && Round(x) as real >= x - 0.5 && Round(y) as real >= y - 0.5;
    assert Round(z) as real <= (Round(x) + Round(y)) as real + 1.5;
  }

  /** One triple of distances. */
  lemma RoundedTriple(perUnit: real, least: nat, x: real, y: real, z: real)
    requires perUnit > 0.0 && x > 0.0 && y > 0.0 && 0.0 <= z <= x + y
    ensures Times(x, perUnit) >= 0.0 && Times(y, perUnit) >= 0.0 && Times(z, perUnit) >= 0.0
    ensures Max(Round(Times(z, perUnit)), least) <= Max(Round(Times(x, perUnit)), least) + Max(Round(Times(y, perUnit)), least) + 1
  {
    hide Round, Times;
    Scaled(perUnit, x, y, z);
    RoundSum(Times(x, perUnit), Times(y, perUnit), Times(z, perUnit));
  }

  lemma MinutesAre(dist: (Point, Point) -> real, perUnit: real, least: nat, a: Point, b: Point)
    requires Hypot(dist) && perUnit > 0.0 && dist(a, b) >= 0.0
    ensures a == b ==> Minutes(dist, perUnit, least, a, b) == 0
    ensures Times(dist(a, b), perUnit) >= 0.0
    ensures a != b ==> dist(a, b) > 0.0
                       && Minutes(dist, perUnit, least, a, b) == Max(Round(Times(dist(a, b), perUnit)), least)
  {
    hide Round, Times;
    ZeroDistance(dist, a, b);
    Scaled(perUnit, dist(a, b), 0.0, dist(a, b));
  }

  /**
    Rounded grid minutes satisfy the triangle inequality up to one minute, for
    every scale and every minimum.
   */
  lemma GridIsSlackTriangle(m: Travel, dist: (Point, Point) -> real, perUnit: real, least: nat)
    requires IsGrid(m, dist, perUnit, least)
    ensures SlackTriangle(m)
  {
    hide Round, Minutes, Hypot, Times;
    forall a, b, c ensures m(a, c) <= m(a, b) + m(b, c) + 1 {
      GridTriple(m, dist, perUnit, least, a, b, c);
    }
  }

  lemma GridTriple(m: Travel, dist: (Point, Point) -> real, perUnit: real, least: nat, a: Point, b: Point, c: Point)
    requires IsGrid(m, dist, perUnit, least)
    ensures m(a, c) <= m(a, b) + m(b, c) + 1
  {
    hide Round, Minutes, Hypot, Times;
    assert m(a, c) == Minutes(dist, perUnit, least, a, c);
    assert m(a, b) == Minutes(dist, perUnit, least, a, b);
    assert m(b, c) == Minutes(dist, perUnit, least, b, c);
    MinutesAre(dist, perUnit, least, a, c);
    MinutesAre(dist, perUnit, least, a, b);
    MinutesAre(dist, perUnit, least, b, c);
    if a == b {
      assert m(a, c) == m(b, c);
    } else if b == c {
      assert m(a, c) == m(a, b);
    } else {
      Triangle(dist, a, b, c);
      var x, y, z := dist(a, b), dist(b, c), dist(a, c);
      RoundedTriple(perUnit, least, x, y, z);
      assert m(a, b) == Max(Round(Times(x, perUnit)), least);
      assert m(b, c) == Max(Round(Times(y, perUnit)), least);
      if a != c {
        assert m(a, c) == Max(Round(Times(z, perUnit)), least);
      }
    }
  }

  lemma Scaled(k: real, x: real, y: real, z: real)
    requires k > 0.0 && x >= 0.0 && y >= 0.0 && 0.0 <= z <= x + y
    ensures Times(x, k) >= 0.0 && Times(y, k) >= 0.0 && 0.0 <= Times(z, k) <= Times(x, k) + Times(y, k)
  {
    assert (x + y - z) * k >= 0.0;
    assert (x + y - z) * k == x * k + y * k - z * k;
  }

  // ----- the shipped provider in the service area -----

  const PER_UNIT := 0.36
  const LEAST: nat := 3

  /** Places have coordinates from 0 to 100. */
  predicate InServiceArea(p: Point) {
    0.0 <= p.x <= 100.0 && 0.0 <= p.y <= 100.0
  }

  ghost predicate Shipped(m: Travel, dist: (Point, Point) -> real) {
    IsGrid(m, dist, PER_UNIT, LEAST)
  }

  lemma DistanceBetween(dist: (Point, Point) -> real, a: Point, b: Point, low: real, high: real)
    requires Hypot(dist) && low >= 0.0 && high >= 0.0
    requires Square(low) <= Square(a.x - b.x) + Square(a.y - b.y) <= Square(high)
    ensures low <= dist(a, b) <= high
  {
    var d := dist(a, b);
    assert IsDistance(a, b, d);
    hide Hypot;
    assert Square(d) == Square(a.x - b.x) + Square(a.y - b.y);
    hide IsDistance, Square;
    SquareOrder(low, d);
    SquareOrder(d, high);
  }

  lemma ScaledBetween(d: real, low: real, high: real)
    requires 0.0 <= low <= d <= high
    ensures 0.36 * low <= Times(d, PER_UNIT) <= 0.36 * high
  {
  }

  lemma RoundsTo(x: real, n: nat)
    requires n as real - 0.5 < x < n as real + 0.5 && x >= 0.0
    ensures Round(x) == n
  {
    hide Round;
    assert n as real - 1.0 < Round(x) as real < n as real + 1.0;
    assert (n - 1) as real < Round(x) as real < (n + 1) as real;
  }

  /** The minutes of a leg whose distance is known closely enough. */
  lemma LegMinutes(m: Travel, dist: (Point, Point) -> real, a: Point, b: Point, low: real, high: real, n: nat)
    requires Shipped(m, dist) && a != b && 0.0 <= low <= dist(a, b) <= high && n >= LEAST
    requires n as real - 0.5 < 0.36 * low && 0.36 * high < n as real + 0.5
    ensures m(a, b) == n
  {
    assert m(a, b) == Minutes(dist, PER_UNIT, LEAST, a, b);
    MinutesAre(dist, PER_UNIT, LEAST, a, b);
    hide Hypot, Minutes, Round, Times;
    ScaledBetween(dist(a, b), low, high);
    RoundsTo(Times(dist(a, b), PER_UNIT), n);
  }

  const CORNER := Point(0.0, 0.0)
  const CENTRE := Point(50.0, 50.0)
  const OPPOSITE := Point(100.0, 100.0)

  predicate Apart(a: Point, b: Point, d: real) {
    (a.x - b.x == d && a.y - b.y == d) || (a.x - b.x == 0.0 - d && a.y - b.y == 0.0 - d)
  }

  lemma DiagonalLeg(m: Travel, dist: (Point, Point) -> real, a: Point, b: Point, d: real, low: real, high: real, n: nat)
    requires Shipped(m, dist) && Apart(a, b, d) && d > 0.0 && 0.0 <= low && 0.0 <= high && n >= LEAST
    requires Square(low) <= Square(d) + Square(d) <= Square(high)
    requires n as real - 0.5 < 0.36 * low && 0.36 * high < n as real + 0.5
    ensures m(a, b) == n
  {
    NegatedSquare(0.0 - d, d);
    hide Hypot, Square;
    DistanceBetween(dist, a, b, low, high);
    LegMinutes(m, dist, a, b, low, high, n);
  }

  lemma CornersApart()
    ensures Apart(CORNER, OPPOSITE, 100.0) && Apart(OPPOSITE, CORNER, 100.0)
    ensures Apart(CORNER, CENTRE, 50.0) && Apart(CENTRE, CORNER, 50.0)
    ensures Apart(CENTRE, OPPOSITE, 50.0) && Apart(OPPOSITE, CENTRE, 50.0)
    ensures Square(140.3) <= Square(100.0) + Square(100.0) <= Square(141.5)
    ensures Square(70.7) <= Square(50.0) + Square(50.0) <= Square(70.72)
  {
  }

  /** Across the service area in one leg, and in two halves that both round down. */
  lemma AcrossTheArea(m: Travel, dist: (Point, Point) -> real)
    requires Shipped(m, dist)
    ensures m(CORNER, OPPOSITE) == m(OPPOSITE, CORNER) == 51
    ensures m(CORNER, CENTRE) == m(CENTRE, OPPOSITE) == m(OPPOSITE, CENTRE) == m(CENTRE, CORNER) == 25
  {
    hide Shipped, Square, Apart;
    CornersApart();
    DiagonalLeg(m, dist, CORNER, OPPOSITE, 100.0, 140.3, 141.5, 51);
    DiagonalLeg(m, dist, OPPOSITE, CORNER, 100.0, 140.3, 141.5, 51);
    DiagonalLeg(m, dist, CORNER, CENTRE, 50.0, 70.7, 70.72, 25);
    DiagonalLeg(m, dist, CENTRE, CORNER, 50.0, 70.7, 70.72, 25);
    DiagonalLeg(m, dist, CENTRE, OPPOSITE, 50.0, 70.7, 70.72, 25);
    DiagonalLeg(m, dist, OPPOSITE, CENTRE, 50.0, 70.7, 70.72, 25);
  }

  /** The minute of slack is needed with the shipped scale and minimum. */
  lemma SlackIsNeeded(m: Travel, dist: (Point, Point) -> real)
    requires Shipped(m, dist)
    ensures m(CORNER, OPPOSITE) == m(CORNER, CENTRE) + m(CENTRE, OPPOSITE) + 1
  {
    hide Shipped;
    AcrossTheArea(m, dist);
  }

  lemma NotNegative(x: real, y: real)
    requires x >= 0.0 && y >= 0.0
    ensures Times(x, y) >= 0.0
  {
    if x > 0.0 && y > 0.0 {
      Positive(x, y);
    }
  }

  lemma SquareBound(x: real)
    requires -100.0 <= x <= 100.0
    ensures Square(x) <= 10000.0
  {
    NotNegative(100.0 - x, 100.0 + x);
    assert (100.0 - x) * (100.0 + x) == 10000.0 - x * x;
  }

  lemma DistanceAtMost(dist: (Point, Point) -> real, a: Point, b: Point)
    requires Hypot(dist) && InServiceArea(a) && InServiceArea(b)
    ensures 0.0 <= dist(a, b) <= 141.5
  {
    SquareBound(a.x - b.x);
    SquareBound(a.y - b.y);
    assert IsDistance(a, b, dist(a, b));
    assert Square(141.5) >= 20000.0;
    hide Hypot;
    assert Square(dist(a, b)) <= Square(141.5);
    hide IsDistance, Square;
    SquareOrder(dist(a, b), 141.5);
  }

  /** No leg inside the service area takes longer than the diagonal. */
  lemma LongestLeg(m: Travel, dist: (Point, Point) -> real, a: Point, b: Point)
    requires Shipped(m, dist) && InServiceArea(a) && InServiceArea(b)
    ensures m(a, b) <= 51
  {
    DistanceAtMost(dist, a, b);
    assert m(a, b) == Minutes(dist, PER_UNIT, LEAST, a, b);
    MinutesAre(dist, PER_UNIT, LEAST, a, b);
    hide Hypot, Minutes, Round, Times;
    if a != b {
      ScaledBetween(dist(a, b), 0.0, 141.5);
      assert Round(Times(dist(a, b), PER_UNIT)) as real < 52.0;
      assert Round(Times(dist(a, b), PER_UNIT)) < 52;
    }
  }
}
