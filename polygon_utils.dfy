/** The point-in-polygon test of tk_builder/utils/geometry_utils/polygon_utils.py,
    over exact reals. */
module PolygonUtils {
  import opened Wrappers

  datatype Point = Point(x: real, y: real)

  function Min(a: real, b: real): real { if a <= b then a else b }
  function Max(a: real, b: real): real { if a <= b then b else a }

  /** The x coordinate at which the edge p1-p2 crosses the horizontal line at `y`. */
  function Intercept(y: real, p1: Point, p2: Point): real
    requires p1.y != p2.y
  {
    (y - p1.y) * (p2.x - p1.x) / (p2.y - p1.y) + p1.x
  }

  /** The nested tests of one loop iteration, for the pair (p1, p2). The
      intercept is only needed once the y tests hold, and they fail for a
      horizontal pair, so the division is never by zero. */
  predicate EdgePasses(x: real, y: real, p1: Point, p2: Point)
  {
    y > Min(p1.y, p2.y) && y <= Max(p1.y, p2.y) && x <= Max(p1.x, p2.x) &&
    (p1.x == p2.x || x <= Intercept(y, p1, p2))
  }

  /** The first point of the pair visited at iteration `i` of `range(n + 1)`:
      `poly[0]` before the loop, then the previous iteration's second point. */
  function PairStart(poly: seq<Point>, i: nat): Point
    requires 0 < |poly| && i <= |poly|
  {
    if i == 0 then poly[0] else poly[i - 1]
  }

  /** The second point of that pair, `poly[i % n]`: the closing edge returns to `poly[0]`. */
  function PairEnd(poly: seq<Point>, i: nat): Point
    requires 0 < |poly| && i <= |poly|
  {
    if i < |poly| then poly[i] else poly[0]
  }

  /** Whether iteration `i` passes all tests. */
  predicate Passes(x: real, y: real, poly: seq<Point>, i: nat)
    requires 0 < |poly| && i <= |poly|
  {
    EdgePasses(x, y, PairStart(poly, i), PairEnd(poly, i))
  }

  /** What the function returns: some iteration passes (`inside` is only ever set to True). */
  predicate Inside(x: real, y: real, poly: seq<Point>)
    requires 0 < |poly|
  {
    exists i :: 0 <= i <= |poly| && Passes(x, y, poly, i)
  }

  /** Whether one of the first `k` iterations passes. */
  function PassedBefore(x: real, y: real, poly: seq<Point>, k: nat): bool
    requires 0 < |poly| && k <= |poly| + 1
  {
    k > 0 && (PassedBefore(x, y, poly, k - 1) || Passes(x, y, poly, k - 1))
  }

  lemma {:induction false} PassedBeforeIsSome(x: real, y: real, poly: seq<Point>, k: nat)
    requires 0 < |poly| && k <= |poly| + 1
    ensures PassedBefore(x, y, poly, k) <==> exists j :: 0 <= j < k && Passes(x, y, poly, j)
  {
    if k > 0 {
      PassedBeforeIsSome(x, y, poly, k - 1);
    }
  }

  /** `i % n` over `range(n + 1)`: the last iteration wraps to 0. */
  lemma {:induction false} WrapIndex(i: nat, n: nat)
    requires 0 < n && i <= n
    ensures i % n == if i < n then i else 0
  {
  }

  /** `point_inside_polygon(x, y, poly)` as written; an empty polygon fails at `poly[0]`. */
  method PointInsidePolygon(x: real, y: real, poly: seq<Point>) returns (r: Result<bool>)
    ensures |poly| == 0 ==> r == Raise(IndexError)
    ensures |poly| > 0 ==> r == Ok(Inside(x, y, poly))
  {
    if |poly| == 0 {
      return Raise(IndexError);
    }
    var n := |poly|;
    var inside := false;
    var p1 := poly[0];
    var xinters: real := 0.0;
    var i := 0;
    while i < n + 1
      invariant 0 <= i <= n + 1
      invariant i <= n ==> p1 == PairStart(poly, i)
      invariant inside == PassedBefore(x, y, poly, i)
    {
      WrapIndex(i, n);
      var p2 := poly[i % n];
      assert p2 == PairEnd(poly, i);
      if y > Min(p1.y, p2.y) {
        if y <= Max(p1.y, p2.y) {
          if x <= Max(p1.x, p2.x) {
            if p1.y != p2.y {
              xinters := Intercept(y, p1, p2);
            }
            if p1.x == p2.x || x <= xinters {
              inside := true;
            }
          }
        }
      }
      p1 := p2;
      i := i + 1;
    }
    PassedBeforeIsSome(x, y, poly, n + 1);
    return Ok(inside);
  }

  /** A point on or below every vertex, or above every vertex, is reported outside. */
  lemma {:induction false} OutsideVerticalRange(x: real, y: real, poly: seq<Point>)
    requires 0 < |poly|
    requires (forall k :: 0 <= k < |poly| ==> y <= poly[k].y) || (forall k :: 0 <= k < |poly| ==> y > poly[k].y)
    ensures !Inside(x, y, poly)
  {
    forall i | 0 <= i <= |poly|
      ensures !Passes(x, y, poly, i)
    {
      var p1, p2 := PairStart(poly, i), PairEnd(poly, i);
      assert p1 in poly && p2 in poly;
    }
  }

  /** The unit square, counter-clockwise. */
  function UnitSquare(): (s: seq<Point>)
    ensures |s| == 4
  {
    [Point(0.0, 0.0), Point(1.0, 0.0), Point(1.0, 1.0), Point(0.0, 1.0)]
  }

  /** As written, a point left of the unit square is reported inside: the
      vertical edge at x = 1 passes all tests, and nothing ever resets `inside`. */
  lemma {:induction false} LeftOfSquareReportedInside()
    ensures Inside(-1.0, 0.5, UnitSquare())
  {
    assert Passes(-1.0, 0.5, UnitSquare(), 2);
  }

  // ---------------------------------------------------------------------
  // The even-odd rule the function evidently intends: each passing pair
  // toggles `inside`.

  /** The number of passing iterations among the first `k`. */
  function Crossings(x: real, y: real, poly: seq<Point>, k: nat): nat
    requires 0 < |poly| && k <= |poly| + 1
  {
    if k == 0 then 0
    else Crossings(x, y, poly, k - 1) + (if Passes(x, y, poly, k - 1) then 1 else 0)
  }

  /** The corrected test: `inside = not inside` for every passing pair. */
  method PointInsidePolygonEvenOdd(x: real, y: real, poly: seq<Point>) returns (r: Result<bool>)
    ensures |poly| == 0 ==> r == Raise(IndexError)
    ensures |poly| > 0 ==> r == Ok(Crossings(x, y, poly, |poly| + 1) % 2 == 1)
  {
    if |poly| == 0 {
      return Raise(IndexError);
    }
    var n := |poly|;
    var inside := false;
    var p1 := poly[0];
    var xinters: real := 0.0;
    var i := 0;
    while i < n + 1
      invariant 0 <= i <= n + 1
      invariant i <= n ==> p1 == PairStart(poly, i)
      invariant inside <==> Crossings(x, y, poly, i) % 2 == 1
    {
      WrapIndex(i, n);
      var p2 := poly[i % n];
      assert p2 == PairEnd(poly, i);
      if y > Min(p1.y, p2.y) {
        if y <= Max(p1.y, p2.y) {
          if x <= Max(p1.x, p2.x) {
            if p1.y != p2.y {
              xinters := Intercept(y, p1, p2);
            }
            if p1.x == p2.x || x <= xinters {
              inside := !inside;
            }
          }
        }
      }
      p1 := p2;
      i := i + 1;
    }
    return Ok(inside);
  }

  /** Whether a vertex lies strictly below the horizontal line at `y`. */
  predicate Below(y: real, p: Point) { p.y < y }

  /** The y tests of an iteration hold exactly when its pair straddles the line. */
  lemma {:induction false} StraddleIsYTest(y: real, p1: Point, p2: Point)
    ensures (y > Min(p1.y, p2.y) && y <= Max(p1.y, p2.y)) <==> Below(y, p1) != Below(y, p2)
  {
  }

  /** The number of iterations among the first `k` whose pair straddles the line. */
  function Straddles(y: real, poly: seq<Point>, k: nat): nat
    requires 0 < |poly| && k <= |poly| + 1
  {
    if k == 0 then 0
    else Straddles(y, poly, k - 1) + (if Below(y, PairStart(poly, k - 1)) != Below(y, PairEnd(poly, k - 1)) then 1 else 0)
  }

  /** The fraction of the way from p1 to p2 at which a straddling pair
      meets the line lies in [0, 1]. */
  lemma {:induction false} FractionInUnit(u: real, d: real)
    requires (0.0 < u <= d) || (d < u <= 0.0)
    ensures 0.0 <= u / d <= 1.0
  {
    if d < 0.0 {
      assert u / d == (-u) / (-d);
    }
  }

  lemma {:induction false} ScaledRatio(u: real, w: real, d: real)
    requires d != 0.0
    ensures u * w / d == (u / d) * w
  {
    var t := u / d;
    assert u == t * d;
    assert u * w == (t * w) * d;
  }

  lemma {:induction false} ScaleBetween(t: real, w: real)
    requires 0.0 <= t <= 1.0
    ensures Min(0.0, w) <= t * w <= Max(0.0, w)
  {
    if w >= 0.0 {
      assert t * w <= 1.0 * w;
    } else {
      assert 1.0 * w <= t * w;
    }
  }

  /** The intercept of a straddling pair lies between the pair's x coordinates. */
  lemma {:induction false} InterceptBetween(y: real, p1: Point, p2: Point)
    requires Below(y, p1) != Below(y, p2)
    ensures Min(p1.x, p2.x) <= Intercept(y, p1, p2) <= Max(p1.x, p2.x)
  {
    var u, d, w := y - p1.y, p2.y - p1.y, p2.x - p1.x;
    FractionInUnit(u, d);
    ScaledRatio(u, w, d);
    ScaleBetween(u / d, w);
    assert Intercept(y, p1, p2) == (u / d) * w + p1.x;
  }

  /** For a point left of every vertex, an iteration passes exactly when its pair straddles. */
  lemma {:induction false} LeftOfEdgePasses(x: real, y: real, p1: Point, p2: Point)
    requires x <= p1.x && x <= p2.x
    ensures EdgePasses(x, y, p1, p2) <==> Below(y, p1) != Below(y, p2)
  {
    StraddleIsYTest(y, p1, p2);
    if Below(y, p1) != Below(y, p2) {
      InterceptBetween(y, p1, p2);
    }
  }

  lemma {:induction false} LeftCrossingsAreStraddles(x: real, y: real, poly: seq<Point>, k: nat)
    requires 0 < |poly| && k <= |poly| + 1
    requires forall j :: 0 <= j < |poly| ==> x <= poly[j].x
    ensures Crossings(x, y, poly, k) == Straddles(y, poly, k)
  {
    if k > 0 {
      LeftCrossingsAreStraddles(x, y, poly, k - 1);
      var p1, p2 := PairStart(poly, k - 1), PairEnd(poly, k - 1);
      assert p1 in poly && p2 in poly;
      LeftOfEdgePasses(x, y, p1, p2);
    }
  }

  /** Along the open path poly[0..k-1], the straddle count is odd exactly when
      the two ends lie on different sides of the line. */
  lemma {:induction false} StraddleParity(y: real, poly: seq<Point>, k: nat)
    requires 1 <= k <= |poly|
    ensures Straddles(y, poly, k) % 2 == (if Below(y, poly[0]) == Below(y, poly[k - 1]) then 0 else 1)
  {
    if k > 1 {
      StraddleParity(y, poly, k - 1);
    }
  }

  /** Closing the polygon makes the straddle count even. */
  lemma {:induction false} ClosedStraddlesEven(y: real, poly: seq<Point>)
    requires 0 < |poly|
    ensures Straddles(y, poly, |poly| + 1) % 2 == 0
  {
    var n := |poly|;
    StraddleParity(y, poly, n);
  }

  /** With the even-odd rule, a point left of every vertex is outside. */
  lemma {:induction false} EvenOddLeftIsOutside(x: real, y: real, poly: seq<Point>)
    requires 0 < |poly|
    requires forall j :: 0 <= j < |poly| ==> x <= poly[j].x
    ensures Crossings(x, y, poly, |poly| + 1) % 2 == 0
  {
    LeftCrossingsAreStraddles(x, y, poly, |poly| + 1);
    ClosedStraddlesEven(y, poly);
  }

  /** With the even-odd rule, the centre of the unit square is inside. */
  lemma {:induction false} EvenOddSquareCentre()
    ensures Crossings(0.5, 0.5, UnitSquare(), 5) % 2 == 1
  {
    var sq := UnitSquare();
    assert !Passes(0.5, 0.5, sq, 0);
    assert !Passes(0.5, 0.5, sq, 1);
    assert Passes(0.5, 0.5, sq, 2);
    assert !Passes(0.5, 0.5, sq, 3);
    assert !Passes(0.5, 0.5, sq, 4);
  }
}
