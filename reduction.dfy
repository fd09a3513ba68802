/** The per-point filter chain of the cloud-to-scan conversion and the reduction of
    a stream of points into a fixed number of angular bins, as pure functions.

    Geometry is exact (`real`). The two numerical library calls the conversion makes,
    `atan2` and `sqrt`, are parameters of the model (a `Numerics` record); what the
    proofs need of `sqrt` is stated by `SqrtExact`. A NaN coordinate is the constructor
    `Scalar.NaN`. */
module Reduction {

  /** M_PI, to the seventeen significant digits a double carries. */
  const PI: real := 3.141592653589793

  /** One coordinate of a point: a number, or NaN (no measurement). */
  datatype Scalar = Num(value: real) | NaN

  /** A point of the cloud, already expressed in the frame of the virtual sensor. */
  datatype Point = Point(x: Scalar, y: Scalar, z: Scalar)

  /** The eight numeric parameters of the node, as one reconfiguration delivers them. */
  datatype Config = Config(
    minHeight: real, maxHeight: real,
    angleMin: real, angleMax: real, angleIncrement: real,
    scanTime: real,
    rangeMin: real, rangeMax: real)

  /** The node's compiled-in defaults. */
  const Defaults: Config :=
    Config(0.10, 0.15, -PI / 2.0, PI / 2.0, PI / 180.0 / 2.0, 1.0 / 30.0, 0.45, 10.0)

  /** What the filter chain reads: the height band, the cached squared minimum range
      and the angular window. */
  datatype Filter = Filter(
    minHeight: real, maxHeight: real,
    rangeMinSq: real,
    angleMin: real, angleMax: real, angleIncrement: real)

  /** The filter of a configuration whose squared minimum range is up to date. */
  function FilterOf(c: Config): Filter {
    Filter(c.minHeight, c.maxHeight, c.rangeMin * c.rangeMin, c.angleMin, c.angleMax, c.angleIncrement)
  }

  /** The numerical library: `atan2(y, x)` and `sqrt(v)`. */
  datatype Numerics = Numerics(atan2: (real, real) -> real, sqrt: real -> real)

  /** `sqrt` returns the non-negative square root of every non-negative number. */
  ghost predicate SqrtExact(sqrt: real -> real) {
    forall v :: 0.0 <= v ==> 0.0 <= sqrt(v) && sqrt(v) * sqrt(v) == v
  }

  /** Why a point is left out of the scan, or the bin it lands in and its squared range. */
  datatype Verdict =
    | NotANumber
    | OutsideHeight
    | TooClose
    | OutsideWindow
    | OutsideBins
    | Hit(index: int, rangeSq: real)

  // ---------------------------------------------------------------- rounding

  /** `std::ceil`: the least integer not below `v`. */
  function Ceil(v: real): (c: int)
    ensures v <= c as real < v + 1.0
  {
    -((-v).Floor)
  }

  /** Conversion of a floating-point value to an integer type: rounds toward zero. */
  function Trunc(v: real): (t: int)
    ensures 0.0 <= v ==> 0 <= t && t as real <= v < t as real + 1.0
    ensures v < 0.0 ==> t <= 0 && t as real - 1.0 < v <= t as real
  {
    if 0.0 <= v then v.Floor else -((-v).Floor)
  }

  predicate IsIntegral(v: real) {
    v.Floor as real == v
  }

  // ---------------------------------------------------------------- bins

  /** The bin count is a well-defined `uint32`: the increment is not zero (no division by
      zero) and the rounded-up quotient lies in the range of the unsigned 32-bit type. */
  predicate WindowDefined(f: Filter) {
    f.angleIncrement != 0.0 && 0 <= Ceil((f.angleMax - f.angleMin) / f.angleIncrement) < 0x1_0000_0000
  }

  /** The number of ranges in a scan: `ceil((angle_max - angle_min) / angle_increment)`.
      With a positive increment, that many bins of width `angle_increment` cover the
      window and one fewer would not. */
  function BinCount(f: Filter): (n: nat)
    requires WindowDefined(f)
    ensures n < 0x1_0000_0000
    ensures 0.0 < f.angleIncrement ==>
      f.angleMax - f.angleMin <= n as real * f.angleIncrement &&
      n as real * f.angleIncrement - f.angleIncrement < f.angleMax - f.angleMin
  {
    var n := Ceil((f.angleMax - f.angleMin) / f.angleIncrement);
    if 0.0 < f.angleIncrement then
      var w := (f.angleMax - f.angleMin) / f.angleIncrement;
      assert w * f.angleIncrement == f.angleMax - f.angleMin;
      CoverLemma(f.angleMax - f.angleMin, f.angleIncrement, w, n);
      n
    else n
  }

  lemma CoverLemma(width: real, inc: real, w: real, n: int)
    requires 0.0 < inc && w * inc == width && w <= n as real < w + 1.0
    ensures width <= n as real * inc && n as real * inc - inc < width
  {
    CoverAbove(width, inc, w, n as real);
    CoverBelow(width, inc, w, n as real);
  }

  lemma CoverAbove(width: real, inc: real, w: real, m: real)
    requires 0.0 < inc && w * inc == width && w <= m
    ensures width <= m * inc
  {
    ProductNonNegative(m - w, inc);
    assert (m - w) * inc == m * inc - w * inc;
  }

  lemma CoverBelow(width: real, inc: real, w: real, m: real)
    requires 0.0 < inc && w * inc == width && m < w + 1.0
    ensures m * inc - inc < width
  {
    var d := w + 1.0 - m;
    ProductPositive(d, inc);
    assert d * inc == w * inc + inc - m * inc;
    assert w * inc + inc - m * inc > 0.0;
    assert w * inc > m * inc - inc;
  }

  lemma ProductNonNegative(a: real, b: real)
    requires 0.0 <= a && 0.0 <= b
    ensures 0.0 <= a * b
  {
  }

  lemma ProductPositive(a: real, b: real)
    requires 0.0 < a && 0.0 < b
    ensures 0.0 < a * b
  {
  }

  /** The fill value of a bin no point has reached. */
  function Sentinels(n: nat, fill: real): (r: seq<real>)
    ensures |r| == n && forall k :: 0 <= k < n ==> r[k] == fill
  {
    seq(n, _ => fill)
  }

  // ---------------------------------------------------------------- one point

  /** The horizontal squared range of a point, `y*y + x*x`. */
  function RangeSq(x: real, y: real): real {
    y * y + x * x
  }

  /** The bearing of a point, `-atan2(-y, x)`. */
  function Bearing(x: real, y: real, atan2: (real, real) -> real): real {
    -atan2(-y, x)
  }

  /** The filter chain as written: NaN, then height band, then minimum range, then the
      angular window; a point that passes all four lands in bin
      `(int)((angle - angle_min) / angle_increment)`, whether or not that bin exists. */
  function Classify(f: Filter, p: Point, atan2: (real, real) -> real): (v: Verdict)
    requires f.angleIncrement != 0.0
    ensures v.NotANumber? <==> p.x.NaN? || p.y.NaN? || p.z.NaN?
    ensures v.Hit? ==> f.rangeMinSq <= v.rangeSq
  {
    if p.x.NaN? || p.y.NaN? || p.z.NaN? then NotANumber
    else
      var x, y, z := p.x.value, p.y.value, p.z.value;
      if z > f.maxHeight || z < f.minHeight then OutsideHeight
      else
        var rangeSq := RangeSq(x, y);
        if rangeSq < f.rangeMinSq then TooClose
        else
          var angle := Bearing(x, y, atan2);
          if angle < f.angleMin || angle > f.angleMax then OutsideWindow
          else Hit(Trunc((angle - f.angleMin) / f.angleIncrement), rangeSq)
  }

  /** A point is accepted exactly when it passes every filter; it then carries its own
      squared range. */
  lemma HitIffPassesEveryFilter(f: Filter, p: Point, atan2: (real, real) -> real)
    requires f.angleIncrement != 0.0
    ensures Classify(f, p, atan2).Hit? <==>
      && p.x.Num? && p.y.Num? && p.z.Num?
      && f.minHeight <= p.z.value <= f.maxHeight
      && f.rangeMinSq <= RangeSq(p.x.value, p.y.value)
      && f.angleMin <= Bearing(p.x.value, p.y.value, atan2) <= f.angleMax
    ensures Classify(f, p, atan2).Hit? ==>
      && Classify(f, p, atan2).rangeSq == RangeSq(p.x.value, p.y.value)
      && Classify(f, p, atan2).index
         == Trunc((Bearing(p.x.value, p.y.value, atan2) - f.angleMin) / f.angleIncrement)
  {
  }

  /** With a positive increment, an accepted point's bin index is at least zero and at
      most `ceil((angle_max - angle_min) / angle_increment)`, the bin count; it equals
      the bin count, one past the last bin, exactly when the point lies on `angle_max`
      and the window is a whole number of increments. */
  lemma HitIndexWithinWindow(f: Filter, p: Point, atan2: (real, real) -> real)
    requires 0.0 < f.angleIncrement
    ensures Classify(f, p, atan2).Hit? ==>
      && 0 <= Classify(f, p, atan2).index <= Ceil((f.angleMax - f.angleMin) / f.angleIncrement)
      && (Classify(f, p, atan2).index == Ceil((f.angleMax - f.angleMin) / f.angleIncrement) <==>
            Bearing(p.x.value, p.y.value, atan2) == f.angleMax &&
            IsIntegral((f.angleMax - f.angleMin) / f.angleIncrement))
  {
    if Classify(f, p, atan2).Hit? {
      var angle := Bearing(p.x.value, p.y.value, atan2);
      var inc := f.angleIncrement;
      var v := (angle - f.angleMin) / inc;
      var w := (f.angleMax - f.angleMin) / inc;
      DivideMonotone(0.0, angle - f.angleMin, inc);
      DivideMonotone(angle - f.angleMin, f.angleMax - f.angleMin, inc);
      assert 0.0 <= v <= w;
      var i := Classify(f, p, atan2).index;
      assert i == v.Floor;
      if i == Ceil(w) {
        assert v == w;
        DivideCancel(angle - f.angleMin, f.angleMax - f.angleMin, inc);
      }
    }
  }

  lemma DivideMonotone(a: real, b: real, c: real)
    requires a <= b && 0.0 < c
    ensures a / c <= b / c
  {
    assert (a / c) * c == a && (b / c) * c == b;
  }

  lemma DivideCancel(a: real, b: real, c: real)
    requires 0.0 < c && a / c == b / c
    ensures a == b
  {
    assert (a / c) * c == a && (b / c) * c == b;
  }

  /** The bin-index guard the loop needs: an accepted point lands only in a bin that
      exists; a point whose index falls outside `[0, n)` is dropped, and every other
      point is classified exactly as written. */
  function Guarded(f: Filter, n: nat, p: Point, atan2: (real, real) -> real): (v: Verdict)
    requires f.angleIncrement != 0.0
    ensures v.Hit? ==> 0 <= v.index < n
    ensures v.OutsideBins? <==> Classify(f, p, atan2).Hit? && !(0 <= Classify(f, p, atan2).index < n)
    ensures !v.OutsideBins? ==> v == Classify(f, p, atan2)
  {
    var c := Classify(f, p, atan2);
    if c.Hit? && !(0 <= c.index < n) then OutsideBins else c
  }

  /** With the scan's own bin count and a positive increment, the guard drops exactly
      the boundary points of `HitIndexWithinWindow` and nothing else. */
  lemma GuardDropsOnlyBoundaryPoints(f: Filter, p: Point, atan2: (real, real) -> real)
    requires WindowDefined(f) && 0.0 < f.angleIncrement
    ensures Guarded(f, BinCount(f), p, atan2) != Classify(f, p, atan2) <==>
      && Classify(f, p, atan2).Hit?
      && Bearing(p.x.value, p.y.value, atan2) == f.angleMax
      && IsIntegral((f.angleMax - f.angleMin) / f.angleIncrement)
  {
    HitIndexWithinWindow(f, p, atan2);
  }

  /** The as-written index leaves the ranges array: with the default configuration, a
      point straight to the left (on `angle_max = pi/2`) lands in bin 360 of a scan
      that has 360 bins. */
  lemma BoundaryPointIndexesPastEnd(atan2: (real, real) -> real)
    requires atan2(-1.0, 0.0) == -PI / 2.0
    ensures WindowDefined(FilterOf(Defaults))
    ensures BinCount(FilterOf(Defaults)) == 360
    ensures Classify(FilterOf(Defaults), Point(Num(0.0), Num(1.0), Num(0.12)), atan2) == Hit(360, 1.0)
    ensures Guarded(FilterOf(Defaults), 360, Point(Num(0.0), Num(1.0), Num(0.12)), atan2) == OutsideBins
  {
    var f := FilterOf(Defaults);
    assert (f.angleMax - f.angleMin) / f.angleIncrement == 360.0;
    assert Bearing(0.0, 1.0, atan2) == PI / 2.0;
    assert (PI / 2.0 - f.angleMin) / f.angleIncrement == 360.0;
  }

  // ---------------------------------------------------------------- reduction

  /** Whether point `p` lands in bin `k` of a scan with `n` bins. */
  predicate Lands(f: Filter, n: nat, atan2: (real, real) -> real, p: Point, k: int)
    requires f.angleIncrement != 0.0
  {
    var v := Guarded(f, n, p, atan2);
    v.Hit? && v.index == k
  }

  /** The range a point that lands in a bin offers to it. */
  function Contribution(f: Filter, n: nat, num: Numerics, p: Point): real
    requires f.angleIncrement != 0.0 && Guarded(f, n, p, num.atan2).Hit?
  {
    num.sqrt(Guarded(f, n, p, num.atan2).rangeSq)
  }

  /** One pass of the loop body: a point that lands in bin `i` overwrites it with its
      range when the stored range, squared, is strictly larger than its squared range.
      Only that bin can change, only to a strictly closer range, and a tie keeps the
      stored value. */
  function Step(f: Filter, r: seq<real>, p: Point, num: Numerics): (r': seq<real>)
    requires f.angleIncrement != 0.0
    ensures |r'| == |r|
    ensures !Guarded(f, |r|, p, num.atan2).Hit? ==> r' == r
    ensures var v := Guarded(f, |r|, p, num.atan2);
      forall k :: 0 <= k < |r| && r'[k] != r[k] ==>
        v.Hit? && v.index == k && r[k] * r[k] > v.rangeSq && r'[k] == num.sqrt(v.rangeSq)
    ensures var v := Guarded(f, |r|, p, num.atan2);
      v.Hit? && r[v.index] * r[v.index] > v.rangeSq ==> r'[v.index] == num.sqrt(v.rangeSq)
  {
    match Guarded(f, |r|, p, num.atan2)
    case Hit(i, rangeSq) =>
      if r[i] * r[i] > rangeSq then r[i := num.sqrt(rangeSq)] else r
    case _ => r
  }

  /** The ranges after the loop has visited `pts` in order, starting from `init`. A bin
      that no point lands in keeps its initial value. */
  function Reduced(f: Filter, init: seq<real>, pts: seq<Point>, num: Numerics): (r: seq<real>)
    requires f.angleIncrement != 0.0
    ensures |r| == |init|
    ensures forall k :: 0 <= k < |init| && r[k] != init[k] ==>
      exists i :: 0 <= i < |pts| && Lands(f, |init|, num.atan2, pts[i], k)
    decreases |pts|
  {
    if pts == [] then init
    else Step(f, Reduced(f, init, pts[..|pts| - 1], num), pts[|pts| - 1], num)
  }

  /** Visiting one more point is one more step. */
  lemma ReducedExtend(f: Filter, init: seq<real>, pts: seq<Point>, i: nat, num: Numerics)
    requires f.angleIncrement != 0.0 && i < |pts|
    ensures Reduced(f, init, pts[..i + 1], num) == Step(f, Reduced(f, init, pts[..i], num), pts[i], num)
  {
    assert pts[..i + 1][..i] == pts[..i];
  }

  lemma SquareStrictMonotone(a: real, b: real)
    requires 0.0 <= a < b
    ensures a * a < b * b
  {
    assert 0.0 <= a * (b - a);
    assert 0.0 < b * (b - a);
  }

  /** No bin ever grows: once every stored range is non-negative, a step leaves every
      bin non-negative and no larger than before. */
  lemma StepNeverIncreases(f: Filter, r: seq<real>, p: Point, num: Numerics)
    requires f.angleIncrement != 0.0 && SqrtExact(num.sqrt)
    requires forall k :: 0 <= k < |r| ==> 0.0 <= r[k]
    ensures forall k :: 0 <= k < |r| ==> 0.0 <= Step(f, r, p, num)[k] <= r[k]
  {
    var r' := Step(f, r, p, num);
    forall k | 0 <= k < |r| ensures 0.0 <= r'[k] <= r[k] {
      if r'[k] != r[k] {
        var s := r'[k];
        var v := Guarded(f, |r|, p, num.atan2);
        assert 0.0 <= v.rangeSq == s * s;
        if r[k] <= s {
          SquareStrictMonotone(r[k], s);
          assert false;
        }
      }
    }
  }

  /** A point that lands in a bin leaves it no farther than its own range. */
  lemma StepBoundsLandingBin(f: Filter, r: seq<real>, p: Point, num: Numerics, k: int)
    requires f.angleIncrement != 0.0 && SqrtExact(num.sqrt)
    requires forall j :: 0 <= j < |r| ==> 0.0 <= r[j]
    requires Lands(f, |r|, num.atan2, p, k)
    ensures Step(f, r, p, num)[k] <= Contribution(f, |r|, num, p)
  {
    var v := Guarded(f, |r|, p, num.atan2);
    var s := num.sqrt(v.rangeSq);
    assert 0.0 <= v.rangeSq;
    if !(r[k] * r[k] > v.rangeSq) && r[k] > s {
      SquareStrictMonotone(s, r[k]);
    }
  }

  /** Each bin of `r` holds the minimum of its starting value and of the ranges of the
      points of `pts` that land in it: no larger than any of them, and equal to one. */
  ghost predicate IsBinMinimum(f: Filter, num: Numerics, init: seq<real>, pts: seq<Point>, r: seq<real>)
    requires f.angleIncrement != 0.0
  {
    && |r| == |init|
    && forall k :: 0 <= k < |r| ==>
      && r[k] <= init[k]
      && (forall p :: p in pts && Lands(f, |init|, num.atan2, p, k) ==>
            r[k] <= Contribution(f, |init|, num, p))
      && (r[k] == init[k] ||
          exists p :: p in pts && Lands(f, |init|, num.atan2, p, k) && r[k] == Contribution(f, |init|, num, p))
  }

  /** After the loop, every bin holds the minimum of its fill value and the ranges of the
      accepted points that land in it, and every bin stays non-negative. */
  lemma {:induction false} ReducedIsBinMinimum(f: Filter, init: seq<real>, pts: seq<Point>, num: Numerics)
    requires f.angleIncrement != 0.0 && SqrtExact(num.sqrt)
    requires forall k :: 0 <= k < |init| ==> 0.0 <= init[k]
    ensures IsBinMinimum(f, num, init, pts, Reduced(f, init, pts, num))
    ensures forall k :: 0 <= k < |init| ==> 0.0 <= Reduced(f, init, pts, num)[k]
    decreases |pts|
  {
    if pts != [] {
      var q, p := pts[..|pts| - 1], pts[|pts| - 1];
      assert pts == q + [p];
      ReducedIsBinMinimum(f, init, q, num);
      var r := Reduced(f, init, q, num);
      var r' := Step(f, r, p, num);
      assert r' == Reduced(f, init, pts, num);
      StepNeverIncreases(f, r, p, num);
      forall k | 0 <= k < |r'|
        ensures r'[k] <= init[k]
        ensures forall p' :: p' in pts && Lands(f, |init|, num.atan2, p', k) ==>
          r'[k] <= Contribution(f, |init|, num, p')
        ensures r'[k] == init[k] ||
          exists p' :: p' in pts && Lands(f, |init|, num.atan2, p', k) && r'[k] == Contribution(f, |init|, num, p')
      {
        forall p' | p' in pts && Lands(f, |init|, num.atan2, p', k)
          ensures r'[k] <= Contribution(f, |init|, num, p')
        {
          if p' == p {
            StepBoundsLandingBin(f, r, p, num, k);
          } else {
            assert p' in q;
          }
        }
        if r'[k] != r[k] {
          assert Lands(f, |init|, num.atan2, p, k) && r'[k] == Contribution(f, |init|, num, p);
        } else if r[k] != init[k] {
          var p' :| p' in q && Lands(f, |init|, num.atan2, p', k) && r[k] == Contribution(f, |init|, num, p');
          assert p' in pts;
        }
      }
    }
  }

  /** The order and the repetition of the points do not matter: two clouds with the same
      points yield the same ranges, whatever order the loop visits them in. */
  lemma ReducedOrderIndependent(f: Filter, init: seq<real>, pts1: seq<Point>, pts2: seq<Point>, num: Numerics)
    requires f.angleIncrement != 0.0 && SqrtExact(num.sqrt)
    requires forall k :: 0 <= k < |init| ==> 0.0 <= init[k]
    requires forall p :: p in pts1 <==> p in pts2
    ensures Reduced(f, init, pts1, num) == Reduced(f, init, pts2, num)
  {
    ReducedIsBinMinimum(f, init, pts1, num);
    ReducedIsBinMinimum(f, init, pts2, num);
    var r1, r2 := Reduced(f, init, pts1, num), Reduced(f, init, pts2, num);
    forall k | 0 <= k < |init| ensures r1[k] <= r2[k] {
      if r2[k] != init[k] {
        var p :| p in pts2 && Lands(f, |init|, num.atan2, p, k) && r2[k] == Contribution(f, |init|, num, p);
        assert p in pts1;
      }
    }
    forall k | 0 <= k < |init| ensures r2[k] <= r1[k] {
      if r1[k] != init[k] {
        var p :| p in pts1 && Lands(f, |init|, num.atan2, p, k) && r1[k] == Contribution(f, |init|, num, p);
        assert p in pts2;
      }
    }
  }

  // ---------------------------------------------------------------- scenarios

  /** With the defaults, a single point one metre straight ahead inside the height band
      sets bin 180 (angle 0) to 1.0 and leaves every other bin at the sentinel 11.0. */
  lemma ScenarioPointStraightAhead(num: Numerics)
    requires SqrtExact(num.sqrt) && num.atan2(0.0, 1.0) == 0.0
    ensures var f := FilterOf(Defaults);
      WindowDefined(f) && BinCount(f) == 360 &&
      Reduced(f, Sentinels(360, 11.0), [Point(Num(1.0), Num(0.0), Num(0.12))], num)
        == Sentinels(360, 11.0)[180 := 1.0]
  {
    var f := FilterOf(Defaults);
    var p := Point(Num(1.0), Num(0.0), Num(0.12));
    assert (f.angleMax - f.angleMin) / f.angleIncrement == 360.0;
    assert [p][..0] == [];
    assert Bearing(1.0, 0.0, num.atan2) == 0.0;
    assert (0.0 - f.angleMin) / f.angleIncrement == 180.0;
    assert Guarded(f, 360, p, num.atan2) == Hit(180, 1.0);
    var s := num.sqrt(1.0);
    assert 0.0 <= s && s * s == 1.0;
    if s < 1.0 { SquareStrictMonotone(s, 1.0); }
    if 1.0 < s { SquareStrictMonotone(1.0, s); }
  }

  /** A point closer than `range_min` (0.3 m against 0.45 m) changes no bin. */
  lemma ScenarioPointTooClose(init: seq<real>, num: Numerics)
    ensures Reduced(FilterOf(Defaults), init, [Point(Num(0.3), Num(0.0), Num(0.12))], num) == init
  {
    var p := Point(Num(0.3), Num(0.0), Num(0.12));
    assert [p][..0] == [];
    assert Classify(FilterOf(Defaults), p, num.atan2) == TooClose;
  }

  /** A point above `max_height` (0.20 m against 0.15 m) changes no bin, whatever its
      horizontal coordinates. */
  lemma ScenarioPointTooHigh(init: seq<real>, x: Scalar, y: Scalar, num: Numerics)
    ensures Reduced(FilterOf(Defaults), init, [Point(x, y, Num(0.20))], num) == init
  {
    var p := Point(x, y, Num(0.20));
    assert [p][..0] == [];
    assert !Classify(FilterOf(Defaults), p, num.atan2).Hit?;
  }
}
