/** Pure helpers of the coffee counter (js/utils.js): clamping, quality
    names, the linear-interpolated quantile used for the P95 latency, and the
    piecewise-linear polyline the queue walks along. Numbers are `real`. */
module Utils {

  datatype Option<T> = None | Some(value: T)

  function Min(a: real, b: real): real { if a <= b then a else b }
  function Max(a: real, b: real): real { if a >= b then a else b }
  function Abs(x: real): real { if x < 0.0 then -x else x }

  /** `Math.max(1, n)` on whole numbers. */
  function Max1(n: nat): (m: nat)
    ensures 1 <= m && n <= m
  {
    if n < 1 then 1 else n
  }

  /** `clamp(x, a, b) = max(a, min(b, x))`. */
  function Clamp(x: real, a: real, b: real): (r: real)
    ensures a <= b ==> a <= r <= b
    ensures a <= x <= b ==> r == x
    ensures r == a || r == b || r == x
  {
    Max(a, Min(b, x))
  }

  /** Display name of a quality tier. */
  function QName(q: int): (name: string)
    ensures name == "Low" <==> q == 0
    ensures name == "Medium" <==> q == 1
    ensures name == "Low" || name == "Medium" || name == "High"
  {
    if q == 0 then "Low" else if q == 1 then "Medium" else "High"
  }

  // ---------------------------------------------------------------------
  // Sums

  function Sum(s: seq<real>): real
  {
    if |s| == 0 then 0.0 else Sum(s[..|s| - 1]) + s[|s| - 1]
  }

  lemma {:induction false} SumConcat(a: seq<real>, b: seq<real>)
    ensures Sum(a + b) == Sum(a) + Sum(b)
  {
    if |b| == 0 {
      assert a + b == a;
    } else {
      var b' := b[..|b| - 1];
      assert (a + b)[..|a + b| - 1] == a + b';
      SumConcat(a, b');
    }
  }

  lemma {:induction false} SumNonneg(s: seq<real>)
    requires forall i :: 0 <= i < |s| ==> 0.0 <= s[i]
    ensures 0.0 <= Sum(s)
  {
    if |s| > 0 {
      SumNonneg(s[..|s| - 1]);
    }
  }

  /** A sum of non-negative terms that is not positive has only zero terms. */
  lemma {:induction false} SumZeroAllZero(s: seq<real>)
    requires forall i :: 0 <= i < |s| ==> 0.0 <= s[i]
    requires Sum(s) <= 0.0
    ensures forall i :: 0 <= i < |s| ==> s[i] == 0.0
  {
    if |s| > 0 {
      SumNonneg(s[..|s| - 1]);
      SumZeroAllZero(s[..|s| - 1]);
      assert forall i :: 0 <= i < |s| - 1 ==> s[i] == s[..|s| - 1][i];
    }
  }

  lemma SuffixNonneg(s: seq<real>, k: nat)
    requires k <= |s|
    requires forall i :: 0 <= i < |s| ==> 0.0 <= s[i]
    ensures 0.0 <= Sum(s[k..])
  {
    assert forall j :: 0 <= j < |s[k..]| ==> s[k..][j] == s[k + j];
    SumNonneg(s[k..]);
  }

  /** Length of the first `k` segments. */
  function Prefix(seg: seq<real>, k: nat): real
    requires k <= |seg|
  {
    Sum(seg[..k])
  }

  lemma PrefixStep(seg: seq<real>, k: nat)
    requires k < |seg|
    ensures Prefix(seg, k + 1) == Prefix(seg, k) + seg[k]
  {
    assert seg[..k + 1][..k] == seg[..k];
  }

  // ---------------------------------------------------------------------
  // Points and polylines

  datatype Point = Point(x: real, y: real)

  /** `a + (b - a) * t`, component-wise. */
  function Lerp(a: Point, b: Point, t: real): Point
  {
    Point(a.x + (b.x - a.x) * t, a.y + (b.y - a.y) * t)
  }

  /** Square of the Euclidean distance; `hypot(dx, dy) < r` iff this is below `r * r`. */
  function SqDist(a: Point, b: Point): real
  {
    (a.x - b.x) * (a.x - b.x) + (a.y - b.y) * (a.y - b.y)
  }

  /** The segment-length table `{ seg, total }` of a polyline. */
  datatype PathLens = PathLens(seg: seq<real>, total: real)

  /** What the model assumes of `Math.hypot`: a square root of dx² + dy² that
      is at least as long as either leg. */
  ghost predicate IsHypot(hypot: (real, real) -> real)
  {
    forall dx: real, dy: real {:trigger hypot(dx, dy)} ::
      && Abs(dx) <= hypot(dx, dy)
      && Abs(dy) <= hypot(dx, dy)
      && hypot(dx, dy) * hypot(dx, dy) == dx * dx + dy * dy
  }

  function SegLen(pts: seq<Point>, hypot: (real, real) -> real, i: nat): real
    requires i + 1 < |pts|
  {
    hypot(pts[i + 1].x - pts[i].x, pts[i + 1].y - pts[i].y)
  }

  /** `lens` is a faithful length table of `pts`: one non-negative length per
      segment, a zero length only between coinciding points, and the total. */
  ghost predicate Measures(pts: seq<Point>, lens: PathLens)
  {
    && |pts| >= 1
    && |lens.seg| == |pts| - 1
    && (forall i :: 0 <= i < |lens.seg| ==> 0.0 <= lens.seg[i])
    && (forall i :: 0 <= i < |lens.seg| && lens.seg[i] == 0.0 ==> pts[i] == pts[i + 1])
    && lens.total == Sum(lens.seg)
  }

  /** `pathLengths(pts)`: the length of every segment and their total. */
  method PathLengths(pts: seq<Point>, hypot: (real, real) -> real) returns (lens: PathLens)
    requires IsHypot(hypot)
    ensures |lens.seg| == if |pts| == 0 then 0 else |pts| - 1
    ensures forall i :: 0 <= i < |lens.seg| ==> lens.seg[i] == SegLen(pts, hypot, i)
    ensures forall i :: 0 <= i < |lens.seg| ==> 0.0 <= lens.seg[i]
    ensures lens.total == Sum(lens.seg)
    ensures |pts| >= 1 ==> Measures(pts, lens)
  {
    var seg: seq<real> := [];
    var total := 0.0;
    var i := 0;
    while i < |pts| - 1
      invariant 0 <= i && (|pts| >= 1 ==> i <= |pts| - 1) && (|pts| == 0 ==> i == 0)
      invariant |seg| == i
      invariant forall k :: 0 <= k < i ==> seg[k] == SegLen(pts, hypot, k)
      invariant forall k :: 0 <= k < i ==> 0.0 <= seg[k]
      invariant total == Sum(seg)
    {
      var len := hypot(pts[i + 1].x - pts[i].x, pts[i + 1].y - pts[i].y);
      assert 0.0 <= len;
      assert (seg + [len])[..|seg|] == seg;
      seg := seg + [len];
      total := total + len;
      i := i + 1;
    }
    lens := PathLens(seg, total);
    forall k | 0 <= k < |seg| && seg[k] == 0.0
      ensures pts[k] == pts[k + 1]
    {
      var dx, dy := pts[k + 1].x - pts[k].x, pts[k + 1].y - pts[k].y;
      assert seg[k] == hypot(dx, dy);
      assert pts[k + 1] == Point(pts[k].x + dx, pts[k].y + dy);
    }
  }

  /** The walk of `pointOnPath` from segment `i` with `d` distance left. */
  function WalkSegs(pts: seq<Point>, seg: seq<real>, d: real, i: nat): Point
    requires |pts| >= 1 && |seg| >= |pts| - 1 && i <= |pts| - 1
    decreases |pts| - i
  {
    if i == |pts| - 1 then pts[|pts| - 1]
    else if d <= seg[i] then Lerp(pts[i], pts[i + 1], if seg[i] == 0.0 then 0.0 else d / seg[i])
    else WalkSegs(pts, seg, d - seg[i], i + 1)
  }

  /** The point at distance `dist` along the polyline (specification of `pointOnPath`). */
  function PointAt(pts: seq<Point>, lens: PathLens, dist: real): Point
    requires |pts| >= 1 && |lens.seg| >= |pts| - 1
  {
    WalkSegs(pts, lens.seg, Clamp(dist, 0.0, lens.total), 0)
  }

  /** `pointOnPath(pts, lens, dist)`. */
  method PointOnPath(pts: seq<Point>, lens: PathLens, dist: real) returns (p: Point)
    requires |pts| >= 1 && |lens.seg| >= |pts| - 1
    ensures p == PointAt(pts, lens, dist)
  {
    var d := Clamp(dist, 0.0, lens.total);
    var i := 0;
    while i < |pts| - 1
      invariant 0 <= i <= |pts| - 1
      invariant WalkSegs(pts, lens.seg, d, i) == PointAt(pts, lens, dist)
    {
      var len := lens.seg[i];
      if d <= len {
        var t := if len == 0.0 then 0.0 else d / len;
        return Lerp(pts[i], pts[i + 1], t);
      }
      d := d - len;
      i := i + 1;
    }
    p := pts[|pts| - 1];
  }

  /** A distance at or before the start gives the first point. */
  lemma PointAtStart(pts: seq<Point>, lens: PathLens, dist: real)
    requires Measures(pts, lens)
    requires dist <= 0.0
    ensures PointAt(pts, lens, dist) == pts[0]
  {
    assert Clamp(dist, 0.0, lens.total) == 0.0;
  }

  lemma {:induction false} ZeroTail(pts: seq<Point>, lens: PathLens, i: nat)
    requires Measures(pts, lens) && i <= |pts| - 1
    requires forall j :: i <= j < |lens.seg| ==> lens.seg[j] == 0.0
    ensures pts[i] == pts[|pts| - 1]
    decreases |pts| - i
  {
    if i < |pts| - 1 {
      ZeroTail(pts, lens, i + 1);
    }
  }

  lemma {:induction false} SumFront(s: seq<real>)
    requires |s| > 0
    ensures Sum(s) == s[0] + Sum(s[1..])
  {
    var n := |s|;
    if n == 1 {
      assert s[..0] == [] && s[1..] == [];
    } else {
      var init := s[..n - 1];
      SumFront(init);
      assert init[1..] == s[1..][..n - 2];
      assert s[1..][n - 2] == s[n - 1];
    }
  }

  /** Stopping in segment `i` with nothing after it left to walk lands on the end. */
  lemma StopBeforeZeroTail(pts: seq<Point>, lens: PathLens, d: real, i: nat)
    requires Measures(pts, lens) && i < |pts| - 1
    requires d == lens.seg[i] && Sum(lens.seg[i + 1..]) == 0.0
    ensures Lerp(pts[i], pts[i + 1], if d == 0.0 then 0.0 else d / d) == pts[|pts| - 1]
  {
    var rest := lens.seg[i + 1..];
    assert forall j :: 0 <= j < |rest| ==> rest[j] == lens.seg[i + 1 + j];
    SumZeroAllZero(rest);
    ZeroTail(pts, lens, i + 1);
    if d == 0.0 {
      assert Lerp(pts[i], pts[i + 1], 0.0) == pts[i];
    } else {
      assert d / d == 1.0;
      assert Lerp(pts[i], pts[i + 1], 1.0) == pts[i + 1];
    }
  }

  lemma {:induction false} WalkToEnd(pts: seq<Point>, lens: PathLens, d: real, i: nat)
    requires Measures(pts, lens) && i <= |pts| - 1
    requires d == Sum(lens.seg[i..])
    ensures WalkSegs(pts, lens.seg, d, i) == pts[|pts| - 1]
    decreases |pts| - i
  {
    var seg := lens.seg;
    if i < |pts| - 1 {
      SumFront(seg[i..]);
      assert seg[i..][1..] == seg[i + 1..];
      SuffixNonneg(seg, i + 1);
      if d <= seg[i] {
        StopBeforeZeroTail(pts, lens, d, i);
      } else {
        WalkToEnd(pts, lens, d - seg[i], i + 1);
      }
    }
  }

  /** A distance at or past the total gives the last point. */
  lemma PointAtEnd(pts: seq<Point>, lens: PathLens, dist: real)
    requires Measures(pts, lens)
    requires dist >= lens.total
    ensures PointAt(pts, lens, dist) == pts[|pts| - 1]
  {
    SumNonneg(lens.seg);
    assert Clamp(dist, 0.0, lens.total) == lens.total;
    assert lens.seg[0..] == lens.seg;
    WalkToEnd(pts, lens, lens.total, 0);
  }

  lemma {:induction false} WalkFindsSegment(pts: seq<Point>, seg: seq<real>, dist: real, i: nat, k: nat)
    requires |pts| >= 1 && |seg| == |pts| - 1
    requires i <= k < |pts| - 1
    requires dist <= Prefix(seg, k + 1)
    requires forall j :: i < j <= k ==> Prefix(seg, j) < dist
    ensures WalkSegs(pts, seg, dist - Prefix(seg, i), i)
         == Lerp(pts[k], pts[k + 1], if seg[k] == 0.0 then 0.0 else (dist - Prefix(seg, k)) / seg[k])
    decreases k - i
  {
    PrefixStep(seg, i);
    if i < k {
      WalkFindsSegment(pts, seg, dist, i + 1, k);
    }
  }

  /** `pointOnPath` interpolates inside the first segment whose end lies at or
      beyond `dist`, at a fraction `t` in [0, 1]; a zero-length segment gives
      its start point. */
  lemma PointAtFirstFit(pts: seq<Point>, lens: PathLens, dist: real, k: nat)
    requires Measures(pts, lens)
    requires k < |pts| - 1
    requires 0.0 <= dist <= Prefix(lens.seg, k + 1)
    requires forall j :: 0 < j <= k ==> Prefix(lens.seg, j) < dist
    ensures var left := dist - Prefix(lens.seg, k);
            var t := if lens.seg[k] == 0.0 then 0.0 else left / lens.seg[k];
            && 0.0 <= t <= 1.0
            && PointAt(pts, lens, dist) == Lerp(pts[k], pts[k + 1], t)
            && (lens.seg[k] == 0.0 ==> PointAt(pts, lens, dist) == pts[k])
  {
    var seg := lens.seg;
    // the clamp does not move `dist`
    assert seg == seg[..k + 1] + seg[k + 1..];
    SumConcat(seg[..k + 1], seg[k + 1..]);
    SuffixNonneg(seg, k + 1);
    assert Clamp(dist, 0.0, lens.total) == dist;
    assert seg[..0] == [];
    WalkFindsSegment(pts, seg, dist, 0, k);
    PrefixStep(seg, k);
    var left := dist - Prefix(seg, k);
    if k > 0 {
      assert Prefix(lens.seg, k) < dist;
    }
    assert 0.0 <= left <= seg[k];
    if seg[k] != 0.0 {
      DivAtMostOne(left, seg[k]);
    } else {
      assert Lerp(pts[k], pts[k + 1], 0.0) == pts[k];
    }
  }

  // ---------------------------------------------------------------------
  // Sorting and the quantile

  predicate SortedAsc(s: seq<real>)
  {
    forall i, j :: 0 <= i < j < |s| ==> s[i] <= s[j]
  }

  function Insert(x: real, s: seq<real>): (r: seq<real>)
    ensures |r| == |s| + 1
    ensures multiset(r) == multiset(s) + multiset{x}
    ensures forall k :: 0 <= k < |r| ==> r[k] == x || r[k] in s
  {
    if s == [] || x <= s[0] then [x] + s
    else
      assert s == [s[0]] + s[1..];
      [s[0]] + Insert(x, s[1..])
  }

  lemma {:induction false} InsertSorted(x: real, s: seq<real>)
    requires SortedAsc(s)
    ensures SortedAsc(Insert(x, s))
  {
    if s == [] || x <= s[0] {
      assert forall j :: 0 <= j < |s| ==> x <= s[j];
    } else {
      InsertSorted(x, s[1..]);
      var tail := Insert(x, s[1..]);
      assert forall k :: 0 <= k < |tail| ==> s[0] <= tail[k];
    }
  }

  /** The ascending copy that `[...arr].sort((x, y) => x - y)` produces. */
  function SortAsc(s: seq<real>): (r: seq<real>)
    ensures |r| == |s|
    ensures multiset(r) == multiset(s)
    ensures SortedAsc(r)
  {
    if s == [] then [] else
      assert s == [s[0]] + s[1..];
      InsertSorted(s[0], SortAsc(s[1..]));
      Insert(s[0], SortAsc(s[1..]))
  }

  lemma {:induction false} SortAscOfSorted(s: seq<real>)
    requires SortedAsc(s)
    ensures SortAsc(s) == s
  {
    if s != [] {
      SortAscOfSorted(s[1..]);
      assert s == [s[0]] + s[1..];
    }
  }

  /** `Math.ceil`. */
  function Ceil(x: real): (c: int)
    ensures x <= c as real < x + 1.0
    ensures c == x.Floor <==> x.Floor as real == x
    ensures c <= x.Floor + 1
  {
    if x.Floor as real == x then x.Floor else x.Floor + 1
  }

  lemma MulNonneg(a: real, b: real)
    requires 0.0 <= a && 0.0 <= b
    ensures 0.0 <= a * b
  {
  }

  lemma MulMono(m: real, q1: real, q2: real)
    requires 0.0 <= m && q1 <= q2
    ensures m * q1 <= m * q2
  {
    MulNonneg(m, q2 - q1);
    assert m * q2 - m * q1 == m * (q2 - q1);
  }

  lemma DivAtMostOne(a: real, b: real)
    requires 0.0 <= a <= b && 0.0 < b
    ensures 0.0 <= a / b <= 1.0
  {
  }

  /** The fractional rank `(n - 1) * q` that `quantile` interpolates at. */
  function Rank(n: nat, q: real): (i: real)
    requires 0 < n && 0.0 <= q <= 1.0
    ensures 0.0 <= i <= (n - 1) as real
  {
    MulNonneg((n - 1) as real, q);
    MulMono((n - 1) as real, q, 1.0);
    (n - 1) as real * q
  }

  lemma RankMonotone(n: nat, q1: real, q2: real)
    requires 0 < n && 0.0 <= q1 <= q2 <= 1.0
    ensures Rank(n, q1) <= Rank(n, q2)
  {
    MulMono((n - 1) as real, q1, q2);
  }

  /** Linear interpolation in `a` at the fractional index `i`. */
  function Interp(a: seq<real>, i: real): real
    requires 0.0 <= i <= (|a| - 1) as real
  {
    var lo := i.Floor;
    var hi := Ceil(i);
    if lo == hi then a[lo]
    else
      var t := i - lo as real;
      a[lo] * (1.0 - t) + a[hi] * t
  }

  /** `quantile(arr, q)`: linear interpolation between the order statistics
      around rank `(n - 1) * q` of a sorted copy; 0 for an empty array. */
  function Quantile(arr: seq<real>, q: real): real
    requires 0.0 <= q <= 1.0
  {
    if |arr| == 0 then 0.0 else Interp(SortAsc(arr), Rank(|arr|, q))
  }

  lemma QuantileEmpty(q: real)
    requires 0.0 <= q <= 1.0
    ensures Quantile([], q) == 0.0
  {
  }

  /** On an integral rank the quantile is exactly that order statistic. */
  lemma QuantileAtRank(arr: seq<real>, q: real, k: nat)
    requires 0.0 <= q <= 1.0 && |arr| > 0
    requires (|arr| - 1) as real * q == k as real
    ensures k < |arr| && Quantile(arr, q) == SortAsc(arr)[k]
  {
    assert Rank(|arr|, q) == k as real;
  }

  /** On an already sorted input the quantile interpolates the input itself. */
  lemma QuantileOfSorted(a: seq<real>, q: real)
    requires SortedAsc(a) && |a| > 0 && 0.0 <= q <= 1.0
    ensures Quantile(a, q) == Interp(a, Rank(|a|, q))
  {
    SortAscOfSorted(a);
  }

  lemma InterpOneToFive(s: seq<real>)
    requires s == [1.0, 2.0, 3.0, 4.0, 5.0]
    ensures Interp(s, Rank(5, 0.95)) == 4.8
  {
    assert Rank(5, 0.95) == 3.8;
    assert (3.8).Floor == 3;
    assert Interp(s, 3.8) == 4.8;
  }

  /** The worked example: the 95th percentile of 1..5 is 4.8. */
  lemma QuantileOneToFive(s: seq<real>)
    requires s == [1.0, 2.0, 3.0, 4.0, 5.0]
    ensures Quantile(s, 0.95) == 4.8
  {
    assert SortedAsc(s);
    QuantileOfSorted(s, 0.95);
    InterpOneToFive(s);
  }

  lemma Convex(x: real, y: real, t: real)
    requires x <= y && 0.0 <= t <= 1.0
    ensures x <= x * (1.0 - t) + y * t <= y
  {
    assert x * (1.0 - t) + y * t == x + (y - x) * t;
    MulNonneg(y - x, t);
    MulNonneg(y - x, 1.0 - t);
    assert (y - x) - (y - x) * t == (y - x) * (1.0 - t);
  }

  lemma ConvexMono(x: real, y: real, t1: real, t2: real)
    requires x <= y && t1 <= t2
    ensures x * (1.0 - t1) + y * t1 <= x * (1.0 - t2) + y * t2
  {
    assert (x * (1.0 - t2) + y * t2) - (x * (1.0 - t1) + y * t1) == (y - x) * (t2 - t1);
    MulNonneg(y - x, t2 - t1);
  }

  /** On a sorted `a`, the interpolation at `i` is `a[lo] * (1 - t) + a[lo + 1] * t`
      with `lo` the floor of `i` and `t` its fraction (just `a[lo]` at the last
      index), and lies between `a[lo]` and `a[ceil(i)]`. */
  lemma InterpShape(a: seq<real>, i: real)
    requires SortedAsc(a) && 0.0 <= i <= (|a| - 1) as real
    ensures var lo := i.Floor;
            var t := i - lo as real;
            && 0 <= lo <= Ceil(i) < |a| && 0.0 <= t < 1.0
            && a[lo] <= Interp(a, i) <= a[Ceil(i)]
            && (lo + 1 < |a| ==> Interp(a, i) == a[lo] * (1.0 - t) + a[lo + 1] * t)
            && (lo + 1 == |a| ==> Interp(a, i) == a[lo])
  {
    var lo := i.Floor;
    var t := i - lo as real;
    if lo != Ceil(i) {
      Convex(a[lo], a[Ceil(i)], t);
    } else if lo + 1 < |a| {
      assert t == 0.0;
      assert a[lo] * (1.0 - t) + a[lo + 1] * t == a[lo];
    }
  }

  /** On a sorted `a` the interpolation never decreases as `i` grows. */
  lemma InterpMonotone(a: seq<real>, i1: real, i2: real)
    requires SortedAsc(a) && 0.0 <= i1 <= i2 <= (|a| - 1) as real
    ensures Interp(a, i1) <= Interp(a, i2)
  {
    InterpShape(a, i1);
    InterpShape(a, i2);
    var lo1, lo2 := i1.Floor, i2.Floor;
    if lo1 == lo2 {
      if lo1 + 1 < |a| {
        ConvexMono(a[lo1], a[lo1 + 1], i1 - lo1 as real, i2 - lo2 as real);
      }
    } else {
      assert Ceil(i1) <= lo2;
    }
  }

  function SeqMin(s: seq<real>): (m: real)
    requires |s| > 0
    ensures m in s && forall k :: 0 <= k < |s| ==> m <= s[k]
  {
    if |s| == 1 then s[0] else Min(s[0], SeqMin(s[1..]))
  }

  function SeqMax(s: seq<real>): (m: real)
    requires |s| > 0
    ensures m in s && forall k :: 0 <= k < |s| ==> s[k] <= m
  {
    if |s| == 1 then s[0] else Max(s[0], SeqMax(s[1..]))
  }

  /** Every element of a sorted sequence lies between its ends. */
  lemma InSortedRange(a: seq<real>, x: real)
    requires SortedAsc(a) && x in a
    ensures a[0] <= x <= a[|a| - 1]
  {
    var j :| 0 <= j < |a| && a[j] == x;
    assert a[0] <= a[j] <= a[|a| - 1];
  }

  /** Sequences with the same multiset hold the same elements. */
  lemma SameElements(a: seq<real>, b: seq<real>)
    requires multiset(a) == multiset(b)
    ensures forall x :: x in a <==> x in b
  {
    forall x
      ensures x in a <==> x in b
    {
      assert x in a <==> x in multiset(a);
      assert x in b <==> x in multiset(b);
    }
  }

  /** The ends of the sorted copy are the minimum and maximum of the input. */
  lemma SortedEnds(arr: seq<real>)
    requires |arr| > 0
    ensures SortAsc(arr)[0] == SeqMin(arr)
    ensures SortAsc(arr)[|arr| - 1] == SeqMax(arr)
  {
    var a := SortAsc(arr);
    SameElements(a, arr);
    assert a[0] in a && a[|a| - 1] in a;
    InSortedRange(a, SeqMin(arr));
    InSortedRange(a, SeqMax(arr));
  }

  /** For `q` in [0, 1] the quantile lies between the minimum and the maximum. */
  lemma QuantileBounds(arr: seq<real>, q: real)
    requires 0.0 <= q <= 1.0 && |arr| > 0
    ensures SeqMin(arr) <= Quantile(arr, q) <= SeqMax(arr)
  {
    SortedEnds(arr);
    InterpWithinEnds(SortAsc(arr), Rank(|arr|, q));
  }

  /** An interpolated rank of a sorted sequence lies between its first and last element. */
  lemma InterpWithinEnds(a: seq<real>, i: real)
    requires SortedAsc(a) && 0.0 <= i <= (|a| - 1) as real
    ensures a[0] <= Interp(a, i) <= a[|a| - 1]
  {
    InterpShape(a, i);
    var lo, hi := i.Floor, Ceil(i);
    assert a[0] <= a[lo];
    assert a[hi] <= a[|a| - 1];
  }

  /** The quantile never decreases as `q` grows. */
  lemma QuantileMonotone(arr: seq<real>, q1: real, q2: real)
    requires 0.0 <= q1 <= q2 <= 1.0 && |arr| > 0
    ensures Quantile(arr, q1) <= Quantile(arr, q2)
  {
    var a := SortAsc(arr);
    var i1, i2 := Rank(|arr|, q1), Rank(|arr|, q2);
    assert |a| == |arr|;
    RankMonotone(|arr|, q1, q2);
    InterpMonotone(a, i1, i2);
  }
}
