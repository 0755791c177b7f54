/** A line through points by the median of the slopes between every two of them
    (internal/alert/trend.go), over exact reals. */
module TheilSen {
  import opened Counting
  import opened Reals
  import opened Sorting

  /** A day and its lowest reading. */
  datatype Point = Point(x: real, y: real)

  function Slope(p: Point, q: Point): real
    requires q.x > p.x
  {
    (q.y - p.y) / (q.x - p.x)
  }

  /** Slopes from point i to points j, j + 1, … that lie to its right. */
  function Row(pts: seq<Point>, i: nat, j: nat): seq<real>
    requires i < |pts| && j <= |pts|
    decreases |pts| - j
  {
    if j == |pts| then []
    else (if pts[j].x > pts[i].x then [Slope(pts[i], pts[j])] else []) + Row(pts, i, j + 1)
  }

  /** Slopes of every pair whose first point is i or later. */
  function Slopes(pts: seq<Point>, i: nat): seq<real>
    requires i <= |pts|
    decreases |pts| - i
  {
    if i == |pts| then [] else Row(pts, i, i + 1) + Slopes(pts, i + 1)
  }

  // ------------------------------------------------------------------ sorting --

  ghost predicate Sorted(s: seq<real>) {
    forall i, j :: 0 <= i < j < |s| ==> s[i] <= s[j]
  }

  function Itself(v: real): real {
    v
  }

  function Sort(s: seq<real>): seq<real> {
    SortBy(s, Itself)
  }

  lemma SortSorts(s: seq<real>)
    ensures Sorted(Sort(s)) && multiset(Sort(s)) == multiset(s) && |Sort(s)| == |s|
  {
    SortBySorts(s, Itself);
  }

  // ---------------------------------------------------------------- quantiles --

  function Ceil(x: real): int {
    if x == x.Floor as real then x.Floor else x.Floor + 1
  }

  /** The point a share f of the way from a to b. */
  function Along(a: real, b: real, f: real): real {
    a + (b - a) * f
  }

  lemma AlongWithin(a: real, b: real, f: real)
    requires a <= b && 0.0 <= f <= 1.0
    ensures a <= Along(a, b, f) <= b
  {
    ProductSign(b - a, f);
    ProductSign(b - a, 1.0 - f);
    assert (b - a) * (1.0 - f) == (b - a) - (b - a) * f;
  }

  lemma AlongMore(a: real, b: real, f: real, g: real)
    requires a <= b && f <= g
    ensures Along(a, b, f) <= Along(a, b, g)
  {
    ProductSign(b - a, g - f);
    assert (b - a) * (g - f) == (b - a) * g - (b - a) * f;
  }

  /** Linear interpolation between closest ranks. */
  function Between(s: seq<real>, pos: real): real
    requires s != [] && 0.0 <= pos <= (|s| - 1) as real
  {
    Along(s[pos.Floor], s[Ceil(pos)], pos - pos.Floor as real)
  }

  /** The position a share p of the way along n ranks. */
  function Position(p: real, n: nat): (pos: real)
    requires n > 0 && 0.0 <= p <= 1.0
    ensures 0.0 <= pos <= (n - 1) as real
  {
    AlongWithin(0.0, (n - 1) as real, p);
    Along(0.0, (n - 1) as real, p)
  }

  function Quantile(s: seq<real>, p: real): real
    requires s != [] && 0.0 <= p <= 1.0
  {
    Between(s, Position(p, |s|))
  }

  /** It lies between the elements its position falls between. */
  lemma BetweenNeighbours(s: seq<real>, pos: real)
    requires s != [] && Sorted(s) && 0.0 <= pos <= (|s| - 1) as real
    ensures 0 <= pos.Floor <= Ceil(pos) < |s| && s[pos.Floor] <= Between(s, pos) <= s[Ceil(pos)]
  {
    hide Along;
    AlongWithin(s[pos.Floor], s[Ceil(pos)], pos - pos.Floor as real);
  }

  lemma BetweenMonotone(s: seq<real>, a: real, b: real)
    requires s != [] && Sorted(s) && 0.0 <= a <= b <= (|s| - 1) as real
    ensures Between(s, a) <= Between(s, b)
  {
    hide Along;
    BetweenNeighbours(s, a);
    BetweenNeighbours(s, b);
    if a.Floor == b.Floor && a != a.Floor as real {
      AlongMore(s[a.Floor], s[Ceil(b)], a - a.Floor as real, b - a.Floor as real);
    } else if a.Floor < b.Floor {
      assert Ceil(a) <= b.Floor;
    }
  }

  /** A larger share gives no smaller a quantile. */
  lemma QuantileMonotone(s: seq<real>, p: real, q: real)
    requires s != [] && Sorted(s) && 0.0 <= p <= q <= 1.0
    ensures Quantile(s, p) <= Quantile(s, q)
  {
    hide Between, Along;
    AlongMore(0.0, (|s| - 1) as real, p, q);
    BetweenMonotone(s, Position(p, |s|), Position(q, |s|));
  }

  // --------------------------------------------------------------- the method --

  datatype Fit = Fit(median: real, low: real, high: real)

  function FitOf(pts: seq<Point>): Fit {
    var sl := Sort(Slopes(pts, 0));
    if sl == [] then Fit(0.0, 0.0, 0.0)
    else Fit(Quantile(sl, 0.5), Quantile(sl, 0.25), Quantile(sl, 0.75))
  }

  method TheilSenFit(pts: seq<Point>) returns (fit: Fit)
    ensures fit == FitOf(pts)
  {
    hide Slope, Sort, Quantile;
    var sl: seq<real> := [];
    for i := 0 to |pts|
      invariant sl + Slopes(pts, i) == Slopes(pts, 0)
    {
      ghost var before := sl;
      for j := i + 1 to |pts|
        invariant sl + Row(pts, i, j) == before + Row(pts, i, i + 1)
      {
        var dx := pts[j].x - pts[i].x;
        if dx > 0.0 {
          sl := sl + [Slope(pts[i], pts[j])];
        }
      }
      assert sl + [] == sl;
      assert (before + Row(pts, i, i + 1)) + Slopes(pts, i + 1) == before + (Row(pts, i, i + 1) + Slopes(pts, i + 1));
    }
    assert sl + [] == sl;
    SortSorts(sl);
    if |sl| == 0 {
      return Fit(0.0, 0.0, 0.0);
    }
    sl := Sort(sl);
    fit := Fit(Quantile(sl, 0.5), Quantile(sl, 0.25), Quantile(sl, 0.75));
  }

  /** The likely range holds the slope, always. */
  lemma RangeHoldsMedian(pts: seq<Point>)
    ensures FitOf(pts).low <= FitOf(pts).median <= FitOf(pts).high
  {
    hide Sort, Quantile, Slopes;
    SortSorts(Slopes(pts, 0));
    var sl := Sort(Slopes(pts, 0));
    if sl != [] {
      QuantileMonotone(sl, 0.25, 0.5);
      QuantileMonotone(sl, 0.5, 0.75);
    }
  }

  // ------------------------------------------------- odd days cannot swing it --

  ghost predicate Increasing(pts: seq<Point>) {
    forall i, j :: 0 <= i < j < |pts| ==> pts[i].x < pts[j].x
  }

  predicate OnLine(p: Point, m: real, c: real) {
    p.y == m * p.x + c
  }

  /** Points off the line among i, i + 1, …. */
  function Odd(pts: seq<Point>, m: real, c: real, i: nat): nat
    requires i <= |pts|
    decreases |pts| - i
  {
    if i == |pts| then 0 else Odd(pts, m, c, i + 1) + if OnLine(pts[i], m, c) then 0 else 1
  }

  function Differs(m: real): real -> bool {
    y => y != m
  }

  function Off(s: seq<real>, m: real): nat {
    Count(s, Differs(m))
  }

  lemma LineSlope(p: Point, q: Point, m: real, c: real)
    requires p.x < q.x && OnLine(p, m, c) && OnLine(q, m, c)
    ensures Slope(p, q) == m
  {
    assert q.y - p.y == m * (q.x - p.x);
  }

  /** A point off the line spoils at most all of its row, one on it only the pairs with
      points off it. */
  lemma {:induction false} RowOff(pts: seq<Point>, m: real, c: real, i: nat, j: nat)
    requires i < j <= |pts| && Increasing(pts)
    ensures |Row(pts, i, j)| == |pts| - j
    ensures Off(Row(pts, i, j), m) <= if OnLine(pts[i], m, c) then Odd(pts, m, c, j) else |pts| - j
    decreases |pts| - j
  {
    hide OnLine, Slope;
    if j < |pts| {
      RowOff(pts, m, c, i, j + 1);
      if OnLine(pts[i], m, c) && OnLine(pts[j], m, c) {
        LineSlope(pts[i], pts[j], m, c);
      }
      assert Row(pts, i, j)[1..] == Row(pts, i, j + 1);
    }
  }

  /** Pairs among n points of which `odd` are off the line. */
  function Pairs(n: nat): nat {
    n * (n - 1) / 2
  }

  lemma NoPairs()
    ensures Pairs(0) == 0
  {
  }

  lemma PairsStep(n: nat)
    ensures Pairs(n + 1) == Pairs(n) + n
  {
    assert (n + 1) * n == n * (n - 1) + 2 * n;
  }

  lemma {:induction false} OddAtMost(pts: seq<Point>, m: real, c: real, i: nat)
    requires i <= |pts|
    ensures Odd(pts, m, c, i) <= |pts| - i
    decreases |pts| - i
  {
    if i < |pts| {
      OddAtMost(pts, m, c, i + 1);
    }
  }

  lemma NoneOff(m: real)
    ensures Off([], m) == 0
  {
  }

  /** Slopes other than the line's own come from pairs with an odd point in them. */
  lemma {:induction false} SlopesOff(pts: seq<Point>, m: real, c: real, i: nat)
    requires i <= |pts| && Increasing(pts)
    ensures |Slopes(pts, i)| == Pairs(|pts| - i)
    ensures Odd(pts, m, c, i) <= |pts| - i
    ensures Off(Slopes(pts, i), m) + Pairs(|pts| - i - Odd(pts, m, c, i)) <= Pairs(|pts| - i)
    decreases |pts| - i
  {
    hide Pairs, OnLine, Row, Count, Increasing;
    OddAtMost(pts, m, c, i);
    if i == |pts| {
      NoneOff(m);
      NoPairs();
    } else {
      SlopesOff(pts, m, c, i + 1);
      RowOff(pts, m, c, i, i + 1);
      CountConcat(Row(pts, i, i + 1), Slopes(pts, i + 1), Differs(m));
      PairsStep(|pts| - i - 1);
      PairsStep(|pts| - i - 1 - Odd(pts, m, c, i + 1));
    }
  }

  /** In sorted order, what is not m sits at the ends. */
  lemma MiddleIsCommon(s: seq<real>, m: real, i: nat)
    requires Sorted(s) && i < |s| && Off(s, m) <= i && Off(s, m) <= |s| - 1 - i
    ensures s[i] == m
  {
    hide Count;
    if s[i] < m {
      CountAtLeast(s, Differs(m), 0, i + 1);
    } else if s[i] > m {
      CountAtLeast(s, Differs(m), i, |s|);
    }
  }

  /** As long as fewer than half of all pairs have an odd point in them, the median
      slope is exactly the line's, wherever the odd points are and however far off. */
  lemma OddDaysCannotSwingIt(pts: seq<Point>, m: real, c: real)
    requires Increasing(pts) && |pts| >= 2
    requires Odd(pts, m, c, 0) <= |pts| && 2 * (Pairs(|pts|) - Pairs(|pts| - Odd(pts, m, c, 0))) < Pairs(|pts|)
    ensures FitOf(pts).median == m
  {
    hide Pairs, Odd, Between, Sort, Slopes;
    SlopesOff(pts, m, c, 0);
    SortSorts(Slopes(pts, 0));
    var sl := Sort(Slopes(pts, 0));
    CountIsByMultiset(sl, Slopes(pts, 0), Differs(m));
    var pos := Position(0.5, |sl|);
    HalfWay(|sl|);
    BetweenNeighbours(sl, pos);
    MiddleIsCommon(sl, m, pos.Floor);
    MiddleIsCommon(sl, m, Ceil(pos));
  }

  lemma HalfWay(n: nat)
    requires n > 0
    ensures var pos := Position(0.5, n); pos.Floor == (n - 1) / 2 && Ceil(pos) == n / 2
  {
  }

  /** One odd day among five or more. */
  lemma OneOddDay(pts: seq<Point>, m: real, c: real)
    requires Increasing(pts) && |pts| >= 5 && Odd(pts, m, c, 0) <= 1
    ensures FitOf(pts).median == m
  {
    hide FitOf, Odd;
    var n := |pts|;
    assert n * (n - 1) - (n - 1) * (n - 2) == 2 * (n - 1);
    assert n * (n - 1) >= 5 * (n - 1);
    OddDaysCannotSwingIt(pts, m, c);
  }

  function FourDays(): seq<Point> {
    [Point(0.0, 0.0), Point(1.0, 0.0), Point(2.0, 0.0), Point(3.0, 6.0)]
  }

  lemma RowStep(pts: seq<Point>, i: nat, j: nat, v: real)
    requires i < |pts| && j < |pts| && pts[i].x < pts[j].x && pts[j].y - pts[i].y == v * (pts[j].x - pts[i].x)
    ensures Row(pts, i, j) == [v] + Row(pts, i, j + 1)
  {
    assert Slope(pts[i], pts[j]) == v;
  }

  lemma FourSlopes()
    ensures Slopes(FourDays(), 0) == [0.0, 0.0, 2.0, 0.0, 3.0, 6.0]
  {
    hide Row;
    var p := FourDays();
    RowStep(p, 0, 1, 0.0);
    RowStep(p, 0, 2, 0.0);
    RowStep(p, 0, 3, 2.0);
    RowStep(p, 1, 2, 0.0);
    RowStep(p, 1, 3, 3.0);
    RowStep(p, 2, 3, 6.0);
    RowEnd(p, 0);
    RowEnd(p, 1);
    RowEnd(p, 2);
    RowEnd(p, 3);
    assert Slopes(p, 4) == [] && Slopes(p, 3) == [] && Slopes(p, 2) == [6.0] && Slopes(p, 1) == [0.0, 3.0, 6.0];
  }

  lemma RowEnd(pts: seq<Point>, i: nat)
    requires i < |pts|
    ensures Row(pts, i, |pts|) == []
  {
  }

  lemma FourSorted()
    ensures Sort([0.0, 0.0, 2.0, 0.0, 3.0, 6.0]) == [0.0, 0.0, 0.0, 2.0, 3.0, 6.0]
  {
    assert Sort([6.0]) == [6.0];
    assert Sort([3.0, 6.0]) == [3.0, 6.0];
    assert Sort([0.0, 3.0, 6.0]) == [0.0, 3.0, 6.0];
    assert InsertBy(2.0, [3.0, 6.0], Itself) == [2.0, 3.0, 6.0];
    assert Sort([2.0, 0.0, 3.0, 6.0]) == [0.0, 2.0, 3.0, 6.0];
    assert Sort([0.0, 2.0, 0.0, 3.0, 6.0]) == [0.0, 0.0, 2.0, 3.0, 6.0];
  }

  /** Four days are not enough for that. */
  lemma FourDaysAreNotEnough()
    ensures Increasing(FourDays()) && Odd(FourDays(), 0.0, 0.0, 0) == 1 && FitOf(FourDays()).median == 1.0
  {
    hide Slopes, Sort;
    FourSlopes();
    FourSorted();
  }
}
