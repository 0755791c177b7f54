/** What one point off a line does to the median slope of the rest: exactly when it moves
    it. The trend is fitted from three nights on (internal/alert/trend.go). */
module OddPoint {
  import opened Counting
  import opened Reals
  import opened TheilSen

  /** All points lie on the line but the k-th. */
  ghost predicate OddOnlyAt(pts: seq<Point>, m: real, c: real, k: nat) {
    && k < |pts| && !OnLine(pts[k], m, c)
    && forall i :: 0 <= i < |pts| && i != k ==> OnLine(pts[i], m, c)
  }

  /** p does not hold of the line's slope; it holds of slopes to point k from its left if
      and only if fromLeft, and of slopes from it to its right if and only if toRight. */
  ghost predicate Sides(pts: seq<Point>, m: real, k: nat, p: real -> bool, fromLeft: bool, toRight: bool)
    requires k < |pts| && Increasing(pts)
  {
    && !p(m)
    && (forall i :: 0 <= i < k ==> p(Slope(pts[i], pts[k])) == fromLeft)
    && (forall j :: k < j < |pts| ==> p(Slope(pts[k], pts[j])) == toRight)
  }

  lemma {:induction false} RowCount(
    pts: seq<Point>, m: real, c: real, k: nat, p: real -> bool, fromLeft: bool, toRight: bool, i: nat, j: nat)
    requires Increasing(pts) && OddOnlyAt(pts, m, c, k) && Sides(pts, m, k, p, fromLeft, toRight) && i < j <= |pts|
    ensures Count(Row(pts, i, j), p)
         == if i == k then (if toRight then |pts| - j else 0) else if j <= k && fromLeft then 1 else 0
    decreases |pts| - j
  {
    hide Slope, OnLine;
    if j < |pts| {
      RowCount(pts, m, c, k, p, fromLeft, toRight, i, j + 1);
      assert Row(pts, i, j)[1..] == Row(pts, i, j + 1);
      if i != k && j != k {
        LineSlope(pts[i], pts[j], m, c);
      }
    }
  }

  lemma {:induction false} SlopesCount(
    pts: seq<Point>, m: real, c: real, k: nat, p: real -> bool, fromLeft: bool, toRight: bool, i: nat)
    requires Increasing(pts) && k < |pts| && OddOnlyAt(pts, m, c, k) && Sides(pts, m, k, p, fromLeft, toRight)
    requires i <= |pts|
    ensures Count(Slopes(pts, i), p)
         == if k < i then 0 else (if fromLeft then k - i else 0) + (if toRight then |pts| - 1 - k else 0)
    decreases |pts| - i
  {
    hide Sides, OddOnlyAt, Row, Increasing;
    if i < |pts| {
      SlopesCount(pts, m, c, k, p, fromLeft, toRight, i + 1);
      RowCount(pts, m, c, k, p, fromLeft, toRight, i, i + 1);
      CountConcat(Row(pts, i, i + 1), Slopes(pts, i + 1), p);
    }
  }

  function Less(m: real): real -> bool {
    y => y < m
  }

  function More(m: real): real -> bool {
    y => y > m
  }

  predicate AboveLine(p: Point, m: real, c: real) {
    p.y > m * p.x + c
  }

  /** A slope times its run is its rise. */
  lemma SlopeAgainst(p: Point, q: Point, m: real, c: real)
    requires p.x < q.x
    ensures OnLine(p, m, c) && !OnLine(q, m, c) ==>
      (AboveLine(q, m, c) <==> Slope(p, q) > m) && (!AboveLine(q, m, c) <==> Slope(p, q) < m)
    ensures OnLine(q, m, c) && !OnLine(p, m, c) ==>
      (AboveLine(p, m, c) <==> Slope(p, q) < m) && (!AboveLine(p, m, c) <==> Slope(p, q) > m)
  {
    var s, dx := Slope(p, q), q.x - p.x;
    assert s * dx == q.y - p.y;
    assert (s - m) * dx == (q.y - m * q.x) - (p.y - m * p.x);
    if s > m {
      Positive(s - m, dx);
    } else if s < m {
      Positive(m - s, dx);
      assert (m - s) * dx == -((s - m) * dx);
    }
  }

  lemma OddSides(pts: seq<Point>, m: real, c: real, k: nat)
    requires Increasing(pts) && OddOnlyAt(pts, m, c, k)
    ensures var up := AboveLine(pts[k], m, c);
            Sides(pts, m, k, More(m), up, !up) && Sides(pts, m, k, Less(m), !up, up)
  {
    hide AboveLine, OnLine, Slope;
    forall i | 0 <= i < k
      ensures (Slope(pts[i], pts[k]) > m) == AboveLine(pts[k], m, c)
        && (Slope(pts[i], pts[k]) < m) == !AboveLine(pts[k], m, c) {
      SlopeAgainst(pts[i], pts[k], m, c);
    }
    forall j | k < j < |pts|
      ensures (Slope(pts[k], pts[j]) > m) == !AboveLine(pts[k], m, c)
        && (Slope(pts[k], pts[j]) < m) == AboveLine(pts[k], m, c) {
      SlopeAgainst(pts[k], pts[j], m, c);
    }
  }

  /** Where a sorted sequence passes m, by how many are less and how many more. */
  lemma SortedBy(s: seq<real>, m: real, i: nat)
    requires Sorted(s) && i < |s|
    ensures s[i] < m <==> i < Count(s, Less(m))
    ensures s[i] > m <==> |s| - Count(s, More(m)) <= i
  {
    hide Count;
    if s[i] < m {
      CountAtLeast(s, Less(m), 0, i + 1);
    } else {
      CountWithin(s, Less(m), 0, i);
    }
    if s[i] > m {
      CountAtLeast(s, More(m), i, |s|);
    } else {
      CountWithin(s, More(m), i + 1, |s|);
    }
  }

  /** The median of few enough slopes, by how many of them lie on either side of m. */
  lemma MedianBySides(sl: seq<real>, m: real)
    requires sl != []
    ensures var s, n, b, a := Sort(sl), |sl|, Count(sl, Less(m)), Count(sl, More(m));
            && |s| == n
            && (b <= (n - 1) / 2 && n / 2 < n - a ==> Quantile(s, 0.5) == m)
            && (a == 0 && (n - 1) / 2 < b ==> Quantile(s, 0.5) < m)
            && (b == 0 && n - a <= n / 2 ==> Quantile(s, 0.5) > m)
  {
    hide Sort, Count, Between;
    SortSorts(sl);
    var s := Sort(sl);
    CountIsByMultiset(s, sl, Less(m));
    CountIsByMultiset(s, sl, More(m));
    HalfWay(|s|);
    SortedBy(s, m, (|s| - 1) / 2);
    SortedBy(s, m, |s| / 2);
    HalfBetween(s);
  }

  lemma HalfBetween(s: seq<real>)
    requires s != [] && Sorted(s)
    ensures Quantile(s, 0.5) == (s[(|s| - 1) / 2] + s[|s| / 2]) / 2.0
  {
    HalfWay(|s|);
    var pos := Position(0.5, |s|);
    assert pos == (|s| - 1) as real / 2.0;
    if |s| % 2 == 1 {
      assert pos - pos.Floor as real == 0.0;
    } else {
      assert pos - pos.Floor as real == 0.5;
    }
  }

  /** One odd point among three or more leaves the median slope alone if and only if there
      are five points, or the odd one is neither the first nor the last. */
  lemma OddPointSwingsExactlyWhen(pts: seq<Point>, m: real, c: real, k: nat)
    requires Increasing(pts) && |pts| >= 3 && k < |pts| && OddOnlyAt(pts, m, c, k)
    ensures FitOf(pts).median == m <==> |pts| >= 5 || 0 < k < |pts| - 1
  {
    hide Sort, Slopes, Quantile, Sides, OddOnlyAt, OnLine, AboveLine;
    if |pts| >= 5 {
      OnlyOneOdd(pts, m, c, k, 0);
      OneOddDay(pts, m, c);
    } else {
      var sl, up, n := Slopes(pts, 0), AboveLine(pts[k], m, c), |pts|;
      OddSides(pts, m, c, k);
      SlopesCount(pts, m, c, k, More(m), up, !up, 0);
      SlopesCount(pts, m, c, k, Less(m), !up, up, 0);
      SlopesOff(pts, m, c, 0);
      assert Pairs(3) == 3 && Pairs(4) == 6;
      SortSorts(sl);
      MedianBySides(sl, m);
    }
  }

  lemma {:induction false} OnlyOneOdd(pts: seq<Point>, m: real, c: real, k: nat, i: nat)
    requires OddOnlyAt(pts, m, c, k) && i <= |pts|
    ensures Odd(pts, m, c, i) == if i <= k then 1 else 0
    decreases |pts| - i
  {
    hide OnLine;
    if i < |pts| {
      OnlyOneOdd(pts, m, c, k, i + 1);
    }
  }
}
