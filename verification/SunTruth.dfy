/** That the phases shown are the phases there were (internal/sun/sun.go, Spans), for a sun
    that never passes a height twice between two samples of the scan. */
module SunTruth {
  import opened SunPhases

  /** On one side of the height up to some moment and on the other from it on, if it
      changes side at all. */
  ghost predicate PassesOnce(el: Sun, h: real, a: int, b: int) {
    exists x :: SidesAround(el, h, a, b, x)
  }

  ghost predicate SidesAround(el: Sun, h: real, a: int, b: int, x: int) {
    forall s :: a <= s <= b ==> Below(el, h, s) == if s < x then Below(el, h, a) else Below(el, h, b)
  }

  /** So it is between every two neighbouring samples from `from` on. */
  ghost predicate Calm(el: Sun, h: real, from: int, until: int)
    decreases until - from
  {
    var t := NextScan(from, until);
    PassesOnce(el, h, from, t) && (t < until ==> Calm(el, h, t, until))
  }

  /** No crossing was narrowed down to between the two moments. */
  ghost predicate Undisturbed(bs: seq<Bracket>, s: int, u: int) {
    forall i :: 0 <= i < |bs| ==> bs[i].hi <= s || u <= bs[i].lo
  }

  lemma SteadyBetweenSamples(el: Sun, h: real, prev: int, t: int, s: int, u: int)
    requires prev <= s <= u <= t && PassesOnce(el, h, prev, t) && Undisturbed(Here(el, h, prev, t), s, u)
    ensures Below(el, h, s) == Below(el, h, u)
  {
    hide Below, Narrow;
    var x :| SidesAround(el, h, prev, t, x);
    if Below(el, h, prev) != Below(el, h, t) {
      var b := Here(el, h, prev, t)[0];
      NarrowKeepsSides(el, h, prev, t);
      assert b.hi <= s || u <= b.lo;
    }
  }

  /** Between crossings a calm sun stays on its side of the height. */
  lemma {:induction false} SteadyBetweenCrossings(el: Sun, h: real, from: int, until: int, s: int, u: int)
    requires from <= s <= u <= until && Calm(el, h, from, until) && Undisturbed(Scan(el, h, from, until), s, u)
    ensures Below(el, h, s) == Below(el, h, u)
    decreases until - from
  {
    hide Below, Here, PassesOnce, Undisturbed;
    var t := NextScan(from, until);
    ScanSplits(el, h, from, until);
    var rest := if t < until then Scan(el, h, t, until) else [];
    UndisturbedParts(Here(el, h, from, t), rest, s, u);
    if u <= t {
      SteadyBetweenSamples(el, h, from, t, s, u);
    } else if t <= s {
      SteadyBetweenCrossings(el, h, t, until, s, u);
    } else {
      HereIsFaithful(el, h, from, t);
      ScanIsFaithful(el, h, t, until);
      EarlierPart(el, h, Here(el, h, from, t), from, t, s, u);
      SteadyBetweenSamples(el, h, from, t, s, t);
      LaterPart(el, h, rest, t, until, s, u);
      SteadyBetweenCrossings(el, h, t, until, t, u);
    }
  }

  lemma UndisturbedParts(a: seq<Bracket>, b: seq<Bracket>, s: int, u: int)
    requires Undisturbed(a + b, s, u)
    ensures Undisturbed(a, s, u) && Undisturbed(b, s, u)
  {
    var all := a + b;
    assert forall i :: 0 <= i < |a| ==> all[i] == a[i];
    assert forall i :: 0 <= i < |b| ==> all[|a| + i] == b[i];
  }

  lemma EarlierPart(el: Sun, h: real, bs: seq<Bracket>, from: int, t: int, s: int, u: int)
    requires AllBracket(el, h, bs, from, t) && Undisturbed(bs, s, u) && s <= t < u
    ensures Undisturbed(bs, s, t)
  {
    hide Below;
    forall i | 0 <= i < |bs| ensures bs[i].hi <= s || t <= bs[i].lo {
      assert Brackets(el, h, bs[i], from, t);
    }
  }

  lemma LaterPart(el: Sun, h: real, bs: seq<Bracket>, t: int, until: int, s: int, u: int)
    requires AllBracket(el, h, bs, t, until) && Undisturbed(bs, s, u) && s < t <= u
    ensures Undisturbed(bs, t, u)
  {
    hide Below;
    forall i | 0 <= i < |bs| ensures bs[i].hi <= t || u <= bs[i].lo {
      assert Brackets(el, h, bs[i], t, until);
    }
  }

  // ------------------------------------------------------------------ by bounds --

  /** The moment is a second or more from every bound. */
  ghost predicate ClearOf(bounds: seq<int>, t: int) {
    forall i :: 0 <= i < |bounds| ==> t <= bounds[i] - SECOND || bounds[i] + SECOND <= t
  }

  lemma {:induction false} CrossingIsABound(el: Sun, from: int, until: int, n: nat, k: nat, i: nat)
    requires k < n <= |Heights()| && i < |CrossingsOf(el, Heights()[k], from, until)|
    ensures CrossingsOf(el, Heights()[k], from, until)[i].at in Passes(el, from, until, n)
  {
    hide CrossingsOf;
    var cs := CrossingsOf(el, Heights()[n - 1], from, until);
    if k == n - 1 {
      assert Times(cs, |cs|)[i] == cs[i].at;
    } else {
      CrossingIsABound(el, from, until, n - 1, k, i);
    }
  }

  /** Two moments in one piece, each a second from its ends, have no crossing of any
      height between them. */
  lemma PieceIsUndisturbed(el: Sun, from: int, until: int, k: nat, a: int, b: int, s: int, u: int)
    requires from < until && k < |Heights()| && a + SECOND <= s <= u <= b - SECOND
    requires forall c :: c in Bounds(el, from, until) ==> c <= a || b <= c
    ensures Undisturbed(Scan(el, Heights()[k], from, until), s, u)
  {
    hide Scan, Bounds, Passes, Truncated, Below;
    var h := Heights()[k];
    var bs := Scan(el, h, from, until);
    ScanIsFaithful(el, h, from, until);
    BoundsSorted(el, from, until);
    forall i | 0 <= i < |bs| ensures bs[i].hi <= s || u <= bs[i].lo {
      assert Brackets(el, h, bs[i], from, until);
      TruncatedIsClose(bs[i].hi, bs[i].hi);
      assert CrossingsOf(el, h, from, until)[i].at == Truncated(bs[i].hi);
      CrossingIsABound(el, from, until, |Heights()|, k, i);
    }
  }

  lemma SamePhase(el: Sun, s: int, u: int)
    requires forall k :: 0 <= k < |Heights()| ==> Below(el, Heights()[k], s) == Below(el, Heights()[k], u)
    ensures PhaseOf(el(s)) == PhaseOf(el(u))
  {
    assert Heights()[0] == HORIZON_DEG && Heights()[1] == CIVIL_DEG;
    assert Heights()[2] == NAUTICAL_DEG && Heights()[3] == ASTRONOMICAL_DEG;
    assert Below(el, HORIZON_DEG, s) == Below(el, HORIZON_DEG, u);
    assert Below(el, CIVIL_DEG, s) == Below(el, CIVIL_DEG, u);
    assert Below(el, NAUTICAL_DEG, s) == Below(el, NAUTICAL_DEG, u);
    assert Below(el, ASTRONOMICAL_DEG, s) == Below(el, ASTRONOMICAL_DEG, u);
  }

  ghost predicate CalmAtAll(el: Sun, from: int, until: int) {
    forall k :: 0 <= k < |Heights()| ==> Calm(el, Heights()[k], from, until)
  }

  lemma PhaseOfThePiece(el: Sun, from: int, until: int, a: int, b: int, t: int)
    requires from < until && CalmAtAll(el, from, until) && a + SECOND <= t <= b - SECOND
    requires from <= a + SECOND && b - SECOND <= until
    requires forall c :: c in Bounds(el, from, until) ==> c <= a || b <= c
    ensures PhaseOf(el(t)) == PhaseBetween(el, a, b)
  {
    hide Bounds, Below, PhaseOf, Calm;
    var m := a + (b - a) / 2;
    var s, u := if t < m then t else m, if t < m then m else t;
    forall k | 0 <= k < |Heights()| ensures Below(el, Heights()[k], s) == Below(el, Heights()[k], u) {
      PieceIsUndisturbed(el, from, until, k, a, b, s, u);
      SteadyBetweenCrossings(el, Heights()[k], from, until, s, u);
    }
    SamePhase(el, s, u);
  }

  // ----------------------------------------------------------------- the result --

  /** The neighbouring bounds a moment lies between. */
  lemma {:induction false} PieceAround(bounds: seq<int>, t: int, n: nat) returns (i: nat)
    requires 2 <= n <= |bounds| && Ascending(bounds) && ClearOf(bounds, t) && bounds[0] <= t <= bounds[n - 1]
    ensures i < n - 1 && bounds[i] + SECOND <= t <= bounds[i + 1] - SECOND
  {
    if bounds[n - 2] <= t {
      i := n - 2;
    } else {
      i := PieceAround(bounds, t, n - 1);
    }
  }

  lemma NoBoundInside(bounds: seq<int>, i: nat)
    requires Ascending(bounds) && i + 1 < |bounds|
    ensures forall c :: c in bounds ==> c <= bounds[i] || bounds[i + 1] <= c
  {
    forall c | c in bounds ensures c <= bounds[i] || bounds[i + 1] <= c {
      var j := IndexOf(bounds, c);
    }
  }

  /** The span the moment is in has the phase the sun has at that moment. */
  predicate Tells(el: Sun, s: Span, t: int) {
    s.start <= t <= s.end && s.phase == PhaseOf(el(t))
  }

  /** For a calm sun every moment a second or more from all bounds lies in a span that
      tells its phase. */
  lemma SpansTellTheTruth(el: Sun, from: int, until: int, t: int)
    requires from < until && from <= t <= until && CalmAtAll(el, from, until) && ClearOf(Bounds(el, from, until), t)
    ensures exists i :: 0 <= i < |SpansOf(el, from, until)| && Tells(el, SpansOf(el, from, until)[i], t)
  {
    hide Bounds, CalmAtAll, PhaseOf, PhaseBetween, Merge, Truncated, AnyBefore, Passes;
    var bounds := Bounds(el, from, until);
    FirstBound(el, from, until);
    TruncatedIsClose(from, from);
    var p := PieceAround(bounds, t, |bounds|);
    var a, b := bounds[p], bounds[p + 1];
    NoBoundInside(bounds, p);
    PhaseOfThePiece(el, from, until, a, b, t);
    PiecesKeepTheirPhase(el, bounds, |bounds|, p);
    var spans := SpansOf(el, from, until);
    var i :| 0 <= i < |spans| && Holds(el, spans[i], a, b);
    assert Tells(el, spans[i], t);
  }
}
