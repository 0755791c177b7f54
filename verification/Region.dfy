/** Whether a point lies in a region, by ray casting (internal/geo/geo.go), over exact
    reals. */
module Region {
  import opened Reals

  /** A GeoJSON position: longitude first. */
  datatype Point = Point(lon: real, lat: real)

  type Ring = seq<Point>

  /** Where the line through a and b meets a latitude. */
  function Meets(a: Point, b: Point, lat: real): real
    requires a.lat != b.lat
  {
    (b.lon - a.lon) * (lat - a.lat) / (b.lat - a.lat) + a.lon
  }

  /** The edge passes from one side of the point's latitude to the other, east of it. */
  predicate Crosses(a: Point, b: Point, p: Point) {
    (a.lat > p.lat) != (b.lat > p.lat) && p.lon < Meets(a, b, p.lat)
  }

  /** Parity of the crossings along an open path. */
  function OddPath(path: seq<Point>, p: Point): bool {
    if |path| < 2 then false
    else OddPath(path[..|path| - 1], p) != Crosses(path[|path| - 1], path[|path| - 2], p)
  }

  /** Parity of a ring's crossings: its path, begun at its last vertex. */
  function OddRing(ring: Ring, p: Point): bool {
    if ring == [] then false else OddPath([ring[|ring| - 1]] + ring, p)
  }

  class Regions {
    const rings: seq<Ring>

    constructor (rings: seq<Ring>)
      ensures this.rings == rings
    {
      this.rings := rings;
    }

    method Contains(p: Point) returns (found: bool)
      ensures found <==> exists k :: 0 <= k < |rings| && OddRing(rings[k], p)
    {
      for k := 0 to |rings|
        invariant forall m :: 0 <= m < k ==> !OddRing(rings[m], p)
      {
        var inside := RingContains(rings[k], p);
        if inside {
          return true;
        }
      }
      return false;
    }

    static method RingContains(ring: Ring, p: Point) returns (inside: bool)
      ensures inside == OddRing(ring, p)
    {
      hide OddPath, Meets;
      inside := false;
      var n := |ring|;
      if n == 0 {
        return;
      }
      ghost var path := [ring[n - 1]];
      NoEdge(ring[n - 1], p);
      var i, j := 0, n - 1;
      while i < n
        invariant 0 <= i <= n && j == if i == 0 then n - 1 else i - 1
        invariant path == [ring[n - 1]] + ring[..i]
        invariant inside == OddPath(path, p)
      {
        var a, b := ring[i], ring[j];
        assert path[|path| - 1] == b;
        OneMoreEdge(path, a, p);
        path := path + [a];
        if (a.lat > p.lat) != (b.lat > p.lat) && p.lon < Meets(a, b, p.lat) {
          inside := !inside;
        }
        j, i := i, i + 1;
      }
      assert ring[..n] == ring;
    }
  }

  lemma NoEdge(v: Point, p: Point)
    ensures !OddPath([v], p)
  {
  }

  lemma OneMoreEdge(path: seq<Point>, a: Point, p: Point)
    requires path != []
    ensures OddPath(path + [a], p) == (OddPath(path, p) != Crosses(a, path[|path| - 1], p))
  {
    assert (path + [a])[..|path|] == path;
  }

  // -------------------------------------------------------------------- edges --

  lemma Cancel(x: real, y: real, d: real)
    requires x * d == y * d && d != 0.0
    ensures x == y
  {
    assert (x - y) * d == 0.0;
  }

  /** An edge is crossed alike from either end. */
  lemma CrossesEitherWay(a: Point, b: Point, p: Point)
    ensures Crosses(a, b, p) == Crosses(b, a, p)
  {
    if a.lat != b.lat {
      MeetsEitherWay(a, b, p.lat);
    }
  }

  lemma MeetsEitherWay(a: Point, b: Point, lat: real)
    requires a.lat != b.lat
    ensures Meets(a, b, lat) == Meets(b, a, lat)
  {
    var d, w := b.lat - a.lat, b.lon - a.lon;
    var q, r := w * (lat - a.lat) / d, -w * (lat - b.lat) / -d;
    assert q * d == w * (lat - a.lat);
    assert r * -d == -w * (lat - b.lat);
    assert (q - r) * d == w * d;
    Cancel(q - r, w, d);
  }

  // -------------------------------------------------------------------- paths --

  /** A path's parity is that of its two halves. */
  lemma {:induction false} PathInTwo(a: seq<Point>, v: Point, b: seq<Point>, p: Point)
    ensures OddPath(a + [v] + b, p) == (OddPath(a + [v], p) != OddPath([v] + b, p))
  {
    hide Crosses;
    if b == [] {
      assert a + [v] + b == a + [v];
    } else {
      var init, last := b[..|b| - 1], b[|b| - 1];
      PathInTwo(a, v, init, p);
      assert (a + [v] + b)[..|a + [v] + b| - 1] == a + [v] + init;
      assert ([v] + b)[..|[v] + b| - 1] == [v] + init;
    }
  }

  function Reversed(s: seq<Point>): (r: seq<Point>)
    ensures |r| == |s|
  {
    if s == [] then [] else [s[|s| - 1]] + Reversed(s[..|s| - 1])
  }

  lemma EdgeEitherWay(a: Point, b: Point, p: Point)
    ensures OddPath([a, b], p) == OddPath([b, a], p) == Crosses(a, b, p)
  {
    CrossesEitherWay(a, b, p);
    assert [a, b][..1] == [a] && [b, a][..1] == [b];
  }

  /** Walked backwards, a path crosses as often. */
  lemma {:induction false} ReversedPath(s: seq<Point>, p: Point)
    ensures OddPath(Reversed(s), p) == OddPath(s, p)
  {
    hide Crosses;
    if |s| >= 2 {
      var init, last, before := s[..|s| - 1], s[|s| - 1], s[|s| - 2];
      ReversedPath(init, p);
      var rest := Reversed(init[..|init| - 1]);
      assert Reversed(s) == [last] + [before] + rest;
      PathInTwo([last], before, rest, p);
      EdgeEitherWay(before, last, p);
      assert [last] + [before] == [last, before];
    } else if |s| == 1 {
      assert Reversed(s) == s;
    }
  }

  // -------------------------------------------------------------------- rings --

  /** The ring's parity from a path that goes once round, starting and ending at v. */
  lemma RoundFrom(v: Point, rest: seq<Point>, p: Point)
    ensures OddRing([v] + rest, p) == OddPath([v] + rest + [v], p)
  {
    hide Crosses;
    var ring := [v] + rest;
    var last := ring[|ring| - 1];
    assert [last] + ring == [last] + [v] + rest;
    PathInTwo([last], v, rest, p);
    assert [last] + [v] == [last, v];
    EdgeEitherWay(last, v, p);
    var round := ring + [v];
    assert round[..|round| - 1] == ring;
    assert round[|round| - 2] == last;
    CrossesEitherWay(last, v, p);
  }

  /** Where the ring is said to start does not matter. */
  lemma RotationKeepsParity(a: Ring, b: Ring, p: Point)
    ensures OddRing(a + b, p) == OddRing(b + a, p)
  {
    hide OddPath;
    if a == [] || b == [] {
      assert a + b == b + a;
    } else {
      var u, v := a[0], b[0];
      assert a == [u] + a[1..] && b == [v] + b[1..];
      assert a + b == [u] + (a[1..] + b);
      RoundFrom(u, a[1..] + b, p);
      assert [u] + (a[1..] + b) + [u] == a + [v] + (b[1..] + [u]);
      PathInTwo(a, v, b[1..] + [u], p);
      assert b + a == [v] + (b[1..] + a);
      RoundFrom(v, b[1..] + a, p);
      assert [v] + (b[1..] + a) + [v] == b + [u] + (a[1..] + [v]);
      PathInTwo(b, u, a[1..] + [v], p);
      assert [v] + (b[1..] + [u]) == b + [u] && [u] + (a[1..] + [v]) == a + [v];
    }
  }

  /** Nor does the way round. */
  lemma ReversalKeepsParity(ring: Ring, p: Point)
    ensures OddRing(Reversed(ring), p) == OddRing(ring, p)
  {
    hide OddPath;
    if ring != [] {
      var v, rest := ring[0], ring[1..];
      assert ring == [v] + rest;
      RoundFrom(v, rest, p);
      ReversedPath([v] + rest + [v], p);
      ReversedEnds(v, rest);
      assert [v] + Reversed(rest) + [v] == [v] + (Reversed(rest) + [v]);
      RoundFrom(v, Reversed(rest), p);
      RotationKeepsParity(Reversed(rest), [v], p);
    }
  }

  lemma {:induction false} ReversedFirst(v: Point, rest: seq<Point>)
    ensures Reversed([v] + rest) == Reversed(rest) + [v]
  {
    if rest == [] {
      assert [v] + rest == [v] && Reversed([v]) == [v];
    } else {
      ReversedFirst(v, rest[..|rest| - 1]);
      assert ([v] + rest)[..|rest|] == [v] + rest[..|rest| - 1];
    }
  }

  lemma ReversedEnds(v: Point, rest: seq<Point>)
    ensures Reversed([v] + rest) == Reversed(rest) + [v]
    ensures Reversed([v] + rest + [v]) == [v] + Reversed(rest) + [v]
  {
    ReversedFirst(v, rest);
    assert ([v] + rest + [v])[..|rest| + 1] == [v] + rest;
  }

  /** Section 3.1.6 of RFC 7946 has a ring end with its first vertex again; whether a
      file does so makes no difference. */
  lemma ClosingKeepsParity(v: Point, rest: seq<Point>, p: Point)
    ensures OddRing([v] + rest + [v], p) == OddRing([v] + rest, p)
  {
    hide OddPath;
    assert [v] + rest + [v] == [v] + (rest + [v]);
    RoundFrom(v, rest + [v], p);
    RoundFrom(v, rest, p);
    assert [v] + (rest + [v]) + [v] == ([v] + rest) + [v] + [v];
    PathInTwo([v] + rest, v, [v], p);
    EdgeEitherWay(v, v, p);
    assert [v] + [v] == [v, v];
  }

  /** Cut along the chord from u to v, a ring holds a point exactly when one of the two
      pieces does but not the other: a cut neither loses a point nor counts it twice. */
  lemma ChordSplitsParity(u: Point, a: seq<Point>, v: Point, b: seq<Point>, p: Point)
    ensures OddRing([u] + a + [v] + b, p) == (OddRing([u] + a + [v], p) != OddRing([v] + b + [u], p))
  {
    hide OddPath, Crosses;
    assert [u] + a + [v] + b == [u] + (a + [v] + b);
    RoundFrom(u, a + [v] + b, p);
    assert [u] + (a + [v] + b) + [u] == ([u] + a) + [v] + (b + [u]);
    PathInTwo([u] + a, v, b + [u], p);
    assert [u] + a + [v] == [u] + (a + [v]);
    RoundFrom(u, a + [v], p);
    assert [u] + (a + [v]) + [u] == ([u] + a) + [v] + [u];
    PathInTwo([u] + a, v, [u], p);
    assert [v] + b + [u] == [v] + (b + [u]);
    RoundFrom(v, b + [u], p);
    assert [v] + (b + [u]) + [v] == ([v] + b) + [u] + [v];
    PathInTwo([v] + b, u, [v], p);
    EdgeEitherWay(u, v, p);
    assert [v] + [u] == [v, u] && [u] + [v] == [u, v];
    assert [v] + b + [u] == [v] + (b + [u]);
  }

  // ------------------------------------------------------------- what it means --

  /** A vertex put in the middle of an edge changes nothing. */
  lemma EdgeInTwo(a: Point, m: Point, b: Point, t: real, p: Point)
    requires 0.0 <= t <= 1.0
    requires m == Point(a.lon + t * (b.lon - a.lon), a.lat + t * (b.lat - a.lat))
    ensures Crosses(a, b, p) == (Crosses(a, m, p) != Crosses(m, b, p))
  {
    if a.lat == b.lat {
      assert t * (b.lat - a.lat) == 0.0;
    } else {
      var h := b.lat - a.lat;
      Spread(t, h);
      if m.lat != a.lat {
        SameLine(a, m, b, t, p.lat);
      }
      if m.lat != b.lat {
        assert m.lon == b.lon + (1.0 - t) * (a.lon - b.lon);
        assert m.lat == b.lat + (1.0 - t) * (a.lat - b.lat);
        SameLine(b, m, a, 1.0 - t, p.lat);
        MeetsEitherWay(a, b, p.lat);
        MeetsEitherWay(b, m, p.lat);
      }
    }
  }

  /** So a ring drawn with more vertices along the same edges holds the same points. */
  lemma FinerRingKeepsParity(u: Point, m: Point, v: Point, rest: seq<Point>, t: real, p: Point)
    requires 0.0 <= t <= 1.0
    requires m == Point(u.lon + t * (v.lon - u.lon), u.lat + t * (v.lat - u.lat))
    ensures OddRing([u, m, v] + rest, p) == OddRing([u, v] + rest, p)
  {
    hide OddPath, Crosses;
    assert [u, m, v] + rest == [u] + ([m, v] + rest) && [u, v] + rest == [u] + ([v] + rest);
    RoundFrom(u, [m, v] + rest, p);
    RoundFrom(u, [v] + rest, p);
    assert [u] + ([m, v] + rest) + [u] == [u, m] + [v] + (rest + [u]);
    assert [u] + ([v] + rest) + [u] == [u] + [v] + (rest + [u]);
    PathInTwo([u, m], v, rest + [u], p);
    PathInTwo([u], v, rest + [u], p);
    assert [u, m] + [v] == [u] + [m] + [v] && [u] + [m] == [u, m] && [m] + [v] == [m, v] && [u] + [v] == [u, v];
    PathInTwo([u], m, [v], p);
    EdgeEitherWay(u, m, p);
    EdgeEitherWay(m, v, p);
    EdgeEitherWay(u, v, p);
    EdgeInTwo(u, m, v, t, p);
  }

  lemma Spread(t: real, h: real)
    requires 0.0 <= t <= 1.0
    ensures h >= 0.0 ==> 0.0 <= t * h <= h
    ensures h <= 0.0 ==> h <= t * h <= 0.0
  {
    assert h - t * h == (1.0 - t) * h;
  }

  lemma SameLine(a: Point, m: Point, b: Point, t: real, lat: real)
    requires a.lat != b.lat && a.lat != m.lat
    requires m == Point(a.lon + t * (b.lon - a.lon), a.lat + t * (b.lat - a.lat))
    ensures Meets(a, m, lat) == Meets(a, b, lat)
  {
    var w, h, k := b.lon - a.lon, b.lat - a.lat, lat - a.lat;
    var q, r := w * k / h, (t * w) * k / (t * h);
    assert q * h == w * k;
    assert r * (t * h) == (t * w) * k;
    assert q * (t * h) == t * (q * h) == t * (w * k) == (t * w) * k;
    Cancel(q, r, t * h);
  }

  /** Between the ends of an edge that passes the latitude. */
  lemma MeetsBetween(a: Point, b: Point, lat: real)
    requires (a.lat > lat) != (b.lat > lat)
    ensures a.lon <= Meets(a, b, lat) <= b.lon || b.lon <= Meets(a, b, lat) <= a.lon
  {
    var w, h, k := b.lon - a.lon, b.lat - a.lat, lat - a.lat;
    var t := k / h;
    assert t * h == k;
    var q := w * k / h;
    assert q * h == w * k;
    assert (t * w) * h == w * (t * h);
    Cancel(q, t * w, h);
    assert Meets(a, b, lat) == t * w + a.lon;
    Share(k, h, t);
    Spread(t, w);
  }

  lemma Share(k: real, h: real, t: real)
    requires t * h == k && h != 0.0 && (0.0 <= k <= h || h <= k <= 0.0)
    ensures 0.0 <= t <= 1.0
  {
    if h > 0.0 {
      if t < 0.0 {
        Positive(-t, h);
      } else if t > 1.0 {
        Positive(t - 1.0, h);
      }
    } else {
      if t < 0.0 {
        Positive(-t, -h);
      } else if t > 1.0 {
        Positive(t - 1.0, -h);
      }
    }
  }

  /** All vertices lie on one side of a line of latitude or longitude that has the point
      on it or beyond. */
  ghost predicate BoxedAway(ring: seq<Point>, p: Point) {
    || (forall i :: 0 <= i < |ring| ==> ring[i].lat > p.lat)
    || (forall i :: 0 <= i < |ring| ==> ring[i].lat <= p.lat)
    || (forall i :: 0 <= i < |ring| ==> ring[i].lon > p.lon)
    || (forall i :: 0 <= i < |ring| ==> ring[i].lon <= p.lon)
  }

  /** How a path that passes east of the point throughout crosses: as its ends lie. */
  lemma {:induction false} EastOfIt(path: seq<Point>, p: Point)
    requires path != [] && forall i :: 0 <= i < |path| ==> path[i].lon > p.lon
    ensures OddPath(path, p) == ((path[0].lat > p.lat) != (path[|path| - 1].lat > p.lat))
  {
    hide Meets;
    if |path| >= 2 {
      EastOfIt(path[..|path| - 1], p);
      var a, b := path[|path| - 1], path[|path| - 2];
      if (a.lat > p.lat) != (b.lat > p.lat) {
        MeetsBetween(a, b, p.lat);
      }
    }
  }

  lemma {:induction false} ElsewhereNoCrossing(path: seq<Point>, p: Point)
    requires
      || (forall i :: 0 <= i < |path| ==> path[i].lat > p.lat)
      || (forall i :: 0 <= i < |path| ==> path[i].lat <= p.lat)
      || (forall i :: 0 <= i < |path| ==> path[i].lon <= p.lon)
    ensures !OddPath(path, p)
  {
    hide Meets;
    if |path| >= 2 {
      ElsewhereNoCrossing(path[..|path| - 1], p);
      var a, b := path[|path| - 1], path[|path| - 2];
      if (a.lat > p.lat) != (b.lat > p.lat) {
        MeetsBetween(a, b, p.lat);
      }
    }
  }

  /** A point outside a ring's bounding box is outside the ring. */
  lemma OutsideTheBox(ring: Ring, p: Point)
    requires BoxedAway(ring, p)
    ensures !OddRing(ring, p)
  {
    hide OddPath;
    if ring != [] {
      var path := [ring[|ring| - 1]] + ring;
      if forall i :: 0 <= i < |ring| ==> ring[i].lon > p.lon {
        EastOfIt(path, p);
      } else {
        ElsewhereNoCrossing(path, p);
      }
    }
  }

  /** A box holds its west and south sides but not its east and north ones, so boxes laid
      side by side share no point and leave none out. */
  lemma BoxIsHalfOpen(west: real, south: real, east: real, north: real, p: Point)
    requires west < east && south < north
    ensures OddRing([Point(west, south), Point(east, south), Point(east, north), Point(west, north)], p)
      <==> west <= p.lon < east && south <= p.lat < north
  {
    var sw, se, ne, nw := Point(west, south), Point(east, south), Point(east, north), Point(west, north);
    var path := [nw, sw, se, ne, nw];
    assert [nw] + [sw, se, ne, nw] == path;
    assert path[..4] == [nw, sw, se, ne] && path[..4][..3] == [nw, sw, se] && path[..4][..3][..2] == [nw, sw];
    assert [nw, sw][..1] == [nw];
    assert OddPath([nw, sw], p) == Crosses(sw, nw, p);
    assert OddPath([nw, sw, se], p) == Crosses(sw, nw, p);
    assert OddPath([nw, sw, se, ne], p) == (Crosses(sw, nw, p) != Crosses(ne, se, p));
    assert OddPath(path, p) == (Crosses(sw, nw, p) != Crosses(ne, se, p));
  }
}
