/** How many elements of a sequence satisfy a predicate. */
module Counting {

  function Count(s: seq<real>, p: real -> bool): nat {
    if s == [] then 0 else (if p(s[0]) then 1 else 0) + Count(s[1..], p)
  }

  lemma {:induction false} CountConcat(s: seq<real>, t: seq<real>, p: real -> bool)
    ensures Count(s + t, p) == Count(s, p) + Count(t, p)
  {
    if s == [] {
      assert s + t == t;
    } else {
      CountConcat(s[1..], t, p);
      assert (s + t)[1..] == s[1..] + t;
    }
  }

  function Without(t: seq<real>, i: nat): seq<real>
    requires i < |t|
  {
    t[..i] + t[i + 1..]
  }

  lemma CountWithout(t: seq<real>, i: nat, p: real -> bool)
    requires i < |t|
    ensures Count(t, p) == Count(Without(t, i), p) + (if p(t[i]) then 1 else 0)
  {
    hide Count;
    var front, back := t[..i], t[i + 1..];
    assert t == front + ([t[i]] + back);
    CountConcat(front, [t[i]] + back, p);
    CountConcat(front, back, p);
    CountFirst(t[i], back, p);
  }

  lemma CountFirst(x: real, s: seq<real>, p: real -> bool)
    ensures Count([x] + s, p) == Count(s, p) + if p(x) then 1 else 0
  {
    assert ([x] + s)[1..] == s;
  }

  lemma WithoutIsLess(t: seq<real>, i: nat)
    requires i < |t|
    ensures multiset(Without(t, i)) == multiset(t) - multiset{t[i]} && |Without(t, i)| == |t| - 1
  {
    assert t == t[..i] + ([t[i]] + t[i + 1..]);
  }

  /** The element a sequence starts with, found in another of the same elements. */
  lemma Match(s: seq<real>, t: seq<real>) returns (i: nat)
    requires multiset(s) == multiset(t) && s != []
    ensures i < |t| && t[i] == s[0] && multiset(Without(s, 0)) == multiset(Without(t, i))
  {
    hide Without;
    assert s[0] in multiset(t);
    i :| 0 <= i < |t| && t[i] == s[0];
    WithoutIsLess(s, 0);
    WithoutIsLess(t, i);
  }

  lemma SameLength(s: seq<real>, t: seq<real>)
    requires multiset(s) == multiset(t)
    ensures |s| == |t|
  {
    assert |multiset(s)| == |s| && |multiset(t)| == |t|;
  }

  lemma {:induction false} CountIsByMultiset(s: seq<real>, t: seq<real>, p: real -> bool)
    requires multiset(s) == multiset(t)
    ensures Count(s, p) == Count(t, p)
    decreases |s|
  {
    hide Without, Count;
    SameLength(s, t);
    if s == [] {
      assert t == s;
    } else {
      var i := Match(s, t);
      CountWithout(s, 0, p);
      CountWithout(t, i, p);
      WithoutIsLess(s, 0);
      CountIsByMultiset(Without(s, 0), Without(t, i), p);
    }
  }

  lemma {:induction false} CountAtMost(s: seq<real>, p: real -> bool)
    ensures Count(s, p) <= |s|
    ensures (forall i :: 0 <= i < |s| ==> !p(s[i])) ==> Count(s, p) == 0
  {
    if s != [] {
      CountAtMost(s[1..], p);
    }
  }

  /** Elements that satisfy p lie among those from i to j. */
  lemma CountWithin(s: seq<real>, p: real -> bool, i: nat, j: nat)
    requires i <= j <= |s|
    requires forall k :: 0 <= k < i || j <= k < |s| ==> !p(s[k])
    ensures Count(s, p) <= j - i
  {
    hide Count;
    assert s == s[..i] + (s[i..j] + s[j..]);
    CountConcat(s[..i], s[i..j] + s[j..], p);
    CountConcat(s[i..j], s[j..], p);
    CountAtMost(s[..i], p);
    CountAtMost(s[i..j], p);
    CountAtMost(s[j..], p);
  }

  lemma {:induction false} CountAll(s: seq<real>, p: real -> bool)
    requires forall i :: 0 <= i < |s| ==> p(s[i])
    ensures Count(s, p) == |s|
  {
    if s != [] {
      CountAll(s[1..], p);
    }
  }

  /** If all from i to j satisfy p, there are at least so many. */
  lemma CountAtLeast(s: seq<real>, p: real -> bool, i: nat, j: nat)
    requires i <= j <= |s| && forall k :: i <= k < j ==> p(s[k])
    ensures Count(s, p) >= j - i
  {
    assert s == s[..i] + (s[i..j] + s[j..]);
    CountConcat(s[..i], s[i..j] + s[j..], p);
    CountConcat(s[i..j], s[j..], p);
    CountAll(s[i..j], p);
  }
}
