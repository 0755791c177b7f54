/** The library's sort: the same elements in order of a key. Which of two elements with
    one key comes first is left open by SortBySorts, as it is by the library. */
module Sorting {

  ghost predicate SortedBy<T>(s: seq<T>, key: T -> real) {
    forall i, j :: 0 <= i < j < |s| ==> key(s[i]) <= key(s[j])
  }

  function InsertBy<T>(v: T, s: seq<T>, key: T -> real): seq<T> {
    if s == [] || key(v) <= key(s[0]) then [v] + s else [s[0]] + InsertBy(v, s[1..], key)
  }

  function SortBy<T>(s: seq<T>, key: T -> real): seq<T> {
    if s == [] then [] else InsertBy(s[0], SortBy(s[1..], key), key)
  }

  lemma {:induction false} InsertAdds<T>(v: T, s: seq<T>, key: T -> real)
    ensures multiset(InsertBy(v, s, key)) == multiset(s) + multiset{v} && |InsertBy(v, s, key)| == |s| + 1
  {
    if s != [] {
      assert s == [s[0]] + s[1..];
      InsertAdds(v, s[1..], key);
    }
  }

  lemma {:induction false} InsertKeepsOrder<T>(v: T, s: seq<T>, key: T -> real)
    requires SortedBy(s, key)
    ensures SortedBy(InsertBy(v, s, key), key)
  {
    if s != [] && key(v) > key(s[0]) {
      InsertKeepsOrder(v, s[1..], key);
      InsertAdds(v, s[1..], key);
      var rest := InsertBy(v, s[1..], key);
      forall i | 0 <= i < |rest| ensures key(s[0]) <= key(rest[i]) {
        assert rest[i] in multiset(rest);
        assert rest[i] == v || rest[i] in s[1..];
      }
    }
  }

  lemma {:induction false} SortBySorts<T>(s: seq<T>, key: T -> real)
    ensures SortedBy(SortBy(s, key), key) && multiset(SortBy(s, key)) == multiset(s) && |SortBy(s, key)| == |s|
  {
    if s != [] {
      assert s == [s[0]] + s[1..];
      SortBySorts(s[1..], key);
      InsertAdds(s[0], SortBy(s[1..], key), key);
      InsertKeepsOrder(s[0], SortBy(s[1..], key), key);
    }
  }
}
