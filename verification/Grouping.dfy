/** Collecting keyed items into one group per key, keys in order of first appearance
    and items in their own order. The poller groups messages this way by watch and
    direction, and by user; the notifier groups due messages by user. */
module Grouping {

  function Keys<K(==), V>(items: seq<(K, V)>): seq<K> {
    if items == [] then []
    else
      var before := Keys(items[..|items| - 1]);
      var k := items[|items| - 1].0;
      if k in before then before else before + [k]
  }

  function Pick<K(==), V>(items: seq<(K, V)>, k: K): seq<V> {
    if items == [] then []
    else
      var before := Pick(items[..|items| - 1], k);
      if items[|items| - 1].0 == k then before + [items[|items| - 1].1] else before
  }

  /** The map a grouping loop builds. */
  function Groups<K(==), V>(items: seq<(K, V)>): map<K, seq<V>> {
    map k | k in Keys(items) :: Pick(items, k)
  }

  lemma Append<K, V>(items: seq<(K, V)>, it: (K, V))
    ensures Keys(items + [it]) == if it.0 in Keys(items) then Keys(items) else Keys(items) + [it.0]
    ensures forall k :: Pick(items + [it], k) == if k == it.0 then Pick(items, k) + [it.1] else Pick(items, k)
  {
    var all := items + [it];
    assert all[..|all| - 1] == items && all[|all| - 1] == it;
  }

  ghost predicate HasKey<K, V>(items: seq<(K, V)>, k: K) {
    exists i :: 0 <= i < |items| && items[i].0 == k
  }

  lemma HasKeyAppend<K, V>(items: seq<(K, V)>, it: (K, V), k: K)
    ensures HasKey(items + [it], k) <==> HasKey(items, k) || it.0 == k
  {
    var all := items + [it];
    assert all[|items|] == it;
    if HasKey(items, k) {
      var i :| 0 <= i < |items| && items[i].0 == k;
      assert all[i].0 == k;
    }
  }

  lemma {:induction false} KeysAreTheItemsKeys<K, V>(items: seq<(K, V)>, k: K)
    ensures k in Keys(items) <==> HasKey(items, k)
    ensures k in Keys(items) <==> Pick(items, k) != []
  {
    if items != [] {
      var init, it := items[..|items| - 1], items[|items| - 1];
      KeysAreTheItemsKeys(init, k);
      HasKeyAppend(init, it, k);
      assert items == init + [it];
    }
  }

  /** A group holds what its key came with. */
  lemma {:induction false} PickHolds<K, V>(items: seq<(K, V)>, k: K, v: V)
    ensures v in Pick(items, k) <==> (k, v) in items
  {
    if items != [] {
      PickHolds(items[..|items| - 1], k, v);
      assert items == items[..|items| - 1] + [items[|items| - 1]];
    }
  }

  lemma {:induction false} KeysAreDistinct<K, V>(items: seq<(K, V)>)
    ensures forall i, j :: 0 <= i < j < |Keys(items)| ==> Keys(items)[i] != Keys(items)[j]
  {
    if items != [] {
      KeysAreDistinct(items[..|items| - 1]);
    }
  }

  /** Where item i lands in its own group. */
  function Rank<K(==), V>(items: seq<(K, V)>, i: nat): nat
    requires i < |items|
  {
    |Pick(items[..i], items[i].0)|
  }

  lemma {:induction false} PickPrefix<K, V>(items: seq<(K, V)>, n: nat, k: K)
    requires n <= |items|
    ensures Pick(items[..n], k) <= Pick(items, k)
  {
    if n < |items| {
      PickPrefix(items[..|items| - 1], n, k);
      assert items[..|items| - 1][..n] == items[..n];
    } else {
      assert items[..n] == items;
    }
  }

  /** Every item is found in its own group, at a place no other item has. */
  lemma ItemHasItsOwnPlace<K, V>(items: seq<(K, V)>, i: nat, j: nat)
    requires i <= j < |items|
    ensures Rank(items, i) < |Pick(items, items[i].0)| && Pick(items, items[i].0)[Rank(items, i)] == items[i].1
    ensures i < j && items[i].0 == items[j].0 ==> Rank(items, i) < Rank(items, j)
  {
    PickPrefix(items, i + 1, items[i].0);
    assert items[..i + 1] == items[..i] + [items[i]];
    Append(items[..i], items[i]);
    PickPrefix(items[..j], i, items[i].0);
    assert i <= j ==> items[..j][..i] == items[..i];
    if i < j {
      PickPrefix(items[..j], i + 1, items[i].0);
      assert items[..j][..i + 1] == items[..i + 1];
    }
  }

  /** Total size of the groups of the given keys. */
  function Total<K(==), V>(items: seq<(K, V)>, keys: seq<K>): nat {
    if keys == [] then 0 else Total(items, keys[..|keys| - 1]) + |Pick(items, keys[|keys| - 1])|
  }

  lemma {:induction false} TotalAppend<K, V>(items: seq<(K, V)>, it: (K, V), keys: seq<K>)
    requires forall i, j :: 0 <= i < j < |keys| ==> keys[i] != keys[j]
    ensures Total(items + [it], keys) == Total(items, keys) + if it.0 in keys then 1 else 0
  {
    if keys != [] {
      var init := keys[..|keys| - 1];
      TotalAppend(items, it, init);
      Append(items, it);
      assert keys == init + [keys[|keys| - 1]];
      assert it.0 in init ==> it.0 != keys[|keys| - 1] by {
        if it.0 in init {
          var i :| 0 <= i < |init| && init[i] == it.0;
          assert keys[i] == it.0;
        }
      }
    }
  }

  /** The groups hold every item and nothing else: with ItemHasItsOwnPlace, each item
      is in exactly one group exactly once. */
  lemma {:induction false} GroupsPartition<K, V>(items: seq<(K, V)>)
    ensures Total(items, Keys(items)) == |items|
    ensures |Keys(items)| <= |items|
  {
    if items != [] {
      var init, it := items[..|items| - 1], items[|items| - 1];
      assert items == init + [it];
      GroupsPartition(init);
      KeysAreDistinct(init);
      TotalAppend(init, it, Keys(init));
      Append(init, it);
      if it.0 !in Keys(init) {
        KeysAreTheItemsKeys(init, it.0);
        assert Keys(items)[..|Keys(items)| - 1] == Keys(init);
        assert Pick(items, it.0) == [it.1];
      }
    }
  }

  /** Keys come in order of first appearance. */
  lemma {:induction false} KeysInOrderOfAppearance<K, V>(items: seq<(K, V)>, n: nat)
    requires n <= |items|
    ensures Keys(items[..n]) <= Keys(items)
  {
    if n < |items| {
      KeysInOrderOfAppearance(items[..|items| - 1], n);
      assert items[..|items| - 1][..n] == items[..n];
    } else {
      assert items[..n] == items;
    }
  }

  lemma GroupsAppend<K, V>(items: seq<(K, V)>, it: (K, V))
    ensures var m := Groups(items);
            && Groups(items + [it]) == m[it.0 := (if it.0 in m then m[it.0] else []) + [it.1]]
            && Keys(items + [it]) == if it.0 in m then Keys(items) else Keys(items) + [it.0]
  {
    Append(items, it);
    KeysAreTheItemsKeys(items, it.0);
  }

  /** The body of every grouping loop: open a group on first sight of its key. */
  method Put<K(==), V>(groups: map<K, seq<V>>, order: seq<K>, k: K, v: V, ghost items: seq<(K, V)>)
    returns (groups1: map<K, seq<V>>, order1: seq<K>)
    requires groups == Groups(items) && order == Keys(items)
    ensures groups1 == Groups(items + [(k, v)]) && order1 == Keys(items + [(k, v)])
  {
    groups1, order1 := groups, order;
    if k !in groups1 {
      groups1 := groups1[k := []];
      order1 := order1 + [k];
    }
    groups1 := groups1[k := groups1[k] + [v]];
    GroupsAppend(items, (k, v));
  }
}
