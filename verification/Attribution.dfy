/** Who a packet proves was involved (internal/attribute/attribute.go). Keys and hops
    are hexadecimal strings, two characters a byte. */
module Attribution {
  import Grouping
  import opened Options
  import opened RuleEvidence

  const PREFIX_HEX := 6
  const ADVERT_TYPE := 4
  const TRACE_TYPE := 9
  const ROUTE_TRANSPORT_FLOOD := 0
  const ROUTE_FLOOD := 1

  datatype Kind = Node | Observer

  datatype Observed = Observed(kind: Kind, key: string)

  datatype Packet = Packet(id: int, at: nat, typ: int, route: int, advertKey: string, hops: seq<string>)

  datatype Hit = Hit(key: string, typ: int, dir: Direction)

  type Index = map<string, string>

  // --------------------------------------------------------------- the index --

  /** The observation claims the prefix. */
  predicate Claims(o: Observed, p: string) {
    o.kind == Node && |o.key| >= PREFIX_HEX && o.key[..PREFIX_HEX] == p
  }

  /** Some node has the prefix, and whoever has it has this key. */
  ghost predicate Resolves(obs: seq<Observed>, p: string, k: string) {
    && (exists i :: 0 <= i < |obs| && Claims(obs[i], p) && obs[i].key == k)
    && forall i :: 0 <= i < |obs| && Claims(obs[i], p) ==> obs[i].key == k
  }

  ghost predicate IndexOf(obs: seq<Observed>, idx: Index) {
    forall p, k :: (p in idx && idx[p] == k) <==> Resolves(obs, p, k)
  }

  /** What the counting loop knows of one prefix: a count of one means one key so far,
      however often it was seen. */
  ghost predicate Counted(obs: seq<Observed>, count: map<string, nat>, owner: map<string, string>, p: string) {
    && (p in count <==> p in owner)
    && (p in count <==> exists i :: 0 <= i < |obs| && Claims(obs[i], p))
    && (p in count ==>
          && count[p] >= 1
          && (exists i :: 0 <= i < |obs| && Claims(obs[i], p) && obs[i].key == owner[p])
          && (count[p] == 1 <==> forall i :: 0 <= i < |obs| && Claims(obs[i], p) ==> obs[i].key == owner[p]))
  }

  lemma CountsOne(obs: seq<Observed>, o: Observed, count: map<string, nat>, owner: map<string, string>, p: string)
    requires Counted(obs, count, owner, p) && Claims(o, p)
    ensures p in owner && owner[p] == o.key ==> Counted(obs + [o], count, owner, p)
    ensures !(p in owner && owner[p] == o.key) ==>
      Counted(obs + [o], count[p := (if p in count then count[p] else 0) + 1], owner[p := o.key], p)
  {
    var all := obs + [o];
    assert all[|obs|] == o;
    assert forall i :: 0 <= i < |obs| ==> all[i] == obs[i];
    if p in owner {
      var i :| 0 <= i < |obs| && Claims(obs[i], p) && obs[i].key == owner[p];
      assert all[i].key == owner[p];
    }
  }

  lemma CountsNothing(obs: seq<Observed>, o: Observed, count: map<string, nat>, owner: map<string, string>, p: string)
    requires Counted(obs, count, owner, p) && !Claims(o, p)
    ensures Counted(obs + [o], count, owner, p)
  {
    var all := obs + [o];
    assert forall i :: 0 <= i < |obs| ==> all[i] == obs[i];
    if p in owner {
      var i :| 0 <= i < |obs| && Claims(obs[i], p) && obs[i].key == owner[p];
      assert all[i].key == owner[p];
    }
  }

  lemma CountedDependsOnOnePrefix(
    obs: seq<Observed>, c: map<string, nat>, w: map<string, string>, d: map<string, nat>, x: map<string, string>,
    p: string)
    requires Counted(obs, c, w, p) && (p in c <==> p in d) && (p in w <==> p in x)
    requires (p in c ==> c[p] == d[p]) && (p in w ==> w[p] == x[p])
    ensures Counted(obs, d, x, p)
  {
  }

  method BuildIndex(obs: seq<Observed>) returns (idx: Index)
    ensures IndexOf(obs, idx)
  {
    hide Counted;
    var count: map<string, nat>, owner: map<string, string> := map[], map[];
    assert forall p :: Counted([], count, owner, p) by {
      NothingCounted(count, owner);
    }
    assert obs[..0] == [];
    for n := 0 to |obs|
      invariant forall p :: Counted(obs[..n], count, owner, p)
    {
      var o := obs[n];
      ghost var count0, owner0 := count, owner;
      ghost var read := obs[..n + 1];
      assert read == obs[..n] + [o];
      if o.kind == Node && |o.key| >= PREFIX_HEX {
        var p := o.key[..PREFIX_HEX];
        if !(p in owner && owner[p] == o.key) {
          count := count[p := (if p in count then count[p] else 0) + 1];
          owner := owner[p := o.key];
        }
      }
      forall q ensures Counted(read, count, owner, q) {
        if Claims(o, q) {
          CountsOne(obs[..n], o, count0, owner0, q);
        } else {
          CountsNothing(obs[..n], o, count0, owner0, q);
          CountedDependsOnOnePrefix(read, count0, owner0, count, owner, q);
        }
      }
    }
    assert obs[..|obs|] == obs;
    idx := map[];
    var left := count.Keys;
    while left != {}
      invariant left <= count.Keys
      invariant idx.Keys == set p | p in count && p !in left && count[p] == 1
      invariant forall p :: p in idx ==> p in owner && idx[p] == owner[p]
    {
      var p :| p in left;
      KeptTogether(obs, count, owner, p);
      if count[p] == 1 {
        idx := idx[p := owner[p]];
      }
      left := left - {p};
    }
    forall p, k ensures (p in idx && idx[p] == k) <==> Resolves(obs, p, k) {
      CountDecides(obs, count, owner, p, k);
    }
  }

  lemma NothingCounted(count: map<string, nat>, owner: map<string, string>)
    requires count == map[] && owner == map[]
    ensures forall p :: Counted([], count, owner, p)
  {
  }

  lemma KeptTogether(obs: seq<Observed>, count: map<string, nat>, owner: map<string, string>, p: string)
    requires Counted(obs, count, owner, p)
    ensures p in count <==> p in owner
  {
  }

  lemma CountDecides(obs: seq<Observed>, count: map<string, nat>, owner: map<string, string>, p: string, k: string)
    requires Counted(obs, count, owner, p)
    ensures (p in count && p in owner && count[p] == 1 && owner[p] == k) <==> Resolves(obs, p, k)
  {
  }

  /** Order and duplicates do not matter: only which nodes there are. */
  lemma IndexDependsOnNodesOnly(obs: seq<Observed>, others: seq<Observed>, a: Index, b: Index)
    requires IndexOf(obs, a) && IndexOf(others, b)
    requires forall o: Observed :: o.kind == Node ==> (o in obs <==> o in others)
    ensures a == b
  {
    forall p, k ensures Resolves(obs, p, k) <==> Resolves(others, p, k) {
      if Resolves(obs, p, k) {
        Moved(obs, others, p, k);
      }
      if Resolves(others, p, k) {
        Moved(others, obs, p, k);
      }
    }
    forall p | p in a ensures p in b && b[p] == a[p] {
      assert Resolves(obs, p, a[p]);
    }
    forall p | p in b ensures p in a {
      assert Resolves(others, p, b[p]);
    }
  }

  lemma Moved(obs: seq<Observed>, others: seq<Observed>, p: string, k: string)
    requires Resolves(obs, p, k)
    requires forall o: Observed :: o.kind == Node ==> (o in obs <==> o in others)
    ensures Resolves(others, p, k)
  {
    var i :| 0 <= i < |obs| && Claims(obs[i], p) && obs[i].key == k;
    assert obs[i] in others;
    forall j | 0 <= j < |others| && Claims(others[j], p) ensures others[j].key == k {
      assert others[j] in obs;
    }
  }

  /** More observations may withdraw a prefix, exactly when a different node claims it,
      or introduce one nobody claimed before; they never re-point it. */
  lemma GrowthNeverRepoints(obs: seq<Observed>, more: seq<Observed>, a: Index, b: Index, p: string)
    requires IndexOf(obs, a) && IndexOf(obs + more, b)
    ensures p in a && p in b ==> a[p] == b[p]
    ensures p in a ==> (p in b <==> forall o :: o in more && Claims(o, p) ==> o.key == a[p])
    ensures p in b && p !in a ==> forall o :: o in obs ==> !Claims(o, p)
  {
    var all := obs + more;
    assert forall i :: 0 <= i < |obs| ==> all[i] == obs[i];
    assert forall i :: 0 <= i < |more| ==> all[|obs| + i] == more[i];
    if p in a {
      assert Resolves(obs, p, a[p]);
      var i :| 0 <= i < |obs| && Claims(obs[i], p) && obs[i].key == a[p];
      assert Claims(all[i], p);
      if p in b {
        assert Resolves(all, p, b[p]);
      }
      if forall o :: o in more && Claims(o, p) ==> o.key == a[p] {
        forall j | 0 <= j < |all| && Claims(all[j], p) ensures all[j].key == a[p] {
          assert j >= |obs| ==> all[j] == more[j - |obs|];
        }
        assert Resolves(all, p, a[p]);
      }
    } else if p in b {
      assert Resolves(all, p, b[p]);
      forall o | o in obs ensures !Claims(o, p) {
        var i :| 0 <= i < |obs| && obs[i] == o;
        if Claims(o, p) {
          assert all[i].key == b[p];
          assert Resolves(obs, p, b[p]);
        }
      }
    }
  }

  // --------------------------------------------------------------- the lookup --

  function Lookup(idx: Index, hop: string): (r: Option<string>) {
    if |hop| < PREFIX_HEX || hop[..PREFIX_HEX] !in idx then None else Some(idx[hop[..PREFIX_HEX]])
  }

  /** A hop that starts some node's key is read as that node or as nobody, and as nobody
      exactly when another node's key starts the same. */
  lemma HopIsNeverMisread(obs: seq<Observed>, idx: Index, i: nat, hop: string)
    requires IndexOf(obs, idx) && i < |obs| && Wrote(obs[i], hop) && 6 <= |hop|
    ensures Lookup(idx, hop) in {None, Some(obs[i].key)}
    ensures Lookup(idx, hop) == None <==>
      exists j :: 0 <= j < |obs| && Claims(obs[j], hop[..6]) && obs[j].key != obs[i].key
  {
    var p := hop[..PREFIX_HEX];
    assert obs[i].key[..PREFIX_HEX] == obs[i].key[..|hop|][..PREFIX_HEX];
    assert Claims(obs[i], p);
    if p in idx {
      assert Resolves(obs, p, idx[p]);
    } else {
      assert !Resolves(obs, p, obs[i].key);
    }
  }

  // ----------------------------------------------------------- what is proved --

  predicate IsAdvert(pk: Packet) {
    pk.typ == ADVERT_TYPE && |pk.advertKey| == 64
  }

  /** The path says where the packet has been. */
  predicate PathIsHistory(pk: Packet) {
    pk.route in {ROUTE_TRANSPORT_FLOOD, ROUTE_FLOOD} && pk.typ != TRACE_TYPE
  }

  /** The resolvable ones of the first n hops, each with its key. */
  function Resolved(idx: Index, hops: seq<string>, n: nat): seq<(string, string)>
    requires n <= |hops|
  {
    if n == 0 then []
    else
      var before := Resolved(idx, hops, n - 1);
      match Lookup(idx, hops[n - 1])
      case None => before
      case Some(k) => before + [(k, hops[n - 1])]
  }

  /** The nodes on the path, each once, in the order they first appear. */
  function Carriers(pk: Packet, idx: Index): seq<string> {
    if PathIsHistory(pk) then Grouping.Keys(Resolved(idx, pk.hops, |pk.hops|)) else []
  }

  function AsHits(ks: seq<string>, typ: int): (hits: seq<Hit>)
    ensures |hits| == |ks| && forall i :: 0 <= i < |ks| ==> hits[i] == Hit(ks[i], typ, RuleEvidence.Carried)
  {
    if ks == [] then [] else AsHits(ks[..|ks| - 1], typ) + [Hit(ks[|ks| - 1], typ, RuleEvidence.Carried)]
  }

  lemma AsHitsAppend(ks: seq<string>, k: string, typ: int)
    ensures AsHits(ks + [k], typ) == AsHits(ks, typ) + [Hit(k, typ, RuleEvidence.Carried)]
  {
    assert (ks + [k])[..|ks|] == ks;
  }

  function SentHits(pk: Packet): seq<Hit> {
    if IsAdvert(pk) then [Hit(pk.advertKey, pk.typ, RuleEvidence.Sent)] else []
  }

  function Proves(pk: Packet, idx: Index): seq<Hit> {
    SentHits(pk) + AsHits(Carriers(pk, idx), pk.typ)
  }

  lemma NoHits(typ: int)
    ensures AsHits([], typ) == []
  {
  }

  lemma NoKeys(idx: Index, hops: seq<string>)
    ensures Grouping.Keys(Resolved(idx, hops, 0)) == []
  {
  }

  lemma NextHop(idx: Index, hops: seq<string>, n: nat)
    requires n < |hops|
    ensures var ks := Grouping.Keys(Resolved(idx, hops, n));
            Grouping.Keys(Resolved(idx, hops, n + 1)) ==
              match Lookup(idx, hops[n])
              case None => ks
              case Some(k) => if k in ks then ks else ks + [k]
  {
    hide Lookup;
    if Lookup(idx, hops[n]).Some? {
      Grouping.Append(Resolved(idx, hops, n), (Lookup(idx, hops[n]).value, hops[n]));
    }
  }

  method Attribute(pk: Packet, idx: Index) returns (hits: seq<Hit>)
    ensures hits == Proves(pk, idx)
  {
    hide Lookup, Grouping.Keys, Resolved, AsHits;
    hits := [];
    if pk.typ == ADVERT_TYPE && |pk.advertKey| == 64 {
      hits := hits + [Hit(pk.advertKey, pk.typ, RuleEvidence.Sent)];
    }
    if !(pk.route == ROUTE_TRANSPORT_FLOOD || pk.route == ROUTE_FLOOD) || pk.typ == TRACE_TYPE {
      NoHits(pk.typ);
      return;
    }
    var seen: set<string> := {};
    ghost var ks: seq<string> := [];
    NoKeys(idx, pk.hops);
    NoHits(pk.typ);
    for n := 0 to |pk.hops|
      invariant ks == Grouping.Keys(Resolved(idx, pk.hops, n))
      invariant forall k :: k in seen <==> k in ks
      invariant hits == SentHits(pk) + AsHits(ks, pk.typ)
    {
      var hop := pk.hops[n];
      var found := Lookup(idx, hop);
      NextHop(idx, pk.hops, n);
      if found.None? {
        continue;
      }
      var key := found.value;
      if key in seen {
        continue;
      }
      seen := seen + {key};
      AsHitsAppend(ks, key, pk.typ);
      ks := ks + [key];
      hits := hits + [Hit(key, pk.typ, RuleEvidence.Carried)];
    }
  }

  lemma {:induction false} KnownHops(idx: Index, hops: seq<string>, n: nat, k: string)
    requires n <= |hops|
    ensures k in Grouping.Keys(Resolved(idx, hops, n)) <==> exists i :: 0 <= i < n && Lookup(idx, hops[i]) == Some(k)
  {
    hide Lookup, Resolved, Grouping.Keys;
    if n == 0 {
      NoKeys(idx, hops);
    } else {
      KnownHops(idx, hops, n - 1, k);
      NextHop(idx, hops, n - 1);
    }
  }

  /** Everything a packet proves, and nothing else: an advert's own key as sent, and as
      carried exactly the nodes its hops resolve to on a flood route other than TRACE. */
  lemma ProvesExactly(pk: Packet, idx: Index, h: Hit)
    ensures h in Proves(pk, idx) <==>
      (h == Hit(pk.advertKey, pk.typ, RuleEvidence.Sent) && pk.typ == 4 && |pk.advertKey| == 64)
      || (pk.route in {0, 1} && pk.typ != 9 && h == Hit(h.key, pk.typ, RuleEvidence.Carried)
          && exists i :: 0 <= i < |pk.hops| && Lookup(idx, pk.hops[i]) == Some(h.key))
  {
    hide Grouping.Keys, Resolved, Lookup;
    KnownHops(idx, pk.hops, |pk.hops|, h.key);
    var ks := Carriers(pk, idx);
    var hits := AsHits(ks, pk.typ);
    assert h in hits <==> h == Hit(h.key, pk.typ, RuleEvidence.Carried) && h.key in ks by {
      if h.key in ks {
        var i :| 0 <= i < |ks| && ks[i] == h.key;
        assert hits[i] == Hit(h.key, pk.typ, RuleEvidence.Carried);
      }
    }
    assert h in SentHits(pk) <==> h == Hit(pk.advertKey, pk.typ, RuleEvidence.Sent) && IsAdvert(pk);
  }

  /** Each node is told of once in each direction. */
  lemma EachHitOnce(pk: Packet, idx: Index, i: nat, j: nat)
    requires i < j < |Proves(pk, idx)|
    ensures (Proves(pk, idx)[i].key, Proves(pk, idx)[i].dir) != (Proves(pk, idx)[j].key, Proves(pk, idx)[j].dir)
  {
    hide Grouping.Keys, Resolved;
    Grouping.KeysAreDistinct(Resolved(idx, pk.hops, |pk.hops|));
    assert RuleEvidence.Sent != RuleEvidence.Carried;
  }

  /** The hop is the start of this node's key. */
  predicate Wrote(o: Observed, hop: string) {
    o.kind == Node && |hop| <= |o.key| && o.key[..|hop|] == hop
  }

  /** When each hop was written by a node the index was built from, every node said to
      have carried the packet did. */
  lemma NobodyIsCreditedFalsely(obs: seq<Observed>, idx: Index, pk: Packet, relays: seq<nat>, h: Hit)
    requires IndexOf(obs, idx) && |relays| == |pk.hops|
    requires forall i :: 0 <= i < |relays| ==> relays[i] < |obs| && Wrote(obs[relays[i]], pk.hops[i])
    requires h in Proves(pk, idx) && h.dir == RuleEvidence.Carried
    ensures exists i :: 0 <= i < |relays| && obs[relays[i]].key == h.key
  {
    hide Proves, IndexOf;
    ProvesExactly(pk, idx, h);
    var i :| 0 <= i < |pk.hops| && Lookup(idx, pk.hops[i]) == Some(h.key);
    HopIsNeverMisread(obs, idx, relays[i], pk.hops[i]);
  }
}
