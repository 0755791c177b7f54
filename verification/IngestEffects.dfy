/** What one poll of the packet feed records, packet by packet and row by row
    (internal/poller/poller.go, ingest). */
module IngestEffects {
  import Attribution
  import Grouping
  import opened RuleEvidence
  import opened Ingest
  import IngestRuns

  /** A packet the poll is the first to count: dated, and outside the range. */
  predicate IsFirstCounted(c: Cursor, pk: Packet) {
    pk.at > 0 && !(c.high > 0 && (if c.low == 0 then c.high else c.low) <= pk.id <= c.high)
  }

  /** The packet shows the slot's node at work, the slot's way. */
  ghost predicate Shows(pk: Packet, nodes: Index, s: Slot) {
    s.kind == "node" && Attribution.Hit(s.key, s.typ, s.dir) in Attribution.Proves(pk, nodes)
  }

  // ------------------------------------------------------------- proofs of one slot --

  lemma {:induction false} HitsProve(hits: seq<Attribution.Hit>, at: nat, n: nat, s: Slot)
    requires n <= |hits|
    requires forall i, j :: 0 <= i < j < |hits| ==> hits[i] != hits[j]
    ensures Grouping.Pick(ProofsOf(hits, at, n), s)
         == if s.kind == "node" && Attribution.Hit(s.key, s.typ, s.dir) in hits[..n] then [at] else []
  {
    if n > 0 {
      hide ProofOf;
      HitsProve(hits, at, n - 1, s);
      ProvesOwnSlot(hits[n - 1], at, s);
      assert hits[..n] == hits[..n - 1] + [hits[n - 1]];
      Grouping.Append(ProofsOf(hits, at, n - 1), ProofOf(hits[n - 1], at));
    }
  }

  lemma ProvesOwnSlot(h: Attribution.Hit, at: nat, s: Slot)
    ensures ProofOf(h, at).0 == s <==> s.kind == "node" && Attribution.Hit(s.key, s.typ, s.dir) == h
    ensures ProofOf(h, at).1 == at
  {
  }

  /** A packet proves a slot at most once. */
  lemma PacketProvesOnce(pk: Packet, nodes: Index, s: Slot)
    ensures Grouping.Pick(PacketProofs(pk, nodes), s) == if Shows(pk, nodes, s) then [pk.at] else []
  {
    hide Attribution.Proves, Grouping.Pick;
    var hits := Attribution.Proves(pk, nodes);
    forall i, j | 0 <= i < j < |hits| ensures hits[i] != hits[j] {
      Attribution.EachHitOnce(pk, nodes, i, j);
    }
    HitsProve(hits, pk.at, |hits|, s);
    assert hits[..|hits|] == hits;
  }

  lemma {:induction false} PickConcat<K, V>(a: seq<(K, V)>, b: seq<(K, V)>, k: K)
    ensures Grouping.Pick(a + b, k) == Grouping.Pick(a, k) + Grouping.Pick(b, k)
  {
    if b == [] {
      assert a + b == a;
    } else {
      PickConcat(a, b[..|b| - 1], k);
      assert (a + b)[..|a + b| - 1] == a + b[..|b| - 1];
    }
  }

  /** When the packets the poll counts among the first n of the page show the slot. */
  ghost function ShownAt(c: Cursor, page: seq<Packet>, nodes: Index, s: Slot, n: nat): seq<nat>
    requires n <= |page|
  {
    if n == 0 then []
    else
      ShownAt(c, page, nodes, s, n - 1)
      + if IsFirstCounted(c, page[n - 1]) && Shows(page[n - 1], nodes, s) then [page[n - 1].at] else []
  }

  lemma OnePacketProves(before: seq<Packet>, pk: Packet, nodes: Index, s: Slot)
    ensures Grouping.Pick(AllProofs(before + [pk], nodes), s)
         == Grouping.Pick(AllProofs(before, nodes), s) + if Shows(pk, nodes, s) then [pk.at] else []
  {
    hide PacketProofs, Shows, Grouping.Pick, AllProofs;
    OneMorePacket(before, pk, nodes);
    PickConcat(AllProofs(before, nodes), PacketProofs(pk, nodes), s);
    PacketProvesOnce(pk, nodes, s);
  }

  lemma FreshGrows(c: Cursor, page: seq<Packet>, n: nat)
    requires 0 < n <= |page|
    ensures Fresh(c, page, n)
         == if IsFirstCounted(c, page[n - 1]) then Fresh(c, page, n - 1) + [page[n - 1]] else Fresh(c, page, n - 1)
  {
  }

  lemma {:induction false} PageProves(c: Cursor, page: seq<Packet>, nodes: Index, s: Slot, n: nat)
    requires n <= |page|
    ensures Grouping.Pick(AllProofs(Fresh(c, page, n), nodes), s) == ShownAt(c, page, nodes, s, n)
  {
    hide AllProofs, Shows, Grouping.Pick, Fresh, IsFirstCounted;
    if n > 0 {
      PageProves(c, page, nodes, s, n - 1);
      FreshGrows(c, page, n);
      OnePacketProves(Fresh(c, page, n - 1), page[n - 1], nodes, s);
    } else {
      NoneFresh(c, page);
      NoneProved(nodes, s);
    }
  }

  lemma NoneFresh(c: Cursor, page: seq<Packet>)
    ensures Fresh(c, page, 0) == []
  {
  }

  lemma NoneProved(nodes: Index, s: Slot)
    ensures Grouping.Pick(AllProofs([], nodes), s) == []
  {
  }

  // --------------------------------------------------------------- one poll's effect --

  /** A row as it stands after times were added to what it held. */
  ghost predicate AddedTo(before: Table, after: Table, s: Slot, times: seq<nat>) {
    if times == [] then (s in after <==> s in before) && (s in after ==> after[s] == before[s])
    else
      && s in after && after[s].count == (if s in before then before[s].count else 0) + |times|
      && (forall t :: t in times ==> t <= after[s].lastAt)
      && (s in before ==> before[s].lastAt <= after[s].lastAt)
      && (after[s].lastAt in times || (s in before && after[s].lastAt == before[s].lastAt))
  }

  /** A poll that was fetched and committed records, of every slot, exactly what the packets
      it is the first to count show: as many as show it, and the latest of their times. One
      that was not leaves everything as it was. */
  lemma PollRecordsExactly(f: Feed, p: Poll, hours: int, s: Slot)
    ensures !p.fetched || !p.commits ==> Ingested(f, p, hours) == f
    ensures p.fetched && p.commits ==>
      AddedTo(f.activity, Ingested(f, p, hours).activity, s, ShownAt(f.cursor, p.page, p.nodes, s, |p.page|))
  {
    hide Tally, AllProofs, Fresh, Grouping.Pick, HighAfter, LowAfter, Widened, ShownAt;
    if p.fetched && p.commits {
      var es := AllProofs(Fresh(f.cursor, p.page, |p.page|), p.nodes);
      PageProves(f.cursor, p.page, p.nodes, s, |p.page|);
      FreshIsDated(f.cursor, p.page, |p.page|);
      ProofsAreDated(Fresh(f.cursor, p.page, |p.page|), p.nodes);
      TallyMeaning(es, s);
    }
  }

  lemma FoldedExactly(c: Cursor, p: Poll, s: Slot)
    ensures s in Folded(c, p) <==> ShownAt(c, p.page, p.nodes, s, |p.page|) != []
  {
    hide Tally, AllProofs, Fresh, Grouping.Pick, ShownAt;
    PageProves(c, p.page, p.nodes, s, |p.page|);
    FreshIsDated(c, p.page, |p.page|);
    ProofsAreDated(Fresh(c, p.page, |p.page|), p.nodes);
    TallyMeaning(AllProofs(Fresh(c, p.page, |p.page|), p.nodes), s);
  }

  lemma NewerExactly(c: Cursor, page: seq<Packet>)
    requires IngestRuns.PositiveIds(page) && IngestRuns.RangeOK(c)
    ensures HighAfter(c, page, |page|) > c.high
       <==> exists i :: 0 <= i < |page| && page[i].at > 0 && page[i].id > c.high
  {
    hide HighAfter, LowAfter;
    IngestRuns.LoopTakesTheHull(c, page, |page|);
  }

  ghost predicate ShowsSomething(c: Cursor, p: Poll) {
    exists s :: ShownAt(c, p.page, p.nodes, s, |p.page|) != []
  }

  /** When a committed poll writes: it has a backfill to record, a newer packet, or one it
      is the first to count that shows something. */
  lemma LandsExactlyWhen(f: Feed, p: Poll, hours: int)
    requires p.fetched && p.commits && IngestRuns.PositiveIds(p.page) && IngestRuns.RangeOK(f.cursor)
    ensures Lands(f.cursor, p, hours) <==>
      || (f.cursor.backfilledAt == 0 && hours > 0)
      || (exists i :: 0 <= i < |p.page| && p.page[i].at > 0 && p.page[i].id > f.cursor.high)
      || ShowsSomething(f.cursor, p)
  {
    hide Folded, HighAfter, ShownAt;
    NewerExactly(f.cursor, p.page);
    forall s ensures s in Folded(f.cursor, p) <==> ShownAt(f.cursor, p.page, p.nodes, s, |p.page|) != [] {
      FoldedExactly(f.cursor, p, s);
    }
    if s :| s in Folded(f.cursor, p) {
      assert ShowsSomething(f.cursor, p);
    } else {
      assert Folded(f.cursor, p) == map[];
    }
  }

  /** Where the range then ends, and that the first windowed read is recorded once. */
  lemma RangeMovesTo(f: Feed, p: Poll, hours: int)
    requires p.fetched && p.commits && IngestRuns.PositiveIds(p.page) && IngestRuns.RangeOK(f.cursor)
    ensures var c, c1 := f.cursor, Ingested(f, p, hours).cursor;
            && c1.high == HighAfter(c, p.page, |p.page|)
            && c1.low == (if Lands(c, p, hours) then LowAfter(c, p.page, |p.page|) else c.low)
            && c1.backfilledAt == if c.backfilledAt == 0 && hours > 0 then p.now else c.backfilledAt
  {
    hide Folded, LowAfter, HighAfter;
    IngestRuns.LoopTakesTheHull(f.cursor, p.page, |p.page|);
  }

  /** Whatever is merged into it, a stored range never shrinks, nor loses a low mark. */
  lemma RangeOnlyWidens(c: Cursor, low: int, high: int, backfilledAt: nat)
    requires c.low >= 0 && low >= 0
    ensures var w := Widened(c, low, high, backfilledAt);
            && w.high >= c.high && w.high >= high && w.high in {c.high, high}
            && w.low in {c.low, low} && (w.low == 0 <==> c.low == 0 && low == 0)
            && (c.low > 0 ==> w.low <= c.low) && (low > 0 ==> w.low <= low)
            && w.backfilledAt >= c.backfilledAt && w.backfilledAt >= backfilledAt
            && w.backfilledAt in {c.backfilledAt, backfilledAt}
  {
  }
}
