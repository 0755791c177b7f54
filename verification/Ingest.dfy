/** Folding the packet feed into per-type evidence (internal/poller/poller.go, ingest)
    behind the range of packet ids already counted (internal/store/queries.go). */
module Ingest {
  import Grouping
  import Attribution
  import opened RuleEvidence

  type Packet = Attribution.Packet
  type Index = Attribution.Index

  /** One thing one packet proved: the row it belongs to and when. */
  type Proof = (Slot, nat)

  // ------------------------------------------------------------ the two tables --

  /** One upsert into target_activity: the count adds up and the time never falls. */
  function Upsert(t: Table, s: Slot, at: nat, n: nat): Table {
    if at == 0 || n == 0 then t
    else if s in t then t[s := Row(if at > t[s].lastAt then at else t[s].lastAt, t[s].count + n)]
    else t[s := Row(at, n)]
  }

  /** backfilledAt is 0 until the first windowed read has been recorded. */
  datatype Cursor = Cursor(low: int, high: int, backfilledAt: nat)

  function Widened(c: Cursor, low: int, high: int, backfilledAt: nat): Cursor {
    Cursor(
      if c.low == 0 then low else if low == 0 then c.low else if low < c.low then low else c.low,
      if high > c.high then high else c.high,
      if backfilledAt > c.backfilledAt then backfilledAt else c.backfilledAt)
  }

  class Store {
    var activity: Table
    var cursor: Cursor

    constructor ()
      ensures activity == map[] && cursor == Cursor(0, 0, 0)
    {
      activity, cursor := map[], Cursor(0, 0, 0);
    }

    method UpsertActivity(s: Slot, at: nat, n: nat)
      modifies this`activity
      ensures activity == Upsert(old(activity), s, at, n)
    {
      if at == 0 || n == 0 {
        return;
      }
      if s in activity {
        var was := activity[s];
        activity := activity[s := Row(if at > was.lastAt then at else was.lastAt, was.count + n)];
      } else {
        activity := activity[s := Row(at, n)];
      }
    }

    method SetFeedCursor(low: int, high: int, backfilledAt: nat)
      modifies this`cursor
      ensures cursor == Widened(old(cursor), low, high, backfilledAt)
    {
      var newLow := cursor.low;
      if newLow == 0 {
        newLow := low;
      } else if low != 0 && low < newLow {
        newLow := low;
      }
      cursor := Cursor(newLow,
        if high > cursor.high then high else cursor.high,
        if backfilledAt > cursor.backfilledAt then backfilledAt else cursor.backfilledAt);
    }
  }

  // ------------------------------------------------------------ one poll's page --

  /** What a poll brings: its page if the read and the fetch worked, who the snapshot
      says exists, whether the transaction commits, and the time. */
  datatype Poll = Poll(fetched: bool, page: seq<Packet>, nodes: Index, commits: bool, now: nat)

  function LowKnown(c: Cursor): int {
    if c.low == 0 then c.high else c.low
  }

  predicate SeenBefore(c: Cursor, pk: Packet) {
    c.high > 0 && LowKnown(c) <= pk.id <= c.high
  }

  /** The packets of the first n that count: dated, and outside the range. */
  function Fresh(c: Cursor, page: seq<Packet>, n: nat): seq<Packet>
    requires n <= |page|
  {
    if n == 0 then []
    else
      var before := Fresh(c, page, n - 1);
      if page[n - 1].at == 0 || SeenBefore(c, page[n - 1]) then before else before + [page[n - 1]]
  }

  /** How the loop widens [low, high] over the first n packets. */
  function LowAfter(c: Cursor, page: seq<Packet>, n: nat): int
    requires n <= |page|
  {
    if n == 0 then c.low
    else
      var low := LowAfter(c, page, n - 1);
      if page[n - 1].at != 0 && (low == 0 || page[n - 1].id < low) then page[n - 1].id else low
  }

  function HighAfter(c: Cursor, page: seq<Packet>, n: nat): int
    requires n <= |page|
  {
    if n == 0 then c.high
    else
      var high := HighAfter(c, page, n - 1);
      if page[n - 1].at != 0 && page[n - 1].id > high then page[n - 1].id else high
  }

  // ---------------------------------------------------------------- the replay --

  function ProofOf(h: Attribution.Hit, at: nat): Proof {
    (Slot("node", h.key, h.typ, h.dir), at)
  }

  /** What the first n hits prove. */
  function ProofsOf(hits: seq<Attribution.Hit>, at: nat, n: nat): seq<Proof>
    requires n <= |hits|
  {
    if n == 0 then [] else ProofsOf(hits, at, n - 1) + [ProofOf(hits[n - 1], at)]
  }

  function PacketProofs(pk: Packet, nodes: Index): seq<Proof> {
    ProofsOf(Attribution.Proves(pk, nodes), pk.at, |Attribution.Proves(pk, nodes)|)
  }

  function AllProofs(pks: seq<Packet>, nodes: Index): seq<Proof> {
    if pks == [] then [] else AllProofs(pks[..|pks| - 1], nodes) + PacketProofs(pks[|pks| - 1], nodes)
  }

  /** Recording proofs one by one. */
  function Tally(es: seq<Proof>): Table {
    if es == [] then map[] else Upsert(Tally(es[..|es| - 1]), es[|es| - 1].0, es[|es| - 1].1, 1)
  }

  lemma TallyAppend(es: seq<Proof>, e: Proof)
    ensures Tally(es + [e]) == Upsert(Tally(es), e.0, e.1, 1)
  {
    assert (es + [e])[..|es|] == es;
  }

  ghost predicate Dated(es: seq<Proof>) {
    forall i :: 0 <= i < |es| ==> es[i].1 > 0
  }

  /** The replayed table: one row for each slot something was proved for, counting the
      proofs, with the latest of their times. */
  lemma {:induction false} TallyMeaning(es: seq<Proof>, s: Slot)
    requires Dated(es)
    ensures s in Tally(es) <==> Grouping.Pick(es, s) != []
    ensures s in Tally(es) ==>
      && Tally(es)[s].count == |Grouping.Pick(es, s)|
      && Tally(es)[s].lastAt > 0
      && Tally(es)[s].lastAt in Grouping.Pick(es, s)
      && forall t :: t in Grouping.Pick(es, s) ==> t <= Tally(es)[s].lastAt
  {
    if es != [] {
      TallyMeaning(es[..|es| - 1], s);
    }
  }

  /** Adding the rows of one table to another's: counts add, times take the later. */
  function Merge(a: Table, b: Table): Table {
    map s | s in a.Keys + b.Keys ::
      if s !in b then a[s] else if s !in a then b[s]
      else Joined(a[s], b[s])
  }

  function Joined(a: Row, b: Row): Row {
    Row(if b.lastAt > a.lastAt then b.lastAt else a.lastAt, a.count + b.count)
  }

  ghost predicate Live(t: Table) {
    forall s :: s in t ==> t[s].lastAt > 0 && t[s].count > 0
  }

  lemma {:induction false} TallyIsLive(es: seq<Proof>)
    requires Dated(es)
    ensures Live(Tally(es))
  {
    if es != [] {
      TallyIsLive(es[..|es| - 1]);
    }
  }

  lemma MergeUpsert(a: Table, b: Table, s: Slot, at: nat)
    requires Live(a) && Live(b) && at > 0
    ensures Merge(a, Upsert(b, s, at, 1)) == Upsert(Merge(a, b), s, at, 1)
  {
  }

  /** Recording a page folded first or packet by packet comes to the same. */
  lemma {:induction false} FoldedOrOneByOne(es: seq<Proof>, fs: seq<Proof>)
    requires Dated(es) && Dated(fs)
    ensures Tally(es + fs) == Merge(Tally(es), Tally(fs))
  {
    TallyIsLive(es);
    if fs == [] {
      assert es + fs == es;
    } else {
      var init := fs[..|fs| - 1];
      FoldedOrOneByOne(es, init);
      TallyIsLive(init);
      assert es + fs == (es + init) + [fs[|fs| - 1]];
      TallyAppend(es + init, fs[|fs| - 1]);
      MergeUpsert(Tally(es), Tally(init), fs[|fs| - 1].0, fs[|fs| - 1].1);
    }
  }

  // ------------------------------------------------------- what a poll leaves --

  datatype Feed = Feed(activity: Table, cursor: Cursor)

  /** The folded rows of a page. */
  function Folded(c: Cursor, p: Poll): Table {
    Tally(AllProofs(Fresh(c, p.page, |p.page|), p.nodes))
  }

  predicate Backfilling(c: Cursor, backfillHours: int) {
    c.backfilledAt == 0 && backfillHours > 0
  }

  /** Nothing to write: no rows, no backfill to record, nothing newer. */
  predicate NothingToWrite(c: Cursor, p: Poll, backfillHours: int) {
    Folded(c, p) == map[] && !Backfilling(c, backfillHours) && HighAfter(c, p.page, |p.page|) <= c.high
  }

  predicate Lands(c: Cursor, p: Poll, backfillHours: int) {
    p.fetched && p.commits && !NothingToWrite(c, p, backfillHours)
  }

  function Ingested(f: Feed, p: Poll, backfillHours: int): Feed {
    if !Lands(f.cursor, p, backfillHours) then f
    else
      Feed(Merge(f.activity, Folded(f.cursor, p)),
        Widened(f.cursor, LowAfter(f.cursor, p.page, |p.page|), HighAfter(f.cursor, p.page, |p.page|),
          if Backfilling(f.cursor, backfillHours) then p.now else 0))
  }

  class Poller {
    const store: Store
    const backfillHours: int

    constructor (store: Store, backfillHours: int)
      ensures this.store == store && this.backfillHours == backfillHours
    {
      this.store, this.backfillHours := store, backfillHours;
    }

    /** The number of packets new to this poll, and the store after it. */
    method Ingest(p: Poll) returns (recorded: nat)
      modifies store
      ensures Feed(store.activity, store.cursor) == Ingested(old(Feed(store.activity, store.cursor)), p, backfillHours)
      ensures recorded ==
        if !p.fetched || NothingToWrite(old(store.cursor), p, backfillHours) then 0
        else |Fresh(old(store.cursor), p.page, |p.page|)|
    {
      hide Ingested, Merge;
      recorded := 0;
      if !p.fetched {
        Unlanded(Feed(store.activity, store.cursor), p, backfillHours);
        return;
      }
      var cursor := store.cursor;
      var backfilling := cursor.backfilledAt == 0 && backfillHours > 0;
      var rows, low, high;
      rows, low, high, recorded := FoldPage(cursor, p);
      if rows == map[] && !backfilling && high <= cursor.high {
        Unlanded(Feed(store.activity, store.cursor), p, backfillHours);
        recorded := 0;
        return;
      }
      if !p.commits {
        Unlanded(Feed(store.activity, store.cursor), p, backfillHours);
        return;
      }
      Landed(Feed(store.activity, store.cursor), p, backfillHours);
      WriteRows(rows);
      store.SetFeedCursor(low, high, if backfilling then p.now else 0);
    }

    method FoldPage(cursor: Cursor, p: Poll) returns (rows: Table, low: int, high: int, recorded: nat)
      ensures rows == Folded(cursor, p) && Live(rows)
      ensures low == LowAfter(cursor, p.page, |p.page|) && high == HighAfter(cursor, p.page, |p.page|)
      ensures recorded == |Fresh(cursor, p.page, |p.page|)|
    {
      hide PacketProofs, Tally, Live, AllProofs;
      rows, low, high, recorded := map[], cursor.low, cursor.high, 0;
      var lowKnown := cursor.low;
      if lowKnown == 0 {
        lowKnown := cursor.high;
      }
      ghost var pks: seq<Packet> := [];
      NothingTallied(p.nodes);
      for n := 0 to |p.page|
        invariant low == LowAfter(cursor, p.page, n) && high == HighAfter(cursor, p.page, n)
        invariant pks == Fresh(cursor, p.page, n) && recorded == |pks|
        invariant rows == Tally(AllProofs(pks, p.nodes))
      {
        var pk := p.page[n];
        if pk.at == 0 {
          continue;
        }
        var seenBefore := cursor.high > 0 && pk.id <= cursor.high && pk.id >= lowKnown;
        if pk.id > high {
          high := pk.id;
        }
        if low == 0 || pk.id < low {
          low := pk.id;
        }
        if seenBefore {
          continue;
        }
        recorded := recorded + 1;
        rows := FoldPacket(rows, pk, p.nodes, pks);
        pks := pks + [pk];
      }
      FreshIsDated(cursor, p.page, |p.page|);
      ProofsAreDated(pks, p.nodes);
      TallyIsLive(AllProofs(pks, p.nodes));
    }

    method FoldPacket(rows: Table, pk: Packet, nodes: Index, ghost pks: seq<Packet>) returns (rows1: Table)
      requires pk.at > 0 && rows == Tally(AllProofs(pks, nodes))
      ensures rows1 == Tally(AllProofs(pks + [pk], nodes))
    {
      hide Tally, Upsert, AllProofs, Attribution.Proves;
      rows1 := rows;
      var hits := Attribution.Attribute(pk, nodes);
      ghost var before := AllProofs(pks, nodes);
      assert before + [] == before;
      for n := 0 to |hits|
        invariant rows1 == Tally(before + ProofsOf(hits, pk.at, n))
      {
        var s := Slot("node", hits[n].key, hits[n].typ, hits[n].dir);
        var was := if s in rows1 then rows1[s] else Row(0, 0);
        OneMoreProof(before, hits, pk.at, n, rows1, was);
        rows1 := rows1[s := Row(if pk.at > was.lastAt then pk.at else was.lastAt, was.count + 1)];
      }
      OneMorePacket(pks, pk, nodes);
    }

    /** Go walks a map in no particular order: whichever row comes next, the table ends
        the same. */
    method WriteRows(rows: Table)
      requires Live(rows)
      modifies store`activity
      ensures store.activity == Merge(old(store.activity), rows)
    {
      hide Upsert, Merge, Live;
      var left := rows.Keys;
      ghost var done: Table := map[];
      MergeNothing(store.activity);
      while left != {}
        invariant left <= rows.Keys
        invariant done == map s | s in rows && s !in left :: rows[s]
        invariant store.activity == Merge(old(store.activity), done)
      {
        var s :| s in left;
        LiveRow(rows, s);
        MergeOneMore(old(store.activity), done, s, rows[s]);
        store.UpsertActivity(s, rows[s].lastAt, rows[s].count);
        left := left - {s};
        done := done[s := rows[s]];
      }
      assert done == rows;
    }
  }

  lemma OneMoreProof(before: seq<Proof>, hits: seq<Attribution.Hit>, at: nat, n: nat, t: Table, was: Row)
    requires n < |hits| && at > 0 && t == Tally(before + ProofsOf(hits, at, n))
    requires var s := ProofOf(hits[n], at).0; was == if s in t then t[s] else Row(0, 0)
    ensures Tally(before + ProofsOf(hits, at, n + 1))
         == t[ProofOf(hits[n], at).0 := Row(if at > was.lastAt then at else was.lastAt, was.count + 1)]
  {
    hide Tally;
    var es, e := before + ProofsOf(hits, at, n), ProofOf(hits[n], at);
    TallyAppend(es, e);
    assert es + [e] == before + ProofsOf(hits, at, n + 1);
  }

  lemma OneMorePacket(pks: seq<Packet>, pk: Packet, nodes: Index)
    ensures AllProofs(pks + [pk], nodes) == AllProofs(pks, nodes) + PacketProofs(pk, nodes)
  {
    assert (pks + [pk])[..|pks|] == pks;
  }

  lemma NothingTallied(nodes: Index)
    ensures Tally(AllProofs([], nodes)) == map[]
  {
  }

  lemma MergeNothing(t: Table)
    ensures Merge(t, map[]) == t
  {
  }

  lemma LiveRow(t: Table, s: Slot)
    requires Live(t) && s in t
    ensures t[s].lastAt > 0 && t[s].count > 0
  {
  }

  lemma MergeOneMore(t: Table, done: Table, s: Slot, r: Row)
    requires s !in done && r.lastAt > 0 && r.count > 0
    ensures Merge(t, done[s := r]) == Upsert(Merge(t, done), s, r.lastAt, r.count)
  {
  }

  lemma Unlanded(f: Feed, p: Poll, backfillHours: int)
    requires !Lands(f.cursor, p, backfillHours)
    ensures Ingested(f, p, backfillHours) == f
  {
  }

  lemma Landed(f: Feed, p: Poll, backfillHours: int)
    requires Lands(f.cursor, p, backfillHours)
    ensures Ingested(f, p, backfillHours) ==
      Feed(Merge(f.activity, Folded(f.cursor, p)),
        Widened(f.cursor, LowAfter(f.cursor, p.page, |p.page|), HighAfter(f.cursor, p.page, |p.page|),
          if Backfilling(f.cursor, backfillHours) then p.now else 0))
  {
  }

  lemma {:induction false} FreshIsDated(c: Cursor, page: seq<Packet>, n: nat)
    requires n <= |page|
    ensures forall i :: 0 <= i < |Fresh(c, page, n)| ==> Fresh(c, page, n)[i].at > 0
  {
    if n > 0 {
      FreshIsDated(c, page, n - 1);
    }
  }

  lemma {:induction false} HitsAreDated(hits: seq<Attribution.Hit>, at: nat, n: nat)
    requires n <= |hits| && at > 0
    ensures Dated(ProofsOf(hits, at, n))
  {
    if n > 0 {
      HitsAreDated(hits, at, n - 1);
    }
  }

  lemma {:induction false} ProofsAreDated(pks: seq<Packet>, nodes: Index)
    requires forall i :: 0 <= i < |pks| ==> pks[i].at > 0
    ensures Dated(AllProofs(pks, nodes))
  {
    if pks != [] {
      ProofsAreDated(pks[..|pks| - 1], nodes);
      var pk := pks[|pks| - 1];
      HitsAreDated(Attribution.Proves(pk, nodes), pk.at, |Attribution.Proves(pk, nodes)|);
    }
  }
}
