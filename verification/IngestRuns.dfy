/** Whole histories of ingestion, from an empty store or any other: what has been counted,
    and how often. */
module IngestRuns {
  import opened Ingest
  import opened RuleEvidence

  const EMPTY := Feed(map[], Cursor(0, 0, 0))

  function FeedAt(start: Feed, polls: seq<Poll>, hours: int, k: nat): Feed
    requires k <= |polls|
  {
    if k == 0 then start else Ingested(FeedAt(start, polls, hours, k - 1), polls[k - 1], hours)
  }

  /** A packet that was counted, with the nodes known when it was. */
  datatype Entry = Entry(pk: Packet, nodes: Index)

  function Entries(pks: seq<Packet>, nodes: Index): (es: seq<Entry>)
    ensures |es| == |pks| && forall i :: 0 <= i < |pks| ==> es[i] == Entry(pks[i], nodes)
  {
    if pks == [] then [] else Entries(pks[..|pks| - 1], nodes) + [Entry(pks[|pks| - 1], nodes)]
  }

  function News(f: Feed, p: Poll, hours: int): seq<Entry> {
    if Lands(f.cursor, p, hours) then Entries(Fresh(f.cursor, p.page, |p.page|), p.nodes) else []
  }

  /** Every packet counted in the first k polls, in the order they were. */
  function Log(start: Feed, polls: seq<Poll>, hours: int, k: nat): seq<Entry>
    requires k <= |polls|
  {
    if k == 0 then []
      else Log(start, polls, hours, k - 1) + News(FeedAt(start, polls, hours, k - 1), polls[k - 1], hours)
  }

  function Evidence(log: seq<Entry>): seq<Proof> {
    if log == [] then []
    else Evidence(log[..|log| - 1]) + PacketProofs(log[|log| - 1].pk, log[|log| - 1].nodes)
  }

  // ------------------------------------------------- the table is a replay --

  lemma {:induction false} EvidenceConcat(a: seq<Entry>, b: seq<Entry>)
    ensures Evidence(a + b) == Evidence(a) + Evidence(b)
  {
    hide PacketProofs;
    if b == [] {
      assert a + b == a;
      assert Evidence(a) + [] == Evidence(a);
    } else {
      EvidenceConcat(a, b[..|b| - 1]);
      assert (a + b)[..|a + b| - 1] == a + b[..|b| - 1];
      var last := PacketProofs(b[|b| - 1].pk, b[|b| - 1].nodes);
      assert Evidence(a) + (Evidence(b[..|b| - 1]) + last) == (Evidence(a) + Evidence(b[..|b| - 1])) + last;
    }
  }

  lemma {:induction false} EvidenceOfPage(pks: seq<Packet>, nodes: Index)
    ensures Evidence(Entries(pks, nodes)) == AllProofs(pks, nodes)
  {
    if pks != [] {
      EvidenceOfPage(pks[..|pks| - 1], nodes);
      assert Entries(pks, nodes)[..|pks| - 1] == Entries(pks[..|pks| - 1], nodes);
    }
  }

  /** Whatever pages came, in whatever order, the table is the one there was with the
      counted packets' proofs recorded on top, one at a time. */
  lemma {:induction false} TableIsReplay(start: Feed, polls: seq<Poll>, hours: int, k: nat)
    requires k <= |polls|
    ensures Dated(Evidence(Log(start, polls, hours, k)))
    ensures FeedAt(start, polls, hours, k).activity
      == Merge(start.activity, Tally(Evidence(Log(start, polls, hours, k))))
    ensures start == EMPTY ==> FeedAt(start, polls, hours, k).activity == Tally(Evidence(Log(start, polls, hours, k)))
  {
    hide Ingested, News, Evidence, Tally, Dated, Merge;
    if k == 0 {
      NoEvidence();
      MergeNothing(start.activity);
    } else {
      TableIsReplay(start, polls, hours, k - 1);
      OnePollReplays(start.activity, FeedAt(start, polls, hours, k - 1), polls[k - 1], hours,
        Log(start, polls, hours, k - 1));
    }
    NothingMerged(Tally(Evidence(Log(start, polls, hours, k))));
  }

  lemma NothingMerged(t: Table)
    ensures Merge(map[], t) == t
  {
  }

  lemma MergeIsAssociative(a: Table, b: Table, c: Table)
    ensures Merge(Merge(a, b), c) == Merge(a, Merge(b, c))
  {
    hide Joined;
    forall s | s in a && s in b && s in c ensures Joined(Joined(a[s], b[s]), c[s]) == Joined(a[s], Joined(b[s], c[s])) {
      JoinedIsAssociative(a[s], b[s], c[s]);
    }
  }

  lemma JoinedIsAssociative(a: Row, b: Row, c: Row)
    ensures Joined(Joined(a, b), c) == Joined(a, Joined(b, c))
  {
  }

  /** So every row has a real time, which is what RuleEvidence asks of a table: what a
      rule is seeded with is what a poll of the same ingested table sees. */
  lemma IngestedTimesAreReal(start: Feed, polls: seq<Poll>, hours: int, k: nat)
    requires k <= |polls| && TimesAreReal(start.activity)
    ensures TimesAreReal(FeedAt(start, polls, hours, k).activity)
  {
    hide FeedAt, Evidence, Log, Tally;
    TableIsReplay(start, polls, hours, k);
    TallyIsLive(Evidence(Log(start, polls, hours, k)));
  }

  lemma OnePollReplays(before: Table, f: Feed, p: Poll, hours: int, log: seq<Entry>)
    requires Dated(Evidence(log)) && f.activity == Merge(before, Tally(Evidence(log)))
    ensures Dated(Evidence(log + News(f, p, hours)))
    ensures Ingested(f, p, hours).activity == Merge(before, Tally(Evidence(log + News(f, p, hours))))
  {
    hide Tally, Merge, Lands, Dated, Evidence, AllProofs, Fresh, Widened, LowAfter, HighAfter;
    if Lands(f.cursor, p, hours) {
      var pks := Fresh(f.cursor, p.page, |p.page|);
      EvidenceConcat(log, Entries(pks, p.nodes));
      FreshIsDated(f.cursor, p.page, |p.page|);
      ProofsAreDated(pks, p.nodes);
      EvidenceOfPage(pks, p.nodes);
      FoldedOrOneByOne(Evidence(log), AllProofs(pks, p.nodes));
      MergeIsAssociative(before, Tally(Evidence(log)), Tally(AllProofs(pks, p.nodes)));
      DatedConcat(Evidence(log), AllProofs(pks, p.nodes));
    } else {
      assert log + [] == log;
    }
  }

  lemma NoEvidence()
    ensures Tally(Evidence([])) == map[] && Dated(Evidence([]))
  {
  }

  lemma DatedConcat(a: seq<Proof>, b: seq<Proof>)
    requires Dated(a) && Dated(b)
    ensures Dated(a + b)
  {
  }

  // ------------------------------------------------------- the range it keeps --

  ghost predicate PositiveIds(page: seq<Packet>) {
    forall i :: 0 <= i < |page| ==> page[i].id > 0
  }

  ghost predicate DistinctIds(page: seq<Packet>) {
    forall i, j :: 0 <= i < j < |page| ==> page[i].id != page[j].id
  }

  /** A low of 0 is one nobody knows: nothing counted yet, or counted by an install that
      kept no low mark. */
  ghost predicate RangeOK(c: Cursor) {
    (c.low == 0 && c.high >= 0) || 0 < c.low <= c.high
  }

  /** The range is known at both ends, or empty. */
  ghost predicate RangeKnown(c: Cursor) {
    RangeOK(c) && (c.low == 0 ==> c.high == 0)
  }

  ghost predicate Covers(low: int, high: int, page: seq<Packet>, n: nat)
    requires n <= |page|
  {
    forall i :: 0 <= i < n && page[i].at > 0 ==> 0 < low <= page[i].id <= high
  }

  ghost predicate OnPage(id: int, page: seq<Packet>, n: nat)
    requires n <= |page|
  {
    exists i :: 0 <= i < n && page[i].at > 0 && page[i].id == id
  }

  /** The loop's range is the smallest holding the old one and every dated packet. */
  lemma {:induction false} LoopTakesTheHull(c: Cursor, page: seq<Packet>, n: nat)
    requires n <= |page| && PositiveIds(page) && RangeOK(c)
    ensures var low, high := LowAfter(c, page, n), HighAfter(c, page, n);
            && RangeOK(c.(low := low, high := high)) && Covers(low, high, page, n)
            && (RangeKnown(c) ==> RangeKnown(c.(low := low, high := high)))
            && c.high <= high && (c.low > 0 ==> 0 < low <= c.low)
            && (low == c.low || OnPage(low, page, n)) && (high == c.high || OnPage(high, page, n))
  {
    if n > 0 {
      LoopTakesTheHull(c, page, n - 1);
      var low, high := LowAfter(c, page, n - 1), HighAfter(c, page, n - 1);
      if OnPage(low, page, n - 1) {
        assert OnPage(low, page, n);
      }
      if OnPage(high, page, n - 1) {
        assert OnPage(high, page, n);
      }
      if page[n - 1].at > 0 {
        assert OnPage(page[n - 1].id, page, n);
      }
    }
  }

  /** Merging into the stored range sets it to the loop's own. */
  lemma MergeIsTheLoopsRange(c: Cursor, page: seq<Packet>, backfilledAt: nat)
    requires PositiveIds(page) && RangeOK(c)
    ensures var low, high := LowAfter(c, page, |page|), HighAfter(c, page, |page|);
            var after := Widened(c, low, high, backfilledAt);
            after.low == low && after.high == high
  {
    LoopTakesTheHull(c, page, |page|);
  }

  // --------------------------------------------------------- counted at most once --

  ghost predicate CountedOnce(log: seq<Entry>) {
    forall i, j :: 0 <= i < j < |log| ==> log[i].pk.id != log[j].pk.id
  }

  ghost predicate Within(log: seq<Entry>, c: Cursor) {
    forall i :: 0 <= i < |log| ==> 0 < c.low <= log[i].pk.id <= c.high && log[i].pk.at > 0
  }

  /** The packets a page adds are the dated ones outside the range. */
  lemma {:induction false} FreshExactly(c: Cursor, page: seq<Packet>, n: nat, pk: Packet)
    requires n <= |page|
    ensures pk in Fresh(c, page, n) <==>
      pk.at > 0 && !SeenBefore(c, pk) && exists i :: 0 <= i < n && page[i] == pk
  {
    if n > 0 {
      FreshExactly(c, page, n - 1, pk);
    }
  }

  lemma {:induction false} FreshDistinct(c: Cursor, page: seq<Packet>, n: nat)
    requires n <= |page| && DistinctIds(page)
    ensures DistinctIds(Fresh(c, page, n))
  {
    if n > 0 {
      FreshDistinct(c, page, n - 1);
      var before := Fresh(c, page, n - 1);
      forall i | 0 <= i < |before| ensures before[i].id != page[n - 1].id {
        FreshExactly(c, page, n - 1, before[i]);
      }
    }
  }

  ghost predicate Pages(polls: seq<Poll>) {
    forall k :: 0 <= k < |polls| ==> PositiveIds(polls[k].page) && DistinctIds(polls[k].page)
  }

  /** Any pages in any order, however they overlap, from any cursor at all: no packet is
      counted twice in the run, and the range covers all that were. */
  lemma {:induction false} EachPacketCountedAtMostOnce(start: Feed, polls: seq<Poll>, hours: int, k: nat)
    requires k <= |polls| && Pages(polls) && RangeOK(start.cursor)
    ensures RangeKnown(start.cursor) ==> RangeKnown(FeedAt(start, polls, hours, k).cursor)
    ensures RangeOK(FeedAt(start, polls, hours, k).cursor)
    ensures CountedOnce(Log(start, polls, hours, k))
    ensures Within(Log(start, polls, hours, k), FeedAt(start, polls, hours, k).cursor)
  {
    hide Ingested, News, RangeOK, RangeKnown, CountedOnce, Within;
    if k == 0 {
      NothingCounted(start.cursor);
    } else {
      EachPacketCountedAtMostOnce(start, polls, hours, k - 1);
      OnePoll(FeedAt(start, polls, hours, k - 1), polls[k - 1], hours, Log(start, polls, hours, k - 1));
    }
  }

  lemma NothingCounted(c: Cursor)
    ensures CountedOnce([]) && Within([], c)
  {
  }

  lemma OnePoll(f: Feed, p: Poll, hours: int, log: seq<Entry>)
    requires RangeOK(f.cursor) && CountedOnce(log) && Within(log, f.cursor)
    requires PositiveIds(p.page) && DistinctIds(p.page)
    ensures var c := Ingested(f, p, hours).cursor;
            var log1 := log + News(f, p, hours);
            RangeOK(c) && (RangeKnown(f.cursor) ==> RangeKnown(c)) && CountedOnce(log1) && Within(log1, c)
  {
    hide Lands, Folded, Merge, Fresh, LowAfter, HighAfter, Within, CountedOnce, Covers, DistinctIds;
    if Lands(f.cursor, p, hours) {
      var page, c, c1 := p.page, f.cursor, Ingested(f, p, hours).cursor;
      LoopTakesTheHull(c, page, |page|);
      MergeIsTheLoopsRange(c, page, if Backfilling(c, hours) then p.now else 0);
      FreshDistinct(c, page, |page|);
      var pks := Fresh(c, page, |page|);
      forall i | 0 <= i < |pks| ensures IsNew(c, c1, pks[i]) {
        FreshExactly(c, page, |page|, pks[i]);
        assert Covers(c1.low, c1.high, page, |page|);
        CoveredPacket(c1, page, pks[i]);
      }
      NewsFit(log, Entries(pks, p.nodes), pks, c, c1);
    } else {
      assert log + [] == log;
    }
  }

  lemma CoveredPacket(c: Cursor, page: seq<Packet>, pk: Packet)
    requires Covers(c.low, c.high, page, |page|) && pk in page && pk.at > 0
    ensures 0 < c.low <= pk.id <= c.high
  {
  }

  predicate IsNew(c: Cursor, c1: Cursor, pk: Packet) {
    pk.at > 0 && !SeenBefore(c, pk) && 0 < c1.low <= pk.id <= c1.high
  }

  lemma NewsFit(log: seq<Entry>, news: seq<Entry>, pks: seq<Packet>, c: Cursor, c1: Cursor)
    requires RangeOK(c) && RangeOK(c1) && CountedOnce(log) && Within(log, c) && DistinctIds(pks)
    requires |news| == |pks| && forall i :: 0 <= i < |pks| ==> news[i].pk == pks[i] && IsNew(c, c1, pks[i])
    requires c.high <= c1.high && (c.low > 0 ==> 0 < c1.low <= c.low)
    ensures CountedOnce(log + news) && Within(log + news, c1)
  {
    var all := log + news;
    forall i | 0 <= i < |all| ensures 0 < c1.low <= all[i].pk.id <= c1.high && all[i].pk.at > 0 {
      if i >= |log| {
        assert all[i].pk == pks[i - |log|];
      }
    }
  }

  /** From a cursor without a low mark, a page counts every dated packet on it but the
      newest one counted before: what else of it had been counted is counted again. */
  lemma UnmarkedPageIsCountedAgain(f: Feed, p: Poll, hours: int, pk: Packet)
    requires f.cursor.low == 0 && f.cursor.high > 0 && PositiveIds(p.page) && Lands(f.cursor, p, hours)
    ensures Logged(News(f, p, hours), pk) <==> pk in p.page && pk.at > 0 && pk.id != f.cursor.high
    ensures (exists i :: 0 <= i < |p.page| && p.page[i].at > 0) ==>
      0 < Ingested(f, p, hours).cursor.low <= Ingested(f, p, hours).cursor.high
  {
    hide Lands, Folded, Merge, Fresh, LowAfter, HighAfter, OnPage;
    var c, page := f.cursor, p.page;
    var pks := Fresh(c, page, |page|);
    FreshExactly(c, page, |page|, pk);
    if pk in pks {
      var i :| 0 <= i < |pks| && pks[i] == pk;
      assert Entries(pks, p.nodes)[i].pk == pk;
    }
    LoopTakesTheHull(c, page, |page|);
    MergeIsTheLoopsRange(c, page, if Backfilling(c, hours) then p.now else 0);
  }

  // ------------------------------------------------------- nothing is missed --

  /** The instance's packets by id. */
  type Packets = map<int, Packet>

  ghost predicate FeedOK(all: Packets) {
    forall id :: id in all ==> id > 0 && all[id].id == id
  }

  /** The page holds exactly the instance's packets with ids from a to b. */
  ghost predicate IsInterval(all: Packets, page: seq<Packet>, a: int, b: int) {
    && (forall i :: 0 <= i < |page| ==> page[i].id in all && page[i] == all[page[i].id] && a <= page[i].id <= b)
    && (forall id :: id in all && a <= id <= b ==> all[id] in page)
  }

  ghost predicate Touches(c: Cursor, a: int, b: int) {
    c.high == 0 || (a <= c.high + 1 && c.low <= b + 1)
  }

  ghost predicate Contiguous(all: Packets, c: Cursor, page: seq<Packet>) {
    exists a, b :: IsInterval(all, page, a, b) && Touches(c, a, b)
  }

  /** Counted: exactly the dated packets whose id lies in the range. */
  ghost predicate CountsRange(all: Packets, log: seq<Entry>, c: Cursor) {
    && (forall i :: 0 <= i < |log| ==> log[i].pk.id in all && log[i].pk == all[log[i].pk.id])
    && (forall id :: id in all && all[id].at > 0 && c.low <= id <= c.high ==> Logged(log, all[id]))
  }

  ghost predicate Logged(log: seq<Entry>, pk: Packet) {
    exists i :: 0 <= i < |log| && log[i].pk == pk
  }

  /** When every page is an interval of the feed that touches what was counted before,
      the counted packets are exactly the dated ones with ids in the range; by
      EachPacketCountedAtMostOnce each once, and by TableIsReplay the table is theirs. */
  lemma {:induction false} RangeIsWhatWasCounted(all: Packets, polls: seq<Poll>, hours: int, k: nat)
    requires k <= |polls| && Pages(polls) && FeedOK(all)
    requires forall i :: 0 <= i < |polls| ==> Contiguous(all, FeedAt(EMPTY, polls, hours, i).cursor, polls[i].page)
    ensures forall id :: id in all && all[id].at > 0 ==>
      (Logged(Log(EMPTY, polls, hours, k), all[id]) <==>
        FeedAt(EMPTY, polls, hours, k).cursor.low <= id <= FeedAt(EMPTY, polls, hours, k).cursor.high)
    ensures forall i :: 0 <= i < |Log(EMPTY, polls, hours, k)| ==>
      var pk := Log(EMPTY, polls, hours, k)[i].pk; pk.id in all && pk == all[pk.id] && pk.at > 0
  {
    hide Ingested, News, Contiguous;
    RangeRun(all, polls, hours, k);
    EachPacketCountedAtMostOnce(EMPTY, polls, hours, k);
  }

  lemma {:induction false} RangeRun(all: Packets, polls: seq<Poll>, hours: int, k: nat)
    requires k <= |polls| && Pages(polls) && FeedOK(all)
    requires forall i :: 0 <= i < |polls| ==> Contiguous(all, FeedAt(EMPTY, polls, hours, i).cursor, polls[i].page)
    ensures CountsRange(all, Log(EMPTY, polls, hours, k), FeedAt(EMPTY, polls, hours, k).cursor)
  {
    hide Ingested, News, Contiguous, CountsRange, RangeOK, RangeKnown;
    if k == 0 {
      NothingInRange(all);
    } else {
      RangeRun(all, polls, hours, k - 1);
      NothingKnown();
      EachPacketCountedAtMostOnce(EMPTY, polls, hours, k - 1);
      RangeStep(all, FeedAt(EMPTY, polls, hours, k - 1), polls[k - 1], hours, Log(EMPTY, polls, hours, k - 1));
    }
  }

  lemma NothingKnown()
    ensures RangeOK(EMPTY.cursor) && RangeKnown(EMPTY.cursor)
  {
  }

  lemma NothingInRange(all: Packets)
    requires FeedOK(all)
    ensures CountsRange(all, [], Cursor(0, 0, 0))
  {
  }

  lemma RangeStep(all: Packets, f: Feed, p: Poll, hours: int, log: seq<Entry>)
    requires FeedOK(all) && RangeKnown(f.cursor) && CountsRange(all, log, f.cursor)
    requires PositiveIds(p.page) && Contiguous(all, f.cursor, p.page)
    ensures CountsRange(all, log + News(f, p, hours), Ingested(f, p, hours).cursor)
  {
    hide Lands, Folded, Merge, Fresh, LowAfter, HighAfter, IsInterval;
    if Lands(f.cursor, p, hours) {
      var page, c := p.page, f.cursor;
      var low, high := LowAfter(c, page, |page|), HighAfter(c, page, |page|);
      MergeIsTheLoopsRange(c, page, if Backfilling(c, hours) then p.now else 0);
      var pks := Fresh(c, page, |page|);
      var log1 := log + News(f, p, hours);
      assert News(f, p, hours) == Entries(pks, p.nodes);
      forall i | 0 <= i < |log1| ensures log1[i].pk.id in all && log1[i].pk == all[log1[i].pk.id] {
        if i >= |log| {
          assert log1[i].pk == pks[i - |log|];
          FreshFromFeed(all, c, page, pks[i - |log|]);
        }
      }
      forall id | id in all && all[id].at > 0 && low <= id <= high ensures Logged(log1, all[id]) {
        if SeenBefore(c, all[id]) {
          var i :| 0 <= i < |log| && log[i].pk == all[id];
          assert log1[i].pk == all[id];
        } else {
          OutsideIsFresh(all, c, page, id);
          var i :| 0 <= i < |pks| && pks[i] == all[id];
          assert log1[|log| + i].pk == all[id];
        }
      }
    } else {
      assert log + [] == log;
    }
  }

  lemma FreshFromFeed(all: Packets, c: Cursor, page: seq<Packet>, pk: Packet)
    requires Contiguous(all, c, page) && pk in Fresh(c, page, |page|)
    ensures pk.id in all && pk == all[pk.id]
  {
    FreshExactly(c, page, |page|, pk);
  }

  lemma OutsideIsFresh(all: Packets, c: Cursor, page: seq<Packet>, id: int)
    requires FeedOK(all) && RangeKnown(c) && PositiveIds(page) && Contiguous(all, c, page)
    requires id in all && all[id].at > 0 && !SeenBefore(c, all[id])
    requires LowAfter(c, page, |page|) <= id <= HighAfter(c, page, |page|)
    ensures all[id] in Fresh(c, page, |page|)
  {
    hide Fresh, LowAfter, HighAfter;
    var a, b :| IsInterval(all, page, a, b) && Touches(c, a, b);
    LoopTakesTheHull(c, page, |page|);
    assert a <= id <= b;
    assert all[id] in page;
    FreshExactly(c, page, |page|, all[id]);
  }
}
