/** Which polls are believed: the feed verdict, the blast-radius breaker, and the poll
    log the verdict reads (internal/alert/alert.go, internal/store/queries.go,
    internal/poller/poller.go). */
module FeedGuard {

  type Time = int

  datatype Status = PollOK | PollFailed | PollSuspect
  datatype Reason = Believed | FetchFailedReason | TooFewNodes | BelowRecentPeak | Frozen
  datatype Verdict = Verdict(status: Status, reason: Reason)

  datatype FeedConfig = FeedConfig(minNodes: int, minNodeFraction: real, maxPollsWithoutAdvance: int)

  datatype FeedInputs = FeedInputs(
    fetchErr: bool, nodeCount: nat, maxRecentNodeCount: nat, advanced: nat, consecutiveNonAdvancing: nat,
    haveBaseline: bool)

  function JudgeFeed(inp: FeedInputs, cfg: FeedConfig): Verdict {
    if inp.fetchErr then Verdict(PollFailed, FetchFailedReason)
    else if inp.nodeCount < cfg.minNodes then Verdict(PollSuspect, TooFewNodes)
    else if BelowPeak(inp.nodeCount, inp.maxRecentNodeCount, cfg.minNodeFraction) then
      Verdict(PollSuspect, BelowRecentPeak)
    else if inp.haveBaseline && inp.advanced == 0 && inp.consecutiveNonAdvancing >= cfg.maxPollsWithoutAdvance then
      Verdict(PollSuspect, Frozen)
    else Verdict(PollOK, Believed)
  }

  /** Implausibly small next to the recent peak. */
  predicate BelowPeak(nodeCount: nat, peak: nat, fraction: real) {
    peak > 0 && nodeCount < Truncated(peak as real * fraction)
  }

  /** Conversion of a float to an integer drops the fraction. */
  function Truncated(x: real): int {
    if x >= 0.0 then x.Floor else -((-x).Floor)
  }

  const MIN_SIGNALS_FOR_FRACTION := 20

  datatype BreakerConfig = BreakerConfig(maxPerPoll: int, maxFraction: real)

  function TripBreaker(entering: nat, activeSignals: nat, cfg: BreakerConfig): (tripped: bool)
  {
    if entering == 0 then false
    else if cfg.maxPerPoll > 0 && entering > cfg.maxPerPoll then true
    else if cfg.maxFraction > 0.0 && activeSignals >= MIN_SIGNALS_FOR_FRACTION then
      entering as real / activeSignals as real > cfg.maxFraction
    else false
  }

  // --------------------------------------------------------------- the log --

  datatype PollRun = PollRun(startedAt: Time, status: Status, nodeCount: nat, advanced: nat)

  /** What one poll meets. `Aborted` is a poll that returned an error, or died, before
      its verdict: its row keeps the status it was started with. */
  datatype Event = Fetched(at: Time, nodeCount: nat, advanced: nat) | FetchFailed(at: Time) | Aborted(at: Time)

  const BASELINE_WINDOW := 7 * 24 * 3600
  const HISTORY_ROWS := 20

  /** An accepted poll of the window. */
  predicate Counts(run: PollRun, since: Time) {
    run.status == PollOK && run.startedAt >= since
  }

  function MaxNodesSince(runs: seq<PollRun>, since: Time): (m: nat)
    ensures m > 0 <==> exists i :: 0 <= i < |runs| && Counts(runs[i], since) && runs[i].nodeCount > 0
  {
    if runs == [] then 0
    else
      var init, last := runs[..|runs| - 1], runs[|runs| - 1];
      var m := MaxNodesSince(init, since);
      assert m > 0 ==> exists i :: 0 <= i < |runs| && Counts(runs[i], since) && runs[i].nodeCount > 0 by {
        if m > 0 {
          var i :| 0 <= i < |init| && Counts(init[i], since) && init[i].nodeCount > 0;
          assert runs[i] == init[i];
        }
      }
      assert forall i :: 0 <= i < |init| ==> init[i] == runs[i];
      if Counts(last, since) && last.nodeCount > m then last.nodeCount else m
  }

  /** The rows whose feed arrived, newest first. */
  function FetchedNewestFirst(runs: seq<PollRun>): seq<PollRun> {
    if runs == [] then []
    else
      var rest := FetchedNewestFirst(runs[..|runs| - 1]);
      if runs[|runs| - 1].status == PollFailed then rest else [runs[|runs| - 1]] + rest
  }

  function Min(a: int, b: int): int { if a < b then a else b }

  /** How long the feed has looked frozen, with no limit on how far back it looks:
      arrived polls since one last advanced, failed polls not counted. */
  function Streak(runs: seq<PollRun>): nat {
    if runs == [] then 0
    else
      var last := runs[|runs| - 1];
      if last.status == PollFailed then Streak(runs[..|runs| - 1])
      else if last.advanced > 0 then 0
      else 1 + Streak(runs[..|runs| - 1])
  }

  /** Leading rows of a newest-first list in which nothing advanced. */
  function Leading(rows: seq<PollRun>): (n: nat)
    ensures n <= |rows|
  {
    if rows == [] || rows[0].advanced > 0 then 0 else 1 + Leading(rows[1..])
  }

  lemma {:induction false} LeadingIsStreak(runs: seq<PollRun>)
    ensures Leading(FetchedNewestFirst(runs)) == Streak(runs)
  {
    if runs != [] {
      LeadingIsStreak(runs[..|runs| - 1]);
      var rest := FetchedNewestFirst(runs[..|runs| - 1]);
      assert ([runs[|runs| - 1]] + rest)[1..] == rest;
    }
  }

  lemma {:induction false} LeadingOfPrefix(rows: seq<PollRun>, k: nat)
    requires k <= |rows|
    ensures Leading(rows[..k]) == Min(k, Leading(rows))
  {
    if k > 0 {
      LeadingOfPrefix(rows[1..], k - 1);
      assert rows[..k][1..] == rows[1..][..k - 1];
    }
  }

  /** The rows a query with a limit returns. */
  function Limited(rows: seq<PollRun>): seq<PollRun> {
    rows[..Min(|rows|, HISTORY_ROWS)]
  }

  function InputsFor(runs: seq<PollRun>, e: Event): FeedInputs
    requires !e.Aborted?
  {
    var recent := MaxNodesSince(runs, e.at - BASELINE_WINDOW);
    FeedInputs(e.FetchFailed?, if e.Fetched? then e.nodeCount else 0, recent,
               if e.Fetched? then e.advanced else 0, Min(HISTORY_ROWS, Streak(runs)), recent > 0)
  }

  function VerdictFor(runs: seq<PollRun>, e: Event, cfg: FeedConfig): Verdict
    requires !e.Aborted?
  {
    JudgeFeed(InputsFor(runs, e), cfg)
  }

  /** The row one poll leaves behind. */
  function RowFor(runs: seq<PollRun>, e: Event, cfg: FeedConfig): PollRun {
    match e
    case Fetched(at, n, a) => PollRun(at, VerdictFor(runs, e, cfg).status, n, a)
    case FetchFailed(at) => PollRun(at, PollFailed, 0, 0)
    case Aborted(at) => PollRun(at, PollFailed, 0, 0)
  }

  /** The poll_runs table. Rows are kept in the order polls start, which is the order
      of their start times. */
  class PollLog {
    var runs: seq<PollRun>

    constructor ()
      ensures runs == []
    {
      runs := [];
    }

    method StartPollRun(at: Time) returns (id: nat)
      modifies this
      ensures id == |old(runs)| && runs == old(runs) + [PollRun(at, PollFailed, 0, 0)]
    {
      id := |runs|;
      runs := runs + [PollRun(at, PollFailed, 0, 0)];
    }

    method FinishPollRun(id: nat, status: Status, nodeCount: nat, advanced: nat)
      requires id < |runs|
      modifies this
      ensures runs == old(runs)[id := PollRun(old(runs)[id].startedAt, status, nodeCount, advanced)]
    {
      runs := runs[id := PollRun(runs[id].startedAt, status, nodeCount, advanced)];
    }

    /** Counts back from the newest row; the poll in progress is still marked failed,
        so it is not among the rows. */
    method ConsecutiveNonAdvancingPolls() returns (n: nat)
      ensures n == Min(HISTORY_ROWS, Streak(runs))
    {
      var rows := Limited(FetchedNewestFirst(runs));
      n := 0;
      var i := 0;
      while i < |rows|
        invariant 0 <= i <= |rows| && n == i
        invariant Leading(rows) == i + Leading(rows[i..])
      {
        if rows[i].advanced > 0 {
          break;
        }
        assert rows[i..][1..] == rows[i + 1..];
        n := n + 1;
        i := i + 1;
      }
      LeadingIsStreak(runs);
      LeadingOfPrefix(FetchedNewestFirst(runs), |rows|);
    }

    /** One poll up to its verdict, with whatever the fetch returned. */
    method PollOnce(e: Event, cfg: FeedConfig) returns (believed: bool)
      modifies this
      ensures runs == old(runs) + [RowFor(old(runs), e, cfg)]
      ensures believed <==> runs[|runs| - 1].status == PollOK
    {
      var id := StartPollRun(e.at);
      if e.Aborted? {
        return false;
      }
      ghost var before := old(runs);
      InProgressRowIsInvisible(before, e.at);
      var maxRecent := MaxNodesSince(runs, e.at - BASELINE_WINDOW);
      var nonAdvancing := ConsecutiveNonAdvancingPolls();
      var nodes, advanced := 0, 0;
      if e.Fetched? {
        nodes, advanced := e.nodeCount, e.advanced;
      }
      var verdict := JudgeFeed(
        FeedInputs(e.FetchFailed?, nodes, maxRecent, advanced, nonAdvancing, maxRecent > 0), cfg);
      FinishPollRun(id, verdict.status, nodes, advanced);
      believed := verdict.status == PollOK;
    }
  }

  lemma InProgressRowIsInvisible(runs: seq<PollRun>, at: Time)
    ensures var during := runs + [PollRun(at, PollFailed, 0, 0)];
            Streak(during) == Streak(runs) && forall since :: MaxNodesSince(during, since) == MaxNodesSince(runs, since)
  {
    var during := runs + [PollRun(at, PollFailed, 0, 0)];
    assert during[..|during| - 1] == runs;
  }

  // --------------------------------------------------------- whole histories --

  /** The log after the first k polls. */
  function LogAt(log: seq<PollRun>, es: seq<Event>, cfg: FeedConfig, k: nat): seq<PollRun>
    requires k <= |es|
  {
    if k == 0 then log
    else LogAt(log, es, cfg, k - 1) + [RowFor(LogAt(log, es, cfg, k - 1), es[k - 1], cfg)]
  }

  predicate Accepted(log: seq<PollRun>, es: seq<Event>, cfg: FeedConfig, i: nat)
    requires i < |es|
  {
    es[i].Fetched? && VerdictFor(LogAt(log, es, cfg, i), es[i], cfg).status == PollOK
  }

  /** An accepted poll with nodes lies within the last seven days. */
  ghost predicate HasBaseline(runs: seq<PollRun>, at: Time) {
    exists i :: 0 <= i < |runs| && Counts(runs[i], at - BASELINE_WINDOW) && runs[i].nodeCount > 0
  }

  lemma {:induction false} PeakIsAttained(runs: seq<PollRun>, since: Time)
    ensures forall i :: 0 <= i < |runs| && Counts(runs[i], since) ==>
      runs[i].nodeCount <= MaxNodesSince(runs, since)
    ensures MaxNodesSince(runs, since) > 0 ==>
      exists i :: 0 <= i < |runs| && Counts(runs[i], since) && runs[i].nodeCount == MaxNodesSince(runs, since)
  {
    if runs != [] {
      var init := runs[..|runs| - 1];
      PeakIsAttained(init, since);
      assert forall i :: 0 <= i < |init| ==> init[i] == runs[i];
      if MaxNodesSince(runs, since) > 0 && MaxNodesSince(runs, since) == MaxNodesSince(init, since) {
        var i :| 0 <= i < |init| && Counts(init[i], since) && init[i].nodeCount == MaxNodesSince(init, since);
        assert runs[i].nodeCount == MaxNodesSince(runs, since);
      }
    }
  }

  /** Exactly when a feed that arrived is believed: enough nodes, no more than a rounding
      below the agreed share of the week's peak, and not frozen. */
  lemma AcceptedExactlyWhen(runs: seq<PollRun>, e: Event, cfg: FeedConfig)
    requires e.Fetched?
    ensures var peak := MaxNodesSince(runs, e.at - 7 * 24 * 3600);
            VerdictFor(runs, e, cfg).status == PollOK <==>
              && e.nodeCount >= cfg.minNodes
              && (peak == 0 || (e.nodeCount + 1) as real > peak as real * cfg.minNodeFraction)
              && (e.advanced > 0 || peak == 0 || Streak(runs) < cfg.maxPollsWithoutAdvance
                   || cfg.maxPollsWithoutAdvance > 20)
  {
    hide BelowPeak, Streak, MaxNodesSince;
    BelowPeakWhen(e.nodeCount, MaxNodesSince(runs, e.at - BASELINE_WINDOW), cfg.minNodeFraction);
  }

  lemma BelowPeakWhen(nodeCount: nat, peak: nat, fraction: real)
    ensures !BelowPeak(nodeCount, peak, fraction) <==> peak == 0 || (nodeCount + 1) as real > peak as real * fraction
  {
    TruncationRounds(nodeCount, peak as real * fraction);
  }

  lemma TruncationRounds(n: nat, x: real)
    ensures n < Truncated(x) <==> (n + 1) as real <= x
  {
  }

  /** Exactly when a feed that arrived is called frozen. Past a limit of 20 the check
      can never fire, because only 20 rows are counted. */
  lemma FrozenExactlyWhen(runs: seq<PollRun>, e: Event, cfg: FeedConfig)
    requires e.Fetched?
    ensures VerdictFor(runs, e, cfg).reason == Frozen
       <==> && e.nodeCount >= cfg.minNodes
            && !BelowPeak(e.nodeCount, MaxNodesSince(runs, e.at - BASELINE_WINDOW), cfg.minNodeFraction)
            && HasBaseline(runs, e.at) && e.advanced == 0
            && cfg.maxPollsWithoutAdvance <= 20 && Streak(runs) >= cfg.maxPollsWithoutAdvance
  {
    hide BelowPeak;
  }

  lemma StreakAfterRow(runs: seq<PollRun>, row: PollRun)
    ensures Streak(runs + [row])
         == if row.status == PollFailed then Streak(runs) else if row.advanced > 0 then 0 else 1 + Streak(runs)
  {
    assert (runs + [row])[..|runs|] == runs;
  }

  function CountFetched(es: seq<Event>, k: nat): nat
    requires k <= |es|
  {
    if k == 0 then 0 else CountFetched(es, k - 1) + if es[k - 1].Fetched? then 1 else 0
  }

  function CountAccepted(log: seq<PollRun>, es: seq<Event>, cfg: FeedConfig, k: nat): nat
    requires k <= |es|
  {
    if k == 0 then 0 else CountAccepted(log, es, cfg, k - 1) + if Accepted(log, es, cfg, k - 1) then 1 else 0
  }

  lemma FetchedRowIsNotFailed(runs: seq<PollRun>, e: Event, cfg: FeedConfig)
    ensures e.Fetched? ==> RowFor(runs, e, cfg).status != PollFailed && RowFor(runs, e, cfg).advanced == e.advanced
    ensures !e.Fetched? ==> RowFor(runs, e, cfg).status == PollFailed
  {
  }

  /** While nothing advances, the streak grows by one for every poll that arrives;
      polls that fail neither break nor extend it. */
  lemma {:induction false} StreakCountsArrivals(log: seq<PollRun>, es: seq<Event>, cfg: FeedConfig, k: nat)
    requires k <= |es| && forall i :: 0 <= i < |es| && es[i].Fetched? ==> es[i].advanced == 0
    ensures Streak(LogAt(log, es, cfg, k)) == Streak(log) + CountFetched(es, k)
  {
    if k > 0 {
      StreakCountsArrivals(log, es, cfg, k - 1);
      StreakAfterRow(LogAt(log, es, cfg, k - 1), RowFor(LogAt(log, es, cfg, k - 1), es[k - 1], cfg));
      FetchedRowIsNotFailed(LogAt(log, es, cfg, k - 1), es[k - 1], cfg);
    }
  }

  /** A frozen feed is believed for at most MaxPollsWithoutAdvance polls, less however
      long it had already been frozen, and never again until something advances. */
  lemma {:induction false} FrozenFeedIsBelievedAtMost(log: seq<PollRun>, es: seq<Event>, cfg: FeedConfig, k: nat)
    requires k <= |es| && 0 <= cfg.maxPollsWithoutAdvance <= HISTORY_ROWS
    requires forall i :: 0 <= i < |es| && es[i].Fetched? ==> es[i].advanced == 0
    requires forall i :: 0 <= i < |es| ==> HasBaseline(LogAt(log, es, cfg, i), es[i].at)
    ensures CountAccepted(log, es, cfg, k) <= cfg.maxPollsWithoutAdvance
    ensures CountAccepted(log, es, cfg, k) <= CountFetched(es, k)
    ensures CountAccepted(log, es, cfg, k) > 0 ==>
      Streak(log) + CountAccepted(log, es, cfg, k) <= cfg.maxPollsWithoutAdvance
    ensures forall i :: 0 <= i < k && Streak(log) + CountFetched(es, i) >= cfg.maxPollsWithoutAdvance ==>
      !Accepted(log, es, cfg, i)
  {
    hide VerdictFor, HasBaseline, RowFor, LogAt, Streak;
    if k > 0 {
      var before := LogAt(log, es, cfg, k - 1);
      FrozenFeedIsBelievedAtMost(log, es, cfg, k - 1);
      StreakCountsArrivals(log, es, cfg, k - 1);
      if Accepted(log, es, cfg, k - 1) {
        AcceptedNeedsShortStreak(before, es[k - 1], cfg);
      }
    }
  }

  lemma AcceptedNeedsShortStreak(runs: seq<PollRun>, e: Event, cfg: FeedConfig)
    requires HasBaseline(runs, e.at) && cfg.maxPollsWithoutAdvance <= HISTORY_ROWS
    requires e.Fetched? && e.advanced == 0 && VerdictFor(runs, e, cfg).status == PollOK
    ensures Streak(runs) < cfg.maxPollsWithoutAdvance
  {
  }

  /** The guard lasts only as long as its yardstick: once every accepted poll with nodes
      is over a week old, a frozen feed of enough nodes is believed again. */
  lemma FrozenFeedBelievedWithoutBaseline(runs: seq<PollRun>, e: Event, cfg: FeedConfig)
    requires e.Fetched? && !HasBaseline(runs, e.at)
    ensures VerdictFor(runs, e, cfg).status == PollOK <==> e.nodeCount >= cfg.minNodes
  {
  }

  // --------------------------------------------------------------- breaker --

  /** Exactly which numbers of new alerts are let through. */
  lemma UntrippedExactlyWhenWithinLimits(entering: nat, activeSignals: nat, cfg: BreakerConfig)
    ensures !TripBreaker(entering, activeSignals, cfg)
       <==> (entering > 0 ==>
               && (cfg.maxPerPoll > 0 ==> entering <= cfg.maxPerPoll)
               && (cfg.maxFraction > 0.0 && activeSignals >= 20 ==>
                     entering as real <= cfg.maxFraction * activeSignals as real))
  {
    if activeSignals > 0 {
      QuotientBound(entering as real, activeSignals as real, cfg.maxFraction);
    }
  }

  lemma QuotientBound(e: real, a: real, f: real)
    requires a > 0.0
    ensures e / a > f <==> e > f * a
  {
    var q := e / a;
    assert e == q * a;
    if q > f {
      assert (q - f) * a > 0.0;
    } else {
      assert (f - q) * a >= 0.0;
    }
  }
}
