/** A feed that stops moving, over whole runs: how often it is believed after all, and
    where the limit on it begins to bite (internal/alert/alert.go, JudgeFeed). */
module FrozenFeed {
  import opened FeedGuard

  ghost predicate NothingAdvances(es: seq<Event>) {
    forall i :: 0 <= i < |es| && es[i].Fetched? ==> es[i].advanced == 0
  }

  /** The log only grows, by a row for each poll. */
  lemma {:induction false} LogGrows(log: seq<PollRun>, es: seq<Event>, cfg: FeedConfig, i: nat, k: nat)
    requires i <= k <= |es|
    ensures |LogAt(log, es, cfg, k)| == |log| + k && LogAt(log, es, cfg, i) <= LogAt(log, es, cfg, k)
    decreases k
  {
    hide RowFor;
    if i < k {
      LogGrows(log, es, cfg, i, k - 1);
    } else if k > 0 {
      LogGrows(log, es, cfg, k - 1, k - 1);
    }
  }

  lemma RowInLog(log: seq<PollRun>, es: seq<Event>, cfg: FeedConfig, i: nat, k: nat)
    requires i < k <= |es|
    ensures |LogAt(log, es, cfg, k)| == |log| + k
    ensures LogAt(log, es, cfg, k)[|log| + i] == RowFor(LogAt(log, es, cfg, i), es[i], cfg)
  {
    hide RowFor;
    LogGrows(log, es, cfg, i + 1, k);
    LogGrows(log, es, cfg, i, i + 1);
    LogGrows(log, es, cfg, i, i);
  }

  /** Poll i was accepted with nodes, within the last seven days of poll j. */
  predicate Vouches(log: seq<PollRun>, es: seq<Event>, cfg: FeedConfig, i: nat, j: nat)
    requires i < |es| && j < |es|
  {
    Accepted(log, es, cfg, i) && es[i].nodeCount > 0 && es[i].at >= es[j].at - 7 * 24 * 3600
  }

  lemma RowVouches(log: seq<PollRun>, es: seq<Event>, cfg: FeedConfig, i: nat, since: Time)
    requires i < |es|
    ensures var row := RowFor(LogAt(log, es, cfg, i), es[i], cfg);
            (Counts(row, since) && row.nodeCount > 0)
            <==> (Accepted(log, es, cfg, i) && es[i].nodeCount > 0 && es[i].at >= since)
  {
    hide VerdictFor;
  }

  /** What a poll is measured against: the log it started from, or an earlier poll. */
  lemma BaselineIsARecentPoll(log: seq<PollRun>, es: seq<Event>, cfg: FeedConfig, j: nat)
    requires j < |es|
    ensures HasBaseline(LogAt(log, es, cfg, j), es[j].at)
       <==> HasBaseline(log, es[j].at) || exists i :: 0 <= i < j && Vouches(log, es, cfg, i, j)
  {
    hide LogAt, RowFor, Accepted;
    var runs, since := LogAt(log, es, cfg, j), es[j].at - BASELINE_WINDOW;
    LogGrows(log, es, cfg, 0, j);
    assert LogAt(log, es, cfg, 0) == log by {
      NextLog(log, es, cfg, j);
    }
    assert forall i :: 0 <= i < |log| ==> runs[i] == log[i];
    forall i | 0 <= i < j
      ensures (Counts(runs[|log| + i], since) && runs[|log| + i].nodeCount > 0) <==> Vouches(log, es, cfg, i, j)
    {
      RowInLog(log, es, cfg, i, j);
      RowVouches(log, es, cfg, i, since);
    }
    if HasBaseline(runs, es[j].at) {
      var r :| 0 <= r < |runs| && Counts(runs[r], since) && runs[r].nodeCount > 0;
      if r >= |log| {
        assert runs[|log| + (r - |log|)] == runs[r];
        assert Vouches(log, es, cfg, r - |log|, j);
      }
    }
    if exists i :: 0 <= i < j && Vouches(log, es, cfg, i, j) {
      var i :| 0 <= i < j && Vouches(log, es, cfg, i, j);
      assert runs[|log| + i].nodeCount > 0;
    }
  }

  /** Past the limit, exactly which polls of a frozen feed are believed after all: those
      with nodes enough and no accepted poll with nodes in the seven days before them. */
  lemma PastTheLimitBelievedExactlyWhen(log: seq<PollRun>, es: seq<Event>, cfg: FeedConfig, j: nat)
    requires j < |es| && es[j].Fetched? && NothingAdvances(es) && cfg.maxPollsWithoutAdvance <= HISTORY_ROWS
    requires Streak(log) + CountFetched(es, j) >= cfg.maxPollsWithoutAdvance
    ensures Accepted(log, es, cfg, j)
       <==> && es[j].nodeCount >= cfg.minNodes && !HasBaseline(log, es[j].at)
            && forall i :: 0 <= i < j ==> !Vouches(log, es, cfg, i, j)
  {
    hide Streak, LogAt, MaxNodesSince, Vouches, HasBaseline;
    StreakCountsArrivals(log, es, cfg, j);
    BaselineIsARecentPoll(log, es, cfg, j);
    PastTheLimit(LogAt(log, es, cfg, j), es[j], cfg);
  }

  lemma PastTheLimit(runs: seq<PollRun>, e: Event, cfg: FeedConfig)
    requires e.Fetched? && e.advanced == 0 && cfg.maxPollsWithoutAdvance <= HISTORY_ROWS
    requires Streak(runs) >= cfg.maxPollsWithoutAdvance
    ensures VerdictFor(runs, e, cfg).status == PollOK <==> e.nodeCount >= cfg.minNodes && !HasBaseline(runs, e.at)
  {
    hide Streak;
    AcceptedExactlyWhen(runs, e, cfg);
  }

  /** So it is believed at most once a week, for as long as it stays frozen. */
  lemma BelievedAtMostOnceAWeek(log: seq<PollRun>, es: seq<Event>, cfg: FeedConfig, i: nat, j: nat)
    requires i < j < |es| && NothingAdvances(es) && cfg.maxPollsWithoutAdvance <= HISTORY_ROWS
    requires Streak(log) + CountFetched(es, j) >= cfg.maxPollsWithoutAdvance
    requires Accepted(log, es, cfg, i) && es[i].nodeCount > 0 && Accepted(log, es, cfg, j)
    ensures es[j].at - es[i].at > 7 * 24 * 3600
  {
    hide Accepted, Streak;
    assert es[j].Fetched? by {
      FetchedIfAccepted(log, es, cfg, j);
    }
    PastTheLimitBelievedExactlyWhen(log, es, cfg, j);
    assert !Vouches(log, es, cfg, i, j);
  }

  lemma FetchedIfAccepted(log: seq<PollRun>, es: seq<Event>, cfg: FeedConfig, i: nat)
    requires i < |es| && Accepted(log, es, cfg, i)
    ensures es[i].Fetched?
  {
  }

  // -------------------------------------------------------- a feed that fools it --

  const TWO_POLLS := FeedConfig(1, 0.5, 2)
  const MOVED := [PollRun(0, PollOK, 10, 3)]
  const STUCK := [Fetched(300, 10, 0), Fetched(600, 10, 0), Fetched(900, 10, 0), Fetched(605_401, 10, 0)]

  lemma StuckLogs()
    ensures LogAt(MOVED, STUCK, TWO_POLLS, 0) == MOVED
    ensures LogAt(MOVED, STUCK, TWO_POLLS, 1) == MOVED + [PollRun(300, PollOK, 10, 0)]
    ensures LogAt(MOVED, STUCK, TWO_POLLS, 2) == MOVED + [PollRun(300, PollOK, 10, 0), PollRun(600, PollOK, 10, 0)]
    ensures LogAt(MOVED, STUCK, TWO_POLLS, 3)
         == MOVED + [PollRun(300, PollOK, 10, 0), PollRun(600, PollOK, 10, 0), PollRun(900, PollSuspect, 10, 0)]
    ensures VerdictFor(LogAt(MOVED, STUCK, TWO_POLLS, 2), STUCK[2], TWO_POLLS).reason == Frozen
  {
    hide LogAt, MaxNodesSince, Streak;
    var one := MOVED + [PollRun(300, PollOK, 10, 0)];
    var two := MOVED + [PollRun(300, PollOK, 10, 0), PollRun(600, PollOK, 10, 0)];
    var three := MOVED + [PollRun(300, PollOK, 10, 0), PollRun(600, PollOK, 10, 0), PollRun(900, PollSuspect, 10, 0)];
    NextLog(MOVED, STUCK, TWO_POLLS, 0);
    EarlyVerdict(MOVED, STUCK, 0, MOVED);
    assert LogAt(MOVED, STUCK, TWO_POLLS, 1) == one;
    NextLog(MOVED, STUCK, TWO_POLLS, 1);
    EarlyVerdict(MOVED, STUCK, 1, one);
    assert LogAt(MOVED, STUCK, TWO_POLLS, 2) == two;
    NextLog(MOVED, STUCK, TWO_POLLS, 2);
    EarlyVerdict(MOVED, STUCK, 2, two);
    assert LogAt(MOVED, STUCK, TWO_POLLS, 3) == three;
  }

  lemma NextLog(log: seq<PollRun>, es: seq<Event>, cfg: FeedConfig, k: nat)
    requires k < |es|
    ensures LogAt(log, es, cfg, 0) == log
    ensures LogAt(log, es, cfg, k + 1) == LogAt(log, es, cfg, k) + [RowFor(LogAt(log, es, cfg, k), es[k], cfg)]
  {
    hide RowFor;
  }

  /** The first two polls are believed, the third is not. */
  lemma EarlyVerdict(log: seq<PollRun>, es: seq<Event>, k: nat, runs: seq<PollRun>)
    requires log == MOVED && es == STUCK && k < 3 && runs == LogAt(log, es, TWO_POLLS, k)
    requires |runs| == 1 + k && forall i :: 0 <= i < |runs| ==> runs[i].status == PollOK && runs[i].nodeCount == 10
    requires forall i :: 0 <= i < |runs| ==> runs[i].startedAt == 300 * i
    ensures RowFor(runs, es[k], TWO_POLLS) == PollRun(300 * (k + 1), if k < 2 then PollOK else PollSuspect, 10, 0)
    ensures VerdictFor(runs, es[k], TWO_POLLS).reason == if k < 2 then Believed else Frozen
  {
    hide LogAt, MaxNodesSince, Streak;
    StreakCountsArrivals(log, es, TWO_POLLS, k);
    assert CountFetched(es, k) == k by {
      CountOfStuck(k);
    }
    assert Streak(MOVED) == 0 by {
      MovedIsNoStreak();
    }
    PeakIsAttained(runs, es[k].at - BASELINE_WINDOW);
    assert runs[0].nodeCount <= MaxNodesSince(runs, es[k].at - BASELINE_WINDOW) == 10;
    FrozenExactlyWhen(runs, es[k], TWO_POLLS);
    AcceptedExactlyWhen(runs, es[k], TWO_POLLS);
  }

  lemma MovedIsNoStreak()
    ensures Streak(MOVED) == 0
  {
  }

  lemma CountOfStuck(k: nat)
    requires k <= 4
    ensures CountFetched(STUCK, k) == k
  {
    assert CountFetched(STUCK, 0) == 0;
    assert k >= 1 ==> CountFetched(STUCK, 1) == 1;
    assert k >= 2 ==> CountFetched(STUCK, 2) == 2;
    assert k >= 3 ==> CountFetched(STUCK, 3) == 3;
  }

  /** Called frozen at its third poll, and still not moved a week later, a feed is
      believed again. */
  lemma FrozenFeedIsBelievedAgain()
    ensures NothingAdvances(STUCK)
    ensures VerdictFor(LogAt(MOVED, STUCK, TWO_POLLS, 2), STUCK[2], TWO_POLLS).reason == Frozen
    ensures Streak(LogAt(MOVED, STUCK, TWO_POLLS, 3)) == 3 && Accepted(MOVED, STUCK, TWO_POLLS, 3)
  {
    hide LogAt, VerdictFor, MaxNodesSince;
    StuckLogs();
    CountOfStuck(3);
    MovedIsNoStreak();
    StreakCountsArrivals(MOVED, STUCK, TWO_POLLS, 3);
    FrozenFeedBelievedWithoutBaseline(LogAt(MOVED, STUCK, TWO_POLLS, 3), STUCK[3], TWO_POLLS);
  }

  // ----------------------------------------------------------- where it begins --

  /** "Once nothing advances for this many consecutive polls", the one in progress
      included, a feed would be believed while its streak is below the limit with this
      poll counted in. It is believed for one poll more, and only that poll differs. */
  lemma OnePollMoreExactlyWhen(runs: seq<PollRun>, e: Event, cfg: FeedConfig)
    requires e.Fetched? && e.advanced == 0 && HasBaseline(runs, e.at) && e.nodeCount >= cfg.minNodes
    requires !BelowPeak(e.nodeCount, MaxNodesSince(runs, e.at - BASELINE_WINDOW), cfg.minNodeFraction)
    requires cfg.maxPollsWithoutAdvance <= HISTORY_ROWS
    ensures VerdictFor(runs, e, cfg).status == PollOK <==> Streak(runs) < cfg.maxPollsWithoutAdvance
    ensures (VerdictFor(runs, e, cfg).status == PollOK) != (Streak(runs) + 1 < cfg.maxPollsWithoutAdvance)
       <==> Streak(runs) + 1 == cfg.maxPollsWithoutAdvance
  {
    hide Streak, BelowPeak, MaxNodesSince;
  }

  /** At the default limit of two, the second poll in a row in which nothing advances. */
  lemma SecondStuckPollIsBelieved()
    ensures Accepted(MOVED, STUCK, TWO_POLLS, 1)
    ensures Streak(LogAt(MOVED, STUCK, TWO_POLLS, 1)) + 1 == TWO_POLLS.maxPollsWithoutAdvance
  {
    hide LogAt, MaxNodesSince, Streak;
    StuckLogs();
    EarlyVerdict(MOVED, STUCK, 1, LogAt(MOVED, STUCK, TWO_POLLS, 1));
    MovedIsNoStreak();
    CountOfStuck(1);
    StreakCountsArrivals(MOVED, STUCK, TWO_POLLS, 1);
  }

  // ------------------------------------------------------- a limit out of reach --

  /** A limit the counting cannot reach: 21 polls of 20 rows. */
  const OUT_OF_REACH := FeedConfig(1, 0.5, 21)

  function Standstill(n: nat): seq<PollRun> {
    seq(n, i requires 0 <= i < n => PollRun(300 * i, PollOK, 10, 0))
  }

  lemma {:induction false} StandstillIsAStreak(n: nat)
    ensures Streak(Standstill(n)) == n
  {
    if n > 0 {
      StandstillIsAStreak(n - 1);
      assert Standstill(n)[..n - 1] == Standstill(n - 1);
    }
  }

  /** However long the feed has stood still, it is believed once more. */
  lemma LimitOutOfReachNeverFires(n: nat)
    requires n > 0
    ensures Streak(Standstill(n)) == n
    ensures VerdictFor(Standstill(n), Fetched(300 * n, 10, 0), OUT_OF_REACH).status == PollOK
  {
    hide Streak, MaxNodesSince, Standstill;
    StandstillIsAStreak(n);
    var runs, since := Standstill(n), 300 * n - BASELINE_WINDOW;
    PeakIsAttained(runs, since);
    StandstillRows(n);
    AcceptedExactlyWhen(runs, Fetched(300 * n, 10, 0), OUT_OF_REACH);
  }

  lemma StandstillRows(n: nat)
    ensures forall i :: 0 <= i < |Standstill(n)| ==> Standstill(n)[i].nodeCount == 10
  {
  }
}
