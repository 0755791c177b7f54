/** What a stale snapshot does to a rule on one of the feed's own timestamps. The targets
    table only moves forward (internal/store/queries.go, UpsertTargets), but a poll judges
    the snapshot it fetched and not the table (internal/poller/poller.go, evaluate). */
module StaleFeed {
  import opened QuietAlert
  import opened RuleEvidence

  /** One poll of one target: when, what the snapshot said of it, and what its watcher
      wanted to hear. */
  datatype Sight = Sight(now: Time, obs: TargetObs, prefs: Prefs)

  predicate OfTheFeed(r: Rule) {
    r.source in {Seen, Relayed, Packets}
  }

  /** The timestamp the rule is about. */
  function Signal(r: Rule, o: TargetObs): Time {
    match r.source
    case Relayed => o.lastRelayed
    case Packets => o.lastPacket
    case _ => o.lastSeen
  }

  function AsObs(t: Target): TargetObs {
    TargetObs(t.lastSeen, t.lastRelayed, t.lastPacket)
  }

  /** What a poll makes of an observation: over threshold, under it, or no evidence. */
  datatype Verdict = OverIt | UnderIt | NoEvidence

  function VerdictOf(p: Poll): Verdict {
    if Over(p) then OverIt else if Under(p) then UnderIt else NoEvidence
  }

  function PollFrom(r: Rule, now: Time, o: TargetObs, prefs: Prefs): Poll {
    Poll(now, RuleObservation(r, Present(o), []), Threshold(r), prefs)
  }

  /** The snapshot's verdict and the table's differ if and only if the snapshot went back,
      and went back to nothing or from under the threshold to over it. */
  lemma VerdictsDifferExactlyWhen(r: Rule, prev: Target, s: Sight)
    requires OfTheFeed(r)
    ensures var was, seen := Signal(r, AsObs(prev)), Signal(r, s.obs);
            VerdictOf(PollFrom(r, s.now, s.obs, s.prefs))
              != VerdictOf(PollFrom(r, s.now, AsObs(Upserted(prev, s.obs)), s.prefs))
            <==> was > seen && (seen == 0 || (s.now - seen >= Threshold(r) && s.now - was < Threshold(r)))
  {
  }

  // ------------------------------------------------------------ whole histories --

  /** The target's row after the first k polls. */
  function RowAt(row: Target, h: seq<Sight>, k: nat): Target
    requires k <= |h|
  {
    if k == 0 then row else Upserted(RowAt(row, h, k - 1), h[k - 1].obs)
  }

  /** The polls as they were judged. */
  function Polls(r: Rule, h: seq<Sight>): (ps: seq<Poll>)
    ensures |ps| == |h| && forall i :: 0 <= i < |h| ==> ps[i] == PollFrom(r, h[i].now, h[i].obs, h[i].prefs)
  {
    seq(|h|, i requires 0 <= i < |h| => PollFrom(r, h[i].now, h[i].obs, h[i].prefs))
  }

  /** The row remembers the latest the target was ever seen. */
  lemma {:induction false} RowRemembers(r: Rule, row: Target, h: seq<Sight>, k: nat, i: nat)
    requires OfTheFeed(r) && i < k <= |h|
    ensures Signal(r, h[i].obs) <= Signal(r, AsObs(RowAt(row, h, k)))
    ensures Signal(r, AsObs(row)) <= Signal(r, AsObs(RowAt(row, h, k)))
  {
    if i < k - 1 {
      RowRemembers(r, row, h, k - 1, i);
    } else if k > 1 {
      RowRemembers(r, row, h, k - 1, 0);
    }
  }

  /** The snapshot has the signal, and long enough ago. */
  predicate SnapshotOver(r: Rule, s: Sight) {
    Signal(r, s.obs) != 0 && s.now - Signal(r, s.obs) >= Threshold(r)
  }

  lemma OverMeansSnapshotOver(r: Rule, s: Sight)
    requires OfTheFeed(r)
    ensures Over(PollFrom(r, s.now, s.obs, s.prefs)) <==> SnapshotOver(r, s)
  {
  }

  /** The table knows better at poll k: its row, that poll's snapshot included, is under
      threshold. */
  predicate RowUnder(r: Rule, row: Target, h: seq<Sight>, k: nat)
    requires k < |h|
  {
    VerdictOf(PollFrom(r, h[k].now, AsObs(RowAt(row, h, k + 1)), h[k].prefs)) == UnderIt
  }

  /** Stored timestamps never going back were to keep a stale or partial view from
      causing a false alert. Over whole runs, a rule enters alert against its own row if
      and only if it is not down, the last ConfirmPolls snapshots all had it over, and the
      row before the last of them was still under. */
  lemma FalseAlertExactlyWhen(r: Rule, pol: Policy, s0: WatchState, row: Target, h: seq<Sight>, k: nat)
    requires OfTheFeed(r) && FreshlySeeded(s0) && k < |h|
    ensures OutcomeAt(pol, s0, Polls(r, h), k).entering && RowUnder(r, row, h, k)
       <==> && StandingAt(pol, s0, Polls(r, h), k) == Healthy
            && Confirm(pol) <= k + 1 && (forall i :: k + 1 - Confirm(pol) <= i <= k ==> SnapshotOver(r, h[i]))
            && h[k].now - Signal(r, AsObs(RowAt(row, h, k))) < Threshold(r)
  {
    hide OutcomeAt, StandingAt, FoundHealthy, HealthySince, Over, SnapshotOver;
    var ps := Polls(r, h);
    EntersAfterConfirmedOutage(pol, s0, ps, k);
    HealthyExactlyWhen(pol, s0, ps, k);
    forall i | 0 <= i < |h| ensures Over(ps[i]) <==> SnapshotOver(r, h[i]) {
      OverMeansSnapshotOver(r, h[i]);
    }
    if SnapshotOver(r, h[k]) {
      RowUnderWhen(r, row, h, k);
    }
  }

  lemma RowUnderWhen(r: Rule, row: Target, h: seq<Sight>, k: nat)
    requires OfTheFeed(r) && k < |h| && SnapshotOver(r, h[k])
    ensures RowUnder(r, row, h, k) <==> h[k].now - Signal(r, AsObs(RowAt(row, h, k))) < Threshold(r)
  {
    VerdictsDifferExactlyWhen(r, RowAt(row, h, k), h[k]);
  }

  // ------------------------------------------------------------ one that happens --

  /** Heard a minute ago says the table, an hour and more ago say three polls running. */
  const BY_THE_HOUR := Rule(1, 1, "relay", Seen, [], Either, 1)
  const BEFORE := Target(10_000, 0, 0, 0)
  const LOUD := Prefs(false, true)
  const STALE := [
    Sight(10_060, TargetObs(6_000, 0, 0), LOUD),
    Sight(10_120, TargetObs(6_000, 0, 0), LOUD),
    Sight(10_180, TargetObs(6_000, 0, 0), LOUD)]
  const WELL := WatchState(1, 1, OK, 0, 0, 10_000, 0, 0, 0, false)

  /** A rule is promoted to alert, and its owner told, by three stale snapshots while at
      every one of those polls the table says the node was heard within three minutes. */
  lemma StaleSnapshotsRaiseAnAlert()
    ensures OutcomeAt(Policy(3), WELL, Polls(BY_THE_HOUR, STALE), 2).kind == AlertKind
    ensures FreshlySeeded(WELL)
    ensures forall k :: 0 <= k < 3 ==>
      VerdictOf(PollFrom(BY_THE_HOUR, STALE[k].now, AsObs(RowAt(BEFORE, STALE, k + 1)), LOUD)) == UnderIt
  {
    var ps := Polls(BY_THE_HOUR, STALE);
    assert StateAt(Policy(3), WELL, ps, 1) == Step(Policy(3), WELL, ps[0]).state;
    assert StateAt(Policy(3), WELL, ps, 2) == Step(Policy(3), StateAt(Policy(3), WELL, ps, 1), ps[1]).state;
    assert RowAt(BEFORE, STALE, 0) == BEFORE;
    assert RowAt(BEFORE, STALE, 1) == Upserted(RowAt(BEFORE, STALE, 0), STALE[0].obs) == BEFORE;
    assert RowAt(BEFORE, STALE, 2) == Upserted(RowAt(BEFORE, STALE, 1), STALE[1].obs) == BEFORE;
    assert RowAt(BEFORE, STALE, 3) == Upserted(RowAt(BEFORE, STALE, 2), STALE[2].obs) == BEFORE;
  }
}
