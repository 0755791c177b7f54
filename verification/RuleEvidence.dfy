/** What one rule can see: the pair (timestamp, applicable) a poll computes for it, the
    pair its creation computes, and the state it is created in
    (internal/poller/poller.go, internal/store/queries.go). */
module RuleEvidence {
  import opened QuietAlert

  datatype Source = Seen | Relayed | Packets | Types | OtherSource

  /** How a node was involved; all that a row of evidence may say. */
  datatype Direction = Sent | Carried

  /** What a rule accepts: the schema refuses any other value. */
  datatype RuleDirection = Only(dir: Direction) | Either

  datatype Rule = Rule(id: int, watchID: int, name: string, source: Source, types: seq<int>, direction: RuleDirection,
    thresholdHours: int)

  /** The target_activity table: one row per kind, key, payload type and direction. */
  datatype Slot = Slot(kind: string, key: string, typ: int, dir: Direction)
  datatype Row = Row(lastAt: Time, count: nat)
  type Table = map<Slot, Row>

  /** One grouped row, as a poll reads it. */
  datatype Activity = Activity(typ: int, dir: Direction, lastAt: Time)

  /** The snapshot's view of one target, or the targets table's. */
  datatype TargetObs = TargetObs(lastSeen: Time, lastRelayed: Time, lastPacket: Time)
  datatype Target = Target(lastSeen: Time, lastRelayed: Time, everRelayed: Time, lastPacket: Time)

  // ------------------------------------------------------ what a poll computes --

  predicate Wanted(r: Rule, a: Activity) {
    a.typ in r.types && (r.direction.Only? ==> a.dir == r.direction.dir)
  }

  /** The per-type loop over the first n grouped rows. */
  function Latest(r: Rule, acts: seq<Activity>, n: nat): Observation
    requires n <= |acts|
  {
    if n == 0 then Observation(0, false)
    else
      var o := Latest(r, acts, n - 1);
      if !Wanted(r, acts[n - 1]) then o
      else Observation(if acts[n - 1].lastAt > o.at then acts[n - 1].lastAt else o.at, true)
  }

  /** obs is absent when the snapshot does not mention the target. */
  datatype Known = Absent | Present(obs: TargetObs)

  function RuleObservation(r: Rule, known: Known, acts: seq<Activity>): Observation {
    match r.source
    case Seen => if known.Present? then Observation(known.obs.lastSeen, true) else Observation(0, false)
    case Relayed =>
      if known.Present? then Observation(known.obs.lastRelayed, known.obs.lastRelayed != 0) else Observation(0, false)
    case Packets =>
      if known.Present? then Observation(known.obs.lastPacket, known.obs.lastPacket != 0) else Observation(0, false)
    case Types => Latest(r, acts, |acts|)
    case OtherSource => Observation(0, false)
  }

  method ObserveRule(r: Rule, known: Known, acts: seq<Activity>) returns (o: Observation)
    ensures o == RuleObservation(r, known, acts)
  {
    match r.source
    case Seen => o := if known.Present? then Observation(known.obs.lastSeen, true) else Observation(0, false);
    case Relayed =>
      o := if known.Present? then Observation(known.obs.lastRelayed, known.obs.lastRelayed != 0)
        else Observation(0, false);
    case Packets =>
      o := if known.Present? then Observation(known.obs.lastPacket, known.obs.lastPacket != 0)
        else Observation(0, false);
    case Types =>
      var latest, found := 0, false;
      for i := 0 to |acts|
        invariant Observation(latest, found) == Latest(r, acts, i)
      {
        var a := acts[i];
        if a.typ !in r.types {
          continue;
        }
        if r.direction != Either && Only(a.dir) != r.direction {
          continue;
        }
        found := true;
        if a.lastAt > latest {
          latest := a.lastAt;
        }
      }
      o := Observation(latest, found);
    case OtherSource => o := Observation(0, false);
  }

  // ------------------------------------------------- what creating one computes --

  predicate Selected(r: Rule, key: string, s: Slot) {
    s.key == key && s.typ in r.types && (r.direction.Only? ==> s.dir == r.direction.dir)
  }

  /** o is what SELECT MAX(last_at) over the selected rows returns; no row is NULL. */
  ghost predicate IsMaxQuery(table: Table, key: string, r: Rule, o: Observation) {
    if exists s :: s in table && Selected(r, key, s) then
      && o.applicable
      && (exists s :: s in table && Selected(r, key, s) && table[s].lastAt == o.at)
      && forall s :: s in table && Selected(r, key, s) ==> table[s].lastAt <= o.at
    else o == Observation(0, false)
  }

  method MaxQuery(table: Table, key: string, r: Rule) returns (o: Observation)
    ensures IsMaxQuery(table, key, r, o)
  {
    var left := table.Keys;
    var at, found := 0, false;
    while left != {}
      invariant left <= table.Keys
      invariant found <==> exists s :: s in table && s !in left && Selected(r, key, s)
      invariant !found ==> at == 0
      invariant found ==> exists s :: s in table && s !in left && Selected(r, key, s) && table[s].lastAt == at
      invariant forall s :: s in table && s !in left && Selected(r, key, s) ==> table[s].lastAt <= at
      decreases left
    {
      var s :| s in left;
      left := left - {s};
      if Selected(r, key, s) {
        if !found || table[s].lastAt > at {
          at := table[s].lastAt;
        }
        found := true;
      }
    }
    o := Observation(at, found);
  }

  /** What the seeding statement reads. A target the table has never had is None. */
  ghost predicate IsSeedObservation(r: Rule, target: Target, inTable: bool, table: Table, key: string, o: Observation) {
    match r.source
    case Seen => o == if inTable then Observation(target.lastSeen, true) else Observation(0, false)
    case Relayed => o == if inTable then Observation(target.lastRelayed, target.everRelayed != 0)
      else Observation(0, false)
    case Packets => o == if inTable then Observation(target.lastPacket, target.lastPacket != 0)
      else Observation(0, false)
    case Types => if r.types == [] then o == Observation(0, false) else IsMaxQuery(table, key, r, o)
    case OtherSource => o == Observation(0, false)
  }

  // ----------------------------------------------------------- the two agree --

  /** s is one of the rows that group a gathers. */
  predicate Backs(table: Table, key: string, a: Activity, s: Slot) {
    s in table && s.key == key && s.typ == a.typ && s.dir == a.dir
  }

  ghost predicate IsGroup(table: Table, key: string, a: Activity) {
    && (exists s :: Backs(table, key, a, s) && table[s].lastAt == a.lastAt)
    && forall s :: Backs(table, key, a, s) ==> table[s].lastAt <= a.lastAt
  }

  ghost predicate HasGroup(acts: seq<Activity>, s: Slot) {
    exists i :: 0 <= i < |acts| && acts[i].typ == s.typ && acts[i].dir == s.dir
  }

  /** acts is one key's share of the table grouped by type and direction, in any order. */
  ghost predicate IsGrouped(table: Table, key: string, acts: seq<Activity>) {
    && (forall i :: 0 <= i < |acts| ==> IsGroup(table, key, acts[i]))
    && (forall s :: s in table && s.key == key ==> HasGroup(acts, s))
  }

  lemma {:induction false} LatestUnfound(r: Rule, acts: seq<Activity>, n: nat)
    requires n <= |acts|
    ensures !Latest(r, acts, n).applicable ==> Latest(r, acts, n).at == 0
  {
    if n > 0 {
      LatestUnfound(r, acts, n - 1);
    }
  }

  lemma {:induction false} LatestWanted(r: Rule, acts: seq<Activity>, n: nat) returns (i: nat)
    requires n <= |acts| && Latest(r, acts, n).applicable
    ensures i < n && Wanted(r, acts[i])
  {
    if Wanted(r, acts[n - 1]) {
      i := n - 1;
    } else {
      i := LatestWanted(r, acts, n - 1);
    }
  }

  /** Rows are only written with a real time. */
  predicate TimesAreReal(table: Table) {
    forall s :: s in table ==> table[s].lastAt > 0
  }

  lemma GroupFor(table: Table, key: string, acts: seq<Activity>, r: Rule, s: Slot) returns (i: nat)
    requires IsGrouped(table, key, acts)
    requires s in table && Selected(r, key, s)
    ensures i < |acts| && Wanted(r, acts[i]) && table[s].lastAt <= acts[i].lastAt
  {
    hide IsGroup;
    assert HasGroup(acts, s);
    i :| 0 <= i < |acts| && acts[i].typ == s.typ && acts[i].dir == s.dir;
    GroupBounds(table, key, acts[i], s);
  }

  lemma GroupBounds(table: Table, key: string, a: Activity, s: Slot)
    requires IsGroup(table, key, a) && Backs(table, key, a, s)
    ensures table[s].lastAt <= a.lastAt
  {
  }

  lemma RowFor(table: Table, key: string, a: Activity, r: Rule) returns (s: Slot)
    requires IsGroup(table, key, a) && Wanted(r, a)
    ensures s in table && Selected(r, key, s) && table[s].lastAt == a.lastAt
  {
    s :| Backs(table, key, a, s) && table[s].lastAt == a.lastAt;
  }

  lemma MaxAttained(table: Table, key: string, r: Rule, o: Observation) returns (s: Slot)
    requires IsMaxQuery(table, key, r, o) && o.applicable
    ensures s in table && Selected(r, key, s) && table[s].lastAt == o.at
  {
    s :| s in table && Selected(r, key, s) && table[s].lastAt == o.at;
  }

  lemma MaxUnfound(table: Table, key: string, r: Rule, o: Observation)
    requires IsMaxQuery(table, key, r, o)
    ensures !o.applicable ==> o.at == 0
  {
  }

  lemma MaxBounds(table: Table, key: string, r: Rule, o: Observation, s: Slot)
    requires IsMaxQuery(table, key, r, o) && s in table && Selected(r, key, s)
    ensures o.applicable && table[s].lastAt <= o.at
  {
  }

  lemma {:induction false} LatestAttained(r: Rule, acts: seq<Activity>, n: nat) returns (i: nat)
    requires n <= |acts| && Latest(r, acts, n).applicable && Latest(r, acts, n).at > 0
    ensures i < n && Wanted(r, acts[i]) && acts[i].lastAt == Latest(r, acts, n).at
  {
    if Wanted(r, acts[n - 1]) && acts[n - 1].lastAt == Latest(r, acts, n).at {
      i := n - 1;
    } else {
      LatestUnfound(r, acts, n - 1);
      i := LatestAttained(r, acts, n - 1);
    }
  }

  lemma {:induction false} LatestBounds(r: Rule, acts: seq<Activity>, n: nat, i: nat)
    requires i < n <= |acts| && Wanted(r, acts[i])
    ensures Latest(r, acts, n).applicable && acts[i].lastAt <= Latest(r, acts, n).at
  {
    if i < n - 1 {
      LatestBounds(r, acts, n - 1, i);
    }
  }

  lemma GroupOf(table: Table, key: string, acts: seq<Activity>, i: nat)
    requires IsGrouped(table, key, acts) && i < |acts|
    ensures IsGroup(table, key, acts[i])
  {
  }

  /** The one MAX query of creation and the per-poll loop over grouped rows see the same
      thing, whatever types and direction the rule takes. */
  lemma QueryIsLoop(r: Rule, table: Table, key: string, acts: seq<Activity>, o: Observation)
    requires IsGrouped(table, key, acts) && TimesAreReal(table)
    requires IsMaxQuery(table, key, r, o)
    ensures o == Latest(r, acts, |acts|)
  {
    hide IsGrouped, IsGroup, IsMaxQuery, Wanted, Selected, Latest;
    var l := Latest(r, acts, |acts|);
    LatestUnfound(r, acts, |acts|);
    MaxUnfound(table, key, r, o);
    if l.applicable {
      var j := LatestWanted(r, acts, |acts|);
      GroupOf(table, key, acts, j);
      var s := RowFor(table, key, acts[j], r);
      MaxBounds(table, key, r, o, s);
    }
    if o.applicable {
      var s := MaxAttained(table, key, r, o);
      var i := GroupFor(table, key, acts, r, s);
      LatestBounds(r, acts, |acts|, i);
      var j := LatestAttained(r, acts, |acts|);
      GroupOf(table, key, acts, j);
      var s' := RowFor(table, key, acts[j], r);
      MaxBounds(table, key, r, o, s');
    }
  }

  // ------------------------------------------------------- the targets table --

  function MaxTime(a: Time, b: Time): Time { if b > a then b else a }

  /** One target's row after a poll's observation of it. */
  function Upserted(prev: Target, o: TargetObs): Target {
    var relayed := MaxTime(prev.lastRelayed, o.lastRelayed);
    Target(MaxTime(prev.lastSeen, o.lastSeen), relayed,
           if prev.everRelayed == 0 && relayed != 0 then relayed else prev.everRelayed,
           MaxTime(prev.lastPacket, o.lastPacket))
  }

  /** The sticky flag says no more than that something was ever relayed. */
  predicate EverIsSound(t: Target) {
    t.everRelayed != 0 <==> t.lastRelayed != 0
  }

  lemma UpsertKeepsEverSound(prev: Target, o: TargetObs)
    requires EverIsSound(prev)
    ensures EverIsSound(Upserted(prev, o))
  {
  }

  /** Timestamps in the table only move forward, but a poll judges the snapshot: the
      two agree on what "last seen" is exactly when the snapshot did not go back. What
      comes of it when it did is in StaleFeed. */
  lemma PollSeesTableExactlyWhenForward(
    prev: Target, obs: TargetObs, r: Rule, o: Observation, table: Table, key: string, acts: seq<Activity>)
    requires r.source in {Seen, Relayed, Packets} && EverIsSound(prev)
    requires IsSeedObservation(r, Upserted(prev, obs), true, table, key, o)
    ensures o == RuleObservation(r, Present(obs), acts)
       <==> match r.source
            case Seen => prev.lastSeen <= obs.lastSeen
            case Relayed => prev.lastRelayed <= obs.lastRelayed
            case _ => prev.lastPacket <= obs.lastPacket
  {
    UpsertKeepsEverSound(prev, obs);
  }

  // ----------------------------------------------------------------- seeding --

  const HOUR := 3600

  function Threshold(r: Rule): int { r.thresholdHours * HOUR }

  /** The state row a new rule is inserted with. */
  function SeededState(r: Rule, now: Time, o: Observation): WatchState {
    var st := if o.applicable && o.at != 0 then (if now - o.at >= Threshold(r) then Alerting else OK) else Unknown;
    WatchState(r.watchID, r.id, st, now, 0, o.at, if st == Alerting then now else 0, 0, 0, st == Alerting)
  }

  /** The state a poll works from when a rule has no row. */
  function NoRow(r: Rule, now: Time): WatchState {
    WatchState(r.watchID, r.id, Unknown, now, 0, 0, 0, 0, 0, false)
  }

  /** A poll whose snapshot says of a target what the table says. */
  function SnapshotOf(target: Target, inTable: bool): Known {
    if inTable then Present(TargetObs(target.lastSeen, target.lastRelayed, target.lastPacket)) else Absent
  }

  /** Creating a rule leaves it exactly where its first poll would have, had it been
      created without a state and polled at that moment, whatever the owner's
      preferences and the confirmation setting. */
  lemma SeedingIsAdoption(r: Rule, now: Time, table: Table, key: string, acts: seq<Activity>, target: Target,
    inTable: bool,
                          o: Observation, prefs: Prefs, pol: Policy)
    requires IsGrouped(table, key, acts) && TimesAreReal(table)
    requires EverIsSound(target)
    requires IsSeedObservation(r, target, inTable, table, key, o)
    ensures var seen := RuleObservation(r, SnapshotOf(target, inTable), acts);
            SeededState(r, now, o) == Evaluate(now, seen, NoRow(r, now), Threshold(r), prefs, pol).state
    ensures FreshlySeeded(SeededState(r, now, o))
  {
    var seen := RuleObservation(r, SnapshotOf(target, inTable), acts);
    assert o == seen by {
      hide Evaluate, Latest;
      SeedSeesWhatAPollSees(r, table, key, acts, target, inTable, o);
    }
    hide IsGrouped, IsSeedObservation, RuleObservation;
  }

  lemma SeedSeesWhatAPollSees(
    r: Rule, table: Table, key: string, acts: seq<Activity>, target: Target, inTable: bool, o: Observation)
    requires IsGrouped(table, key, acts) && TimesAreReal(table)
    requires EverIsSound(target)
    requires IsSeedObservation(r, target, inTable, table, key, o)
    ensures o == RuleObservation(r, SnapshotOf(target, inTable), acts)
  {
    hide IsGrouped;
    if r.source == Types {
      if r.types == [] {
        if Latest(r, acts, |acts|).applicable {
          var i := LatestWanted(r, acts, |acts|);
        }
        LatestUnfound(r, acts, |acts|);
      } else {
        QueryIsLoop(r, table, key, acts, o);
      }
    }
  }
}
