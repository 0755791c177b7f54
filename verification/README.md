# HopReact: verified model

HopReact polls a mesh network's public feed and tells people on Discord when their
radio node has gone quiet or its battery is low. This project models the parts that
decide, and proves what they keep over every run.

| file | models |
|---|---|
| `QuietAlert.dfy` | the five-state quiet-node machine (`internal/alert/alert.go`) |
| `FeedGuard.dfy`, `FrozenFeed.dfy` | which polls are believed, the poll log and the alert breaker; runs of a feed that does not move |
| `RuleEvidence.dfy`, `StaleFeed.dfy` | what a rule sees at a poll and at its creation; what a stale snapshot does to it |
| `Evaluation.dfy`, `EvaluationRuns.dfy`, `EvaluationBalance.dfy`, `EvaluationTelling.dfy` | one evaluation of every rule with its transaction; histories of them; what watchers are told over them, and by each |
| `BatteryMachine.dfy` | the battery machine (`internal/alert/battery.go`) |
| `BatteryStore.dfy`, `BatteryCheck.dfy`, `BatteryRace.dfy`, `BatteryOwners.dfy`, `BatteryEffects.dfy` | the battery tables, the long-running check, the check interleaved with owners' edits, which of those edits win, and what a check does to each watch |
| `Attribution.dfy` | the prefix index and what a packet proves |
| `Ingest.dfy`, `IngestRuns.dfy`, `IngestEffects.dfy` | folding the packet feed behind the range already counted; histories of it; what one poll records |
| `Outbox.dfy`, `OutboxRuns.dfy` | the outbox drainer; the fate of a message over any drains |
| `MessageText.dfy` | cutting a message to length |
| `TheilSen.dfy`, `OddPoint.dfy`, `BatteryTrend.dfy`, `TrendVerdicts.dfy` | the battery trend and its estimates; which readings earn which verdict |
| `Region.dfy` | ray casting over region rings |
| `SunPhases.dfy`, `SunTruth.dfy` | crossings, days and phases for an arbitrary sun; when the phases tell the truth |
| `Ledger.dfy`, `LedgerDays.dfy`, `Forecast.dfy`, `ForecastDays.dfy` | the sunrise-to-sunrise ledger, the break-even line and the forecast, and what each of their figures is |
| `Grouping.dfy` | grouping keyed items in order, as the poller and the notifier both do |
| `Sorting.dfy`, `Counting.dfy`, `Reals.dfy`, `Sets.dfy`, `Options.dfy` | the library's sort, and what the others share |

Code that changes state is a class or a method, each tied by its `ensures` to a function
of the state before; the lemmas are about those functions. Tables are maps or sequences,
a transaction is one method, and a fetch, a send, the clock, the sun's height, the set
of hours too cold to charge and the square root are arbitrary inputs. `float64` is
`real`. Times are integers with 0 as "no time": seconds in the alerting, ingestion and
outbox models, nanoseconds in the trend, sun and ledger models.

## What does not hold

Seven things the code or its comments promise turned out false. Each has a concrete input
and an exact condition.

- "You never announce recovery from an alert nobody was told about" fails across a gap in
  the feed, where the count of announcements outlives the episode it counted
  (`RecoveryOfAnUntoldAlert`). `RecoveryToldExactlyWhen` gives the exact condition for an
  alert that was entered; for one a rule was created or adopted in the promise holds
  (`AdoptedAlertIsSilent`).
- "A change its owner made during the check wins" fails where the change touches neither
  the alert state, which is all the compare-and-set looks at, nor the rule's being there:
  an overcharge alert switched off (`SwitchedOffStillAnnounced`), a low level lowered
  (`LoweredLevelStillAnnounced`) or a watch muted (`MutedStillAnnounced`) mid-check is
  still announced. A rule or watch removed does win, and so does any change that leaves
  the level pointed to and the telling alike: `OwnersChangeWinsExactlyWhen` gives the exact
  condition for a save that lands, before the breaker withholds anything.
- A frozen feed, "treat the data as stale and don't evaluate", is believed again a week
  after the last accepted poll with nodes (`FrozenFeedIsBelievedAgain`), and so at most
  once a week (`BelievedAtMostOnceAWeek`). `PastTheLimitBelievedExactlyWhen` gives the
  exact condition over runs. A limit above 20 polls never fires at all
  (`LimitOutOfReachNeverFires`), because only 20 rows are counted (`FrozenExactlyWhen`).
- "For this many consecutive polls", "including this one", is one poll more: the poll in
  progress is not counted, so at the default limit of two the second poll in which nothing
  advances is still believed (`SecondStuckPollIsBelieved`). `OnePollMoreExactlyWhen` gives
  the exact condition.
- "UpsertTargets is monotonic so a stale view cannot damage anything"
  (`internal/poller/poller.go:120`) fails because a poll judges the snapshot and not the
  table: stale snapshots raise an alert for a node the table knows was just heard
  (`StaleSnapshotsRaiseAnAlert`). `VerdictsDifferExactlyWhen` and `FalseAlertExactlyWhen`
  give the exact conditions.
- "One odd day cannot swing it" is said of a slope that is fitted from three nights on.
  Among three or four nights a first or last odd one does swing the median, and only such
  a one (`OddPointSwingsExactlyWhen`, `FourDaysAreNotEnough`).
- Phases "with no gaps" from a moment inside a second may begin before it
  (`SpansMayBeginEarly`). `SpansPartition` gives the exact condition.

## Model

| member | source | states |
|---|---|---|
| QuietAlert.TimesFollowTheState | internal/alert/alert.go:104-249 | since, last observed, last notified, alerting-since and seeded after every step, each by what the step did to the state |
| QuietAlert.CountFollowsTheState | internal/alert/alert.go:131-249 | the count of announcements after every step: one more with an alert, none after a return or a silent adoption, else kept |
| QuietAlert.OutcomeSaysWhatHappened | internal/alert/alert.go:104-249 | when an outcome says changed, entering, notifying and timestamp moved |
| QuietAlert.OverRunMeaning | internal/alert/alert.go:166-181 | the run counted toward an alert is the longest suffix of polls that were all applicable and over threshold |
| QuietAlert.UnderRunMeaning | internal/alert/alert.go:183-209 | likewise for polls applicable and under threshold |
| QuietAlert.CounterIsRunLength | internal/alert/alert.go:104-212 | in every run from a freshly seeded state, the stored counter is the length of the trailing run it stands for, and is 0 in ok, alerting and unknown |
| QuietAlert.UnknownExactlyWithoutEvidence | internal/alert/alert.go:118-125 | a poll leaves a rule of any known state unknown if and only if it has no evidence, and says nothing then |
| QuietAlert.FirstEvidenceIsAdopted | internal/alert/alert.go:131-145 | the first evidence after a gap is adopted in silence: an outage as a seeded alert, anything else as ok |
| QuietAlert.PollsDecideTheState | internal/alert/alert.go:104-212 | at every point of every run the state is a function of the seeding and the polls alone, stated without the machine |
| QuietAlert.HealthyExactlyWhen | internal/alert/alert.go:131-212 | the signal stands healthy if and only if it was once found so with neither a gap nor a confirmed outage since |
| QuietAlert.QuietExactlyWhen | internal/alert/alert.go:131-212 | it stands quiet if and only if it was once found so with neither a gap nor a confirmed return since |
| QuietAlert.EntersAfterConfirmedOutage | internal/alert/alert.go:104-229 | a rule enters alert at a poll if and only if the last ConfirmPolls polls were all applicable and over, and before them the signal had been found healthy (seeded so, by the first evidence after a gap, or by a confirmed return) with no gap and no confirmed outage since |
| QuietAlert.AlertNeedsHealthyEvidence | internal/alert/alert.go:118-145 | so an alert needs evidence under the threshold, or a seeding in ok, after the last gap |
| QuietAlert.RecoversAfterConfirmedReturn | internal/alert/alert.go:183-249 | a rule comes back if and only if the last ConfirmPolls polls were all applicable and under, and before them the signal had been found quiet with no gap and no confirmed return since; when that is announced |
| QuietAlert.StepBalance | internal/alert/alert.go:104-249 | one step: a recovery announced plus the count still owed is at most an alert announced plus the count owed before |
| QuietAlert.MessageBalance | internal/alert/alert.go:104-249 | over any stretch of any run from any state: recoveries announced plus the count owed at the end are at most alerts announced plus the count owed at the start |
| QuietAlert.RecoveriesNeverOutnumberAlerts | internal/alert/alert.go:231-249 | in every prefix from a seeded state, recovered messages are at most alert messages |
| QuietAlert.SentSomewhere | internal/alert/alert.go:104-249 | a positive count of messages in a stretch has a poll that sent one |
| QuietAlert.AlertBetweenRecoveries | internal/alert/alert.go:231-249 | two recoveries always have an alert between them, from any state |
| QuietAlert.OutageSendsOneAlert | internal/alert/alert.go:166-229 | an unmuted unbroken outage of any length from ok sends one message, at the poll that confirms it |
| QuietAlert.ReturnSendsOneRecovery | internal/alert/alert.go:183-249 | an unbroken return from an announced alert sends one recovery, at the poll that confirms it |
| QuietAlert.CountHeldDuringEpisode | internal/alert/alert.go:214-229 | while an episode lasts the count of announcements stays what entering it left |
| QuietAlert.RecoveryToldExactlyWhen | internal/alert/alert.go:231-249 | exactly when the end of an alert that was entered is announced |
| QuietAlert.AdoptedAlertIsSilent | internal/alert/alert.go:25-27 | of an alert a rule was created or adopted in nobody is ever told anything, its end included, whatever was announced before |
| QuietAlert.RecoveryOfAnUntoldAlert | internal/alert/alert.go:115-145 | a run in which a recovery is announced for an outage nobody was told of |
| QuietAlert.OneStepIgnoresPreferences | internal/alert/alert.go:87-97 | one evaluation under two sets of preferences decides and keeps the same but for messages |
| QuietAlert.PreferencesNeverMoveState | internal/alert/alert.go:87-97 | two runs over the same evidence with any two preference sequences agree on state, timers, Seeded, Changed and Entering |
| QuietAlert.SettledIsKept | internal/alert/alert.go:104-249 | ok, alerting and unknown hold a zero counter after every step |
| QuietAlert.SavedExactlyWhenDifferent | internal/poller/poller.go:443-455 | from a settled state an outcome is saved if and only if it differs from the stored row |
| QuietAlert.UnsettledStateWouldLoseACount | internal/poller/poller.go:443-455 | without that invariant a skipped save would lose a count |
| FeedGuard.PollLog.StartPollRun | internal/store/queries.go:1058-1071 | a poll in progress is a failed row |
| FeedGuard.PollLog.FinishPollRun | internal/store/queries.go:1073-1084 | its row is replaced by its result and no other row changes |
| FeedGuard.PollLog.ConsecutiveNonAdvancingPolls | internal/store/queries.go:1194-1213 | the loop returns the leading non-advancing rows among the newest 20 that were fetched |
| FeedGuard.PollLog.PollOnce | internal/poller/poller.go:153-185 | one poll adds the row its verdict says, judged from the log before it |
| FeedGuard.LeadingIsStreak | internal/store/queries.go:1194-1213 | scanning newest first finds the streak that a definition over the whole log gives |
| FeedGuard.LeadingOfPrefix | internal/store/queries.go:1196-1206 | reading only some rows caps the streak at their number |
| FeedGuard.InProgressRowIsInvisible | internal/store/queries.go:1058-1064 | the row of the poll in progress counts toward neither figure |
| FeedGuard.PeakIsAttained | internal/store/queries.go:1178-1190 | the peak is the largest node count of an accepted poll in the window |
| FeedGuard.AcceptedExactlyWhen | internal/alert/alert.go:288-314 | a fetched feed is believed if and only if it has enough nodes, is no more than a rounding below the share of the peak, and is not frozen |
| FeedGuard.FrozenExactlyWhen | internal/alert/alert.go:288-314 | a fetched, big enough feed is called frozen if and only if an accepted poll with nodes lies within the week, nothing advanced and the streak before it reached the limit, which is at most 20 |
| FeedGuard.StreakCountsArrivals | internal/store/queries.go:1194-1213 | while nothing advances the streak is the number of fetched polls; failed polls neither break nor extend it |
| FeedGuard.FrozenFeedIsBelievedAtMost | internal/poller/poller.go:153-185 | while a baseline exists and the limit K is at most 20, a frozen feed has at most K polls accepted, and later ones are suspect until something advances |
| FeedGuard.FrozenFeedBelievedWithoutBaseline | internal/store/queries.go:1178-1190 | with no accepted poll with nodes within the week, a poll is accepted if and only if it has nodes enough |
| FrozenFeed.BaselineIsARecentPoll | internal/store/queries.go:1178-1190 | over runs, there is a baseline if and only if the log began with one or an accepted poll with nodes lies within the week |
| FrozenFeed.PastTheLimitBelievedExactlyWhen | internal/alert/alert.go:304-313 | past the limit a poll of a frozen feed is believed if and only if it has nodes enough and no accepted poll with nodes lies in the seven days before it |
| FrozenFeed.BelievedAtMostOnceAWeek | internal/poller/poller.go:153-185 | so two believed polls of it, the later past the limit, are more than a week apart |
| FrozenFeed.FrozenFeedIsBelievedAgain | internal/poller/poller.go:153-185 | a run in which a feed called frozen, and not moved since, is believed a week later |
| FrozenFeed.OnePollMoreExactlyWhen | internal/config/config.go:212-217 | such a poll is believed while the streak before it is below the limit, one poll more than the streak with it counted in |
| FrozenFeed.SecondStuckPollIsBelieved | internal/alert/alert.go:269-271 | at the default limit the second stuck poll is believed |
| FrozenFeed.LimitOutOfReachNeverFires | internal/store/queries.go:1194-1206 | with a limit of 21, a feed that has stood still for any number of polls is believed once more |
| FeedGuard.UntrippedExactlyWhenWithinLimits | internal/alert/alert.go:342-358 | the breaker lets a number of new alerts through if and only if it is within MaxPerPoll and, from 20 signals on, within MaxFraction of them |
| RuleEvidence.ObserveRule | internal/poller/poller.go:523-565 | the per-poll branches and loop compute the observation |
| RuleEvidence.MaxQuery | internal/store/queries.go:562-581 | the newest row that the creation query selects, or none |
| RuleEvidence.QueryIsLoop | internal/store/queries.go:545-581 | the creation query sees what the loop over grouped rows sees, whatever types and direction the rule takes |
| RuleEvidence.PollSeesTableExactlyWhenForward | internal/store/queries.go:216-230 | the stored timestamp is the snapshot's own if and only if the snapshot did not go back |
| RuleEvidence.SeedSeesWhatAPollSees | internal/store/queries.go:511-557 | the observation used at creation is the one a poll of the same evidence makes |
| RuleEvidence.SeedingIsAdoption | internal/store/queries.go:462-502 | a rule seeded at creation is the state Evaluate adopts from unknown at that time, whatever the preferences |
| StaleFeed.VerdictsDifferExactlyWhen | internal/poller/poller.go:117-127 | a poll's verdict on its snapshot and on the table differ if and only if the snapshot went back, to nothing or from under the threshold to over it |
| StaleFeed.RowRemembers | internal/store/queries.go:216-230 | in every history the row holds at least every timestamp seen |
| StaleFeed.FalseAlertExactlyWhen | internal/store/migrations/0001_init.sql:47-49 | over whole runs, a rule enters alert while its own row is under threshold if and only if the snapshots had found it healthy, the last ConfirmPolls of them had it over, and the row before the last of them was under |
| StaleFeed.StaleSnapshotsRaiseAnAlert | internal/poller/poller.go:367-371 | three stale snapshots raise and announce an alert while the row is under threshold at every poll |
| Grouping.KeysAreTheItemsKeys | internal/notify/notify.go:75-82 | a group exists for a key if and only if some item has it, and is not empty |
| Grouping.KeysAreDistinct | internal/notify/notify.go:75-82 | one group for each key |
| Grouping.ItemHasItsOwnPlace | internal/notify/notify.go:75-82 | each item is in its own group at a place no other has, in order |
| Grouping.GroupsPartition | internal/notify/notify.go:75-82 | the groups hold as many items as there were |
| Grouping.KeysInOrderOfAppearance | internal/poller/poller.go:434-482 | groups come in order of first appearance |
| Grouping.Put | internal/poller/poller.go:466-483 | one turn of a grouping loop extends the groups by one item |
| Evaluation.Poller.Planning | internal/poller/poller.go:384-409 | the nested loops plan every rule of every watch from what was read, and count those entering |
| Evaluation.Poller.EvaluateAll | internal/poller/poller.go:343-510 | the whole effect of an evaluation on states, events and outbox, and none when tripped |
| Evaluation.Poller.Commit | internal/poller/poller.go:441-504 | the transaction's effect: saves, events and grouped messages |
| EvaluationRuns.MessagesPartitionOutcomes | internal/poller/poller.go:463-502 | the messages of an evaluation partition its notifying outcomes; at most one for each watch and direction |
| EvaluationRuns.ListedInPlanOrder | internal/poller/poller.go:466-487 | two outcomes for one message are listed in it, the earlier planned first |
| EvaluationRuns.EvaluationIsLimited | internal/poller/poller.go:411-428 | tripped changes nothing; otherwise alert messages are at most the rules entering, which are within both limits |
| EvaluationRuns.PlanIsFromRows | internal/poller/poller.go:384-409 | each planned outcome is one step from its own stored row, no row twice |
| EvaluationRuns.SkippedSavesLoseNothing | internal/poller/poller.go:442-455 | one transaction's saves leave the rows that saving every outcome would |
| EvaluationRuns.EveryRowFits | internal/poller/poller.go:441-462 | on every reachable database each row is its key's own, in a known state and with counter 0 in ok, alerting and unknown; assumed only of the first database and proved of created rows |
| EvaluationRuns.SavingLessLosesNothing | internal/poller/poller.go:441-462 | in every history the database is the one that saving every outcome would leave |
| EvaluationRuns.EventsLinkOneEvaluation | internal/poller/poller.go:458-462 | one evaluation's events lead each rule from its stored state to its new one |
| EvaluationRuns.LogReplaysToStoredState | internal/store/queries.go:1290-1297 | from any moment, replaying a rule's events is an unbroken chain that ends in its stored state |
| EvaluationRuns.LogReplaysFromSeed | internal/store/queries.go:462-502 | and from a rule's creation on, starting at the state it was seeded in |
| EvaluationRuns.EvaluationIgnoresPreferences | internal/poller/poller.go:384-428 | preferences change neither the breaker's decision nor the states an evaluation leaves |
| EvaluationRuns.PreferencesNeverMoveTheSystem | internal/poller/poller.go:343-510 | whole histories that differ in preferences only agree on every breaker decision and state |
| EvaluationBalance.GroupCounts | internal/poller/poller.go:466-487 | a message lists a rule as often as its watch and direction had outcomes of it to tell |
| EvaluationBalance.AllMessagesCount | internal/poller/poller.go:490-502 | all messages of an evaluation list a rule as often as it had outcomes to tell |
| EvaluationBalance.RecoveredNeverOutnumberAlerts | internal/poller/poller.go:343-510 | in every history, breaker trips and edits included, each rule is listed in recovered messages no more often than in alert messages, recoveries still owed counted in |
| EvaluationBalance.TripsAgain | internal/poller/poller.go:411-428 | a tripped evaluation saves nothing, so it trips again at every following poll while the rules about to enter alert stay over |
| EvaluationTelling.RowAfter | internal/poller/poller.go:391-409 | an untripped evaluation leaves each rule the row that one step from its own stored row leads to |
| EvaluationTelling.EvidenceDecides | internal/poller/poller.go:391-403 | from stored row to stored row: unknown if and only if there is no evidence, and never moved against evidence judged by the rule's own hours |
| EvaluationTelling.SnapshotIsRead | internal/poller/poller.go:374-386 | a rule on what the feed says sees the snapshot's last entry for its target, or nothing; that entry names the target in messages, or else the owner's label does |
| EvaluationTelling.ActivityIsRead | internal/poller/poller.go:540-562 | a rule on packets sees the latest activity of its key of its types and direction |
| EvaluationTelling.MessagesRespectTheWatch | internal/poller/poller.go:387-402 | a message goes to the watch's own user about its own target, never to a muted watch, and of a recovery only where those are wanted |
| EvaluationTelling.ToldExactlyWhen | internal/poller/poller.go:463-502 | of each rule an untripped evaluation tells exactly what its stored row went through: an alert entered, or the end of an announced one, when unmuted and wanted |
| EvaluationTelling.LoggedExactlyWhen | internal/poller/poller.go:457-462 | it logs one event for a rule if and only if its state moved or is being confirmed, from and to the stored states, with whether its owner was told |
| EvaluationTelling.RowlessRuleIsNew | internal/poller/poller.go:394-398 | a rule without a row is judged in silence as one created at this poll |
| BatteryMachine.HigherIsNeverLower | internal/alert/battery.go:78-98 | a higher voltage is never classed lower, whatever level is held |
| BatteryMachine.SameReadingSettles | internal/alert/battery.go:78-98 | a reading judged again from the level it led to leads to that level |
| BatteryMachine.LeavingTakesTheMargin | internal/alert/battery.go:74-98 | exactly which readings lead to which level from every level: each is entered at its own threshold and left only past it by the margin |
| BatteryMachine.MessageExactlyWhen | internal/alert/battery.go:166-197 | which message each confirmed change sends, and that nothing else sends one |
| BatteryMachine.SameRunIsEquivalence | internal/alert/battery.go:100-105 | "same way" is an equivalence |
| BatteryMachine.RunTowardMeaning | internal/alert/battery.go:138-160 | the run toward a level is the longest suffix of targets all against the held level and all that way |
| BatteryMachine.TrailingRunMeaning | internal/alert/battery.go:138-160 | the trailing run is the longest suffix that disagrees with the held level in one direction |
| BatteryMachine.CounterIsRunLength | internal/alert/battery.go:112-171 | CandidateCount is that run's length in every history |
| BatteryMachine.LevelChangesExactlyWhenRunCompletes | internal/alert/battery.go:138-171 | a known level changes if and only if the battery is gone or the run of distinct newer readings reaches ConfirmReadings |
| BatteryMachine.RepeatedReadingsChangeNothing | internal/alert/battery.go:112-136 | deleting repeated or older readings from any history changes no state and no message |
| BatteryMachine.LeavingIsForGood | internal/alert/battery.go:78-98 | within a band narrower than the margin, a reading that leaves a level puts it out of reach |
| BatteryMachine.GoneStaysGone | internal/alert/battery.go:78-98 | and it stays out of reach whichever level is held next |
| BatteryMachine.NarrowBandNeverReturns | internal/alert/battery.go:112-198 | readings in such a band never bring a battery back to a level it left |
| BatteryMachine.AtMostThreeChanges | internal/alert/battery.go:112-198 | after adoption such a band makes at most three level changes, however long |
| BatteryMachine.ThreeChangesHappen | internal/alert/battery.go:112-198 | three can happen |
| BatteryMachine.OneStepIgnoresPreferences | internal/alert/battery.go:112-198 | one evaluation under two sets of preferences agrees on all but what is announced |
| BatteryMachine.PreferencesNeverMoveLevels | internal/alert/battery.go:112-198 | histories that differ in preferences only agree on level, candidate, count and times |
| BatteryMachine.AnnouncementIsRemembered | internal/alert/battery.go:172-197 | what is remembered as announced after every step: the level of an alert that was sent, nothing after a known level turns ok or the battery is gone, else what was remembered |
| BatteryMachine.TimesFollowTheLevel | internal/alert/battery.go:112-198 | since, last reading and stored voltage after every step, and what needs saving |
| BatteryMachine.RecoveryPaysADebt | internal/alert/battery.go:172-197 | a recovery is announced only for an announcement not yet recovered; an announced alert is owed one |
| BatteryMachine.UnbrokenRunTurnsOnce | internal/alert/battery.go:138-197 | an unbroken run of new readings one way turns the level once and speaks once, at the reading that confirms it, however long it goes on |
| BatteryMachine.DropSendsOneAlert | internal/alert/battery.go:166-195 | a healthy battery that turns for good is announced exactly once, and the announcement remembered |
| BatteryMachine.ReturnSendsOneRecovery | internal/alert/battery.go:184-195 | after an announced alert an unbroken return to ok sends exactly one recovery, at the reading that confirms it |
| BatteryMachine.LastVoltageIsNotJudged | internal/alert/battery.go:112-198 | the stored voltage never decides anything |
| BatteryMachine.FirstPositive | internal/alert/battery.go:212-219 | the loop picks the first positive value, or 0 |
| BatteryMachine.LevelsComeInOrder | internal/alert/battery.go:210-228 | levels are the rule's own, else the site's, else CoreScope's, else the defaults; overcharge only when switched on |
| BatteryStore.Store.InsertBatteryRuleTx | internal/store/battery.go:121-141 | the rule is added and the owner's choice recorded |
| BatteryStore.Store.SaveBatteryStateTx | internal/store/battery.go:147-162 | the state is written if and only if the stored one is the state it was computed from, settings untouched |
| BatteryStore.Store.InsertAutoBatteryRuleTx | internal/store/battery.go:167-180 | a rule is added by itself if and only if nobody chose, none exists and the owner wants it |
| BatteryStore.Store.AddBatteryRule | internal/store/battery.go:198-206 | an owner's add, or nothing when the watch is not theirs |
| BatteryStore.Store.DeleteBatteryRule | internal/store/battery.go:210-223 | an owner's removal, which is a choice too |
| BatteryStore.Store.UpdateBatteryLevels | internal/store/battery.go:232-256 | an owner's edit of levels, resetting what a changed level makes stale |
| BatteryStore.Store.SetAutoBattery | internal/store/battery.go:260-263 | the owner's automatic-adding switch |
| BatteryStore.Store.RemoveWatch | internal/store/queries.go:583-594 | the watch goes with its rule |
| BatteryStore.Store.Apply | internal/store/battery.go:198-263 | any operation of an owner, mutes and preferences included, does what its specification says |
| BatteryCheck.Check.CheckBatteries | internal/poller/battery.go:102-385 | a whole check nobody interrupts writes what one moment's view of the tables and the fetched reports decide |
| BatteryCheck.Check.KeysToFetch | internal/poller/battery.go:127-142 | exactly the repeaters someone has a rule on, or might be given one |
| BatteryCheck.Check.TakeReports | internal/poller/battery.go:168-193 | the latest successful report for each key; a failed fetch leaves none |
| BatteryCheck.Check.DecideAll | internal/poller/battery.go:223-306 | plans and additions of every watch, with the breaker applied in place |
| BatteryCheck.Check.Withhold | internal/poller/battery.go:298-305 | each plan that would alert stays silent and unannounced, the rest stand |
| BatteryCheck.Check.Write | internal/poller/battery.go:308-378 | the transaction's whole effect |
| BatteryCheck.Check.InsertAdditions | internal/poller/battery.go:310-329 | rules that may still be added, grouped by unmuted owner |
| BatteryCheck.Check.SavePlan | internal/poller/battery.go:330-362 | a save that lands records its event and message; one that does not leaves no trace |
| BatteryRace.RecoveriesNeverOutnumberAlerts | internal/poller/battery.go:102-385 | in every interleaving, each watch's recovered messages, plus one while a recovery is owed, are at most its alerts |
| BatteryRace.WriteOnlyLandsOnWhatItRead | internal/store/battery.go:147-162 | a check never touches settings, and changes a rule's state only if it stood exactly as read |
| BatteryRace.LandedIsAsIfAtomic | internal/poller/battery.go:330-337 | a save that lands with the rule's settings unchanged decides what judging at that moment would, for the watch as it was read |
| BatteryRace.AddedByItselfAtMostOnce | internal/store/battery.go:167-180 | in every interleaving a watch is given a rule by itself at most once, and never after its owner chose |
| BatteryRace.AlertsPerCheckAreLimited | internal/poller/battery.go:291-306 | a check queues at most the limit of alerts, and none when more would go out |
| BatteryEffects.CheckJudgesEachRule | internal/poller/battery.go:223-378 | what a whole check does to each ruled watch: nothing without news of the battery, else one judgement of its own row, saved, logged and told unless too many would alert, when the alert is neither told nor remembered |
| BatteryEffects.NoNewsKeepsTheRule | internal/poller/battery.go:171-257 | a failed fetch, no report or one of nothing lately leaves the rule exactly as it is and says nothing |
| BatteryEffects.GoneBatteryIsForgotten | internal/poller/battery.go:253-257 | a battery reported as not fitted ends unknown with no candidate and nothing announced, and nothing is said |
| BatteryEffects.PreferencesAreKept | internal/poller/battery.go:228-228 | a muted watch hears nothing of its rule, and one that wants no recoveries hears of none |
| BatteryEffects.LevelsOfARule | internal/poller/battery.go:73-77 | the levels a rule is judged by, from its own settings, the site's and CoreScope's |
| BatteryEffects.FirstReadingSetsTheLevel | internal/alert/battery.go:138-147 | the first newer reading of a rule that knows no level sets it at once, in silence |
| BatteryEffects.CheckAddsExactlyWhen | internal/poller/battery.go:231-250 | a check adds a rule if and only if nobody has chosen, the owner wants rules added and a battery was read lately; then at its level, announced as nothing, and mentioned once unless muted |
| BatteryEffects.BannerCountsTheNew | internal/poller/battery.go:363-375 | a user's banner grows by the rules switched on for them that they may be told of |
| BatteryEffects.OthersAreLeftAlone | internal/poller/battery.go:223-378 | a watch that was not read is left alone |
| BatteryEffects.EveryRuleIsWellFormed | internal/store/battery.go:121-256 | in every interleaving every rule is well-formed: candidate and count agree, unknown has no candidate, and only an alert level has something announced |
| BatteryOwners.OwnersChangeWinsExactlyWhen | internal/poller/battery.go:201-204 | a save that lands decides what judging rule and watch as they now stand would, if and only if the battery is gone, or the reading points to the same level under both settings and a move is told, or not, under both preferences |
| BatteryOwners.SwitchedOffStillAnnounced | internal/poller/battery.go:201-204 | an interleaving in which an overcharge alert switched off mid-check still goes out and leaves the rule stray |
| BatteryOwners.LoweredLevelStillAnnounced | internal/poller/battery.go:201-204 | one in which a battery that is fine by the level just set is called low by the old one |
| BatteryOwners.MutedStillAnnounced | internal/poller/battery.go:201-204 | one in which a watch muted mid-check is still heard from |
| BatteryOwners.EditedRuleIsJudgedAfresh | internal/store/battery.go:225-256 | switching overcharge off takes a rule standing overcharged back to unknown, to be judged afresh and in silence by any reading, seen before or not; no other edit of levels touches the state |
| BatteryOwners.OwnerLeavesNoStray | internal/store/battery.go:232-256 | owners' own operations never leave an overcharge standing with its switch off |
| BatteryOwners.StrayExactlyWhen | internal/store/battery.go:147-162 | a save leaves one if and only if it lands, says overcharged and the switch is off by then |
| BatteryOwners.StrayNeedsSwitchReadOn | internal/poller/battery.go:258-266 | only when the switch was on as read |
| BatteryOwners.OnlyARaceLeavesStray | internal/poller/battery.go:102-385 | in every interleaving, with rules added by themselves too, none is left unless a switch goes off while a check that read it on is in flight |
| Attribution.BuildIndex | internal/attribute/attribute.go:93-115 | a prefix resolves to a key if and only if some node key has it and all such keys are that key |
| Attribution.IndexDependsOnNodesOnly | internal/attribute/attribute.go:93-115 | order and duplicates do not matter |
| Attribution.GrowthNeverRepoints | internal/attribute/attribute.go:83-115 | more observations withdraw a prefix exactly when another node claims it, introduce only unclaimed ones, and never re-point |
| Attribution.HopIsNeverMisread | internal/attribute/attribute.go:123-131 | a hop is read as the node that wrote it or as nobody, the latter exactly when another node shares it |
| Attribution.Attribute | internal/attribute/attribute.go:141-179 | the loop computes the hits in order |
| Attribution.ProvesExactly | internal/attribute/attribute.go:141-179 | sent exactly for a full-key advert; carried exactly for the resolvable hops of a non-TRACE flood packet |
| Attribution.EachHitOnce | internal/attribute/attribute.go:138-140 | no key and direction twice |
| Attribution.NobodyIsCreditedFalsely | internal/attribute/attribute.go:83-115 | if known nodes wrote the hops, everyone credited with carrying is one of them |
| Ingest.Store.UpsertActivity | internal/store/queries.go:785-797 | counts add up and times never fall |
| Ingest.Store.SetFeedCursor | internal/store/queries.go:901-919 | the range only widens; a zero low is replaced |
| Ingest.Poller.Ingest | internal/poller/poller.go:218-329 | the whole effect of a poll's page on table and range, and how many packets were new |
| Ingest.Poller.FoldPage | internal/poller/poller.go:248-315 | the folded rows and the widened range of one page |
| Ingest.Poller.WriteRows | internal/poller/poller.go:309-314 | whatever order the rows are written in, the table ends the same |
| Ingest.TallyMeaning | internal/store/queries.go:785-797 | a replayed row counts its slot's proofs and holds the latest of their times |
| Ingest.FoldedOrOneByOne | internal/poller/poller.go:287-305 | folding a page first or recording it one by one comes to the same |
| IngestEffects.PollRecordsExactly | internal/poller/poller.go:277-322 | a committed poll adds to each row exactly the packets it is the first to count that show the row's node at work its way, with the latest of their times; one not fetched or not committed changes nothing |
| IngestEffects.LandsExactlyWhen | internal/poller/poller.go:308-310 | a committed poll writes if and only if it has a backfill to record, a newer packet, or one it is the first to count that shows something |
| IngestEffects.RangeMovesTo | internal/poller/poller.go:277-322 | where the range ends after a committed poll, and that the first windowed read is recorded once |
| IngestEffects.RangeOnlyWidens | internal/store/queries.go:901-919 | merging into a stored range never shrinks it and never loses a low mark |
| IngestRuns.TableIsReplay | internal/poller/poller.go:218-329 | for any pages in any order, the table is the one there was with the packets counted recorded on top one by one |
| IngestRuns.IngestedTimesAreReal | internal/store/queries.go:785-797 | every ingested row has a real time, which is what the agreement of seeding and polling asks of a table |
| IngestRuns.LoopTakesTheHull | internal/poller/poller.go:268-285 | from any cursor, one without a low mark included, the loop's range is the least one that holds the old range and every dated packet |
| IngestRuns.MergeIsTheLoopsRange | internal/store/queries.go:901-919 | from any such cursor the SQL merge stores exactly the loop's range |
| IngestRuns.EachPacketCountedAtMostOnce | internal/poller/poller.go:248-286 | from any such cursor, for any overlapping pages of distinct positive ids, no packet is counted twice in a run |
| IngestRuns.UnmarkedPageIsCountedAgain | internal/poller/poller.go:268-286 | from a cursor without a low mark a page counts every dated packet on it but the newest counted before, and leaves a low mark |
| IngestRuns.RangeIsWhatWasCounted | internal/poller/poller.go:248-323 | if every page is an id interval touching the range, the packets counted are exactly the dated ones in it |
| Outbox.Store.PendingNotifications | internal/store/queries.go:1232-1256 | the first `limit` due messages by id, and which due ones are passed over |
| Outbox.Store.MarkNotificationSent | internal/store/queries.go:1258-1264 | one row is closed |
| Outbox.Store.MarkNotificationFailed | internal/store/queries.go:1268-1276 | one row counts an attempt and backs off |
| Outbox.Store.DropNotification | internal/store/queries.go:1281-1288 | one row is abandoned with its reason |
| Outbox.Notifier.DrainOnce | internal/notify/notify.go:66-137 | the sends made, the rows and reachability after, and how many went out |
| Outbox.Notifier.SettleGroup | internal/notify/notify.go:88-134 | one user's rows all follow that user's reply, but for retry or abandon |
| Outbox.OneSendForEach | internal/notify/notify.go:60-82 | each due message is in exactly one send, to its own user, and no user is sent to twice |
| OutboxRuns.EveryRowHasItsStory | internal/notify/notify.go:66-137 | in every run each row fits the sends that carried it: counts, order, waits |
| OutboxRuns.FateOfAMessage | internal/notify/notify.go:88-134 | at most one delivery and eight tries; attempts are the failures; closed exactly when delivered, refused or failed eight times, the last no sooner than 127 minutes after the first try; its last error is what the last send that did not deliver said |
| OutboxRuns.ClosedForGood | internal/store/queries.go:1239-1240 | a closed message never changes and is never sent again |
| OutboxRuns.DueIsTried | internal/store/queries.go:1239-1240 | a due message goes untried only when the limit went to earlier ones |
| OutboxRuns.SentIsDelivered | internal/notify/notify.go:88-137 | a drain reports as sent exactly the due messages whose user's send delivered |
| OutboxRuns.ReachableExactlyWhen | internal/notify/notify.go:88-134 | a user is known reachable after a delivery and unreachable after a refusal; a failure, or no send, changes nothing |
| MessageText.FitContent | internal/notify/notify.go:206-224 | what is kept is the most that fits |
| MessageText.TailSurvives | internal/notify/notify.go:199-224 | the tail ends the text, which fits if and only if the tail leaves room or nothing was cut; lines are cut at a line break |
| TheilSen.TheilSenFit | internal/alert/trend.go:226-248 | the nested loops collect every slope and take the three quantiles |
| TheilSen.BetweenNeighbours | internal/alert/trend.go:240-246 | an interpolated quantile lies between its neighbours |
| TheilSen.QuantileMonotone | internal/alert/trend.go:240-246 | a larger share gives no smaller a quantile |
| TheilSen.RangeHoldsMedian | internal/alert/trend.go:226-248 | low is at most the median, and that at most high, for all points |
| TheilSen.SlopesOff | internal/alert/trend.go:226-236 | slopes other than the line's come only from pairs with an odd point |
| TheilSen.OddDaysCannotSwingIt | internal/alert/trend.go:223-248 | while fewer than half of all pairs have an odd point, the median slope is the line's |
| TheilSen.OneOddDay | internal/alert/trend.go:223-248 | so with one odd day among five or more, wherever it is |
| TheilSen.FourDaysAreNotEnough | internal/alert/trend.go:223-248 | four days where one odd day moves the median |
| OddPoint.SlopesCount | internal/alert/trend.go:226-236 | how many slopes one odd point puts on either side of the line's |
| OddPoint.MedianBySides | internal/alert/trend.go:240-247 | where the median lies by how many slopes are less and how many more |
| OddPoint.OddPointSwingsExactlyWhen | internal/alert/trend.go:223-248 | one odd point among three or more leaves the median slope alone if and only if there are five, or it is neither first nor last |
| BatteryTrend.AnalyseTrend | internal/alert/trend.go:97-200 | the trend of the usable readings in time order |
| BatteryTrend.JudgeSorted | internal/alert/trend.go:108-199 | the branches and loops over sorted readings compute the trend |
| BatteryTrend.CountJumps | internal/alert/trend.go:119-133 | jumps, their steps and where the trend restarts |
| BatteryTrend.FindChargingRate | internal/alert/trend.go:204-221 | a rate only for a steady, long and fast enough climb |
| BatteryTrend.NightlyLows | internal/alert/trend.go:146-177 | the lowest reading of each day with enough of them, updated in place |
| BatteryTrend.StartIsLastHeldJump | internal/alert/trend.go:117-138 | the trend starts at the last jump that held, and none later did |
| BatteryTrend.EveryTrendIsSound | internal/alert/trend.go:188-199 | each kind of trend comes with the slopes, nights and levels its name promises |
| BatteryTrend.EveryTrendIsDivisible | internal/alert/trend.go:268-324 | no estimate of a trend divides by zero |
| BatteryTrend.LowerLevelsComeLater | internal/alert/trend.go:268-289 | 0 is at most Soonest, that at most Latest, and a lower level is never sooner |
| BatteryTrend.SlopesMeetTheLevel | internal/alert/trend.go:281-284 | following the steeper slope for Soonest, or the gentler for Latest, meets the level |
| BatteryTrend.TimeToFullIsOrdered | internal/alert/trend.go:292-324 | the same order for the time to full |
| BatteryTrend.OneOddNightCannotSwingIt | internal/alert/trend.go:146-188 | the trend's slope through five or more nights, all but one on a line, is that line's |
| BatteryTrend.OneOddNightSwingsExactlyWhen | internal/alert/trend.go:146-188 | the same if-and-only-if for the nights of any fitted trend, which has three at least |
| TrendVerdicts.VerdictExactlyWhen | internal/alert/trend.go:97-200 | each of the seven kinds if and only if: jumps, charging rate, nights, quartile slopes and daily high, for any readings |
| TrendVerdicts.FallingNightsAreDraining | internal/alert/trend.go:188-191 | lows that fall 10 mV a day or more night after night are called draining, however full the battery |
| TrendVerdicts.ClimbingNightsAreCharging | internal/alert/trend.go:192-195 | lows that climb 10 mV a day or more are called charging, or full |
| TrendVerdicts.LevelNightsAreSteady | internal/alert/trend.go:196-198 | lows that never move by that much are called steady, or full |
| TrendVerdicts.DrainingByCount | internal/alert/trend.go:188-191 | how many of the slopes between nights make a battery draining, and how many it takes |
| TrendVerdicts.QuantileByCount | internal/alert/trend.go:240-247 | a quantile is at most a value as far as so many elements are |
| TrendVerdicts.JumpyExactlyWhen | internal/alert/trend.go:117-137 | too jumpy if and only if there are more than three jumps, or half the steps of seven or more readings are big |
| TrendVerdicts.TrendStartsAtLastJump | internal/alert/trend.go:122-138 | the trend is taken from the last jump that stuck, or from the first reading |
| TrendVerdicts.ChargingExactlyWhen | internal/alert/trend.go:202-221 | charging just now if and only if the last three hours' readings span two, never fall by more than 10 mV and rise 40 mV an hour; the rate is their overall rise |
| TrendVerdicts.NightsAreTheLows | internal/alert/trend.go:146-178 | the nights are exactly the days with six readings, each at its lowest and at its days since the first |
| TrendVerdicts.DailyHighIsHighest | internal/alert/trend.go:112-116 | the daily high is the highest reading of the last day, or 0 |
| TrendVerdicts.UsablesAreTheWeek | internal/alert/trend.go:101-106 | the readings used are exactly the positive ones of the week, each as often as given |
| TrendVerdicts.EstimatesSayWhen | internal/alert/trend.go:268-324 | when an estimate says reached and when beyond |
| TrendVerdicts.ChargeMeetsFull | internal/alert/trend.go:291-324 | a charge followed for the promised time ends at 4200 mV |
| Region.Regions.Contains | internal/geo/geo.go:34-53 | some ring is crossed an odd number of times |
| Region.Regions.RingContains | internal/geo/geo.go:39-47 | the toggling loop computes the ring's parity |
| Region.CrossesEitherWay | internal/geo/geo.go:43-45 | an edge is crossed alike from either end |
| Region.PathInTwo | internal/geo/geo.go:39-47 | a path's parity is that of its halves |
| Region.RotationKeepsParity | internal/geo/geo.go:39-47 | where a ring starts does not matter |
| Region.ReversalKeepsParity | internal/geo/geo.go:39-47 | nor the way round |
| Region.ClosingKeepsParity | internal/geo/geo.go:39-47 | nor whether the first vertex is repeated, as section 3.1.6 of RFC 7946 requires |
| Region.ChordSplitsParity | internal/geo/geo.go:39-47 | cut along a chord, a ring holds a point exactly when one piece but not the other does |
| Region.EdgeInTwo | internal/geo/geo.go:43-45 | a vertex in the middle of an edge changes nothing |
| Region.FinerRingKeepsParity | internal/geo/geo.go:39-47 | so a finer drawing of a ring holds the same points |
| Region.OutsideTheBox | internal/geo/geo.go:32-53 | a point outside a ring's bounding box is outside the ring |
| Region.BoxIsHalfOpen | internal/geo/geo.go:43-45 | a box holds exactly its half-open rectangle |
| Sorting.SortBySorts | internal/alert/trend.go:107-107 | a sort keeps the elements and orders the keys |
| SunPhases.Crossings | internal/sun/sun.go:110-137 | the scan and bisection end and report the crossings found |
| SunPhases.HigherIsBrighter | internal/sun/sun.go:26-62 | a higher sun is never darker, and it grows lighter exactly at each of the four heights |
| SunPhases.NarrowKeepsSides | internal/sun/sun.go:121-129 | bisection ends with opposite signs at most a second apart |
| SunPhases.ScanIsFaithful | internal/sun/sun.go:110-137 | every crossing is bracketed, they follow one another and alternate, and they lead from the first height to the last |
| SunPhases.SamplesAgree | internal/sun/sun.go:114-135 | at every sample the crossings found so far tell which side the sun is on |
| SunPhases.ScanIsSpaced | internal/sun/sun.go:104-106 | two crossings the same way are a scan step apart |
| SunPhases.CrossingsAreOrdered | internal/sun/sun.go:110-137 | reported times never go back, alternate, and lie in the range but for the truncated start |
| SunPhases.Days | internal/sun/sun.go:182-195 | the loop pairs sunrises and sunsets |
| SunPhases.DaysPairUp | internal/sun/sun.go:182-195 | each day is a sunrise and the very next crossing, none left out |
| SunPhases.DaysAreOrdered | internal/sun/sun.go:182-195 | rise, set and next rise are in order and sunrises strictly increase |
| SunPhases.Spans | internal/sun/sun.go:146-171 | the loops merge the sorted bounds into spans |
| SunPhases.PiecesKeepTheirPhase | internal/sun/sun.go:157-169 | each piece between bounds lies in a span of its own phase |
| SunTruth.SteadyBetweenCrossings | internal/sun/sun.go:104-106 | a sun that passes a height at most once between samples stays on its side of it between the crossings found |
| SunTruth.SpansTellTheTruth | internal/sun/sun.go:145-171 | for such a sun every moment a second or more from all bounds lies in a span with the phase the sun has then |
| SunPhases.EarlyCrossing | internal/sun/sun.go:110-137 | a crossing is reported before the start if and only if it is in the first scan step and bisection ends in the start's own second |
| SunPhases.SpansPartition | internal/sun/sun.go:146-171 | spans partition the time from their start to the end; they start in the second asked for, and exactly as asked unless one of the four heights is passed early |
| SunPhases.WholeSecondsAreCovered | internal/sun/sun.go:145-171 | from a whole second they partition exactly what was asked, neighbours in different phases |
| SunPhases.SpansMayBeginEarly | internal/sun/sun.go:129-129 | otherwise they may begin before it |
| Ledger.Within | internal/batteryanalysis/analysis.go:272-281 | exactly the usable readings of the range, each as often as it was given, in order of time |
| Ledger.FindExtreme | internal/batteryanalysis/analysis.go:285-297 | the loop computes the extreme of a window |
| Ledger.ExtremeBounds | internal/batteryanalysis/analysis.go:283-297 | it is a reading of the window, and none goes beyond it |
| Ledger.WiderWindow | internal/batteryanalysis/analysis.go:283-297 | a wider window goes at least as far |
| Ledger.FindMorningLow | internal/batteryanalysis/analysis.go:343-355 | the low around a sunrise, 0 until known |
| Ledger.SumDayWeather | internal/batteryanalysis/analysis.go:365-391 | a day's sums, or none when hours are missing |
| Ledger.WeatherIsPlausible | internal/batteryanalysis/analysis.go:365-391 | usable sun is at most the sun there was, the same when nothing froze; mean cloud is a percentage |
| Ledger.MakeLedger | internal/batteryanalysis/analysis.go:299-339 | the days of the range |
| Ledger.MakeDay | internal/batteryanalysis/analysis.go:303-336 | one day's lows, high, changes and suspicion |
| Ledger.LedgerIsChained | internal/batteryanalysis/analysis.go:299-339 | each day's next-morning low is the following day's morning low, for any readings, weather and sun |
| Ledger.GainAndNightMakeNet | internal/batteryanalysis/analysis.go:320-328 | gain and overnight make up net whenever both are known |
| Ledger.MorningNet | internal/batteryanalysis/analysis.go:396-421 | the loops find the first and the newest low |
| Ledger.HeadlineIsSumOfNets | internal/batteryanalysis/analysis.go:393-421 | when every net is known the headline is their sum over the whole time |
| Ledger.HeadlineOfRange | internal/batteryanalysis/analysis.go:235-246 | the same for the part of a longer ledger that is shown |
| LedgerDays.ReadingsOfTheRange | internal/batteryanalysis/analysis.go:272-281 | a reading is used if and only if it is positive and in the range, ends included |
| LedgerDays.MorningLowExactlyWhen | internal/batteryanalysis/analysis.go:341-355 | a morning low is known if and only if the morning is over and has two readings, one near sunrise; it is then the lowest of them |
| LedgerDays.HighExactlyWhen | internal/batteryanalysis/analysis.go:311-319 | a high is known if and only if the day is over and has two readings; it is then the highest of them; and when a day is well covered |
| LedgerDays.WeatherIsOfItsHours | internal/batteryanalysis/analysis.go:357-391 | a day's weather is known if and only if at most one hour is missing and one is by daylight; its sunshine, usable sunshine and frozen hours add up its own hours and its cloud is their mean |
| LedgerDays.PanelSuspectedExactlyWhen | internal/batteryanalysis/analysis.go:332-335 | a panel is suspected if and only if a well covered day gained under 10 mV from a known low below 4100 mV with a usable kWh of sun |
| LedgerDays.EachDayHasItsPlace | internal/batteryanalysis/analysis.go:303-309 | the ledger has exactly the days that charged in the range, in order |
| LedgerDays.HeadlineIsFirstToNewest | internal/batteryanalysis/analysis.go:393-421 | the headline is the change from the first known low to the newest there is, and exists if and only if there are two |
| Forecast.MedianSplits | internal/batteryanalysis/analysis.go:508-519 | at most half of the values lie above the median and at most half below |
| Forecast.FitDays | internal/batteryanalysis/analysis.go:467-506 | the loops compute the line and the reasons for none |
| Forecast.BreakEvenHoldsTheLevel | internal/batteryanalysis/analysis.go:127-139 | a day's net is not negative if and only if its sunshine is at least the break-even |
| Forecast.LineSplitsTheDays | internal/batteryanalysis/analysis.go:494-505 | at most half of the days lie above the line, half below, and half further than the spread |
| Forecast.ExactLineIsFound | internal/batteryanalysis/analysis.go:467-506 | days on a rising line are given that very line |
| Forecast.FindStart | internal/batteryanalysis/analysis.go:524-547 | where a forecast starts, if anywhere |
| Forecast.NewestLowIsNewest | internal/batteryanalysis/analysis.go:531-540 | it starts from the newest low there is |
| Forecast.Result.Forecast | internal/batteryanalysis/analysis.go:523-583 | start, days and crossings of a forecast |
| Forecast.Result.ProjectDays | internal/batteryanalysis/analysis.go:549-568 | the loop projects up to seven days, until weather runs out |
| Forecast.Result.FindCrossing | internal/batteryanalysis/analysis.go:569-582 | the first day whose range reaches below a level the start was not already below |
| Forecast.RangesNest | internal/batteryanalysis/analysis.go:549-568 | low is at most mid, that at most high, and that at most 4200, on every day |
| Forecast.SpreadIsPositive | internal/batteryanalysis/analysis.go:501-505 | a learned line's spread is at least the least one |
| Forecast.HigherStaysHigher | internal/batteryanalysis/analysis.go:549-568 | a higher start is never projected lower |
| Forecast.LowerReachesFirst | internal/batteryanalysis/analysis.go:569-582 | a lower start or a higher level is reached no later |
| Forecast.LowComesFirst | internal/batteryanalysis/analysis.go:569-582 | with critical at most low, whoever may reach critical from above low may reach low, no later |
| Forecast.CriticalNeverBeforeLow | internal/batteryanalysis/analysis.go:523-583 | when a forecast lists both crossings, critical never comes before low |
| ForecastDays.EveryDayFollows | internal/batteryanalysis/analysis.go:549-568 | each projected day starts from the middle of the one before, gains what its usable sunshine gains on the line, and is as wide as the root of its number |
| ForecastDays.ProjectEnds | internal/batteryanalysis/analysis.go:549-557 | it ends after seven days, or where the sun's days or the weather end |
| ForecastDays.StartExactlyWhen | internal/batteryanalysis/analysis.go:523-547 | a forecast starts from the newest low of the last two days, else from a reading of the last day, and has no start if and only if there is neither or the battery has been silent for a day |
| ForecastDays.CrossingExactlyWhen | internal/batteryanalysis/analysis.go:569-582 | a level is listed if and only if it is set, the start was not below it and some day's range is; and then at the first such day |
| ForecastDays.FitExactlyWhen | internal/batteryanalysis/analysis.go:467-493 | a line is found if and only if there are five days of mixed sunshine whose median slope is positive, and else why not |
| ForecastDays.LineIsTypical | internal/batteryanalysis/analysis.go:484-505 | half of the slopes lie on either side of the line's, and half of the days no nearer than the spread unless that is the least |
| ForecastDays.EachCompleteDayIsAPoint | internal/batteryanalysis/analysis.go:468-475 | the line is learned from exactly the days whose net change and weather are known |

## Left out

- HTTP, JSON, Discord, OAuth, sessions, health probes and the web pages: a fetch or a send is an arbitrary input.
- Wording, labels and JSON of messages: a message is the rules or readings it carries.
- The SQL engine, migrations and connection pools: a statement is its effect, a transaction is all or nothing, and a failed one changes nothing.
- Ties between poll rows that started in the same second: rows are in the order polls started.
- Letter case: keys are taken to be lower-case already, as the feed client leaves them, so `UpsertActivity` does not fold case.
- Creating watches and reusing their ids: the battery model lets watches go but not come, and the evaluation model takes owners' edits between polls as given.
- Edits between the reads and the write of one quiet-node evaluation: `Evaluation.Poller.EvaluateAll` reads and writes in one step, so a foreign-key failure of that transaction is not modelled.
- The whole of a poll as one method: its log and verdict are `FeedGuard.PollLog.PollOnce`, its other steps are modelled each in its own module, without the switches that skip some of them and without the battery check's own timer.
- Goroutines that fetch battery reports: their results are an arbitrary array.
- Store errors in the middle of a drain: every mark is taken to succeed, so a message sent but not marked is not modelled.
- Deleting an account with its outbox.
- Floating-point rounding, infinities, and time values that overflow 64 bits.
- The solar position formula and the model of a battery's temperature: an arbitrary function and an arbitrary predicate.
- Rules on what an observer hears (`packets`): `RuleEvidence` keeps the branch the code has for them, though neither the form nor the schema (`internal/store/migrations/0002_type_rules.sql:28`) lets one be stored.
- The breaker in `BatteryOwners.OwnersChangeWinsExactlyWhen`: it compares decisions as judged; what a tripped breaker withholds is in `BatteryCheck`.
- Loading GeoJSON: a region is the list of its outer rings.
- Mains detection, the panel-fault headline, temperature offsets and the hourly projection of `internal/batteryanalysis/analysis.go`: they would add only easy members.
- A one-day lookup (`On` in `internal/sun/sun.go`) and phase names.
