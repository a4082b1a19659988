# Referral platform: verified model

This project models the parts of the referral platform that keep state over unbounded runs, and proves what
those runs keep. Each component of the repository has its modules here:

- **Referral journeys.** An event is classified against a journey definition, timestamps are set once, and
  status, completion and the progress snapshot are derived again from the timestamps. `JourneyDefinitions` holds
  the three shipped journeys and the shape (`WellFormed`) the results rely on; `JourneyMachine` and `JourneyRuns`
  are the machine and its runs; `JourneyInstance` is the dictionary that replay mutates; `JourneyStore` is the live
  handler that loads, binds, applies and saves a row; `JourneyLive` relates the two. `JourneyCharts` tells what a
  list of arrivals leads to without running it, and `JourneyRebuild` uses that to compare live handling with the
  rebuild from the event log, which replays in order of occurrence.
- **Leaderboards.** Scores from rules and missions, entries, a four-part ranking, incremental and from-scratch
  rebuilds, and cached pages (`LeaderboardScoring`, `LeaderboardJourney`, `LeaderboardRanking`,
  `LeaderboardRebuild`, `LeaderboardService`, `LeaderboardCache`).
- **Channel deliveries.** Dispatch, retry and callbacks interleaving around unanswered posts (`ChannelDelivery`).
- **Funding accounts.** Three balances and a log under five guarded operations (`FundingLedger`).
- **Outcome money.** The liability projection (`LiabilityProjection`) and when the order of its evidence matters
  (`LiabilityOrder`); the repair planner and its summaries
  (`OutcomeRepair`); the evidence tables and the commands that repair them (`OutcomeEvidence`, `OutcomeWallets`,
  `OutcomeBooks`, `OutcomeTables`); and the money map read from those tables, on which each command does what the
  planner expects of it (`OutcomeLink`) and READY can be reached exactly when the tables supply what is missing
  (`OutcomeReach`).
- **Missions.** Capped progress and the bonus on completion, over the list of missions an event matches, with
  inserts the tables may refuse and crashes anywhere (`Missions`).
- **Fulfilment providers.** A circuit breaker and fallback routing (`CircuitBreaker`, `ProviderRouting`).

What each operation does is also told without its own helper functions, on the fields it reads and writes: the
hard-coded rule of banking and the runs of the three journeys in `JourneyFields`, rows, answers and rewards of the
live handler in `JourneyRows`, and the rest in `LeaderboardFields`, `ChannelFields`, `FundingFields`,
`LiabilityFields`, `OutcomeFields`, `OutcomePlanFields`, `MissionFields` and `BreakerFields`.

Where the repository mutates an object or a table step by step, the model is a class or a method proved equal to a
specification function; the results are lemmas about that function. Money is counted in cents. Times are passed in.

Where the code differs from what one may expect of it, the model follows the code:

- Feeding a whole run of journey events again can change the referral, in all three journeys: an event refused as
  out of order is accepted once its predecessors have arrived (`JourneyRuns.ShippedRedeliveryMayAdvance`).
  Redelivery changes nothing exactly when no redelivered event is acceptable, and repeated redelivery settles.
- The status constraint of `referral_instances` admits banking milestones only
  (dp/migrations/016_fix_referral_instances_status_constraint.sql:4-16; no later migration changes it). The update
  that would store an insurance or retail milestone is refused and rolled back, so such a referral never leaves
  VALIDATED while replay moves it on (`JourneyLive.QuoteAndBasketAreRefused`, `JourneyLive.InsuranceAndRetailNeverMove`).
  Live handling simulates replay on every run exactly when the admitted statuses hold the journey's core sequence
  (`JourneyLive.SimulatesExactlyWhenStatusesFit`); banking meets this.
- A rebuild replays the log in order of occurrence and has no gate against self-referrals, so it can show what live
  handling refused (`JourneyRebuild.LateArrivalIsRebuiltFurther`, `JourneyRebuild.SelfReferralIsReplayed`). It shows
  the live row exactly when the ordered log attains the same events, at the same stored times, as the arrivals
  handled live (`JourneyRebuild.RebuildMatchesLiveExactlyWhen`); a log that arrived in order is the simple case.
- The retail timestamp columns are never loaded or saved; acceptance, status and completion do not need them.
- Funding amounts are rounded after the sign check, so a positive amount of up to half a cent passes the service's
  check and is then refused by the table's own constraint (`FundingLedger.AcceptedAmounts`,
  `FundingLedger.SucceedsExactlyWhen`).
- The mission bonus is inserted without a tenant (services/mission_service.py:694-719), which the rewards table
  requires (dp/migrations/034_reward_update.sql:8-9): the insert raises after the progress was committed, the mission
  stays complete and unpaid, and the missions after it in the list miss the event
  (`Missions.RefusedBonusEndsTheEvent`, `Missions.RefusedBonusesAreNeverPaid`). Where the migrations are replayed on
  an empty database, the progress table is the one of dp/migrations/005_gamification.sql:10-17, whose referrer hash
  the insert does not give either, and no progress is recorded at all (`Missions.RefusedRowsChangeNothing`). Which
  inserts the tables accept is a parameter of the model, `Schema`; `Missions.MissionsCountEvents` is about tables
  that accept both.
- A crash between committing mission progress and paying the bonus loses the bonus for good: it is paid exactly when
  the event that completes the mission is not cut off there (`Missions.BonusPaidExactlyWhen`,
  `Missions.LostBonusStaysLost`).
- The wallet repair without a tenant filter needs one run per commission when two tenants' commissions for one
  referral share a wallet (`OutcomeWallets.TwoTenantsNeedTwoRuns`).
- The amount column of referral rewards has no scale (dp/migrations/001_init.sql:93), so a repair invoice equals the
  sum of its lines exactly when the rounding leftovers stay within half a cent
  (`OutcomeBooks.SubtotalIsLineSumExactlyWhen`, `OutcomeBooks.FractionsNeedNotAddUp`). The service that writes these
  rewards takes policy amounts of two decimals (dp/migrations/022_reward.sql:6-7); fractions of a cent need another
  writer to the table.
- The first of several pieces of reward evidence with one key decides the state of the item, so single liability
  totals can depend on the order of the evidence (`LiabilityOrder.OrderDecidesState`). A total is the same in every
  order exactly when no two pieces of one key, worth something, disagree on feeding it
  (`LiabilityOrder.OrderIsFreeExactlyWhen`).
- A commission rule's minimum has no effect unless the rule also has a maximum (`OutcomeEvidence.CommissionBounds`).
- A check that half-opens a circuit is remembered, so the breaker follows the stateless rule exactly when a call
  after such a check also comes after the cooldown; a clock that runs backwards can break that
  (`CircuitBreaker.BreakerFollowsRuleExactlyWhen`, `CircuitBreaker.BackwardClockBreaksRefinement`), and with it
  routing (`ProviderRouting.RoutingFollowsRuleExactlyWhen`).

## Model

| member | source | states |
|---|---|---|
| JourneyDefinitions.StatusRank | services/journey_orchestrator.py:314-320 | the rank of a status is a position of it in the core sequence, and -1 exactly for none or an unknown one |
| JourneyDefinitions.BankingIsWellFormed | services/journey_definitions.py:22-80 | the banking journey moves forward only, times each milestone once and keeps the back-filled field below FUNDED |
| JourneyDefinitions.InsuranceIsLinear | services/journey_definitions.py:82-106 | the insurance journey is well-formed and moves one milestone at a time to its last |
| JourneyDefinitions.RetailIsLinear | services/journey_definitions.py:108-130 | the retail journey is well-formed and moves one milestone at a time to its last |
| JourneyMachine.AcceptedMeans | services/journey_orchestrator.py:340-387 | an accepted event is the start from no status, or a timed event whose timestamp was missing |
| JourneyMachine.ApplyStampsSetsOnce | services/journey_orchestrator.py:390-429 | applying an event keeps every earlier timestamp and leaves the event's own set |
| JourneyMachine.MoreStampsHigherRank | services/journey_orchestrator.py:432-482 | more timestamps never lower the derived milestone nor undo completion |
| JourneyMachine.StepKeeps | services/journey_orchestrator.py:980-1019 | one step keeps status and completion derived from the timestamps, and never goes back |
| JourneyRuns.RunsAreOrdered | services/journey_orchestrator.py:340-448 | in every run of a well-formed journey status is None without timestamps or the top stamped milestone, its rank never falls, timestamps are set once |
| JourneyRuns.AcceptedEventDecidesStatus | services/journey_orchestrator.py:340-448 | an accepted core event becomes the status, strictly higher; a side event leaves the status |
| JourneyRuns.BankingStampsArePrefix | services/journey_orchestrator.py:390-399 | in every banking run the stamped core milestones form a prefix, also when FUNDED skips activation |
| JourneyRuns.RunKeepsPrefix | services/journey_orchestrator.py:390-448 | the same for every journey without gaps |
| JourneyRuns.LinearStampsArePrefix | services/journey_definitions.py:82-130 | so it does for insurance and retail, which move one milestone at a time |
| JourneyRuns.AtMostTimedEventsPlusOne | services/journey_orchestrator.py:331-387 | however many events arrive, at most one per timed event type plus one is accepted |
| JourneyRuns.ShippedAcceptanceBounds | services/journey_definitions.py:22-130 | at most 8, 5 and 4 accepted events in banking, insurance and retail |
| JourneyRuns.AcceptedEventsReproduceRun | services/journey_orchestrator.py:980-1019 | the accepted events of a run alone reproduce its final instance |
| JourneyRuns.NeverAcceptedTwice | services/journey_orchestrator.py:331-387 | an event once accepted is refused at every later point |
| JourneyRuns.UnchangedIffNothingAcceptable | services/journey_orchestrator.py:980-1019 | feeding arrivals changes nothing exactly when none of them is acceptable as things stand |
| JourneyRuns.RedeliveringAcceptedChangesNothing | services/journey_orchestrator.py:980-1019 | feeding the accepted events of a run again changes nothing |
| JourneyRuns.RedeliveringAllMayAdvance | services/journey_orchestrator.py:340-387 | where the third core milestone cannot follow the first, delivering it early and then everything again advances the referral |
| JourneyRuns.ShippedRedeliveryMayAdvance | services/journey_definitions.py:22-130 | banking, insurance and retail each have such a run |
| JourneyRuns.RedeliverySettles | services/journey_orchestrator.py:980-1019 | repeated delivery of the same arrivals settles within as many passes as there are timed events plus one |
| JourneyRuns.ReplayIgnoresClock | services/journey_orchestrator.py:451-482 | replaying the same events at other wall-clock times differs in the completion instant only |
| JourneyCharts.RunAttains | services/journey_orchestrator.py:340-448 | a run from VALIDATED stamps exactly the events that a subsequence of its arrivals along allowed transitions attains |
| JourneyCharts.StampIsFirstTime | services/journey_orchestrator.py:390-429 | each timestamp after a run is the time at which its arrivals first attain the event |
| JourneyCharts.BankingIsCharted | services/journey_definitions.py:22-80 | banking has the shape these two results need, skipping activation included |
| JourneyFields.RunIsUnderWay | services/journey_orchestrator.py:980-1019 | every point of every run from a fresh instance is one the verdicts below speak of |
| JourneyFields.BankingMilestoneIsLegacy | services/journey_orchestrator.py:432-448 | with the banking definition the milestone loop derives the status of the hard-coded rule, from any timestamps |
| JourneyFields.BankingCompleteIsLegacy | services/journey_orchestrator.py:451-482 | with the banking definition completion is funding together with a debit order, a salary switch or a first transaction, from any timestamps |
| JourneyFields.BankingStampsAreLegacy | services/journey_orchestrator.py:390-429 | with the banking definition every event sets exactly the fields the hard-coded branches set |
| JourneyFields.UntimedEventsFallBack | services/journey_orchestrator.py:399-429 | an event that a definition does not time is stamped by the hard-coded branches |
| JourneyFields.InsuranceOnFields | services/journey_definitions.py:82-106 | insurance keeps its milestones in the columns of banking and is complete exactly when the funding column is set |
| JourneyFields.RetailOnFields | services/journey_definitions.py:108-130 | the status of retail is the highest of its four timestamps, and it is complete exactly when the first purchase has one |
| JourneyFields.BankingRuns | services/journey_orchestrator.py:432-486 | in every banking run from a fresh instance: complete exactly when funded and one of the three completion events is in; status, platform status and snapshot follow the timestamps |
| JourneyFields.InsuranceRuns | services/journey_orchestrator.py:432-486 | in every insurance run: complete exactly when the funding column is set |
| JourneyFields.RetailRuns | services/journey_orchestrator.py:432-486 | in every retail run: complete exactly when the first purchase is timed |
| JourneyFields.CompletionInstant | services/journey_orchestrator.py:451-482 | in every run the completion instant is the time at which the completing event is handled |
| JourneyFields.VerdictOnCore | services/journey_orchestrator.py:340-387 | a milestone up to the status is a duplicate, the start a step back, the next one or one the table skips to valid, any other out of order |
| JourneyFields.VerdictOnSide | services/journey_orchestrator.py:340-387 | a side event is a duplicate once stamped, valid at the top, and out of order below it |
| JourneyFields.VerdictOnOthers | services/journey_orchestrator.py:340-387 | an event the journey does not know is invalid |
| JourneyFields.VerdictAtStart | services/journey_orchestrator.py:340-387 | without a status only the start is valid; other milestones are out of order, and anything else invalid |
| JourneyFields.BankingAccepts | services/journey_orchestrator.py:323-387 | at every point of every banking run exactly what banking takes next is accepted, told event by event |
| JourneyFields.InsuranceAccepts | services/journey_orchestrator.py:323-387 | at every point of every insurance run only the next milestone is accepted |
| JourneyFields.RetailAccepts | services/journey_orchestrator.py:323-387 | at every point of every retail run only the next milestone is accepted |
| JourneyInstance.InstanceDict.ApplyEventFields | services/journey_orchestrator.py:390-429 | the field assignments in place compute the set-once timestamps |
| JourneyInstance.InstanceDict.DeriveCurrentMilestone | services/journey_orchestrator.py:432-448 | the scan from the top finds the highest stamped milestone, or the first |
| JourneyInstance.InstanceDict.ApplyProgressEvent | services/journey_orchestrator.py:980-1019 | one event on the dictionary is one step of the machine, which `JourneyFields` tells on the timestamps |
| JourneyInstance.InstanceDict.ResetProjection | services/replay_service.py:52-78 | a reset projection is a validated referral with nothing recorded |
| JourneyInstance.InstanceDict.Replay | services/replay_service.py:172-206 | the replay loop is a run of the machine and counts applied and ignored events |
| JourneyStore.ReferralStore.HandleReferralProgressRecorded | services/journey_orchestrator.py:604-814 | the handler on the whole table: which row changes, how, and with which answer, an update refused for its status included; `JourneyRows` tells both on the columns |
| JourneyLive.ShippedJourneysAreStorable | services/journey_orchestrator.py:489-601 | every registered journey survives the timestamp columns that are not saved |
| JourneyLive.AcceptanceAgrees | services/journey_orchestrator.py:489-601 | a reloaded row accepts exactly the events the instance in memory accepts |
| JourneyLive.HandledEventMirrorsReplay | services/journey_orchestrator.py:725-814 | a handled event that is no self-referral is processed exactly when replay accepts it and the table admits the status it leads to; the saved row then mirrors the instance, otherwise it is as it was |
| JourneyLive.LiveSimulatesReplay | services/journey_orchestrator.py:489-601 | where the table admits the core milestones, live runs with save and reload simulate replay from the first processed event on, whichever journey later events name: same status, completion, completion time, snapshot, stored timestamps and number of processed events |
| JourneyLive.SimulatesExactlyWhenStatusesFit | services/journey_orchestrator.py:540-601 | live handling simulates replay on every run of a registered journey exactly when the admitted statuses hold its core sequence |
| JourneyLive.BankingFitsTheTable | dp/migrations/016_fix_referral_instances_status_constraint.sql:4-16 | the statuses in the constraint hold the banking core sequence, but not the insurance or the retail one |
| JourneyLive.FirstMilestoneIsRefused | dp/migrations/016_fix_referral_instances_status_constraint.sql:4-16 | the first milestone of a linear journey is refused by the table and accepted by replay where the admitted statuses lack it |
| JourneyLive.StuckReferralsNeverMove | dp/migrations/016_fix_referral_instances_status_constraint.sql:4-16 | a validated referral stays as it was under any events naming journeys whose first step the table refuses |
| JourneyLive.QuoteAndBasketAreRefused | dp/migrations/016_fix_referral_instances_status_constraint.sql:4-16 | with the statuses in the constraint, QUOTE_REQUESTED in insurance and BASKET_CREATED in retail are refused by the table and accepted by replay |
| JourneyLive.InsuranceAndRetailNeverMove | dp/migrations/016_fix_referral_instances_status_constraint.sql:4-16 | with the statuses in the constraint, no mixture of insurance and retail events ever moves a validated referral |
| JourneyLive.NothingLostWhenAllPersisted | services/journey_orchestrator.py:489-601 | where all timestamps are columns and all core milestones admitted, the saved row holds all of the instance |
| JourneyLive.BankingAndInsuranceAreFullyPersisted | services/journey_orchestrator.py:540-601 | banking and insurance timestamps are all columns |
| JourneyRebuild.InOrderIsStableSort | services/replay_service.py:20-33 | the log is ordered by occurrence, and by arrival where that is equal |
| JourneyRebuild.RebuildReferralInstance | services/replay_service.py:133-206 | the rebuild resets, replays the ordered log and writes back with the time of the rebuild, unless it is a dry run or the table refuses the status |
| JourneyRebuild.RunsAgreeExactlyWhen | services/journey_orchestrator.py:980-1019 | two runs from VALIDATED agree in status, completion and stored timestamps exactly when their arrivals attain the same events, at the same times where stored |
| JourneyRebuild.RebuildMatchesLiveExactlyWhen | services/replay_service.py:133-206 | the rebuild shows the live row exactly when the ordered log attains the same events as the arrivals handled live, at the same times where stored |
| JourneyRebuild.BoundRebuildMatchesExactlyWhen | services/replay_service.py:133-206 | for a bound row and no self-referrals the condition compares the list of events as it arrived with the list as ordered |
| JourneyRebuild.RebuildInOrderMatchesLive | services/replay_service.py:133-206 | it does so when the events of a journey arrived in order of occurrence and none is a self-referral |
| JourneyRebuild.LateArrivalIsRebuiltFurther | services/replay_service.py:20-33 | an event that arrived before its predecessor is refused live and counts in the rebuild |
| JourneyRebuild.SelfReferralIsReplayed | services/replay_service.py:172-206 | a self-referral refused live counts in the rebuild |
| JourneyLive.HandleRowPreserves | services/journey_orchestrator.py:111-143 | a call never changes a bound journey or referee, a timestamp, or a completion time, and never writes a self-referral |
| JourneyLive.EligibleExactlyOnCompletion | services/journey_orchestrator.py:140-143 | a call reports reward eligibility exactly when it completes the referral; completion time set exactly when complete |
| JourneyLive.LiveRunKeeps | services/journey_orchestrator.py:725-814 | the same over every run of the handler on a referral |
| JourneyLive.RewardsAtMostOnce | services/journey_orchestrator.py:725-814 | over any calls on any referrals each is handed on for rewards at most once, and exactly if complete |
| JourneyRows.SelfReferralAnswer | services/journey_orchestrator.py:134-137 | the handler answers self-referral exactly when the row has a referrer and that customer number is the referee's, bound or in the event |
| JourneyRows.RowAnswers | services/journey_orchestrator.py:723-814 | which answer a row gets, in the order of the checks, and that only a processed event writes |
| JourneyRows.IgnoredVerdict | services/journey_orchestrator.py:766-791 | an ignored event carries its verdict, which is not Valid |
| JourneyRows.TableAnswers | services/journey_orchestrator.py:604-722 | which answer a call gets before a row is found, and that a call changes at most the row it names |
| JourneyRows.NamedRowDecides | services/journey_orchestrator.py:699-814 | past the first checks the call is answered, and its row written, as the row alone decides |
| JourneyRows.AliasesAreHandledAlike | services/journey_orchestrator.py:301-311 | the three alias names are handled exactly like the names they stand for |
| JourneyRows.NamesStandForThemselves | services/journey_orchestrator.py:301-311 | every other name stands for itself |
| JourneyRows.SavedColumns | services/journey_orchestrator.py:540-601 | every column of a processed row that the journey does not decide: what is bound first stays, what is missing is filled in, and the row is updated now |
| JourneyRows.TimestampColumns | services/journey_orchestrator.py:540-601 | seven timestamps are stored, none of them retail's |
| JourneyRows.CompletionColumn | services/journey_orchestrator.py:451-482 | a row completes at the time the completing event is handled |
| JourneyRows.BankingRowCompletion | services/journey_orchestrator.py:489-601 | a banking row that can arise is complete exactly when its columns show funding and one of the three completion events |
| JourneyRows.BankingRewardExactlyWhen | services/journey_orchestrator.py:604-814 | on every row that events lead to: a banking referral is handed on for rewards exactly when it was funded and not complete, one of the three completion events arrives, and the referee is not the referrer |
| JourneyRows.InsuranceRewardExactlyWhen | services/journey_orchestrator.py:604-814 | where the table admits its milestones, an insurance referral is handed on exactly when the first premium is paid after the policy was issued |
| JourneyRows.RetailRewardExactlyWhen | services/journey_orchestrator.py:604-814 | where the table admits its milestones, a retail referral is handed on exactly when the first purchase completes after the order was placed |
| JourneyRows.RetailRowsHoldNoTimestamps | services/journey_orchestrator.py:540-601 | no row of the retail journey ever holds a timestamp |
| JourneyRows.RebuiltExactlyWhen | services/replay_service.py:133-171 | a referral can be rebuilt exactly where its journey and version, or the defaults, are known |
| JourneyRows.RebuiltFollows | services/replay_service.py:52-206 | a rebuild starts at the beginning: an empty log gives a referral without timestamps, and in every rebuilt instance milestone, platform status and snapshot follow status and completion |
| JourneyRows.RebuiltCompletionTime | services/replay_service.py:172-206 | what is rebuilt as complete was completed at the time of the rebuild |
| JourneyRows.WrittenColumns | services/replay_service.py:94-131 | writing back a rebuilt instance replaces what replay derives and the update time, and keeps referrer, product, journey and referee |
| LeaderboardScoring.CalculateConfiguredScore | services/leaderboard_service.py:360-392 | the nested scoring loops compute base and bonus points of all matching rules |
| LeaderboardScoring.CalculateMissionScore | services/leaderboard_service.py:278-309 | the mission loop computes the points per category |
| LeaderboardScoring.CalculateReferrerScore | services/leaderboard_service.py:395-428 | the score of a referrer on a board from rules, missions and referrals |
| LeaderboardFields.MilestoneHeldExactlyWhen | services/leaderboard_service.py:328-357 | a milestone is held by status, by one of the six timestamps the query selects, or by standing at or above it in the journey |
| LeaderboardFields.OtherMilestones | services/leaderboard_service.py:328-357 | the completion bonus is held exactly by complete referrals, no milestone by none, and in an unknown journey only the status counts |
| LeaderboardFields.AwardExactlyWhen | services/leaderboard_service.py:319-392 | a rule rewards a referral exactly when it is active, its filters admit the referral's columns and its milestone is held |
| LeaderboardFields.ConfiguredPointsArePairs | services/leaderboard_service.py:360-392 | the configured points are those of all pairs of a referral and a rule that rewards it |
| LeaderboardFields.OneMoreMission | services/leaderboard_service.py:278-309 | what one more completed mission adds to each part of a score, from the table of mission points |
| LeaderboardFields.OneMoreReferral | services/leaderboard_service.py:395-428 | what one more referral adds to each part of a score |
| LeaderboardFields.EmptyScore | services/leaderboard_service.py:395-428 | without referrals and missions every part of a score is nothing |
| LeaderboardFields.TierBounds | services/leaderboard_service.py:70-81 | the tiers begin at 1, 50, 100 and 200 points |
| LeaderboardFields.SelectedOnFields | services/leaderboard_service.py:192-234 | a referrer's referrals on a board are those whose columns its filters admit |
| LeaderboardFields.SelectedOneByOne | services/leaderboard_service.py:192-234 | each of them once and in their order |
| LeaderboardFields.MissionsOneByOne | services/leaderboard_service.py:237-275 | the completed missions that count on a board, each once and in their order |
| LeaderboardJourney.MilestoneOnceHeldIsKept | services/leaderboard_service.py:319-357 | a milestone once held, by status, timestamp or position, is held after every later call, also the one that binds the journey |
| LeaderboardJourney.BoardPointsNeverDrop | services/leaderboard_service.py:360-392 | a call on any referral never lowers a referrer's points on a board |
| LeaderboardJourney.ConfiguredScoreNeverDrops | services/leaderboard_service.py:319-392 | a referrer's configured score on a board never decreases over any interleaving of events on all referrals, for fixed non-negative rules |
| LeaderboardRanking.FetchOrdered | services/leaderboard_service.py:510-530 | the ranking query lists the tenant's entries by points, completed referrals, last event and hash, told on these fields |
| LeaderboardRanking.PositionIsRank | services/leaderboard_service.py:510-545 | the position in the ordered list is the number of entries ahead |
| LeaderboardRanking.RecalculateRankings | services/leaderboard_service.py:510-545 | numbering the listed rows gives every entry one more than the number ahead of it, and changes ranks only; more points, then more completed referrals, then an earlier last event, then a smaller hash give a smaller rank |
| LeaderboardRanking.RanksAreBijection | services/leaderboard_service.py:510-545 | ranks are a bijection onto 1..n in ranking order |
| LeaderboardRanking.RankedByFields | services/leaderboard_service.py:510-545 | on every ranked board: more points give a smaller rank, then more completed referrals, then an earlier or a present last event, then a smaller hash |
| LeaderboardRanking.GetNextRankInfo | services/leaderboard_service.py:702-746 | the entry with the highest rank number below the referrer's, and the points to it |
| LeaderboardRanking.NextRankIsOneUp | services/leaderboard_service.py:702-746 | on a ranked board that entry is one rank up and the clamp on points never acts |
| LeaderboardRebuild.RankedIgnoresRanks | services/leaderboard_service.py:510-545 | ranking forgets the ranks an entry had before |
| LeaderboardRebuild.OthersKeepTheirEntries | services/leaderboard_service.py:192-234 | a change to one referrer changes nobody else's score |
| LeaderboardRebuild.BoardRebuildIsInSync | services/leaderboard_service.py:584-619 | a from-scratch rebuild gives the table the data determines |
| LeaderboardRebuild.IncrementalMatchesScratch | services/leaderboard_service.py:548-619 | from a table in sync, rebuilding the one changed referrer gives the from-scratch table, also when no referrals are left |
| LeaderboardService.RebuildReferrerOnBoard | services/leaderboard_service.py:548-581 | the incremental steps on one board: delete or score and upsert, then rank |
| LeaderboardService.RebuildBoard | services/leaderboard_service.py:584-619 | clearing, upserting every referrer and ranking yields the specified table |
| LeaderboardService.Leaderboards.RebuildForReferrer | services/leaderboard_service.py:548-581 | the loop over active boards refreshes each and drops the pages of the affected tenants |
| LeaderboardService.Leaderboards.RebuildForBoard | services/leaderboard_service.py:584-619 | a board rebuild replaces that board and drops its tenant's pages |
| LeaderboardService.RefreshRestoresSync | services/leaderboard_service.py:548-581 | every board that was in sync is in sync again after one referrer changed and was refreshed |
| LeaderboardFields.SyncedBoardOnFields | services/leaderboard_service.py:431-507 | on a board in sync: who has an entry, and what it shows besides score and rank |
| LeaderboardFields.RefreshedEntry | services/leaderboard_service.py:548-581 | rebuilding one referrer on any board: the others keep all but their rank, and the referrer's entry is computed afresh while there are referrals on the board, and else gone unless it is another tenant's |
| LeaderboardFields.VisitedBoards | services/leaderboard_service.py:124-143 | a refresh visits the tenant's boards, or all of them where no tenant is given |
| LeaderboardFields.DroppedPages | services/leaderboard_service.py:53-59 | dropping pages of some tenants drops exactly theirs |
| LeaderboardCache.RankedPageIsUnique | services/leaderboard_service.py:638-675 | on a ranked board a page is determined by the table |
| LeaderboardCache.EveryPageExists | services/leaderboard_service.py:638-675 | the page query has an answer on every board, ranked or not |
| LeaderboardFields.PagesOnFields | services/leaderboard_service.py:638-675 | any page lists entries of its tenant, ranked ones first and by rank, and by points where ranks are the same or missing |
| LeaderboardFields.RankedPageOnFields | services/leaderboard_service.py:638-675 | on a ranked board a page shows exactly the ranks after its offset, up to its limit |
| LeaderboardFields.PageSize | services/leaderboard_service.py:638-675 | a page is as long as its limit and the board allow |
| LeaderboardCache.RunsAreHonest | services/leaderboard_service.py:53-61 | under any interleaving a cached page is current or about to be dropped by a rebuild under way |
| LeaderboardCache.QuietCacheIsCurrent | services/leaderboard_service.py:638-675 | whenever no rebuild is under way every cached and every returned page equals the table |
| ChannelDelivery.ChannelService.UpdateChannelDelivery | services/channel_readiness_service.py:780-827 | an update counts the attempt, settles or dead-letters, schedules the retry and writes the audit records; `ChannelFields` tells it on provider status and attempts |
| ChannelDelivery.ChannelService.RetryChannelDelivery | services/channel_readiness_service.py:521-600 | a retry is refused in the order of the code's checks, or queued, logged and posted |
| ChannelDelivery.ApplyKeepsSound | services/channel_readiness_service.py:749-861 | every step keeps posts bounded by attempts plus one if queued, and the log telling the state |
| ChannelDelivery.AtMostThreePosts | services/channel_readiness_service.py:521-600 | under any interleaving a delivery is posted at most three times |
| ChannelDelivery.FailedIsRetryable | services/channel_readiness_service.py:780-827 | FAILED means retryable with one or two attempts, DEAD_LETTERED means not retryable |
| ChannelDelivery.AuditDeterminesDeliveries | services/channel_readiness_service.py:899-916 | the log alone gives each delivery's status, attempts and posts, and holds at most two retry records |
| ChannelDelivery.ExhaustedStaysExhausted | services/channel_readiness_service.py:521-560 | once attempts are used up no later retry goes through |
| ChannelDelivery.RetryDelayBounds | services/channel_readiness_service.py:948-949 | the retry delay is monotone and lies in [60, 900] |
| ChannelFields.FailedUpdate | services/channel_readiness_service.py:780-827 | a failed update below the third attempt ends FAILED with the retry due after its delay exactly when the provider status is missing, 0, 429 or at least 500; otherwise the delivery is dead-lettered, with its reason |
| ChannelFields.OtherUpdate | services/channel_readiness_service.py:780-827 | an update that did not fail stores the reported status, counts the attempt and leaves nothing to retry |
| ChannelFields.UpdateTouches | services/channel_readiness_service.py:780-827 | an update touches its own delivery and the log, and nothing of an unknown delivery |
| ChannelFields.RetryDelays | services/channel_readiness_service.py:948-949 | the seconds before each attempt is retried: one minute, doubled each time, at most fifteen |
| ChannelFields.AnsweredPost | services/channel_readiness_service.py:488-518 | an answered post settles as sent exactly for the 2xx codes, else as a failed attempt with that code |
| ChannelFields.CallbackWords | services/channel_readiness_service.py:864-874 | what each word of a callback stands for |
| ChannelFields.LostAnswer | services/channel_readiness_service.py:481-489 | a lost answer is one fewer to come, and nothing else |
| ChannelFields.RetryAnswers | services/channel_readiness_service.py:521-560 | a retry goes through exactly for a configured, retryable delivery that failed or was dead-lettered with fewer than three attempts; each refusal has its first reason |
| ChannelFields.SecondPost | services/channel_readiness_service.py:438-600 | over a run: a dispatch, an answer that may recover, 503 among them, and a retry post the message a second time |
| ChannelFields.ThirdFailureIsFinal | services/channel_readiness_service.py:780-827 | the third failed attempt is the last, whatever the answer |
| ChannelFields.ClientErrorIsFinal | services/channel_readiness_service.py:780-827 | an answer that may not recover, 404 among them, ends the delivery at the first attempt |
| FundingLedger.ToCentsIsNearest | services/funding_service.py:29-35 | rounding to cents is to the nearest |
| FundingLedger.AcceptedAmounts | services/funding_service.py:29-35 | an amount that passes the check is non-negative, and zero exactly up to half a cent |
| FundingLedger.SucceedsExactlyWhen | services/funding_service.py:123-477 | on sound balances an operation succeeds exactly when amount, account, cover and range allow it, and the row constraints never fire |
| FundingFields.AnswersOnBalances | services/funding_service.py:123-477 | on sound balances an operation is done exactly when the amount is above half a cent and in range, the account exists and every moved balance stays non-negative and in range; it is Insufficient exactly when a moved balance would be negative |
| FundingFields.EffectOnBalances | services/funding_service.py:123-477 | what each operation adds to the three balances and to the log, and that nothing else changes |
| FundingFields.Openings | services/funding_service.py:38-79 | an account opens exactly with a rounded balance that is non-negative and in range, all of it available |
| FundingFields.OpenedAccount | services/funding_service.py:38-79 | and then the account is there with its balance, and nothing else changes |
| FundingFields.TiesGoToEven | services/funding_service.py:29-35 | an amount halfway between two cents goes to the even one |
| FundingLedger.FundingService.CreateAccount | services/funding_service.py:38-79 | an account opens with its rounded opening balance, all available |
| FundingLedger.FundingService.CreditAccount | services/funding_service.py:123-189 | credit raises current and available and logs, or changes nothing |
| FundingLedger.FundingService.DebitAccount | services/funding_service.py:192-261 | debit lowers current and available if covered, or changes nothing; `FundingFields` tells cover on the balances |
| FundingLedger.FundingService.ReserveFunds | services/funding_service.py:264-333 | reserve moves available to reserved if covered, or changes nothing; `FundingFields` tells cover on the balances |
| FundingLedger.FundingService.ReleaseReservedFunds | services/funding_service.py:336-405 | release moves reserved to available if covered, or changes nothing |
| FundingLedger.FundingService.SettleReservedFunds | services/funding_service.py:408-477 | settlement lowers current and reserved if covered, or changes nothing |
| FundingLedger.LedgerExplainsBalances | services/funding_service.py:38-477 | over every run current is reserved plus available, none negative, and each account there at the start is where its log entries take it |
| FundingLedger.EveryBalanceIsExplained | services/funding_service.py:38-477 | every account of the final state, also one opened on the way, is where its log entries take it from the start or from its opening balance |
| FundingLedger.ReplayedInTotals | services/funding_service.py:123-477 | the balances are the opening ones plus and minus the logged totals per kind |
| FundingLedger.OnlyOwnAccountMoves | services/funding_service.py:123-477 | a rejected call changes nothing, a successful one no other account |
| FundingLedger.ReserveThen | services/funding_service.py:264-477 | reserve then release restores the balances; reserve then settle equals a debit |
| LiabilityProjection.DeriveLiabilityProjection | services/liability_projection_service.py:189-349 | the collecting and adding loops yield one item per distinct reward and the sums of the items that feed each total |
| LiabilityProjection.Totals | services/liability_projection_service.py:300-319 | each total is the sum of the items that feed it |
| LiabilityProjection.RecalculateByCategory | services/liability_projection_service.py:146-176 | each category total is the sum of the category's items that feed it |
| LiabilityProjection.CollectRewards | services/liability_projection_service.py:194-231 | each key's first evidence becomes an item, every other one a warning |
| LiabilityProjection.ObligationIsSumOfCategories | services/liability_projection_service.py:146-176 | the obligation total is the sum of the three category obligations |
| LiabilityProjection.NothingIsLost | services/liability_projection_service.py:146-349 | category obligations plus reversals are all distinct reward amounts plus all commission amounts |
| LiabilityProjection.CategoryAccountsForItems | services/liability_projection_service.py:146-176 | in each category obligation plus reversed is the sum of all its items |
| LiabilityProjection.CategoriesHoldNoFunding | services/liability_projection_service.py:53-112 | category reserved, released, settled and disputed totals are always zero |
| LiabilityProjection.RepeatOnlyWarns | services/liability_projection_service.py:194-217 | repeating a reward under a key already seen adds one warning and changes no item and no total |
| LiabilityProjection.DistinctCentsDependOnKeys | services/liability_projection_service.py:194-217 | the conserved reward amount depends only on which keys occur, not on order or repetition |
| LiabilityFields.RewardAdds | services/liability_projection_service.py:62-72 | what one more piece of reward evidence adds overall: nothing if seen before, else an obligation unless reversed, and to the total of its state |
| LiabilityFields.RewardAddsIn | services/liability_projection_service.py:53-59 | and by category: to the customer's or the referrer's totals |
| LiabilityFields.SameKeyExactlyWhen | services/liability_projection_service.py:194-217 | two pieces of reward evidence count as one exactly when category, identifier, beneficiary, type, amount and currency agree as written |
| LiabilityFields.CommissionAdds | services/liability_projection_service.py:75-83 | what one more commission adds: an obligation unless reversed, and to the total of its state |
| LiabilityFields.CommissionAddsIn | services/liability_projection_service.py:146-176 | and by category: to the distributor's totals alone |
| LiabilityFields.FundingAdds | services/liability_projection_service.py:86-92 | what one more funding record adds: never an obligation, and to the total of its state alone |
| LiabilityFields.FulfilmentAdds | services/liability_projection_service.py:95-103 | what one more fulfilment attempt adds: fulfilled for a success or a skipped duplicate, failed for a failure, else nothing |
| LiabilityFields.SettlementAdds | services/liability_projection_service.py:106-112 | what one more settlement adds: disputed if it has exceptions, whatever its status; else to the total of its status |
| LiabilityFields.UnfedStates | services/liability_projection_service.py:44-112 | which statuses leave an item pending or only calculated, per section |
| LiabilityFields.OthersReachNoCategory | services/liability_projection_service.py:146-176 | funding, fulfilment and settlement reach no category |
| LiabilityOrder.OrderDecidesState | services/liability_projection_service.py:197-217 | swapping two pieces of one key worth something, one reversed and one fulfilled, moves the amount between obligation and reversed |
| LiabilityOrder.SwapKeepsTotalExactlyWhen | services/liability_projection_service.py:194-231 | swapping two neighbours anywhere keeps a total exactly when their keys differ, or the key came before, or the amount is zero, or both or neither feed the total |
| LiabilityOrder.OrderIsFreeExactlyWhen | services/liability_projection_service.py:194-231 | a total is the same for every order of the rewards exactly when no two pieces of one key, worth something, disagree on feeding it |
| LiabilityOrder.UnanimousTotalsDependOnEvidence | services/liability_projection_service.py:194-231 | without such disagreement a total depends on which evidence there is, not on order or repetition |
| LiabilityOrder.ReorderedProjectionsAgree | services/liability_projection_service.py:146-349 | projections of reordered rewards agree in every overall and category total without such disagreement |
| OutcomeRepair.RepairActions | services/outcome_money_reconciliation_service.py:122-229 | the branches of the loop give each missing step its repair or guidance, and open exceptions theirs |
| OutcomeRepair.ReadyMeans | services/outcome_money_reconciliation_service.py:84-119 | READY means evidence of all five steps and no open exception |
| OutcomeRepair.ActionsMean | services/outcome_money_reconciliation_service.py:122-229 | an action is offered exactly for a missing step or for open exceptions |
| OutcomeRepair.OfferedMeans | services/outcome_money_reconciliation_service.py:122-229 | a repair can be carried out exactly when its step is missing and its prerequisites are there |
| OutcomeRepair.WorkIsNumberOfActions | services/outcome_money_reconciliation_service.py:122-229 | the number of actions is the number of missing steps plus one for exceptions |
| OutcomeRepair.KnownContextIsRepairable | services/outcome_money_reconciliation_service.py:122-229 | with product, sponsor and distributor an outcome that is not READY has an available repair |
| OutcomeRepair.AlwaysSomethingToRepair | services/outcome_money_reconciliation_service.py:122-229 | no deadlock: a repairable outcome that is not READY has a next repair |
| OutcomeRepair.EveryRunEnds | services/outcome_money_reconciliation_service.py:122-229 | available repairs in any order end within six steps; a run that cannot go on is READY exactly if the outcome was repairable |
| OutcomeRepair.ReadyIsReachable | services/outcome_money_reconciliation_service.py:122-229 | READY can be reached exactly if the context has what the missing evidence needs |
| OutcomeRepair.StepSummaryNeverClamps | services/outcome_money_reconciliation_service.py:238-251 | a step's missing count is the number of outcomes lacking it; the clamp never acts |
| OutcomeRepair.ExceptionSummaryNeverClamps | services/outcome_money_reconciliation_service.py:331-347 | nor does the clamp of the open-exception step: its missing count is the number of outcomes without exceptions |
| OutcomeRepair.RateIsOneOnlyWhenComplete | services/outcome_money_reconciliation_service.py:232-235 | on a page a rate shows 1 only when complete and 0 only when nothing is done |
| OutcomeRepair.AttentionBreakdown | services/outcome_money_reconciliation_service.py:277-309 | the loop lists each concern that occurs with its count and owner |
| OutcomeRepair.BreakdownCountsActions | services/outcome_money_reconciliation_service.py:277-309 | for any choice of concerns the breakdown counts add up to the repair actions of all outcomes |
| OutcomeRepair.ReadyIsBothReviewsAndSettled | services/outcome_money_reconciliation_service.py:543-564 | READY exactly when both role reviews are READY and the outcome is settled |
| OutcomeRepair.ReviewMeans | services/outcome_money_reconciliation_service.py:543-564 | ATTENTION exactly if a step of the role's own lacks evidence, else ADMIN_REVIEW exactly if an exception is open, else READY |
| OutcomeRepair.ReviewsPartition | services/outcome_money_reconciliation_service.py:599-638 | ready, attention and admin counts are those of outcomes with all own evidence and no exception, lacking own evidence, and with all own evidence and an exception, and add up to all |
| OutcomePlanFields.MissingInOrder | services/outcome_money_reconciliation_service.py:84-119 | which steps are missing, in the order of the money journey |
| OutcomePlanFields.OfferedOnFields | services/outcome_money_reconciliation_service.py:122-229 | when each repair can be carried out, on the counts and the context of the outcome |
| OutcomePlanFields.ActionsOnFields | services/outcome_money_reconciliation_service.py:122-229 | every action stands for a missing step or the open exceptions, belongs to the owner of that concern, and is its repair or guidance that cannot be carried out |
| OutcomePlanFields.BreakdownOnFields | services/outcome_money_reconciliation_service.py:277-309 | every line of the breakdown names the owner of its concern and how many outcomes it concerns |
| OutcomePlanFields.ReviewsOnFields | services/outcome_money_reconciliation_service.py:543-564 | what sends an outcome to which review, for each role |
| OutcomePlanFields.RateIsNearest | services/outcome_money_reconciliation_service.py:232-235 | a rate is the nearest number of ten-thousandths, halves to the even one, and 0 of nothing |
| OutcomePlanFields.StepSummaryOnFields | services/outcome_money_reconciliation_service.py:238-251 | a step's summary counts the outcomes with its evidence and shows their rate |
| OutcomeEvidence.CommissionBounds | services/outcome_money_reconciliation_service.py:907-915 | the upper bound always holds; the lower one exactly if there is an upper bound not below it; an amount within bounds is kept |
| OutcomeEvidence.RewardRepairIsIdempotent | services/outcome_money_reconciliation_service.py:717-807 | a reward repair run twice equals one run |
| OutcomeEvidence.CommissionRepairIsIdempotent | services/outcome_money_reconciliation_service.py:810-995 | a commission repair run twice equals one run, whichever rewards the database picks |
| OutcomeEvidence.InvoiceRepairIsIdempotent | services/outcome_money_reconciliation_service.py:1134-1276 | an invoice repair run twice equals one run |
| OutcomeEvidence.SettlementRepairIsIdempotent | services/outcome_money_reconciliation_service.py:1279-1428 | a settlement repair run twice equals one run |
| OutcomeEvidence.ResolvingIsIdempotent | services/outcome_money_reconciliation_service.py:669-714 | resolving exceptions twice equals once |
| OutcomeEvidence.AfterSettling | services/outcome_money_reconciliation_service.py:1288-1317 | only rewards whose repair audit belongs elsewhere are still to settle after a run |
| OutcomeWallets.StillCreditable | services/outcome_money_reconciliation_service.py:1008-1033 | after a wallet repair a commission is due exactly if it was due and not credited |
| OutcomeWallets.WalletRepairIsIdempotentExactlyWhen | services/outcome_money_reconciliation_service.py:1008-1103 | a wallet repair run twice equals one run exactly when no two commissions due share a wallet |
| OutcomeWallets.TenantRepairIsIdempotent | services/outcome_money_reconciliation_service.py:998-1131 | with a tenant filter it always does |
| OutcomeWallets.TwoTenantsNeedTwoRuns | services/outcome_money_reconciliation_service.py:1008-1052 | without one it need not: a concrete case |
| OutcomeWallets.CreditIsExplained | services/outcome_money_reconciliation_service.py:1034-1095 | wallets grow by exactly the credits entered, each entry ending at its start plus its amount |
| OutcomeBooks.SubtotalIsLineSumExactlyWhen | services/outcome_money_reconciliation_service.py:1174-1257 | an invoice equals its lines exactly when the rounding leftovers stay within half a cent |
| OutcomeBooks.FractionsNeedNotAddUp | services/outcome_money_reconciliation_service.py:1203-1206 | an invoice created over two unbilled rewards of 0.4 cents does not equal its lines |
| OutcomeBooks.NoSecondLine | services/outcome_money_reconciliation_service.py:1163-1173 | billing gives a reward its first line or none |
| OutcomeBooks.NoSecondSettlement | services/outcome_money_reconciliation_service.py:1288-1394 | settling gives a billed reward its first SETTLED row or none |
| OutcomeBooks.RunsKeepOrder | services/outcome_money_reconciliation_service.py:669-1428 | any run of repairs keeps rewards and commissions unique, no reward billed or settled twice, invoices equal to their lines, and wallet growth equal to the credits |
| OutcomeTables.Tables.CreateRewardEvidence | services/outcome_money_reconciliation_service.py:717-807 | the insert on the tables is the specified update |
| OutcomeTables.Tables.CreateCommissionEvidence | services/outcome_money_reconciliation_service.py:810-995 | the insert on the tables is the specified update for an eligible reward |
| OutcomeTables.Tables.CreateWalletEvidence | services/outcome_money_reconciliation_service.py:998-1131 | reading what is due and crediting it is the specified update, one commission per wallet |
| OutcomeTables.Tables.CreateInvoiceEvidence | services/outcome_money_reconciliation_service.py:1134-1276 | collecting unbilled rewards, totalling and inserting lines is the specified update |
| OutcomeTables.Tables.CreateSettlementEvidence | services/outcome_money_reconciliation_service.py:1279-1428 | audits and SETTLED rows for what can be settled, nothing else |
| OutcomeTables.Tables.ResolveSettlementExceptions | services/outcome_money_reconciliation_service.py:669-714 | exactly the referral's exceptions are closed, and the open ones counted |
| OutcomeFields.CreatedReward | services/outcome_money_reconciliation_service.py:717-807 | a reward repair inserts one reward of the policy's kind and amount, unless the outcome is not in hand, no policy pays, or such a reward is there |
| OutcomeFields.NoPolicyNoReward | services/outcome_money_reconciliation_service.py:717-807 | where no policy pays nothing is inserted |
| OutcomeFields.RawExactlyWhen | services/outcome_money_reconciliation_service.py:893-906 | what a rule makes of a reward before the bounds: its fixed amount, its rate of the reward rounded away from zero, or both |
| OutcomeFields.ShareIsProduct | services/outcome_money_reconciliation_service.py:893-906 | the share of a reward is its amount times the rate, none without a rate |
| OutcomeFields.BoundedExactlyWhen | services/outcome_money_reconciliation_service.py:907-915 | what the bounds make of it |
| OutcomeFields.EarnsExactlyWhen | services/outcome_money_reconciliation_service.py:810-880 | which rewards can earn a commission: the referral's own, under an active link, with something to earn |
| OutcomeFields.CreatedCommission | services/outcome_money_reconciliation_service.py:810-995 | a commission repair inserts what a picked reward earns, on the rule's account, uncredited, unless the outcome is not in hand or a commission names it |
| OutcomeFields.DueExactlyWhen | services/outcome_money_reconciliation_service.py:1008-1033 | a commission is due exactly when it stems from the referral, passes the filter, has an active wallet, and no movement of its tenant names the referral |
| OutcomeFields.CreditedCommission | services/outcome_money_reconciliation_service.py:1034-1095 | crediting a commission: its wallet grows by it on both balances, the movement says so, and the commission is marked |
| OutcomeFields.BilledRewards | services/outcome_money_reconciliation_service.py:1143-1173 | the rewards an invoice bills: the referral's own without a line, in order |
| OutcomeFields.CreatedInvoice | services/outcome_money_reconciliation_service.py:1134-1276 | an invoice repair files one invoice for tenant and sponsor over the rounded total of the unbilled rewards, with a line for each |
| OutcomeFields.TakenUpRewards | services/outcome_money_reconciliation_service.py:1288-1317 | the rewards a settlement repair takes up: the referral's own that pass the filter, billed and not settled |
| OutcomeFields.CreatedSettlements | services/outcome_money_reconciliation_service.py:1279-1428 | a settlement repair audits every reward it takes up that has no audit, and settles each whose audit is its own |
| OutcomeFields.ResolvedException | services/outcome_money_reconciliation_service.py:669-714 | an exception is closed exactly if it is on a settlement of one of the referral's rewards that passes the filter |
| OutcomeFields.ResolvedCount | services/outcome_money_reconciliation_service.py:669-714 | the reported number of resolved exceptions is that of those the command closed |
| OutcomeFields.MoneyMapCounts | services/outcome_money_reconciliation_service.py:350-540 | what the money map counts for a completed referral, on the rows of the six tables |
| OutcomeFields.MoneyMapContext | services/outcome_money_reconciliation_service.py:350-540 | the product, sponsor and distributor the map shows |
| OutcomeLink.RewardRepairPerforms | services/outcome_money_reconciliation_service.py:394-403 | on the money map a reward repair brings evidence exactly if a policy pays, and changes nothing else |
| OutcomeLink.CommissionRepairPerforms | services/outcome_money_reconciliation_service.py:404-417 | a commission repair brings evidence exactly if a reward earns one |
| OutcomeLink.WalletRepairPerforms | services/outcome_money_reconciliation_service.py:418-431 | a wallet repair, with any tenant filter or none, brings evidence exactly if it credits a commission of the referral's own tenant |
| OutcomeLink.TenantWalletRepairPays | services/outcome_money_reconciliation_service.py:1008-1033 | with the own tenant as filter it does so exactly if a commission is due on an active wallet |
| OutcomeLink.InvoiceRepairPerforms | services/outcome_money_reconciliation_service.py:432-443 | an offered invoice repair always brings evidence |
| OutcomeLink.SettlementRepairPerforms | services/outcome_money_reconciliation_service.py:444-456 | a settlement repair brings evidence exactly if a billed reward can be settled |
| OutcomeLink.ResolvingPerforms | services/outcome_money_reconciliation_service.py:457-471 | resolving leaves open exactly the exceptions on rewards of tenants the filter leaves out, and clears the outcome exactly if there are none |
| OutcomeLink.EffectiveRunEndsReady | services/outcome_money_reconciliation_service.py:84-229 | on the tables at most six effective commands are possible, in any order and with any filters, and READY comes exactly with the last |
| OutcomeReach.NextEffectiveCommand | services/outcome_money_reconciliation_service.py:394-471 | while an outcome is supplied but not READY some command is effective and leaves it supplied |
| OutcomeReach.WasSupplied | services/outcome_money_reconciliation_service.py:394-471 | no effective command supplies what was not supplied before it |
| OutcomeReach.ReadyReachableExactlyWhenSupplied | services/outcome_money_reconciliation_service.py:717-1428 | effective commands can take a completed outcome to READY exactly when policy, product, rule, wallet and audits supply what is missing |
| Missions.MissionService.ApplyEvent | services/mission_service.py:585-785 | the loop over matching missions creates rows, counts, completes and pays as specified, and ends at a refused insert or a crash; `MissionFields` tells which missions match |
| Missions.GoesOnExactlyWhen | services/mission_service.py:618-745 | an event gets to a mission exactly when rows are accepted, no crash comes before and no refused bonus is due before, as things stood when it arrived |
| Missions.EventPaysExactlyWhen | services/mission_service.py:659-745 | an event pays a mission exactly when its bonus is due, the event gets there uncut and the table accepts the bonus |
| Missions.RunTracks | services/mission_service.py:585-785 | over every run, refusals and crashes included, progress, completion, mark and bonus are those of the events that reached the mission |
| Missions.BonusPaidExactlyWhen | services/mission_service.py:585-785 | with crashes anywhere and inserts accepted, exactly one bonus if enough events reached the mission and the completing one was not cut off before paying, else none |
| Missions.MissionsCountEvents | services/mission_service.py:585-785 | where the tables accept the inserts and nothing crashes: progress is the smaller of goal and matching events, complete exactly at the goal, one bonus exactly if complete and worth one; `MissionFields.CountsOwnEvents` tells the events by type |
| MissionFields.MatchingOneByOne | services/mission_service.py:604-610 | an event is for the missions of its own type that are not milestone missions, in the order of the list |
| MissionFields.CountsOwnEvents | services/mission_service.py:585-785 | where the tables accept the inserts and nothing crashes: each mission but a milestone mission stands at the smaller of its goal and the number of arrivals of its own event type, a milestone mission at nothing; complete exactly at the goal, one bonus exactly if complete and worth one |
| MissionFields.OtherEventsLeaveMission | services/mission_service.py:604-610 | an event of another type, or for a milestone mission, leaves the mission's row and rewards as they were, whatever is refused and wherever a crash comes |
| MissionFields.RunsPayPromised | services/mission_service.py:686-720 | over any run every bonus paid is one of the missions' own, to the referrer, in the promised amount |
| MissionFields.AdvancedRow | services/mission_service.py:640-684 | what an event does to a mission's row, the completion time included |
| MissionFields.BonusOnFields | services/mission_service.py:618-745 | whatever the row and the rewards: the bonus is inserted exactly on an uncut completion of a mission worth one that neither the row's mark nor a reward says was paid, and then the row is marked |
| MissionFields.DisplayedStatus | services/mission_service.py:37-44 | the displayed status: available before the first event, in progress below the goal, completed at it |
| Missions.RefusedBonusEndsTheEvent | dp/migrations/034_reward_update.sql:8-9 | a refused bonus leaves its mission complete and unpaid and keeps the event from the next mission: a concrete event |
| Missions.RefusedBonusesAreNeverPaid | dp/migrations/034_reward_update.sql:8-9 | where bonuses are refused no run ever pays one |
| Missions.RefusedRowsChangeNothing | dp/migrations/005_gamification.sql:10-17 | where progress rows are refused no run changes anything |
| Missions.RunsAreBonusSafe | services/mission_service.py:659-745 | over any run, refusals and crashes included, at most one bonus, and only for complete missions |
| Missions.BonusNeverConflicts | services/mission_service.py:686-720 | the bonus insert never meets an existing bonus |
| Missions.LostBonusStaysLost | services/mission_service.py:662-785 | no run of later events touches a complete mission or pays a bonus it missed |
| Missions.StatusMatchesEvents | services/mission_service.py:37-44 | the displayed status is COMPLETED exactly at the goal and AVAILABLE exactly before the first event |
| CircuitBreaker.Breaker.CanExecuteProvider | services/fulfilment_circuit_breaker_service.py:52-78 | a check admits by state and cooldown and may half-open the circuit |
| CircuitBreaker.Breaker.RecordProviderSuccess | services/fulfilment_circuit_breaker_service.py:81-90 | success closes and clears the circuit |
| CircuitBreaker.Breaker.RecordProviderFailure | services/fulfilment_circuit_breaker_service.py:93-107 | failure counts and opens at the threshold |
| CircuitBreaker.Breaker.ResetCircuit | services/fulfilment_circuit_breaker_service.py:40-49 | reset gives a fresh circuit |
| CircuitBreaker.BreakerFollowsRuleExactlyWhen | services/fulfilment_circuit_breaker_service.py:52-107 | whatever the clock did, a call is admitted as that rule says exactly when, once a check has half-opened the circuit, the call too comes after the cooldown |
| CircuitBreaker.BreakerRefinesHistory | services/fulfilment_circuit_breaker_service.py:52-107 | with a clock that does not run backwards, a call is admitted exactly when fewer than five failures followed the last success or reset, or five minutes have passed since the last failure |
| BreakerFields.AdmittedExactlyWhen | services/fulfilment_circuit_breaker_service.py:52-107 | on every history a call is admitted exactly with fewer than five failures since the last success or reset, or 300 seconds after the last failure, or once a check has found the circuit cooled down |
| BreakerFields.AfterFailures | services/fulfilment_circuit_breaker_service.py:52-107 | after failures at some times a call is admitted exactly if there were fewer than five or the last is 300 seconds ago |
| BreakerFields.AfterRelief | services/fulfilment_circuit_breaker_service.py:40-90 | after a success or a reset a call is admitted whatever came before |
| BreakerFields.FailedProbe | services/fulfilment_circuit_breaker_service.py:93-107 | a call admitted on probation that fails closes the door for another 300 seconds |
| BreakerFields.OthersStay | services/fulfilment_circuit_breaker_service.py:27-49 | calls on one provider leave the circuits of the others alone |
| CircuitBreaker.ChecksAreInvisible | services/fulfilment_circuit_breaker_service.py:52-78 | checks leave no trace in that rule |
| CircuitBreaker.BackwardClockBreaksRefinement | services/fulfilment_circuit_breaker_service.py:52-78 | with a clock running backwards the rule fails: a concrete history |
| ProviderRouting.ResolveProvider | services/fulfilment_provider_routing_service.py:33-67 | routing asks the primary and, only if refused, the fallback; it selects the first admitted one, or the primary as a last resort, and each check may half-open its circuit |
| ProviderRouting.RoutingFollowsRuleExactlyWhen | services/fulfilment_provider_routing_service.py:33-67 | whatever the clock did, routing follows the history rule exactly when the call on the primary, and that on the fallback if asked, does not come before the end of a cooldown an earlier check saw end |
| ProviderRouting.RoutingRefinesHistory | services/fulfilment_provider_routing_service.py:33-67 | with a clock that does not run backwards it always follows the rule, although its checks change circuits |
| BreakerFields.Fallbacks | services/fulfilment_provider_routing_service.py:18-31 | cash, voucher and eBucks providers have their secondary, nothing else has one |
| BreakerFields.Routes | services/fulfilment_provider_routing_service.py:33-66 | routing on the two circuits: the primary while admitted, else the secondary while admitted, else the primary as a last resort |

## Left out

- Concurrency of journey handling: the row is loaded without a lock, so handler runs on one referral are taken to be sequential.
- Trimming and letter case of codes, tenants and customer numbers: values are compared as already normalised; liability evidence keeps spelling and meaning apart because its duplicate key does.
- Progress percentages, bands and display texts: an arbitrary table per journey.
- Base reward amounts and badges of the journey handler, writing the progress event log (which events reach it, and its own check on event types), processing audit rows and leaderboard publishing: only the decision to hand a referral on for rewards is modelled.
- JourneyStore.ReferralStore.HandleReferralProgressRecorded: of the constraints on the row only the one on the status is modelled; states the transactional part; what runs after the commit is not modelled.
- JourneyRuns.RedeliverySettles: gives a number of passes that is always enough, not the least one.
- LeaderboardRebuild.IncrementalMatchesScratch: hashes are an arbitrary injective function of the referrer and display names a fixed function; the loop over all boards of `rebuild_all_leaderboards` only repeats the single-board rebuild.
- LeaderboardCache.QuietCacheIsCurrent: a rebuild that crashes counts as still under way; page reads and cache fills are one step; expiry may happen at any time.
- The page query orders ties arbitrarily, so a page is a relation until the board is ranked.
- ChannelDelivery.AtMostThreePosts: consent, channel configuration and signing are checked before a delivery is queued and are not modelled; payloads and redaction neither.
- FundingLedger.LedgerExplainsBalances: references, metadata and the balance columns copied into each log entry are not modelled; accounts are never closed.
- LiabilityProjection.DeriveLiabilityProjection: amounts are exact decimals, so the digits kept of very large ones and the sign of a zero in the duplicate key are not modelled; completeness labels, passed-on warnings and redactions are copied by the code and left out.
- OutcomeRepair.EveryRunEnds: on the planner alone a repair is assumed to succeed; `OutcomeLink` says when the commands do.
- OutcomeEvidence.CreateReward: which of several policies applies is an ordered query; the policy in force is an input. The same holds for commission rules.
- OutcomeEvidence.CreateSettlement: the audit row is reduced to its correlation; provider references and texts are left out.
- Widths of money columns outside the funding tables, and collisions of invoice numbers made in the same millisecond.
- JourneyRebuild.RebuildMatchesLiveExactlyWhen: the log holds the events of one referral in order of arrival, with receipt times in that order; snapshots and completion instants depend on the time of the rebuild and are not compared.
- Missions.MissionsCountEvents: tables that refuse an insert and crashes have results of their own; portfolio missions, display audits and the grouping of mission lists for display are left out; missions are fixed while events arrive.
- CircuitBreaker.BreakerRefinesHistory: circuits live in one process, as in the code; metrics and logging are left out.
- Queues, HTTP providers, campaign readiness, link inspection, data quality, failure reprocessing and fulfilment replay.
