/** Journey progress never costs leaderboard points. */
module LeaderboardJourney {
  import opened Prelude
  import opened JourneyDefinitions
  import opened JourneyMachine
  import opened JourneyStore
  import opened JourneyLive
  import opened LeaderboardScoring

  /** Where a bound row stands in its journey. */
  ghost predicate StandsAt(row: Row, d: JourneyDefinition, rank: nat) {
    && row.journeyCode.Some? && row.journeyVersion.Some?
    && GetJourneyDefinition(row.journeyCode.value, row.journeyVersion.value) == Some(d)
    && TimedCore(d) && rank < |d.coreSequence| && row.status == Some(d.coreSequence[rank])
  }

  /** A processed event leaves the row bound, at a milestone not below the one before. */
  lemma ProcessedRowStands(row: Row, ev: ProgressEvent, setting: Setting) returns (d: JourneyDefinition, r: nat)
    requires RowOk(row) && HandleRow(row, ev, setting).1.Processed?
    ensures StandsAt(HandleRow(row, ev, setting).0, d, r)
    ensures StatusRank(row.status, d.coreSequence) <= r
    ensures row.journeyCode.Some? && row.journeyVersion.Some? ==>
              GetJourneyDefinition(row.journeyCode.value, row.journeyVersion.value) == Some(d)
  {
    var code, version := EffectiveCode(row, ev), EffectiveVersion(row, ev);
    d := GetJourneyDefinition(code, version).value;
    var i := InstanceBehind(row, ev);
    var j := Step(i, ArrivalOf(ev), d, setting.progress(code));
    ProcessedBinds(row, ev, setting);
    HandledEventMirrorsReplay(row, i, ev, d, setting);
    StepKeeps(i, ArrivalOf(ev), d, setting.progress(code));
    r := MirrorStands(HandleRow(row, ev, setting).0, j, d);
  }

  /** A bound row stands where the instance it mirrors stands. */
  lemma MirrorStands(row: Row, j: Instance, d: JourneyDefinition) returns (r: nat)
    requires TimedCore(d) && Consistent(j, d) && Mirrors(row, j) && j.status.Some?
    requires row.journeyCode.Some? && row.journeyVersion.Some?
    requires GetJourneyDefinition(row.journeyCode.value, row.journeyVersion.value) == Some(d)
    ensures StandsAt(row, d, r) && StatusRank(j.status, d.coreSequence) == r
  {
    r := CurrentRank(d, j.stamps);
    RankOfMilestone(d, j.stamps);
  }

  lemma MilestonesBelowAreHeld(row: Row, d: JourneyDefinition, r: nat, e: Event)
    requires StandsAt(row, d, r) && e in d.coreSequence && IndexOf(d.coreSequence, e) <= r
    ensures HasMilestone(row, Some(Milestone(e)))
  {
    RanksOfDistinct(d.coreSequence);
  }

  lemma UntouchedHoldsIn(row: Row, e: Event, d: JourneyDefinition)
    requires Untouched(row) && TimedCore(d) && HeldIn(row, e, d)
    ensures e == Validated && row.status == Some(Validated)
  {
    StartIsFirst(d);
  }

  /** The only milestone an untouched row can hold is the start. */
  lemma UntouchedHoldsOnlyStart(row: Row, e: Event)
    requires Untouched(row) && HasMilestone(row, Some(Milestone(e)))
    ensures e == Validated && row.status == Some(Validated)
  {
    var journey := if row.journeyCode.Some? then row.journeyCode.value else DEFAULT_JOURNEY_CODE;
    var version := if row.journeyVersion.Some? then row.journeyVersion.value else DEFAULT_JOURNEY_VERSION;
    if row.status != Some(e) {
      ShippedJourneysAreStorable(journey, version);
      UntouchedHoldsIn(row, e, GetJourneyDefinition(journey, version).value);
    }
  }

  lemma StartIsFirst(d: JourneyDefinition)
    requires TimedCore(d)
    ensures IndexOf(d.coreSequence, Validated) == 0
    ensures forall e | e in d.coreSequence && IndexOf(d.coreSequence, e) <= 0 :: e == Validated
  {
  }

  /** A milestone once held is held after every handled event, including the event that first binds
      the journey. */
  lemma MilestoneOnceHeldIsKept(row: Row, ev: ProgressEvent, setting: Setting, m: Option<MilestoneCode>)
    requires RowOk(row) && HasMilestone(row, m)
    ensures HasMilestone(HandleRow(row, ev, setting).0, m)
  {
    var (row', outcome) := HandleRow(row, ev, setting);
    if outcome.Processed? {
      HandleRowPreserves(row, ev, setting);
      if m.value != CompletionBonus {
        var e := m.value.event;
        var d, r := ProcessedRowStands(row, ev, setting);
        if Untouched(row) {
          UntouchedHoldsOnlyStart(row, e);
          StartIsFirst(d);
          MilestonesBelowAreHeld(row', d, r, e);
        } else {
          BoundMilestoneIsKept(row, row', d, r, e);
        }
      }
    }
  }

  lemma BoundMilestoneIsKept(row: Row, row': Row, d: JourneyDefinition, r: nat, e: Event)
    requires row.journeyCode.Some? && row.journeyVersion.Some?
    requires GetJourneyDefinition(row.journeyCode.value, row.journeyVersion.value) == Some(d)
    requires row.status.Some? ==> row.status.value in d.coreSequence
    requires StandsAt(row', d, r) && StatusRank(row.status, d.coreSequence) <= r
    requires Submap(row.stamps, row'.stamps) && HasMilestone(row, Some(Milestone(e)))
    ensures HasMilestone(row', Some(Milestone(e)))
  {
    RanksOfDistinct(d.coreSequence);
    if row.status == Some(e) { MilestonesBelowAreHeld(row', d, r, e); }
  }

  // ----- from milestones to points -----

  ghost predicate NonNegative(rules: seq<Rule>) {
    forall k | 0 <= k < |rules| :: rules[k].value >= 0
  }

  lemma {:induction false} RowPointsNeverDrop(rules: seq<Rule>, row: Row, ev: ProgressEvent, setting: Setting,
                                              bonus: bool)
    requires RowOk(row) && NonNegative(rules)
    ensures RowPoints(rules, row, bonus) <= RowPoints(rules, HandleRow(row, ev, setting).0, bonus)
  {
    if rules != [] {
      var row', rule := HandleRow(row, ev, setting).0, rules[|rules| - 1];
      RowPointsNeverDrop(rules[..|rules| - 1], row, ev, setting, bonus);
      HandleRowPreserves(row, ev, setting);
      if HasMilestone(row, rule.milestone) { MilestoneOnceHeldIsKept(row, ev, setting, rule.milestone); }
    }
  }

  lemma {:induction false} RowPointsNonNegative(rules: seq<Rule>, row: Row, bonus: bool)
    requires NonNegative(rules)
    ensures RowPoints(rules, row, bonus) >= 0
  {
    if rules != [] { RowPointsNonNegative(rules[..|rules| - 1], row, bonus); }
  }

  lemma SelectLast(b: Board, u: Option<Ucn>, all: seq<Referral>)
    requires all != []
    ensures var last, rest := all[|all| - 1], Select(b, u, all[..|all| - 1]);
            Select(b, u, all) == if Admits(u, last.row.referrer) && OnBoard(b, last) then rest + [last] else rest
  {
  }

  lemma RulePointsLast(rules: seq<Rule>, rest: seq<Referral>, last: Referral, bonus: bool)
    ensures RulePoints(rules, rest + [last], bonus) == RulePoints(rules, rest, bonus)
            + RowPoints(rules, last.row, bonus)
  {
    assert (rest + [last])[..|rest|] == rest;
  }

  /** The points one referral earns a referrer on a board. */
  function Share(rules: seq<Rule>, b: Board, u: Option<Ucn>, r: Referral, bonus: bool): int {
    if Admits(u, r.row.referrer) && OnBoard(b, r) then RowPoints(rules, r.row, bonus) else 0
  }

  lemma PointsByShare(rules: seq<Rule>, b: Board, u: Option<Ucn>, all: seq<Referral>, bonus: bool)
    requires all != []
    ensures RulePoints(rules, Select(b, u, all), bonus)
         == RulePoints(rules, Select(b, u, all[..|all| - 1]), bonus) + Share(rules, b, u, all[|all| - 1], bonus)
  {
    SelectLast(b, u, all);
    RulePointsLast(rules, Select(b, u, all[..|all| - 1]), all[|all| - 1], bonus);
  }

  lemma ShareNeverDrops(rules: seq<Rule>, b: Board, u: Option<Ucn>, r: Referral, ev: ProgressEvent, setting: Setting,
                        bonus: bool)
    requires RowOk(r.row) && NonNegative(rules)
    ensures var later := Referral(r.tenant, HandleRow(r.row, ev, setting).0);
            Share(rules, b, u, r, bonus) <= Share(rules, b, u, later, bonus)
  {
    HandleRowPreserves(r.row, ev, setting);
    RowPointsNeverDrop(rules, r.row, ev, setting, bonus);
    RowPointsNonNegative(rules, HandleRow(r.row, ev, setting).0, bonus);
  }

  /** Replacing one referral by another that earns no less. */
  lemma {:induction false} ReplacingRaisesPoints(rules: seq<Rule>, b: Board, u: Option<Ucn>, all: seq<Referral>, k: nat,
                                                 r: Referral, bonus: bool)
    requires k < |all| && Share(rules, b, u, all[k], bonus) <= Share(rules, b, u, r, bonus)
    ensures RulePoints(rules, Select(b, u, all), bonus) <= RulePoints(rules, Select(b, u, all[k := r]), bonus)
    decreases |all|
  {
    var n, later := |all| - 1, all[k := r];
    PointsByShare(rules, b, u, all, bonus);
    PointsByShare(rules, b, u, later, bonus);
    if k == n {
      assert later[..n] == all[..n];
    } else {
      assert later[..n] == all[..n][k := r];
      ReplacingRaisesPoints(rules, b, u, all[..n], k, r, bonus);
    }
  }

  /** Points of the referrals on a board, after the handler has worked on one of all referrals. A
      referral may enter the board by the event that binds its journey; it never leaves. */
  lemma BoardPointsNeverDrop(rules: seq<Rule>, b: Board, u: Option<Ucn>, all: seq<Referral>, k: nat, ev: ProgressEvent,
                             setting: Setting, bonus: bool)
    requires k < |all| && RowOk(all[k].row) && NonNegative(rules)
    ensures var later := all[k := Referral(all[k].tenant, HandleRow(all[k].row, ev, setting).0)];
            RulePoints(rules, Select(b, u, all), bonus) <= RulePoints(rules, Select(b, u, later), bonus)
  {
    ShareNeverDrops(rules, b, u, all[k], ev, setting, bonus);
    ReplacingRaisesPoints(rules, b, u, all, k, Referral(all[k].tenant, HandleRow(all[k].row, ev, setting).0), bonus);
  }

  /** An event for one of the referrals; an index outside the list names no stored referral, and the
      handler then stops at the missing row. */
  datatype Delivery = Delivery(referral: nat, event: ProgressEvent)

  function Handled(all: seq<Referral>, delivery: Delivery, setting: Setting): (later: seq<Referral>) {
    if delivery.referral < |all| then
      var r := all[delivery.referral];
      all[delivery.referral := Referral(r.tenant, HandleRow(r.row, delivery.event, setting).0)]
    else all
  }

  /** The referrals after deliveries to any of them, in any interleaving. */
  function HandledAll(all: seq<Referral>, deliveries: seq<Delivery>, setting: Setting): (later: seq<Referral>)
    decreases |deliveries|
  {
    if deliveries == [] then all else HandledAll(Handled(all, deliveries[0], setting), deliveries[1..], setting)
  }

  ghost predicate AllRowsOk(all: seq<Referral>) {
    forall k | 0 <= k < |all| :: RowOk(all[k].row)
  }

  lemma DeliveryKeepsRowsOk(all: seq<Referral>, delivery: Delivery, setting: Setting)
    requires AllRowsOk(all)
    ensures AllRowsOk(Handled(all, delivery, setting))
  {
    if delivery.referral < |all| { HandleRowKeepsOk(all[delivery.referral].row, delivery.event, setting); }
  }

  lemma DeliveryRaisesPoints(rules: seq<Rule>, b: Board, u: Option<Ucn>, all: seq<Referral>, delivery: Delivery,
                             setting: Setting, bonus: bool)
    requires AllRowsOk(all) && NonNegative(rules)
    ensures RulePoints(rules, Select(b, u, all), bonus)
         <= RulePoints(rules, Select(b, u, Handled(all, delivery, setting)), bonus)
  {
    if delivery.referral < |all| {
      BoardPointsNeverDrop(rules, b, u, all, delivery.referral, delivery.event, setting, bonus);
    }
  }

  /** A referrer's configured score on a board never decreases over any interleaving of events on all
      the referrals, for fixed rules without negative values. */
  lemma {:induction false} ConfiguredScoreNeverDrops(rules: seq<Rule>, b: Board, u: Option<Ucn>, all: seq<Referral>,
                                                     deliveries: seq<Delivery>, setting: Setting, bonus: bool)
    requires AllRowsOk(all) && NonNegative(rules)
    ensures RulePoints(rules, Select(b, u, all), bonus)
         <= RulePoints(rules, Select(b, u, HandledAll(all, deliveries, setting)), bonus)
    decreases |deliveries|
  {
    if deliveries != [] {
      DeliveryRaisesPoints(rules, b, u, all, deliveries[0], setting, bonus);
      DeliveryKeepsRowsOk(all, deliveries[0], setting);
      ConfiguredScoreNeverDrops(rules, b, u, Handled(all, deliveries[0], setting), deliveries[1..], setting, bonus);
    }
  }
}
