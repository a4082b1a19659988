/** Live handling against in-memory replay, and what every run of the handler keeps. */
module JourneyLive {
  import opened Prelude
  import opened JourneyDefinitions
  import opened JourneyMachine
  import opened JourneyRuns
  import opened JourneyStore

  /** `row` is what the table keeps of the instance `i`. */
  ghost predicate Mirrors(row: Row, i: Instance) {
    && row.status == i.status
    && row.isComplete == i.isComplete
    && row.completedAt == i.completedAt
    && row.snapshot == i.snapshot
    && row.stamps == Persisted(i.stamps)
  }

  /** Journeys whose dropped timestamps are never needed: either there are none, or the status alone
      says which milestones are done. */
  ghost predicate Storable(d: JourneyDefinition) {
    WellFormed(d) && (Fields(d) <= PERSISTED || Linear(d))
  }

  lemma BankingIsStorable()
    ensures Storable(BANKING_TRANSACTIONAL_V1)
  {
    BankingIsWellFormed();
    BankingFields();
  }

  lemma LinearIsStorable(d: JourneyDefinition)
    requires Linear(d)
    ensures Storable(d)
  {
  }

  /** What holds of the three shipped journeys holds of every registered one. */
  lemma RegisteredIsShipped(ok: JourneyDefinition -> bool, code: JourneyCode, version: JourneyVersion)
    requires ok(BANKING_TRANSACTIONAL_V1) && ok(INSURANCE_POLICY_V1) && ok(RETAIL_LOYALTY_V1)
    ensures GetJourneyDefinition(code, version).Some? ==> ok(GetJourneyDefinition(code, version).value)
  {
  }

  lemma ShippedJourneysAreStorable(code: JourneyCode, version: JourneyVersion)
    requires GetJourneyDefinition(code, version).Some?
    ensures Storable(GetJourneyDefinition(code, version).value)
  {
    var ok := (d: JourneyDefinition) => Storable(d);
    BankingIsStorable();
    InsuranceIsLinear();
    LinearIsStorable(INSURANCE_POLICY_V1);
    RetailIsLinear();
    LinearIsStorable(RETAIL_LOYALTY_V1);
    RegisteredIsShipped(ok, code, version);
  }

  lemma PersistedTwice(s: Stamps)
    ensures Persisted(Persisted(s)) == Persisted(s)
    ensures Submap(Persisted(s), s)
  {
  }

  // ----- one event -----

  /** A linear journey at milestone r accepts exactly its next milestone, whatever timestamps of
      lower milestones are known. */
  lemma LinearAccepts(status: Option<Event>, s: Stamps, e: Event, d: JourneyDefinition)
    requires Linear(d)
    requires status == None ==> s == map[]
    requires status.Some? ==> status == Some(DeriveMilestone(d, s))
    ensures Classify(status, s, e, d) == Valid <==> e in Allowed(d, status)
  {
    LinearHasNoSideEvents(d);
    ValidWithoutSideEvents(status, s, e, d);
    if status.Some? { NextIsUnstamped(s, e, d); }
  }

  lemma ValidWithoutSideEvents(status: Option<Event>, s: Stamps, e: Event, d: JourneyDefinition)
    requires SideEvents(d) == {}
    ensures Classify(status, s, e, d) == Valid <==> e in Allowed(d, status) && !Stamped(d, s, e)
  {
  }

  lemma LinearHasNoSideEvents(d: JourneyDefinition)
    requires SingleFile(d)
    ensures SideEvents(d) == {}
  {
  }

  lemma NextIsUnstamped(s: Stamps, e: Event, d: JourneyDefinition)
    requires SingleFile(d)
    ensures e in Allowed(d, Some(DeriveMilestone(d, s))) ==> !Stamped(d, s, e)
  {
    var r := CurrentRank(d, s);
    if r < |d.coreSequence| - 1 { assert Allowed(d, Some(d.coreSequence[r])) == {d.coreSequence[r + 1]}; }
  }

  /** Knowing fewer timestamps than there are never turns an acceptable event down. */
  lemma LinearAcceptsWithFewer(status: Option<Event>, s: Stamps, t: Stamps, e: Event, d: JourneyDefinition)
    requires Linear(d) && Submap(t, s)
    requires status == None ==> s == map[]
    requires status.Some? ==> status == Some(DeriveMilestone(d, s))
    ensures Classify(status, t, e, d) == Valid <==> Classify(status, s, e, d) == Valid
  {
    LinearAccepts(status, s, e, d);
    assert SideEvents(d) == {};
  }

  lemma AcceptanceAgrees(row: Row, i: Instance, e: Event, d: JourneyDefinition)
    requires Storable(d) && Consistent(i, d) && Mirrors(row, i)
    ensures Accepts(Load(row), e, d) == Accepts(i, e, d)
  {
    PersistedTwice(i.stamps);
    if Fields(d) <= PERSISTED {
      assert Persisted(i.stamps) == i.stamps;
    } else {
      LinearAcceptsWithFewer(i.status, i.stamps, Persisted(i.stamps), e, d);
    }
  }

  lemma PersistedAfterApply(s: Stamps, e: Event, at: Time, d: JourneyDefinition)
    requires !Stamped(d, s, e) && Funded !in d.timestampField && (e == Validated || e in d.timestampField)
    ensures Persisted(ApplyStamps(Persisted(s), e, at, d)) == Persisted(ApplyStamps(s, e, at, d))
  {
  }

  /** In a linear journey the derived values after an accepted event depend on the event alone. */
  lemma LinearDerives(s: Stamps, t: Stamps, e: Event, at: Time, d: JourneyDefinition)
    requires Linear(d) && Submap(t, s) && e in d.coreSequence && e in d.timestampField
    requires CurrentRank(d, s) < IndexOf(d.coreSequence, e)
    ensures DeriveMilestone(d, ApplyStamps(s, e, at, d)) == DeriveMilestone(d, ApplyStamps(t, e, at, d))
    ensures DeriveComplete(d, ApplyStamps(s, e, at, d)) == DeriveComplete(d, ApplyStamps(t, e, at, d))
  {
    MoreStampsHigherRank(d, t, s);
    CoreEventRises(d, s, e, at);
    CoreEventRises(d, t, e, at);
    LinearComplete(d, ApplyStamps(s, e, at, d));
    LinearComplete(d, ApplyStamps(t, e, at, d));
  }

  lemma LinearComplete(d: JourneyDefinition, s: Stamps)
    requires Linear(d)
    ensures DeriveComplete(d, s) <==> CurrentRank(d, s) == |d.coreSequence| - 1
  {
    var last := d.coreSequence[|d.coreSequence| - 1];
    assert DeriveComplete(d, s) <==> Stamped(d, s, last);
  }

  /** Accepting an event on the stored row and on the instance in memory leads to the same status,
      completion, completion time and snapshot, and to the stored part of the same timestamps. */
  lemma AcceptedStepMirrors(row: Row, i: Instance, a: Arrival, d: JourneyDefinition, p: ProgressDefinition)
    requires Storable(d) && Consistent(i, d) && Mirrors(row, i) && Accepts(i, a.event, d)
    ensures var k, j := Step(Load(row), a, d, p), Step(i, a, d, p);
            && Accepts(Load(row), a.event, d)
            && k.status == j.status && k.isComplete == j.isComplete && k.completedAt == j.completedAt
            && k.snapshot == j.snapshot && Persisted(k.stamps) == Persisted(j.stamps)
            && (Fields(d) <= PERSISTED ==> k == j)
  {
    AcceptanceAgrees(row, i, a.event, d);
    PersistedTwice(i.stamps);
    if Fields(d) <= PERSISTED {
      assert Persisted(i.stamps) == i.stamps;
    } else {
      AcceptedMeans(i, a.event, d);
      LinearStepMirrors(i, Persisted(i.stamps), a, d);
    }
  }

  lemma LinearStepMirrors(i: Instance, t: Stamps, a: Arrival, d: JourneyDefinition)
    requires Linear(d) && Consistent(i, d) && Accepts(i, a.event, d) && t == Persisted(i.stamps)
    ensures var s', t' := ApplyStamps(i.stamps, a.event, a.occurredAt, d), ApplyStamps(t, a.event, a.occurredAt, d);
            && DeriveMilestone(d, s') == DeriveMilestone(d, t')
            && DeriveComplete(d, s') == DeriveComplete(d, t')
            && Persisted(s') == Persisted(t')
  {
    AcceptedMeans(i, a.event, d);
    PersistedTwice(i.stamps);
    PersistedAfterApply(i.stamps, a.event, a.occurredAt, d);
    if i.status.Some? {
      LinearAccepts(i.status, i.stamps, a.event, d);
      var r := CurrentRank(d, i.stamps);
      assert r < |d.coreSequence| - 1 && a.event == d.coreSequence[r + 1];
      AcceptedIsAhead(i, a.event, d);
      LinearDerives(i.stamps, t, a.event, a.occurredAt, d);
    } else {
      assert t == map[];
    }
  }

  // ----- one handled event -----

  /** One call of the handler against one replayed event: an event that is not a self-referral is
      processed exactly when replay accepts it and the table admits the status it leads to. The row is
      then a mirror of the instance; otherwise it is left as it was. */
  lemma HandledEventMirrorsReplay(row: Row, i: Instance, ev: ProgressEvent, d: JourneyDefinition, setting: Setting)
    requires GetJourneyDefinition(EffectiveCode(row, ev), EffectiveVersion(row, ev)) == Some(d)
    requires Storable(d) && Consistent(i, d) && Mirrors(row, i)
    requires !IsSelfReferral(row.referrer, BindReferee(row.referee, ev.referee))
    ensures var (row', outcome) := HandleRow(row, ev, setting);
            var j := Step(i, ArrivalOf(ev), d, setting.progress(EffectiveCode(row, ev)));
            && (outcome.Processed? <==>
                  Accepts(i, Normalize(ev.source), d) && j.status.Some? && j.status.value in setting.statuses)
            && (if outcome.Processed? then Mirrors(row', j) else row' == row)
  {
    var e, p := Normalize(ev.source), setting.progress(EffectiveCode(row, ev));
    AcceptanceAgrees(row, i, e, d);
    assert Load(row).stamps == row.stamps by { PersistedTwice(i.stamps); }
    if Accepts(i, e, d) {
      AcceptedStepMirrors(row, i, ArrivalOf(ev), d, p);
    }
  }

  /** Every status the journey can reach is one the table admits. */
  predicate Fits(d: JourneyDefinition, statuses: set<Event>) {
    forall e | e in d.coreSequence :: e in statuses
  }

  lemma BankingFitsTheTable()
    ensures Fits(BANKING_TRANSACTIONAL_V1, MIGRATED_STATUSES)
    ensures !Fits(INSURANCE_POLICY_V1, MIGRATED_STATUSES) && !Fits(RETAIL_LOYALTY_V1, MIGRATED_STATUSES)
  {
    var insurance, retail := INSURANCE_POLICY_V1.coreSequence, RETAIL_LOYALTY_V1.coreSequence;
    assert insurance[1] == QuoteRequested && insurance[1] in insurance && insurance[1] !in MIGRATED_STATUSES;
    assert retail[1] == BasketCreated && retail[1] in retail && retail[1] !in MIGRATED_STATUSES;
  }

  // ----- runs on one row -----

  function LiveRun(row: Row, events: seq<ProgressEvent>, setting: Setting): Row
    decreases |events|
  {
    if events == [] then row else LiveRun(HandleRow(row, events[0], setting).0, events[1..], setting)
  }

  /** How many events of a live run were processed. */
  function ProcessedCount(row: Row, events: seq<ProgressEvent>, setting: Setting): nat
    decreases |events|
  {
    if events == [] then 0
    else
      var (row', outcome) := HandleRow(row, events[0], setting);
      (if outcome.Processed? then 1 else 0) + ProcessedCount(row', events[1..], setting)
  }

  /** The events of a live run that pass the self-referral gate, as replay sees them. */
  function Admitted(row: Row, events: seq<ProgressEvent>, setting: Setting): seq<Arrival>
    decreases |events|
  {
    if events == [] then []
    else
      var rest := Admitted(HandleRow(row, events[0], setting).0, events[1..], setting);
      if IsSelfReferral(row.referrer, BindReferee(row.referee, events[0].referee)) then rest
      else [ArrivalOf(events[0])] + rest
  }

  /** Every event of the run resolves to the same journey: automatic for a bound row. */
  ghost predicate ResolveTo(row: Row, events: seq<ProgressEvent>, code: JourneyCode, version: JourneyVersion) {
    forall ev | ev in events :: EffectiveCode(row, ev) == code && EffectiveVersion(row, ev) == version
  }

  lemma BoundRowsResolve(row: Row, events: seq<ProgressEvent>)
    requires row.journeyCode.Some? && row.journeyVersion.Some?
    ensures ResolveTo(row, events, row.journeyCode.value, row.journeyVersion.value)
  {
  }

  lemma ResolutionLasts(row: Row, events: seq<ProgressEvent>, code: JourneyCode, version: JourneyVersion,
                        setting: Setting)
    requires events != [] && ResolveTo(row, events, code, version)
    ensures ResolveTo(HandleRow(row, events[0], setting).0, events[1..], code, version)
  {
    assert events[0] in events;
    var row' := HandleRow(row, events[0], setting).0;
    forall ev | ev in events[1..] ensures EffectiveCode(row', ev) == code && EffectiveVersion(row', ev) == version {
      assert ev in events;
    }
  }

  /** One event on both sides: a self-referral touches neither the row nor the instance. */
  lemma LiveStepMirrors(row: Row, i: Instance, ev: ProgressEvent, code: JourneyCode, version: JourneyVersion,
                        d: JourneyDefinition, setting: Setting)
    requires GetJourneyDefinition(code, version) == Some(d) && Consistent(i, d) && Mirrors(row, i)
    requires EffectiveCode(row, ev) == code && EffectiveVersion(row, ev) == version && Fits(d, setting.statuses)
    ensures var (row', outcome) := HandleRow(row, ev, setting);
            if IsSelfReferral(row.referrer, BindReferee(row.referee, ev.referee))
            then Mirrors(row', i) && !outcome.Processed?
            else
              var j := Step(i, ArrivalOf(ev), d, setting.progress(code));
              Mirrors(row', j) && Consistent(j, d) && (outcome.Processed? <==> Accepts(i, ArrivalOf(ev).event, d))
  {
    ShippedJourneysAreStorable(code, version);
    if !IsSelfReferral(row.referrer, BindReferee(row.referee, ev.referee)) {
      HandledEventMirrorsReplay(row, i, ev, d, setting);
      StepKeeps(i, ArrivalOf(ev), d, setting.progress(code));
      StepStatusFits(i, ArrivalOf(ev), d, setting);
    }
  }

  lemma StepStatusFits(i: Instance, a: Arrival, d: JourneyDefinition, setting: Setting)
    requires |d.coreSequence| > 0 && Fits(d, setting.statuses)
    ensures forall p :: Accepts(i, a.event, d) ==>
              Step(i, a, d, p).status.Some? && Step(i, a, d, p).status.value in setting.statuses
  {
  }

  /** What simulation means on one run: the row mirrors the instance, and as many events are processed
      as replay accepts. */
  ghost predicate SimulatesOn(row: Row, i: Instance, events: seq<ProgressEvent>, code: JourneyCode,
                              d: JourneyDefinition, setting: Setting)
    requires |d.coreSequence| > 0
  {
    var arrivals := Admitted(row, events, setting);
    && Mirrors(LiveRun(row, events, setting), Run(i, arrivals, d, setting.progress(code)))
    && ProcessedCount(row, events, setting) == |AcceptedOf(i, arrivals, d, setting.progress(code))|
  }

  lemma {:induction false} SimulatesWhileResolved(row: Row, i: Instance, events: seq<ProgressEvent>, code: JourneyCode,
                                                  version: JourneyVersion, d: JourneyDefinition, setting: Setting)
    requires GetJourneyDefinition(code, version) == Some(d) && ResolveTo(row, events, code, version)
    requires Consistent(i, d) && Mirrors(row, i) && Fits(d, setting.statuses)
    ensures SimulatesOn(row, i, events, code, d, setting)
    decreases |events|
  {
    if events != [] {
      var ev, row' := events[0], HandleRow(row, events[0], setting).0;
      assert ev in events;
      LiveStepMirrors(row, i, ev, code, version, d, setting);
      ResolutionLasts(row, events, code, version, setting);
      if IsSelfReferral(row.referrer, BindReferee(row.referee, ev.referee)) {
        SimulatesWhileResolved(row', i, events[1..], code, version, d, setting);
      } else {
        var j := Step(i, ArrivalOf(ev), d, setting.progress(code));
        SimulatesWhileResolved(row', j, events[1..], code, version, d, setting);
        var rest := Admitted(row', events[1..], setting);
        assert ([ArrivalOf(ev)] + rest)[1..] == rest;
      }
    }
  }

  /** Whether the handler processes an event on the row as it is. */
  function Processing(row: Row, setting: Setting): ProgressEvent -> bool {
    ev => HandleRow(row, ev, setting).1.Processed?
  }

  /** The position of the first event that is processed, or the end. */
  function FirstProcessed(row: Row, events: seq<ProgressEvent>, setting: Setting): (n: nat)
    ensures n <= |events|
  {
    FirstWhere(events, Processing(row, setting))
  }

  lemma OnlyProcessedEventsWrite(row: Row, ev: ProgressEvent, setting: Setting)
    ensures !HandleRow(row, ev, setting).1.Processed? ==> HandleRow(row, ev, setting).0 == row
  {
  }

  lemma {:induction false} NothingBeforeFirstProcessed(row: Row, events: seq<ProgressEvent>, setting: Setting)
    ensures LiveRun(row, events, setting) == LiveRun(row, events[FirstProcessed(row, events, setting)..], setting)
    decreases |events|
  {
    if events != [] {
      OnlyProcessedEventsWrite(row, events[0], setting);
      if !HandleRow(row, events[0], setting).1.Processed? {
        NothingBeforeFirstProcessed(row, events[1..], setting);
        var n := FirstProcessed(row, events[1..], setting);
        assert events[1..][n..] == events[1 + n..];
      } else {
        assert events[0..] == events;
      }
    }
  }

  /** The first processed event binds the row, and every later event resolves to that journey whatever
      journey it names itself. */
  lemma FirstProcessedResolvesTheRest(row: Row, events: seq<ProgressEvent>, setting: Setting)
    requires events != [] && HandleRow(row, events[0], setting).1.Processed?
    ensures var ev, row' := events[0], HandleRow(row, events[0], setting).0;
            ResolveTo(row', events[1..], EffectiveCode(row, ev), EffectiveVersion(row, ev))
  {
    BoundRowsResolve(HandleRow(row, events[0], setting).0, events[1..]);
  }

  /** Live handling that saves and reloads the row around every event simulates replay on one instance
      in memory: same status, completion, completion time, snapshot and stored timestamps, and as many
      processed events as replay accepts. Nothing is written before the first processed event; it fixes
      the journey, and replay gets the events from there on that pass the self-referral gate. */
  lemma LiveSimulatesReplay(row: Row, i: Instance, events: seq<ProgressEvent>, d: JourneyDefinition, setting: Setting)
    requires var n := FirstProcessed(row, events, setting);
             n < |events| ==>
               GetJourneyDefinition(EffectiveCode(row, events[n]), EffectiveVersion(row, events[n])) == Some(d)
    requires Consistent(i, d) && Mirrors(row, i) && Fits(d, setting.statuses)
    ensures var n := FirstProcessed(row, events, setting);
            if n == |events| then LiveRun(row, events, setting) == row
            else
              && LiveRun(row, events, setting) == LiveRun(row, events[n..], setting)
              && SimulatesOn(row, i, events[n..], EffectiveCode(row, events[n]), d, setting)
  {
    var n := FirstProcessed(row, events, setting);
    NothingBeforeFirstProcessed(row, events, setting);
    if n == |events| {
      assert events[n..] == [];
    } else {
      SimulatesFromProcessed(row, i, events[n..], d, setting);
    }
  }

  lemma SimulatesFromProcessed(row: Row, i: Instance, events: seq<ProgressEvent>, d: JourneyDefinition,
                               setting: Setting)
    requires events != [] && HandleRow(row, events[0], setting).1.Processed?
    requires GetJourneyDefinition(EffectiveCode(row, events[0]), EffectiveVersion(row, events[0])) == Some(d)
    requires Consistent(i, d) && Mirrors(row, i) && Fits(d, setting.statuses)
    ensures SimulatesOn(row, i, events, EffectiveCode(row, events[0]), d, setting)
  {
    var ev, row' := events[0], HandleRow(row, events[0], setting).0;
    var code, version := EffectiveCode(row, ev), EffectiveVersion(row, ev);
    var j := Step(i, ArrivalOf(ev), d, setting.progress(code));
    LiveStepMirrors(row, i, ev, code, version, d, setting);
    FirstProcessedResolvesTheRest(row, events, setting);
    SimulatesWhileResolved(row', j, events[1..], code, version, d, setting);
    var rest := Admitted(row', events[1..], setting);
    assert ([ArrivalOf(ev)] + rest)[1..] == rest;
  }

  // ----- statuses the table refuses -----

  /** Every run of events of a journey simulates replay. */
  ghost predicate SimulatesEveryRun(code: JourneyCode, version: JourneyVersion, d: JourneyDefinition, setting: Setting)
    requires |d.coreSequence| > 0
  {
    forall row, i, events | ResolveTo(row, events, code, version) && Consistent(i, d) && Mirrors(row, i) ::
      SimulatesOn(row, i, events, code, d, setting)
  }

  /** A row keeps its status or takes one the table admits. */
  lemma {:induction false} LiveStatusIsAdmitted(row: Row, events: seq<ProgressEvent>, setting: Setting)
    ensures var live := LiveRun(row, events, setting);
            live.status == row.status || (live.status.Some? && live.status.value in setting.statuses)
    decreases |events|
  {
    if events != [] { LiveStatusIsAdmitted(HandleRow(row, events[0], setting).0, events[1..], setting); }
  }

  /** A referral nothing has happened to, and nobody has referred. */
  const BLANK: Row :=
    Row(None, None, None, None, None, None, Referee(None, None, None, None, None), map[],
        Snapshot(None, None, None, None), false, None, None)

  /** An event of a journey as an arrival would have it. */
  function EventOf(a: Arrival, code: JourneyCode, version: JourneyVersion): ProgressEvent {
    ProgressEvent(true, false, None, Canonical(a.event), a.occurredAt, Referee(None, None, None, None, None),
                  Some(code), Some(version), a.now)
  }

  function EventsOf(arrivals: seq<Arrival>, code: JourneyCode, version: JourneyVersion): seq<ProgressEvent> {
    seq(|arrivals|, k requires 0 <= k < |arrivals| => EventOf(arrivals[k], code, version))
  }

  lemma {:induction false} AllAdmitted(row: Row, arrivals: seq<Arrival>, code: JourneyCode, version: JourneyVersion,
                                       setting: Setting)
    requires row.referrer == None
    ensures Admitted(row, EventsOf(arrivals, code, version), setting) == arrivals
    decreases |arrivals|
  {
    if arrivals != [] {
      var events := EventsOf(arrivals, code, version);
      assert events[0] == EventOf(arrivals[0], code, version) && ArrivalOf(events[0]) == arrivals[0];
      assert events[1..] == EventsOf(arrivals[1..], code, version);
      AllAdmitted(HandleRow(row, events[0], setting).0, arrivals[1..], code, version, setting);
    }
  }

  /** Walking a referral up to a status the table refuses takes the instance there but not the row. */
  lemma RefusedStatusBreaksSimulation(code: JourneyCode, version: JourneyVersion, d: JourneyDefinition,
                                      setting: Setting, k: nat)
    requires WellFormed(d) && StepsUp(d) && k < |d.coreSequence| && d.coreSequence[k] !in setting.statuses
    ensures !SimulatesEveryRun(code, version, d, setting)
  {
    var i, events := Load(BLANK), EventsOf(Walk(d, k), code, version);
    BlankIsFresh(d);
    WalkReaches(i, d, setting.progress(code), k);
    AllAdmitted(BLANK, Walk(d, k), code, version, setting);
    LiveStatusIsAdmitted(BLANK, events, setting);
    EventsResolve(Walk(d, k), code, version);
    assert !SimulatesOn(BLANK, i, events, code, d, setting);
  }

  lemma BlankIsFresh(d: JourneyDefinition)
    requires TimedCore(d)
    ensures Fresh(Load(BLANK)) && Consistent(Load(BLANK), d) && Mirrors(BLANK, Load(BLANK))
  {
    assert Load(BLANK).stamps == map[];
    FreshIsConsistent(Load(BLANK), d);
  }

  lemma EventsResolve(arrivals: seq<Arrival>, code: JourneyCode, version: JourneyVersion)
    ensures ResolveTo(BLANK, EventsOf(arrivals, code, version), code, version)
  {
  }

  lemma ShippedJourneysStepUp(code: JourneyCode, version: JourneyVersion)
    requires GetJourneyDefinition(code, version).Some?
    ensures StepsUp(GetJourneyDefinition(code, version).value)
  {
    var ok := (d: JourneyDefinition) => StepsUp(d);
    BankingStepsUp();
    InsuranceIsLinear();
    LinearStepsUp(INSURANCE_POLICY_V1);
    RetailIsLinear();
    LinearStepsUp(RETAIL_LOYALTY_V1);
    RegisteredIsShipped(ok, code, version);
  }

  lemma UnfitBreaksSimulation(code: JourneyCode, version: JourneyVersion, d: JourneyDefinition, setting: Setting)
    requires WellFormed(d) && StepsUp(d) && !Fits(d, setting.statuses)
    ensures !SimulatesEveryRun(code, version, d, setting)
  {
    var e :| e in d.coreSequence && e !in setting.statuses;
    var k :| 0 <= k < |d.coreSequence| && d.coreSequence[k] == e;
    RefusedStatusBreaksSimulation(code, version, d, setting, k);
  }

  /** Live handling simulates replay on every run of a registered journey exactly when the table admits
      all of the journey's core milestones as statuses. */
  lemma SimulatesExactlyWhenStatusesFit(code: JourneyCode, version: JourneyVersion, d: JourneyDefinition,
                                        setting: Setting)
    requires GetJourneyDefinition(code, version) == Some(d) && |d.coreSequence| > 0
    ensures SimulatesEveryRun(code, version, d, setting) <==> Fits(d, setting.statuses)
  {
    if Fits(d, setting.statuses) {
      FittingSimulates(code, version, d, setting);
    } else {
      ShippedJourneysAreStorable(code, version);
      ShippedJourneysStepUp(code, version);
      UnfitBreaksSimulation(code, version, d, setting);
    }
  }

  lemma FittingSimulates(code: JourneyCode, version: JourneyVersion, d: JourneyDefinition, setting: Setting)
    requires GetJourneyDefinition(code, version) == Some(d) && |d.coreSequence| > 0 && Fits(d, setting.statuses)
    ensures SimulatesEveryRun(code, version, d, setting)
  {
    forall row, i, events | ResolveTo(row, events, code, version) && Consistent(i, d) && Mirrors(row, i)
      ensures SimulatesOn(row, i, events, code, d, setting)
    {
      SimulatesWhileResolved(row, i, events, code, version, d, setting);
    }
  }

  /** A linear journey whose first step leads to a status the table refuses. */
  ghost predicate StuckAtStart(d: JourneyDefinition, setting: Setting) {
    Linear(d) && |d.coreSequence| > 1 && d.coreSequence[1] !in setting.statuses
  }

  lemma FirstMilestones()
    ensures |INSURANCE_POLICY_V1.coreSequence| > 1 && INSURANCE_POLICY_V1.coreSequence[1] == QuoteRequested
    ensures |RETAIL_LOYALTY_V1.coreSequence| > 1 && RETAIL_LOYALTY_V1.coreSequence[1] == BasketCreated
    ensures QuoteRequested !in MIGRATED_STATUSES && BasketCreated !in MIGRATED_STATUSES
  {
  }

  lemma RefusedFirstIsStuck(d: JourneyDefinition, first: Event, setting: Setting)
    requires Linear(d) && |d.coreSequence| > 1 && d.coreSequence[1] == first && first !in setting.statuses
    ensures StuckAtStart(d, setting)
  {
  }

  lemma InsuranceIsStuck(setting: Setting)
    requires setting.statuses == MIGRATED_STATUSES
    ensures StuckAtStart(INSURANCE_POLICY_V1, setting)
  {
    InsuranceIsLinear();
    FirstMilestones();
    RefusedFirstIsStuck(INSURANCE_POLICY_V1, QuoteRequested, setting);
  }

  lemma RetailIsStuck(setting: Setting)
    requires setting.statuses == MIGRATED_STATUSES
    ensures StuckAtStart(RETAIL_LOYALTY_V1, setting)
  {
    RetailIsLinear();
    FirstMilestones();
    RefusedFirstIsStuck(RETAIL_LOYALTY_V1, BasketCreated, setting);
  }

  lemma RefusedEventLeavesRow(row: Row, i: Instance, ev: ProgressEvent, d: JourneyDefinition, setting: Setting)
    requires GetJourneyDefinition(EffectiveCode(row, ev), EffectiveVersion(row, ev)) == Some(d)
    requires StuckAtStart(d, setting)
    requires Consistent(i, d) && Mirrors(row, i) && row.status == Some(Validated)
    ensures HandleRow(row, ev, setting).0 == row
  {
    if !IsSelfReferral(row.referrer, BindReferee(row.referee, ev.referee)) {
      var a, p := ArrivalOf(ev), setting.progress(EffectiveCode(row, ev));
      LinearIsStorable(d);
      HandledEventMirrorsReplay(row, i, ev, d, setting);
      if Accepts(i, a.event, d) {
        LinearAccepts(i.status, i.stamps, a.event, d);
        assert Allowed(d, Some(d.coreSequence[0])) == {d.coreSequence[1]};
        AcceptedEventDecidesStatus(i, a, d, p);
      }
    }
  }

  /** Whatever journey an event resolves to, it is unknown or stuck at its start. */
  ghost predicate LeadsNowhere(row: Row, ev: ProgressEvent, setting: Setting) {
    match GetJourneyDefinition(EffectiveCode(row, ev), EffectiveVersion(row, ev))
    case None => true
    case Some(d) => StuckAtStart(d, setting)
  }

  lemma UnknownJourneyLeavesRow(row: Row, ev: ProgressEvent, setting: Setting)
    requires GetJourneyDefinition(EffectiveCode(row, ev), EffectiveVersion(row, ev)) == None
    ensures HandleRow(row, ev, setting).0 == row
  {
  }

  lemma StuckEventLeavesRow(row: Row, ev: ProgressEvent, setting: Setting)
    requires LeadsNowhere(row, ev, setting) && Untouched(row) && row.status == Some(Validated)
    ensures HandleRow(row, ev, setting).0 == row
  {
    match GetJourneyDefinition(EffectiveCode(row, ev), EffectiveVersion(row, ev))
    case None => UnknownJourneyLeavesRow(row, ev, setting);
    case Some(d) =>
      FreshIsConsistent(Load(row), d);
      RefusedEventLeavesRow(row, Load(row), ev, d, setting);
  }

  /** A validated referral never moves, whatever events arrive, while the table refuses the first step of
      every journey they name. */
  lemma {:induction false} StuckReferralsNeverMove(row: Row, events: seq<ProgressEvent>, setting: Setting)
    requires forall ev | ev in events :: LeadsNowhere(row, ev, setting)
    requires Untouched(row) && row.status == Some(Validated)
    ensures LiveRun(row, events, setting) == row
    decreases |events|
  {
    if events != [] {
      assert events[0] in events && forall ev | ev in events[1..] :: ev in events;
      StuckEventLeavesRow(row, events[0], setting);
      StuckReferralsNeverMove(row, events[1..], setting);
    }
  }

  /** The first such event: the table refuses what replay accepts. */
  lemma FirstMilestoneIsRefused(row: Row, ev: ProgressEvent, d: JourneyDefinition, setting: Setting)
    requires GetJourneyDefinition(EffectiveCode(row, ev), EffectiveVersion(row, ev)) == Some(d)
    requires StuckAtStart(d, setting)
    requires Untouched(row) && row.status == Some(Validated) && Normalize(ev.source) == d.coreSequence[1]
    requires !IsSelfReferral(row.referrer, BindReferee(row.referee, ev.referee))
    ensures HandleRow(row, ev, setting) == (row, StatusRefused)
    ensures var p := setting.progress(EffectiveCode(row, ev));
            Step(Load(row), ArrivalOf(ev), d, p).status == Some(d.coreSequence[1])
  {
    var i, a, p := Load(row), ArrivalOf(ev), setting.progress(EffectiveCode(row, ev));
    FreshIsConsistent(i, d);
    LinearStepsUp(d);
    NextMilestoneIsAccepted(i, d, 1);
    AcceptedEventDecidesStatus(i, a, d, p);
  }

  predicate IsBanking(code: JourneyCode, version: JourneyVersion) { code == BankingTransactional && version == V1 }

  lemma OutsideBankingIsStuck(code: JourneyCode, version: JourneyVersion, setting: Setting)
    requires setting.statuses == MIGRATED_STATUSES && !IsBanking(code, version)
    requires GetJourneyDefinition(code, version).Some?
    ensures StuckAtStart(GetJourneyDefinition(code, version).value, setting)
  {
    var ok := (d: JourneyDefinition) => StuckAtStart(d, setting);
    InsuranceIsStuck(setting);
    RetailIsStuck(setting);
    RegisteredOutsideBanking(ok, code, version);
  }

  lemma RegisteredOutsideBanking(ok: JourneyDefinition -> bool, code: JourneyCode, version: JourneyVersion)
    requires ok(INSURANCE_POLICY_V1) && ok(RETAIL_LOYALTY_V1) && !IsBanking(code, version)
    ensures GetJourneyDefinition(code, version).Some? ==> ok(GetJourneyDefinition(code, version).value)
  {
  }

  /** With the statuses the migrations admit, a validated referral stays as it was under any events of
      insurance and retail, in any mixture. */
  lemma InsuranceAndRetailNeverMove(row: Row, events: seq<ProgressEvent>, setting: Setting)
    requires setting.statuses == MIGRATED_STATUSES && Untouched(row) && row.status == Some(Validated)
    requires forall ev | ev in events :: !IsBanking(EffectiveCode(row, ev), EffectiveVersion(row, ev))
    ensures LiveRun(row, events, setting) == row
  {
    forall ev | ev in events ensures LeadsNowhere(row, ev, setting) {
      var code, version := EffectiveCode(row, ev), EffectiveVersion(row, ev);
      if GetJourneyDefinition(code, version).Some? { OutsideBankingIsStuck(code, version, setting); }
    }
    StuckReferralsNeverMove(row, events, setting);
  }

  /** The quote of an insurance referral, or the basket of a retail one, is accepted by replay and refused
      by the table. */
  lemma QuoteAndBasketAreRefused(row: Row, ev: ProgressEvent, setting: Setting)
    requires setting.statuses == MIGRATED_STATUSES && Untouched(row) && row.status == Some(Validated)
    requires EffectiveVersion(row, ev) == V1
    requires || (EffectiveCode(row, ev) == InsurancePolicy && Normalize(ev.source) == QuoteRequested)
             || (EffectiveCode(row, ev) == RetailLoyalty && Normalize(ev.source) == BasketCreated)
    requires !IsSelfReferral(row.referrer, BindReferee(row.referee, ev.referee))
    ensures HandleRow(row, ev, setting) == (row, StatusRefused)
    ensures var found := GetJourneyDefinition(EffectiveCode(row, ev), EffectiveVersion(row, ev));
            var p := setting.progress(EffectiveCode(row, ev));
            && found.Some? && |found.value.coreSequence| > 0
            && Step(Load(row), ArrivalOf(ev), found.value, p).status == Some(Normalize(ev.source))
  {
    var d := GetJourneyDefinition(EffectiveCode(row, ev), EffectiveVersion(row, ev)).value;
    FirstMilestones();
    OutsideBankingIsStuck(EffectiveCode(row, ev), EffectiveVersion(row, ev), setting);
    FirstMilestoneIsRefused(row, ev, d, setting);
  }

  /** In journeys whose timestamps are all columns, nothing at all is lost between events. */
  lemma NothingLostWhenAllPersisted(row: Row, i: Instance, events: seq<ProgressEvent>, code: JourneyCode,
                                    version: JourneyVersion, d: JourneyDefinition, setting: Setting)
    requires GetJourneyDefinition(code, version) == Some(d) && ResolveTo(row, events, code, version)
    requires Consistent(i, d) && Mirrors(row, i) && Fields(d) <= PERSISTED && Fits(d, setting.statuses)
    ensures LiveRun(row, events, setting).stamps
            == Run(i, Admitted(row, events, setting), d, setting.progress(code)).stamps
  {
    SimulatesWhileResolved(row, i, events, code, version, d, setting);
    ShippedJourneysAreStorable(code, version);
    RunKeeps(i, Admitted(row, events, setting), d, setting.progress(code));
  }

  lemma BankingAndInsuranceAreFullyPersisted()
    ensures Fields(BANKING_TRANSACTIONAL_V1) <= PERSISTED
    ensures Fields(INSURANCE_POLICY_V1) <= PERSISTED
  {
    BankingFields();
    InsuranceFields();
  }

  // ----- what every run of the handler keeps -----

  /** A row nothing has happened to. */
  predicate Untouched(row: Row) {
    Fresh(Load(row)) && row.stamps == map[]
  }

  /** Rows the handler can produce: untouched ones, and rows bound to a registered journey that
      mirror some consistent instance of it. */
  ghost predicate RowOk(row: Row) {
    || Untouched(row)
    || (row.journeyCode.Some? && row.journeyVersion.Some? &&
        match GetJourneyDefinition(row.journeyCode.value, row.journeyVersion.value)
        case None => false
        case Some(d) => exists i :: Consistent(i, d) && Mirrors(row, i))
  }

  /** `later` keeps what must never change once set. */
  ghost predicate Preserves(row: Row, later: Row) {
    && later.referrer == row.referrer && later.product == row.product && later.subProduct == row.subProduct
    && (row.journeyCode.Some? ==> later.journeyCode == row.journeyCode)
    && (row.journeyVersion.Some? ==> later.journeyVersion == row.journeyVersion)
    && BindReferee(row.referee, later.referee) == later.referee
    && Submap(row.stamps, later.stamps)
    && (row.isComplete ==> later.isComplete && later.completedAt == row.completedAt)
    && (!IsSelfReferral(row.referrer, row.referee) ==> !IsSelfReferral(later.referrer, later.referee))
  }

  /** The instance behind a row under the journey an event resolves to. */
  lemma InstanceBehind(row: Row, ev: ProgressEvent) returns (i: Instance)
    requires RowOk(row) && GetJourneyDefinition(EffectiveCode(row, ev), EffectiveVersion(row, ev)).Some?
    ensures var d := GetJourneyDefinition(EffectiveCode(row, ev), EffectiveVersion(row, ev)).value;
            Storable(d) && Consistent(i, d) && Mirrors(row, i)
  {
    var d := GetJourneyDefinition(EffectiveCode(row, ev), EffectiveVersion(row, ev)).value;
    ShippedJourneysAreStorable(EffectiveCode(row, ev), EffectiveVersion(row, ev));
    if Untouched(row) {
      i := Load(row);
      FreshIsConsistent(i, d);
    } else {
      i :| Consistent(i, d) && Mirrors(row, i);
    }
  }

  lemma MirrorIsOk(row: Row, j: Instance, d: JourneyDefinition)
    requires row.journeyCode.Some? && row.journeyVersion.Some?
    requires GetJourneyDefinition(row.journeyCode.value, row.journeyVersion.value) == Some(d)
    requires Consistent(j, d) && Mirrors(row, j)
    ensures RowOk(row)
  {
  }

  lemma ProcessedBinds(row: Row, ev: ProgressEvent, setting: Setting)
    requires HandleRow(row, ev, setting).1.Processed?
    ensures var row' := HandleRow(row, ev, setting).0;
            row'.journeyCode == Some(EffectiveCode(row, ev)) && row'.journeyVersion == Some(EffectiveVersion(row, ev))
    ensures GetJourneyDefinition(EffectiveCode(row, ev), EffectiveVersion(row, ev)).Some?
    ensures !IsSelfReferral(row.referrer, BindReferee(row.referee, ev.referee))
  {
  }

  /** What advances between two instances advances between their mirrors. */
  lemma MirrorsAdvance(row: Row, i: Instance, row': Row, j: Instance, d: JourneyDefinition)
    requires Mirrors(row, i) && Mirrors(row', j) && Advances(i, j, d)
    ensures Submap(row.stamps, row'.stamps)
    ensures row.isComplete ==> row'.isComplete && row'.completedAt == row.completedAt
  {
  }

  lemma ProcessedRowIsOk(row: Row, ev: ProgressEvent, setting: Setting)
    requires RowOk(row) && HandleRow(row, ev, setting).1.Processed?
    ensures var row' := HandleRow(row, ev, setting).0;
            RowOk(row') && row'.journeyCode.Some? && row'.journeyVersion.Some?
    ensures var row' := HandleRow(row, ev, setting).0;
            && Submap(row.stamps, row'.stamps)
            && (row.isComplete ==> row'.isComplete && row'.completedAt == row.completedAt)
  {
    ProcessedBinds(row, ev, setting);
    var row' := HandleRow(row, ev, setting).0;
    var i := InstanceBehind(row, ev);
    var d := GetJourneyDefinition(EffectiveCode(row, ev), EffectiveVersion(row, ev)).value;
    var j := Step(i, ArrivalOf(ev), d, setting.progress(EffectiveCode(row, ev)));
    HandledEventMirrorsReplay(row, i, ev, d, setting);
    StepKeeps(i, ArrivalOf(ev), d, setting.progress(EffectiveCode(row, ev)));
    MirrorIsOk(row', j, d);
    MirrorsAdvance(row, i, row', j, d);
  }

  lemma HandleRowKeepsOk(row: Row, ev: ProgressEvent, setting: Setting)
    requires RowOk(row)
    ensures RowOk(HandleRow(row, ev, setting).0)
  {
    if HandleRow(row, ev, setting).1.Processed? { ProcessedRowIsOk(row, ev, setting); }
  }

  lemma ProcessedKeepsContext(row: Row, ev: ProgressEvent, setting: Setting)
    requires HandleRow(row, ev, setting).1.Processed?
    ensures var row' := HandleRow(row, ev, setting).0;
            && row'.referrer == row.referrer && row'.product == row.product && row'.subProduct == row.subProduct
            && (row.journeyCode.Some? ==> row'.journeyCode == row.journeyCode)
            && (row.journeyVersion.Some? ==> row'.journeyVersion == row.journeyVersion)
            && BindReferee(row.referee, row'.referee) == row'.referee
            && !IsSelfReferral(row'.referrer, row'.referee)
  {
  }

  /** No call of the handler undoes what the row says: journey and referee stay as first bound,
      timestamps and completion as first set, and a self-referral is never written. */
  lemma HandleRowPreserves(row: Row, ev: ProgressEvent, setting: Setting)
    requires RowOk(row)
    ensures Preserves(row, HandleRow(row, ev, setting).0)
  {
    if HandleRow(row, ev, setting).1.Processed? {
      ProcessedRowIsOk(row, ev, setting);
      ProcessedKeepsContext(row, ev, setting);
    }
  }

  /** A call is reported reward-eligible exactly when it is the one that completes the referral. */
  lemma EligibleExactlyOnCompletion(row: Row, ev: ProgressEvent, setting: Setting)
    requires RowOk(row)
    ensures var (row', outcome) := HandleRow(row, ev, setting);
            && (outcome == Processed(true) <==> !row.isComplete && row'.isComplete)
            && (row'.completedAt.Some? <==> row'.isComplete)
  {
    HandleRowKeepsOk(row, ev, setting);
    OkRowsAgreeOnCompletion(HandleRow(row, ev, setting).0);
  }

  lemma OkRowsAgreeOnCompletion(row: Row)
    requires RowOk(row)
    ensures row.completedAt.Some? <==> row.isComplete
  {
  }

  lemma {:induction false} LiveRunKeepsOk(row: Row, events: seq<ProgressEvent>, setting: Setting)
    requires RowOk(row)
    ensures RowOk(LiveRun(row, events, setting))
    decreases |events|
  {
    if events != [] {
      HandleRowKeepsOk(row, events[0], setting);
      LiveRunKeepsOk(HandleRow(row, events[0], setting).0, events[1..], setting);
    }
  }

  lemma PreservesIsTransitive(row: Row, later: Row, last: Row)
    requires Preserves(row, later) && Preserves(later, last)
    ensures Preserves(row, last)
  {
  }

  /** Every run of the handler on a referral keeps all of the above from its start to its end. */
  lemma {:induction false} LiveRunKeeps(row: Row, events: seq<ProgressEvent>, setting: Setting)
    requires RowOk(row)
    ensures RowOk(LiveRun(row, events, setting))
    ensures Preserves(row, LiveRun(row, events, setting))
    decreases |events|
  {
    LiveRunKeepsOk(row, events, setting);
    if events != [] {
      var next := HandleRow(row, events[0], setting).0;
      HandleRowKeepsOk(row, events[0], setting);
      HandleRowPreserves(row, events[0], setting);
      LiveRunKeeps(next, events[1..], setting);
      PreservesIsTransitive(row, next, LiveRun(row, events, setting));
    }
  }

  // ----- runs on the whole table -----

  datatype Call = Call(tenant: Option<Tenant>, event: ProgressEvent)

  datatype TableState = TableState(rows: map<ReferralKey, Row>, eligible: seq<ReferralKey>)

  /** One call as the store performs it. */
  function HandleCall(s: TableState, call: Call, setting: Setting): TableState {
    var (rows, outcome) := Handle(s.rows, call.tenant, call.event, setting);
    TableState(rows,
               if outcome == Processed(true)
               then s.eligible + [ReferralKey(call.tenant.value, call.event.trackId.value)]
               else s.eligible)
  }

  function TableRun(s: TableState, calls: seq<Call>, setting: Setting): TableState
    decreases |calls|
  {
    if calls == [] then s else TableRun(HandleCall(s, calls[0], setting), calls[1..], setting)
  }

  /** Every row can arise, and the referrals handed on for rewards are the completed ones, each once. */
  ghost predicate RewardsMatchCompletion(s: TableState) {
    && (forall k | k in s.rows :: RowOk(s.rows[k]))
    && NoDuplicates(s.eligible)
    && (forall k :: k in s.eligible <==> k in s.rows && s.rows[k].isComplete)
  }

  /** Replacing one row by a sound successor, handed on if it just became complete. */
  lemma ReplacedRowKeepsRewards(s: TableState, key: ReferralKey, row: Row)
    requires RewardsMatchCompletion(s) && key in s.rows && RowOk(row)
    requires s.rows[key].isComplete ==> row.isComplete
    ensures RewardsMatchCompletion(TableState(s.rows[key := row],
                                              if row.isComplete && !s.rows[key].isComplete then s.eligible + [key]
                                                else s.eligible))
  {
    assert key !in s.eligible <==> !s.rows[key].isComplete;
  }

  lemma HandledRowSucceeds(row: Row, ev: ProgressEvent, setting: Setting)
    requires RowOk(row)
    ensures var (row', outcome) := HandleRow(row, ev, setting);
            && RowOk(row') && (row.isComplete ==> row'.isComplete)
            && (outcome == Processed(true) <==> !row.isComplete && row'.isComplete)
  {
    HandleRowKeepsOk(row, ev, setting);
    HandleRowPreserves(row, ev, setting);
    EligibleExactlyOnCompletion(row, ev, setting);
  }

  lemma CallKeepsRewards(s: TableState, call: Call, setting: Setting)
    requires RewardsMatchCompletion(s)
    ensures RewardsMatchCompletion(HandleCall(s, call, setting))
  {
    if Handle(s.rows, call.tenant, call.event, setting).1.Processed? {
      var key := ReferralKey(call.tenant.value, call.event.trackId.value);
      var row := HandleRow(s.rows[key], call.event, setting).0;
      HandledRowSucceeds(s.rows[key], call.event, setting);
      ReplacedRowKeepsRewards(s, key, row);
    }
  }

  /** Over any sequence of calls on any referrals, every referral is handed on for its base rewards
      at most once, and exactly when it is complete. */
  lemma {:induction false} RewardsAtMostOnce(s: TableState, calls: seq<Call>, setting: Setting)
    requires RewardsMatchCompletion(s)
    ensures RewardsMatchCompletion(TableRun(s, calls, setting))
    decreases |calls|
  {
    if calls != [] {
      CallKeepsRewards(s, calls[0], setting);
      RewardsAtMostOnce(HandleCall(s, calls[0], setting), calls[1..], setting);
    }
  }
}
