/** The live handler on the columns of a referral: which answer it gives, which columns it writes, and when
    a referral is handed on for rewards. */
module JourneyRows {
  import opened Prelude
  import opened JourneyDefinitions
  import opened JourneyMachine
  import opened JourneyRuns
  import opened JourneyCharts
  import opened JourneyFields
  import opened JourneyStore
  import opened JourneyLive
  import opened JourneyRebuild

  // ----- answers -----

  /** The row's own value, else the event's, else the default. */
  function FirstOf<T>(own: Option<T>, given: Option<T>, default: T): T {
    if own.Some? then own.value else if given.Some? then given.value else default
  }

  /** An event is a self-referral if the referee on file, or the one it brings where none is on file, is
      the referrer. */
  predicate NamesReferrer(row: Row, ev: ProgressEvent) {
    && row.referrer.Some?
    && (row.referee.ucn == row.referrer || (row.referee.ucn == None && ev.referee.ucn == row.referrer))
  }

  predicate KnownJourney(row: Row, ev: ProgressEvent) {
    && FirstOf(row.journeyCode, ev.journeyCode, BankingTransactional)
       in {BankingTransactional, InsurancePolicy, RetailLoyalty}
    && FirstOf(row.journeyVersion, ev.journeyVersion, V1) == V1
  }

  lemma KnownJourneys(code: JourneyCode, version: JourneyVersion)
    ensures GetJourneyDefinition(code, version).Some? <==>
              code in {BankingTransactional, InsurancePolicy, RetailLoyalty} && version == V1
  {
  }

  lemma SelfReferralAnswer(row: Row, ev: ProgressEvent, setting: Setting)
    ensures HandleRow(row, ev, setting).1 == SelfReferral <==> NamesReferrer(row, ev)
    ensures IsSelfReferral(row.referrer, BindReferee(row.referee, ev.referee)) <==> NamesReferrer(row, ev)
  {
  }

  lemma KnownExactlyWhen(row: Row, ev: ProgressEvent)
    ensures GetJourneyDefinition(EffectiveCode(row, ev), EffectiveVersion(row, ev)).Some? <==> KnownJourney(row, ev)
  {
    KnownJourneys(EffectiveCode(row, ev), EffectiveVersion(row, ev));
  }

  /** What the handler answers on a row, in the order of its checks; only a processed event writes. */
  lemma RowAnswers(row: Row, ev: ProgressEvent, setting: Setting)
    ensures var (row', outcome) := HandleRow(row, ev, setting);
            && (outcome == SelfReferral <==> NamesReferrer(row, ev))
            && (outcome == UnsupportedJourney <==> !NamesReferrer(row, ev) && !KnownJourney(row, ev))
            && (outcome.Ignored? || outcome.StatusRefused? || outcome.Processed? <==>
                  !NamesReferrer(row, ev) && KnownJourney(row, ev))
            && (!outcome.Processed? ==> row' == row)
  {
    SelfReferralAnswer(row, ev, setting);
    KnownExactlyWhen(row, ev);
    OnlyProcessedEventsWrite(row, ev, setting);
  }

  /** An ignored event carries the verdict on it, which is not Valid. */
  lemma IgnoredVerdict(row: Row, ev: ProgressEvent, setting: Setting, d: JourneyDefinition)
    requires GetJourneyDefinition(EffectiveCode(row, ev), EffectiveVersion(row, ev)) == Some(d)
    requires HandleRow(row, ev, setting).1.Ignored?
    ensures var verdict := Classify(row.status, Persisted(row.stamps), Normalize(ev.source), d);
            HandleRow(row, ev, setting).1 == Ignored(verdict) && verdict != Valid
  {
  }

  /** What the handler answers on the table, in the order of its checks, and that only the named row may
      change. */
  lemma TableAnswers(rows: map<ReferralKey, Row>, tenant: Option<Tenant>, ev: ProgressEvent, setting: Setting)
    ensures var (rows', outcome) := Handle(rows, tenant, ev, setting);
            && (outcome == TenantMissing <==> tenant == None)
            && (outcome == NotAProgressEvent <==> tenant.Some? && !ev.isProgressRecorded)
            && (outcome == UpstreamDuplicate <==> tenant.Some? && ev.isProgressRecorded && ev.deduped)
            && (outcome == TrackIdMissing <==>
                  tenant.Some? && ev.isProgressRecorded && !ev.deduped && ev.trackId == None)
            && (outcome == ReferralNotFound <==>
                  && tenant.Some? && ev.isProgressRecorded && !ev.deduped && ev.trackId.Some?
                  && ReferralKey(tenant.value, ev.trackId.value) !in rows)
            && rows'.Keys == rows.Keys
            && (forall key | key in rows && rows'[key] != rows[key] ::
                  outcome.Processed? && Some(key.tenant) == tenant && Some(key.trackId) == ev.trackId)
  {
  }

  /** Past those checks the call is answered, and its row written, as the row alone decides. */
  lemma NamedRowDecides(rows: map<ReferralKey, Row>, key: ReferralKey, ev: ProgressEvent, setting: Setting)
    requires key in rows && ev.isProgressRecorded && !ev.deduped && ev.trackId == Some(key.trackId)
    ensures var (rows', outcome) := Handle(rows, Some(key.tenant), ev, setting);
            rows'.Keys == rows.Keys && (rows'[key], outcome) == HandleRow(rows[key], ev, setting)
  {
    RowAnswers(rows[key], ev, setting);
  }

  lemma SameNameSameHandling(row: Row, ev: ProgressEvent, a: SourceEvent, b: SourceEvent, setting: Setting)
    requires Normalize(a) == Normalize(b)
    ensures HandleRow(row, ev.(source := a), setting) == HandleRow(row, ev.(source := b), setting)
  {
  }

  /** Three source names are aliases. */
  lemma AliasesAreHandledAlike(row: Row, ev: ProgressEvent, setting: Setting)
    ensures HandleRow(row, ev.(source := RefereeUcnCaptured), setting)
         == HandleRow(row, ev.(source := Canonical(UcnCaptured)), setting)
    ensures HandleRow(row, ev.(source := UcnCreated), setting)
         == HandleRow(row, ev.(source := Canonical(AccountOpened)), setting)
    ensures HandleRow(row, ev.(source := AccountFunded), setting)
         == HandleRow(row, ev.(source := Canonical(Funded)), setting)
  {
    SameNameSameHandling(row, ev, RefereeUcnCaptured, Canonical(UcnCaptured), setting);
    SameNameSameHandling(row, ev, UcnCreated, Canonical(AccountOpened), setting);
    SameNameSameHandling(row, ev, AccountFunded, Canonical(Funded), setting);
  }

  /** Every other name stands for itself. */
  lemma NamesStandForThemselves(e: Event)
    ensures Normalize(Canonical(e)) == e
  {
  }

  // ----- columns -----

  function FilledIn<T>(own: Option<T>, given: Option<T>): Option<T> { if own == None then given else own }

  /** Every column of a processed row that the journey itself does not decide. */
  lemma SavedColumns(row: Row, ev: ProgressEvent, setting: Setting)
    requires HandleRow(row, ev, setting).1.Processed?
    ensures var row' := HandleRow(row, ev, setting).0;
            && row'.referrer == row.referrer && row'.product == row.product && row'.subProduct == row.subProduct
            && row'.journeyCode == Some(FirstOf(row.journeyCode, ev.journeyCode, BankingTransactional))
            && row'.journeyVersion == Some(FirstOf(row.journeyVersion, ev.journeyVersion, V1))
            && row'.referee.ucn == FilledIn(row.referee.ucn, ev.referee.ucn)
            && row'.referee.ucnHash == FilledIn(row.referee.ucnHash, ev.referee.ucnHash)
            && row'.referee.accountNumber == FilledIn(row.referee.accountNumber, ev.referee.accountNumber)
            && row'.referee.accountHash == FilledIn(row.referee.accountHash, ev.referee.accountHash)
            && row'.referee.accountMasked == FilledIn(row.referee.accountMasked, ev.referee.accountMasked)
            && row'.updatedAt == Some(ev.handledAt)
  {
  }

  /** A row completes at the time the completing event is handled. */
  lemma CompletionColumn(row: Row, ev: ProgressEvent, setting: Setting)
    requires RowOk(row) && HandleRow(row, ev, setting).1 == Processed(true)
    ensures row.completedAt == None && HandleRow(row, ev, setting).0.completedAt == Some(ev.handledAt)
  {
    EligibleExactlyOnCompletion(row, ev, setting);
    OkRowsAgreeOnCompletion(row);
  }

  /** The timestamp columns: seven, none of them retail's. */
  lemma TimestampColumns(f: Field)
    ensures f in PERSISTED <==>
              f in {UcnCapturedAt, AccountOpenedAt, AccountActivatedAt, FundedAt, DebitOrderSwitchedAt,
                    SalarySwitchedAt, FirstTransactionCompletedAt}
  {
  }

  // ----- completion and rewards -----

  predicate OnJourney(row: Row, ev: ProgressEvent, code: JourneyCode) {
    FirstOf(row.journeyCode, ev.journeyCode, BankingTransactional) == code
    && FirstOf(row.journeyVersion, ev.journeyVersion, V1) == V1
  }

  lemma FullyStoredInstance(row: Row, i: Instance, d: JourneyDefinition)
    requires Fields(d) <= PERSISTED && Consistent(i, d) && Mirrors(row, i)
    ensures row.stamps == i.stamps && Consistent(Load(row), d)
  {
    assert Persisted(i.stamps) == i.stamps;
  }

  /** A banking row that can arise is complete exactly when its columns show funding and one of the three
      completion events. */
  lemma BankingRowCompletion(row: Row, ev: ProgressEvent)
    requires RowOk(row) && OnJourney(row, ev, BankingTransactional)
    ensures row.isComplete <==>
              && FundedAt in row.stamps
              && (DebitOrderSwitchedAt in row.stamps || SalarySwitchedAt in row.stamps
                  || FirstTransactionCompletedAt in row.stamps)
    ensures row.status == None || row.status == Some(LegacyMilestone(row.stamps))
    ensures Consistent(Load(row), BANKING_TRANSACTIONAL_V1)
  {
    var i := InstanceBehind(row, ev);
    BankingAndInsuranceAreFullyPersisted();
    FullyStoredInstance(row, i, BANKING_TRANSACTIONAL_V1);
    BankingCompleteIsLegacy(i.stamps);
    BankingMilestoneIsLegacy(i.stamps);
  }

  /** What an event the row accepts leads to. */
  lemma AnswerOnAcceptance(row: Row, ev: ProgressEvent, setting: Setting, d: JourneyDefinition)
    requires GetJourneyDefinition(EffectiveCode(row, ev), EffectiveVersion(row, ev)) == Some(d)
    requires !IsSelfReferral(row.referrer, BindReferee(row.referee, ev.referee)) && |d.coreSequence| > 0
    ensures var outcome := HandleRow(row, ev, setting).1;
            var j := Step(Load(row), ArrivalOf(ev), d, setting.progress(EffectiveCode(row, ev)));
            && (!Accepts(Load(row), Normalize(ev.source), d) ==> outcome.Ignored?)
            && (Accepts(Load(row), Normalize(ev.source), d) ==>
                  && j.status.Some?
                  && outcome == if j.status.value in setting.statuses
                                then Processed(!row.isComplete && j.isComplete) else StatusRefused)
  {
  }

  /** Completion events come after funding. */
  predicate SidesFollow(s: Stamps) {
    DebitOrderSwitchedAt in s || SalarySwitchedAt in s || FirstTransactionCompletedAt in s ==> FundedAt in s
  }

  predicate IsSide(e: Event) { e in {DebitOrderSwitched, SalarySwitched, FirstTransactionCompleted} }

  lemma BankingStepOnFields(i: Instance, a: Arrival, p: ProgressDefinition)
    requires Consistent(i, BANKING_TRANSACTIONAL_V1) && Accepts(i, a.event, BANKING_TRANSACTIONAL_V1)
    ensures var j := Step(i, a, BANKING_TRANSACTIONAL_V1, p);
            && j.stamps == LegacyStamps(i.stamps, a.event, a.occurredAt)
            && j.status == Some(LegacyMilestone(j.stamps)) && (j.isComplete <==> LegacyComplete(j.stamps))
    ensures BankingTakes(i.status, i.stamps, a.event)
    ensures i.status.Some? ==> i.status == Some(LegacyMilestone(i.stamps))
    ensures i.isComplete <==> LegacyComplete(i.stamps)
  {
    ConsistentBankingAccepts(i, a.event);
    BankingStampsAreLegacy(i.stamps, a.event, a.occurredAt);
    BankingMilestoneIsLegacy(LegacyStamps(i.stamps, a.event, a.occurredAt));
    BankingCompleteIsLegacy(LegacyStamps(i.stamps, a.event, a.occurredAt));
    BankingMilestoneIsLegacy(i.stamps);
    BankingCompleteIsLegacy(i.stamps);
  }

  lemma TakenEventCompletes(status: Option<Event>, s: Stamps, e: Event, at: Time)
    requires BankingTakes(status, s, e) && SidesFollow(s)
    requires status.Some? ==> status == Some(LegacyMilestone(s))
    requires status == None ==> s == map[]
    ensures var t := LegacyStamps(s, e, at);
            && SidesFollow(t)
            && (!LegacyComplete(s) && LegacyComplete(t) <==> !LegacyComplete(s) && status == Some(Funded) && IsSide(e))
            && (status == Some(Funded) && IsSide(e) ==> LegacyMilestone(t) == Funded)
  {
  }

  /** One step of banking: completion events stay behind funding, and they alone complete. */
  lemma BankingStepCompletes(i: Instance, a: Arrival, p: ProgressDefinition)
    requires Consistent(i, BANKING_TRANSACTIONAL_V1) && Accepts(i, a.event, BANKING_TRANSACTIONAL_V1)
    requires SidesFollow(i.stamps)
    ensures |BANKING_TRANSACTIONAL_V1.coreSequence| > 0
    ensures var j := Step(i, a, BANKING_TRANSACTIONAL_V1, p);
            && SidesFollow(j.stamps)
            && (!i.isComplete && j.isComplete <==> !i.isComplete && i.status == Some(Funded) && IsSide(a.event))
            && (i.status == Some(Funded) && IsSide(a.event) ==> j.status == Some(Funded))
  {
    BankingCore();
    BankingStepOnFields(i, a, p);
    TakenEventCompletes(i.status, i.stamps, a.event, a.occurredAt);
  }

  lemma InsuranceAndRetailHaveNoSides(s: Stamps)
    ensures s.Keys <= Fields(INSURANCE_POLICY_V1) ==> SidesFollow(s)
    ensures s.Keys <= Fields(RETAIL_LOYALTY_V1) ==> SidesFollow(s)
  {
    InsuranceFields();
    RetailFields();
  }

  lemma RetailFields()
    ensures Fields(RETAIL_LOYALTY_V1) == {BasketCreatedAt, OrderPlacedAt, FirstPurchaseCompletedAt}
  {
    var m := RETAIL_LOYALTY_V1.timestampField;
    assert BasketCreated in m && OrderPlaced in m && FirstPurchaseCompleted in m;
  }

  lemma MirrorsOfLinearFollow(row: Row, i: Instance, d: JourneyDefinition)
    requires d == INSURANCE_POLICY_V1 || d == RETAIL_LOYALTY_V1
    requires Consistent(i, d) && Mirrors(row, i)
    ensures SidesFollow(row.stamps)
  {
    InsuranceAndRetailHaveNoSides(row.stamps);
  }

  lemma NoBankingNoSides(row: Row, j: Instance, code: JourneyCode, version: JourneyVersion)
    requires GetJourneyDefinition(code, version).Some? && code != BankingTransactional
    requires Consistent(j, GetJourneyDefinition(code, version).value) && Mirrors(row, j)
    ensures SidesFollow(row.stamps)
  {
    MirrorsOfLinearFollow(row, j, GetJourneyDefinition(code, version).value);
  }

  /** The handler keeps completion events behind funding, whatever the journey. */
  lemma HandlerKeepsSidesBehind(row: Row, ev: ProgressEvent, setting: Setting)
    requires RowOk(row) && SidesFollow(row.stamps)
    ensures SidesFollow(HandleRow(row, ev, setting).0.stamps)
  {
    OnlyProcessedEventsWrite(row, ev, setting);
    if HandleRow(row, ev, setting).1.Processed? { ProcessedKeepsSidesBehind(row, ev, setting); }
  }

  lemma ProcessedKeepsSidesBehind(row: Row, ev: ProgressEvent, setting: Setting)
    requires RowOk(row) && SidesFollow(row.stamps) && HandleRow(row, ev, setting).1.Processed?
    ensures SidesFollow(HandleRow(row, ev, setting).0.stamps)
  {
    ProcessedBinds(row, ev, setting);
    var code, version := EffectiveCode(row, ev), EffectiveVersion(row, ev);
    var d := GetJourneyDefinition(code, version).value;
    var i := InstanceBehind(row, ev);
    var p := setting.progress(code);
    HandledEventMirrorsReplay(row, i, ev, d, setting);
    StepKeeps(i, ArrivalOf(ev), d, p);
    if code == BankingTransactional {
      BankingIsTheDefault(version);
      BankingSidesStayBehind(row, HandleRow(row, ev, setting).0, i, ArrivalOf(ev), p);
    } else {
      NoBankingNoSides(HandleRow(row, ev, setting).0, Step(i, ArrivalOf(ev), d, p), code, version);
    }
  }

  lemma BankingIsTheDefault(version: JourneyVersion)
    requires GetJourneyDefinition(BankingTransactional, version).Some?
    ensures GetJourneyDefinition(BankingTransactional, version) == Some(BANKING_TRANSACTIONAL_V1)
  {
  }

  lemma BankingSidesStayBehind(row: Row, row': Row, i: Instance, a: Arrival, p: ProgressDefinition)
    requires Consistent(i, BANKING_TRANSACTIONAL_V1) && Mirrors(row, i) && SidesFollow(row.stamps)
    requires Accepts(i, a.event, BANKING_TRANSACTIONAL_V1) && Mirrors(row', Step(i, a, BANKING_TRANSACTIONAL_V1, p))
    ensures SidesFollow(row'.stamps)
  {
    BankingAndInsuranceAreFullyPersisted();
    FullyStoredInstance(row, i, BANKING_TRANSACTIONAL_V1);
    BankingStepCompletes(i, a, p);
  }

  lemma {:induction false} LiveRunKeepsSidesBehind(row: Row, events: seq<ProgressEvent>, setting: Setting)
    requires RowOk(row) && SidesFollow(row.stamps)
    ensures RowOk(LiveRun(row, events, setting)) && SidesFollow(LiveRun(row, events, setting).stamps)
    decreases |events|
  {
    if events != [] {
      HandlerKeepsSidesBehind(row, events[0], setting);
      HandleRowKeepsOk(row, events[0], setting);
      LiveRunKeepsSidesBehind(HandleRow(row, events[0], setting).0, events[1..], setting);
    }
  }

  /** On every row that any events lead to from an untouched one: the handler hands a banking referral on
      for rewards exactly when it was funded and not complete and one of the three completion events
      arrives, the referee not being the referrer. */
  lemma BankingRewardExactlyWhen(start: Row, events: seq<ProgressEvent>, ev: ProgressEvent, setting: Setting)
    requires Untouched(start) && Funded in setting.statuses
    requires OnJourney(LiveRun(start, events, setting), ev, BankingTransactional)
    ensures var row := LiveRun(start, events, setting);
            HandleRow(row, ev, setting).1 == Processed(true) <==>
              && !NamesReferrer(row, ev) && row.status == Some(Funded) && !row.isComplete
              && IsSide(Normalize(ev.source))
  {
    LiveRunKeepsSidesBehind(start, events, setting);
    RewardExactlyWhen(LiveRun(start, events, setting), ev, setting);
  }

  lemma RewardExactlyWhen(row: Row, ev: ProgressEvent, setting: Setting)
    requires RowOk(row) && SidesFollow(row.stamps) && Funded in setting.statuses
    requires OnJourney(row, ev, BankingTransactional)
    ensures HandleRow(row, ev, setting).1 == Processed(true) <==>
              && !NamesReferrer(row, ev) && row.status == Some(Funded) && !row.isComplete
              && IsSide(Normalize(ev.source))
  {
    SelfReferralAnswer(row, ev, setting);
    if !NamesReferrer(row, ev) {
      BankingRowCompletion(row, ev);
      AnswerOnAcceptance(row, ev, setting, BANKING_TRANSACTIONAL_V1);
      CompletingStepExactlyWhen(Load(row), ArrivalOf(ev), setting.progress(EffectiveCode(row, ev)));
    }
  }

  lemma CompletingStepExactlyWhen(i: Instance, a: Arrival, p: ProgressDefinition)
    requires Consistent(i, BANKING_TRANSACTIONAL_V1) && SidesFollow(i.stamps)
    ensures |BANKING_TRANSACTIONAL_V1.coreSequence| > 0
    ensures var j := Step(i, a, BANKING_TRANSACTIONAL_V1, p);
            && (Accepts(i, a.event, BANKING_TRANSACTIONAL_V1) && !i.isComplete && j.isComplete <==>
                  i.status == Some(Funded) && !i.isComplete && IsSide(a.event))
            && (i.status == Some(Funded) && IsSide(a.event) ==> j.status == Some(Funded))
  {
    ConsistentBankingAccepts(i, a.event);
    BankingMilestoneIsLegacy(i.stamps);
    BankingCompleteIsLegacy(i.stamps);
    if Accepts(i, a.event, BANKING_TRANSACTIONAL_V1) { BankingStepCompletes(i, a, p); }
  }

  // ----- insurance and retail rewards -----

  /** A linear journey is completed by its last step and by nothing else. */
  lemma LinearStepCompletes(i: Instance, a: Arrival, d: JourneyDefinition, p: ProgressDefinition)
    requires Linear(d) && Charted(d) && Consistent(i, d)
    ensures var core, j := d.coreSequence, Step(i, a, d, p);
            Accepts(i, a.event, d) && !i.isComplete && j.isComplete <==>
              i.status == Some(core[|core| - 2]) && a.event == core[|core| - 1]
  {
    var core := d.coreSequence;
    if Accepts(i, a.event, d) { AcceptedCompletes(i, a, d, p); }
    if i.status == Some(core[|core| - 2]) && a.event == core[|core| - 1] { LastStepIsTaken(i, d); }
  }

  lemma AcceptedCompletes(i: Instance, a: Arrival, d: JourneyDefinition, p: ProgressDefinition)
    requires Linear(d) && Charted(d) && Consistent(i, d) && Accepts(i, a.event, d)
    ensures Step(i, a, d, p).isComplete <==> a.event == d.coreSequence[|d.coreSequence| - 1]
    ensures a.event == d.coreSequence[|d.coreSequence| - 1] ==> i.status == Some(d.coreSequence[|d.coreSequence| - 2])
  {
    LinearStepUp(i, a, d, p);
    StepKeeps(i, a, d, p);
    CompleteIsLast(Step(i, a, d, p), d);
    LastFollowsLastButOne(i.status, a.event, d);
  }

  lemma LastStepIsTaken(i: Instance, d: JourneyDefinition)
    requires Linear(d) && Charted(d) && Consistent(i, d)
    ensures var core := d.coreSequence;
            i.status == Some(core[|core| - 2]) ==> Accepts(i, core[|core| - 1], d) && !i.isComplete
  {
    var core := d.coreSequence;
    AcceptedByLinearTable(i, d, core[|core| - 1]);
    CompleteIsLast(i, d);
    assert Allowed(d, Some(core[|core| - 2])) == {core[|core| - 2 + 1]};
  }

  lemma LastFollowsLastButOne(status: Option<Event>, e: Event, d: JourneyDefinition)
    requires Linear(d) && (status.Some? ==> exists k :: 0 <= k < |d.coreSequence| - 1 && IsNext(status, e, d, k))
    requires status == None ==> e == Validated
    ensures e == d.coreSequence[|d.coreSequence| - 1] ==> status == Some(d.coreSequence[|d.coreSequence| - 2])
  {
  }

  lemma CompleteIsLast(i: Instance, d: JourneyDefinition)
    requires Linear(d) && Consistent(i, d)
    ensures i.isComplete <==> i.status == Some(d.coreSequence[|d.coreSequence| - 1])
  {
    LinearComplete(d, i.stamps);
    if i.status.Some? { RanksOfDistinct(d.coreSequence); RankOfMilestone(d, i.stamps); }
    if i.status == None { assert CurrentRank(d, i.stamps) == 0; }
  }

  /** An accepted event becomes the status, one step up. */
  lemma LinearStepUp(i: Instance, a: Arrival, d: JourneyDefinition, p: ProgressDefinition)
    requires Linear(d) && Charted(d) && Consistent(i, d) && Accepts(i, a.event, d)
    ensures Step(i, a, d, p).status == Some(a.event)
    ensures i.status.Some? ==> exists k :: 0 <= k < |d.coreSequence| - 1 && IsNext(i.status, a.event, d, k)
    ensures i.status == None ==> a.event == Validated
  {
    AcceptedByLinearTable(i, d, a.event);
    AcceptedEventDecidesStatus(i, a, d, p);
    if i.status.Some? { LinearNext(i, d, a.event); } else { StartIsCore(d); }
  }

  predicate IsNext(status: Option<Event>, e: Event, d: JourneyDefinition, k: nat) {
    k < |d.coreSequence| - 1 && status == Some(d.coreSequence[k]) && e == d.coreSequence[k + 1]
  }

  lemma StartIsCore(d: JourneyDefinition)
    requires Linear(d)
    ensures forall e | e in Allowed(d, None) :: e in d.coreSequence
  {
    assert d.coreSequence[0] == Validated;
  }

  lemma LinearNext(i: Instance, d: JourneyDefinition, e: Event)
    requires Linear(d) && Consistent(i, d) && i.status.Some? && e in Allowed(d, i.status)
    ensures exists k :: 0 <= k < |d.coreSequence| - 1 && IsNext(i.status, e, d, k)
    ensures e in d.coreSequence
  {
    var r := CurrentRank(d, i.stamps);
    if r < |d.coreSequence| - 1 {
      assert Allowed(d, Some(d.coreSequence[r])) == {d.coreSequence[r + 1]};
      assert IsNext(i.status, e, d, r);
    }
  }

  lemma LinearRewardExactlyWhen(row: Row, ev: ProgressEvent, d: JourneyDefinition, setting: Setting)
    requires RowOk(row) && Linear(d) && Charted(d) && Fits(d, setting.statuses)
    requires GetJourneyDefinition(EffectiveCode(row, ev), EffectiveVersion(row, ev)) == Some(d)
    ensures HandleRow(row, ev, setting).1 == Processed(true) <==>
              && !NamesReferrer(row, ev) && row.status == Some(d.coreSequence[|d.coreSequence| - 2])
              && Normalize(ev.source) == d.coreSequence[|d.coreSequence| - 1]
  {
    SelfReferralAnswer(row, ev, setting);
    if !NamesReferrer(row, ev) {
      var i := InstanceBehind(row, ev);
      LiveStepMirrors(row, i, ev, EffectiveCode(row, ev), EffectiveVersion(row, ev), d, setting);
      LinearStepCompletes(i, ArrivalOf(ev), d, setting.progress(EffectiveCode(row, ev)));
      EligibleExactlyOnCompletion(row, ev, setting);
    }
  }

  lemma NamedRewardExactlyWhen(row: Row, ev: ProgressEvent, code: JourneyCode, d: JourneyDefinition, before: Event,
                               last: Event, setting: Setting)
    requires RowOk(row) && OnJourney(row, ev, code) && Linear(d) && Charted(d) && Fits(d, setting.statuses)
    requires GetJourneyDefinition(code, V1) == Some(d)
    requires d.coreSequence[|d.coreSequence| - 2] == before && d.coreSequence[|d.coreSequence| - 1] == last
    ensures HandleRow(row, ev, setting).1 == Processed(true) <==>
              !NamesReferrer(row, ev) && row.status == Some(before) && Normalize(ev.source) == last
  {
    LinearRewardExactlyWhen(row, ev, d, setting);
  }

  lemma InsuranceIsRegistered()
    ensures GetJourneyDefinition(InsurancePolicy, V1) == Some(INSURANCE_POLICY_V1)
    ensures var core := INSURANCE_POLICY_V1.coreSequence;
            |core| > 1 && core[|core| - 2] == PolicyIssued && core[|core| - 1] == FirstPremiumPaid
  {
  }

  lemma RetailIsRegistered()
    ensures GetJourneyDefinition(RetailLoyalty, V1) == Some(RETAIL_LOYALTY_V1)
    ensures var core := RETAIL_LOYALTY_V1.coreSequence;
            |core| > 1 && core[|core| - 2] == OrderPlaced && core[|core| - 1] == FirstPurchaseCompleted
  {
  }

  /** Where the table admits its milestones, an insurance referral is handed on exactly when its first
      premium is paid after its policy was issued. */
  lemma InsuranceRewardExactlyWhen(row: Row, ev: ProgressEvent, setting: Setting)
    requires RowOk(row) && OnJourney(row, ev, InsurancePolicy) && Fits(INSURANCE_POLICY_V1, setting.statuses)
    ensures HandleRow(row, ev, setting).1 == Processed(true) <==>
              !NamesReferrer(row, ev) && row.status == Some(PolicyIssued) && Normalize(ev.source) == FirstPremiumPaid
  {
    InsuranceIsLinear();
    InsuranceIsCharted();
    InsuranceIsRegistered();
    NamedRewardExactlyWhen(row, ev, InsurancePolicy, INSURANCE_POLICY_V1, PolicyIssued, FirstPremiumPaid, setting);
  }

  /** And a retail referral when its first purchase completes after its order was placed. */
  lemma RetailRewardExactlyWhen(row: Row, ev: ProgressEvent, setting: Setting)
    requires RowOk(row) && OnJourney(row, ev, RetailLoyalty) && Fits(RETAIL_LOYALTY_V1, setting.statuses)
    ensures HandleRow(row, ev, setting).1 == Processed(true) <==>
              && !NamesReferrer(row, ev) && row.status == Some(OrderPlaced)
              && Normalize(ev.source) == FirstPurchaseCompleted
  {
    RetailIsLinear();
    RetailIsCharted();
    RetailIsRegistered();
    NamedRewardExactlyWhen(row, ev, RetailLoyalty, RETAIL_LOYALTY_V1, OrderPlaced, FirstPurchaseCompleted, setting);
  }

  lemma NothingPersisted(s: Stamps, fields: set<Field>)
    requires s.Keys <= fields && fields !! PERSISTED
    ensures Persisted(s) == map[]
  {
  }

  lemma RetailMirrorsHoldNoTimestamps(row: Row, i: Instance)
    requires Consistent(i, RETAIL_LOYALTY_V1) && Mirrors(row, i)
    ensures row.stamps == map[]
  {
    RetailFields();
    NothingPersisted(i.stamps, {BasketCreatedAt, OrderPlacedAt, FirstPurchaseCompletedAt});
  }

  lemma RetailInstanceBehind(row: Row, code: JourneyCode, version: JourneyVersion)
    requires RowOk(row) && row.journeyCode == Some(code) && row.journeyVersion == Some(version)
    requires GetJourneyDefinition(code, version) == Some(RETAIL_LOYALTY_V1)
    ensures row.stamps == map[]
  {
    if !Untouched(row) {
      var i :| Consistent(i, RETAIL_LOYALTY_V1) && Mirrors(row, i);
      RetailMirrorsHoldNoTimestamps(row, i);
    }
  }

  /** A row of the retail journey never holds a timestamp. */
  lemma RetailRowsHoldNoTimestamps(row: Row)
    requires RowOk(row) && row.journeyCode == Some(RetailLoyalty) && row.journeyVersion == Some(V1)
    ensures row.stamps == map[]
  {
    RetailIsRegistered();
    RetailInstanceBehind(row, RetailLoyalty, V1);
  }

  // ----- rebuilt rows -----

  lemma {:induction false} CompletedWhenReplayed(i: Instance, arrivals: seq<Arrival>, d: JourneyDefinition,
                                                 p: ProgressDefinition, now: Time)
    requires |d.coreSequence| > 0 && (i.completedAt == None || i.completedAt == Some(now))
    requires forall a | a in arrivals :: a.now == now
    ensures var j := Run(i, arrivals, d, p); j.completedAt == None || j.completedAt == Some(now)
    decreases |arrivals|
  {
    if arrivals != [] {
      assert arrivals[0] in arrivals && forall a | a in arrivals[1..] :: a in arrivals;
      CompletedWhenReplayed(Step(i, arrivals[0], d, p), arrivals[1..], d, p, now);
    }
  }

  /** A referral can be rebuilt exactly in a known journey. */
  lemma RebuiltExactlyWhen(row: Row, log: seq<ProgressEvent>, setting: Setting, now: Time)
    ensures Rebuilt(row, log, setting, now).Some? <==>
              && FirstOf(row.journeyCode, None, BankingTransactional)
                 in {BankingTransactional, InsurancePolicy, RetailLoyalty}
              && FirstOf(row.journeyVersion, None, V1) == V1
  {
    KnownJourneys(RowCode(row), RowVersion(row));
    if GetJourneyDefinition(RowCode(row), RowVersion(row)).Some? {
      ShippedJourneysAreStorable(RowCode(row), RowVersion(row));
    }
  }

  /** What is rebuilt as complete was completed at the time of the rebuild. */
  lemma RebuiltCompletionTime(row: Row, log: seq<ProgressEvent>, d: JourneyDefinition, setting: Setting, now: Time)
    requires GetJourneyDefinition(RowCode(row), RowVersion(row)) == Some(d) && |d.coreSequence| > 0
    ensures var rebuilt := Rebuilt(row, log, setting, now);
            rebuilt.Some? && (rebuilt.value.completedAt == None || rebuilt.value.completedAt == Some(now))
  {
    var p := setting.progress(RowCode(row));
    CompletedWhenReplayed(Reset(p), Replayed(log, now), d, p, now);
  }

  /** A rebuild starts at the beginning: an empty log gives a referral without timestamps, not complete, and
      any log one whose milestone, platform status and snapshot follow its status and completion. */
  lemma RebuiltFollows(row: Row, log: seq<ProgressEvent>, setting: Setting, now: Time)
    requires Rebuilt(row, log, setting, now).Some?
    ensures var i := Rebuilt(row, log, setting, now).value;
            && i.status.Some? && JourneyFields.Follows(i, i.status.value, i.isComplete, setting.progress(RowCode(row)))
            && (log == [] ==>
                  i.status == Some(Validated) && i.stamps == map[] && !i.isComplete && i.completedAt == None)
  {
    var d, p := GetJourneyDefinition(RowCode(row), RowVersion(row)).value, setting.progress(RowCode(row));
    RunFollows(Reset(p), Replayed(log, now), d, p);
  }

  /** Writing back a rebuilt instance: the row mirrors it, keeps referrer, product, journey and referee, and
      is updated now; a status the table refuses leaves the row as it was. */
  lemma WrittenColumns(row: Row, i: Instance, setting: Setting, now: Time)
    requires i.status.Some?
    ensures var row' := WrittenBack(row, i, setting, now);
            if i.status.value !in setting.statuses then row' == row
            else
              && Mirrors(row', i)
              && row'.referrer == row.referrer && row'.product == row.product && row'.subProduct == row.subProduct
              && row'.journeyCode == row.journeyCode && row'.journeyVersion == row.journeyVersion
              && row'.referee == row.referee && row'.updatedAt == Some(now)
  {
  }
}
