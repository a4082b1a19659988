/** The live handler: one stored row per referral, loaded into an instance dictionary, bound,
    classified, applied and saved again. Saving keeps only the columns the table has. */
module JourneyStore {
  import opened Prelude
  import opened JourneyDefinitions
  import opened JourneyMachine
  import opened JourneyInstance

  /** Identifiers are opaque; a missing or blank value is None. */
  type Ucn = nat
  type Product = nat
  type Tenant = nat
  type TrackId = nat

  /** Who the referee is, as far as events have told. */
  datatype Referee = Referee(
    ucn: Option<Ucn>,
    ucnHash: Option<nat>,
    accountNumber: Option<nat>,
    accountHash: Option<nat>,
    accountMasked: Option<nat>)

  datatype Row = Row(
    referrer: Option<Ucn>,
    product: Option<Product>,
    subProduct: Option<Product>,
    status: Option<Event>,
    journeyCode: Option<JourneyCode>,
    journeyVersion: Option<JourneyVersion>,
    referee: Referee,
    stamps: Stamps,
    snapshot: Snapshot,
    isComplete: bool,
    completedAt: Option<Time>,
    updatedAt: Option<Time>)

  /** The timestamp columns of the table. The retail fields are not among them. */
  const PERSISTED: set<Field> :=
    {UcnCapturedAt, AccountOpenedAt, AccountActivatedAt, FundedAt, DebitOrderSwitchedAt,
     SalarySwitchedAt, FirstTransactionCompletedAt}

  function Persisted(stamps: Stamps): Stamps {
    map f | f in stamps && f in PERSISTED :: stamps[f]
  }

  /** Event types as sources spell them; four spellings are aliases. */
  datatype SourceEvent = Canonical(event: Event) | RefereeUcnCaptured | UcnCreated | AccountFunded

  function Normalize(s: SourceEvent): Event {
    match s
    case Canonical(e) => e
    case RefereeUcnCaptured => UcnCaptured
    case UcnCreated => AccountOpened
    case AccountFunded => Funded
  }

  datatype ProgressEvent = ProgressEvent(
    isProgressRecorded: bool,
    deduped: bool,
    trackId: Option<TrackId>,
    source: SourceEvent,
    occurredAt: Time,
    referee: Referee,
    journeyCode: Option<JourneyCode>,
    journeyVersion: Option<JourneyVersion>,
    handledAt: Time)

  datatype Outcome =
    | TenantMissing
    | NotAProgressEvent
    | UpstreamDuplicate
    | TrackIdMissing
    | ReferralNotFound
    | SelfReferral
    | UnsupportedJourney
    | Ignored(verdict: Verdict)
    | StatusRefused
    | Processed(rewardEligible: bool)

  /** What a deployment brings: the progress table of each journey, and the statuses that the check on
      the referral table admits. */
  datatype Setting = Setting(progress: JourneyCode -> ProgressDefinition, statuses: set<Event>)

  /** The statuses admitted by the migrations; COMPLETED and CANCELLED, which no journey derives, are
      admitted too. */
  const MIGRATED_STATUSES: set<Event> := {Validated, UcnCaptured, AccountOpened, AccountActivated, Funded}

  function OrElse<T>(a: Option<T>, b: Option<T>): Option<T> {
    if a.Some? then a else b
  }

  function BindReferee(r: Referee, fromEvent: Referee): Referee {
    Referee(OrElse(r.ucn, fromEvent.ucn), OrElse(r.ucnHash, fromEvent.ucnHash),
            OrElse(r.accountNumber, fromEvent.accountNumber), OrElse(r.accountHash, fromEvent.accountHash),
            OrElse(r.accountMasked, fromEvent.accountMasked))
  }

  predicate IsSelfReferral(referrer: Option<Ucn>, referee: Referee) {
    referrer.Some? && referrer == referee.ucn
  }

  function EffectiveCode(row: Row, ev: ProgressEvent): JourneyCode {
    var bound := OrElse(row.journeyCode, ev.journeyCode);
    if bound.Some? then bound.value else DEFAULT_JOURNEY_CODE
  }

  function EffectiveVersion(row: Row, ev: ProgressEvent): JourneyVersion {
    var bound := OrElse(row.journeyVersion, ev.journeyVersion);
    if bound.Some? then bound.value else DEFAULT_JOURNEY_VERSION
  }

  /** The dictionary a row is loaded into; columns that are not selected stay unset. */
  function Load(row: Row): Instance {
    Instance(row.status, None, Persisted(row.stamps), row.isComplete, row.completedAt, None, row.snapshot)
  }

  function Save(row: Row, referee: Referee, code: JourneyCode, version: JourneyVersion, i: Instance, now: Time): Row {
    row.(status := i.status, journeyCode := Some(code), journeyVersion := Some(version), referee := referee,
         stamps := Persisted(i.stamps), snapshot := i.snapshot, isComplete := i.isComplete,
         completedAt := i.completedAt, updatedAt := Some(now))
  }

  function ArrivalOf(ev: ProgressEvent): Arrival {
    Arrival(Normalize(ev.source), ev.occurredAt, ev.handledAt)
  }

  function BecameEligible(before: bool, after: bool): bool {
    !before && after
  }

  /** The transactional part of the handler on one row. */
  function HandleRow(row: Row, ev: ProgressEvent, setting: Setting): (Row, Outcome) {
    var referee := BindReferee(row.referee, ev.referee);
    if IsSelfReferral(row.referrer, referee) then (row, SelfReferral)
    else
      var code, version := EffectiveCode(row, ev), EffectiveVersion(row, ev);
      match GetJourneyDefinition(code, version)
      case None => (row, UnsupportedJourney)
      case Some(d) =>
        var i := Load(row);
        var verdict := Classify(i.status, i.stamps, Normalize(ev.source), d);
        if verdict != Valid then (row, Ignored(verdict))
        else
          var j := Derived(i, ApplyStamps(i.stamps, Normalize(ev.source), ev.occurredAt, d), ev.handledAt, d,
                           setting.progress(code));
          if j.status.value !in setting.statuses then (row, StatusRefused)
          else (Save(row, referee, code, version, j, ev.handledAt),
                Processed(BecameEligible(row.isComplete, j.isComplete)))
  }

  datatype ReferralKey = ReferralKey(tenant: Tenant, trackId: TrackId)

  /** The handler on the whole table. Everything that raises or returns early leaves it unchanged. */
  function Handle(rows: map<ReferralKey, Row>, tenant: Option<Tenant>, ev: ProgressEvent, setting: Setting)
    : (map<ReferralKey, Row>, Outcome)
  {
    if tenant == None then (rows, TenantMissing)
    else if !ev.isProgressRecorded then (rows, NotAProgressEvent)
    else if ev.deduped then (rows, UpstreamDuplicate)
    else if ev.trackId == None then (rows, TrackIdMissing)
    else
      var key := ReferralKey(tenant.value, ev.trackId.value);
      if key !in rows then (rows, ReferralNotFound)
      else
        var (row, outcome) := HandleRow(rows[key], ev, setting);
        (if outcome.Processed? then rows[key := row] else rows, outcome)
  }

  class ReferralStore {
    var rows: map<ReferralKey, Row>
    var eligible: seq<ReferralKey>

    constructor ()
      ensures rows == map[] && eligible == []
    {
      rows, eligible := map[], [];
    }

    /** Handles one event and reports how it ended; a referral that newly completed is handed on for
        its base rewards. */
    method HandleReferralProgressRecorded(tenant: Option<Tenant>, ev: ProgressEvent, setting: Setting)
      returns (outcome: Outcome)
      modifies this
      ensures (rows, outcome) == Handle(old(rows), tenant, ev, setting)
      ensures eligible == if outcome == Processed(true)
                          then old(eligible) + [ReferralKey(tenant.value, ev.trackId.value)]
                          else old(eligible)
    {
      if tenant == None { return TenantMissing; }
      if !ev.isProgressRecorded { return NotAProgressEvent; }
      if ev.deduped { return UpstreamDuplicate; }
      if ev.trackId == None { return TrackIdMissing; }
      var key := ReferralKey(tenant.value, ev.trackId.value);
      if key !in rows { return ReferralNotFound; }

      var row := rows[key];
      var instance := new InstanceDict(Load(row));
      var referee := BindReferee(row.referee, ev.referee);
      if IsSelfReferral(row.referrer, referee) { return SelfReferral; }

      var code, version := EffectiveCode(row, ev), EffectiveVersion(row, ev);
      var found := GetJourneyDefinition(code, version);
      if found == None { return UnsupportedJourney; }
      var d := found.value;
      var e := Normalize(ev.source);
      var verdict := Classify(instance.status, instance.stamps, e, d);
      if verdict != Valid { return Ignored(verdict); }

      instance.ApplyAccepted(e, ev.occurredAt, ev.handledAt, d, setting.progress(code));
      var after := Instance(instance.status, instance.currentMilestone, instance.stamps, instance.isComplete,
                            instance.completedAt, instance.platformStatus, instance.snapshot);
      if after.status.Some? && after.status.value !in setting.statuses { return StatusRefused; }
      rows := rows[key := Save(row, referee, code, version, after, ev.handledAt)];
      outcome := Processed(BecameEligible(row.isComplete, instance.isComplete));
      if outcome.rewardEligible { eligible := eligible + [key]; }
    }
  }
}
