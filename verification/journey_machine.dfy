/** The referral journey state machine: how one event is classified and applied to an instance, and
    what every run of events keeps. */
module JourneyMachine {
  import opened Prelude
  import opened JourneyDefinitions

  datatype PlatformStatus = Completed | InProgress

  /** Progress presentation table; percentages, bands and display texts are opaque codes. */
  datatype ProgressMilestone = ProgressMilestone(percent: nat, band: nat, display: nat, next: Option<Event>)

  datatype ProgressDefinition =
    ProgressDefinition(milestones: map<Event, ProgressMilestone>, completeBand: nat, completeDisplay: nat)

  datatype Snapshot =
    Snapshot(percent: Option<nat>, band: Option<nat>, display: Option<nat>, next: Option<Event>)

  type Stamps = map<Field, Time>

  datatype Instance = Instance(
    status: Option<Event>,
    currentMilestone: Option<Event>,
    stamps: Stamps,
    isComplete: bool,
    completedAt: Option<Time>,
    platformStatus: Option<PlatformStatus>,
    snapshot: Snapshot)

  datatype Verdict = Valid | Duplicate | Backward | OutOfOrder | Invalid

  /** An event as it reaches the machine: its type, when it occurred, and the wall clock. */
  datatype Arrival = Arrival(event: Event, occurredAt: Time, now: Time)

  predicate Stamped(d: JourneyDefinition, stamps: Stamps, e: Event) {
    e in d.timestampField && d.timestampField[e] in stamps
  }

  function Classify(status: Option<Event>, stamps: Stamps, e: Event, d: JourneyDefinition): Verdict {
    if Stamped(d, stamps, e) then Duplicate
    else if e in Allowed(d, status) then Valid
    else
      var incomingRank := StatusRank(Some(e), d.coreSequence);
      var currentRank := StatusRank(status, d.coreSequence);
      if e in SideEvents(d) then
        if status == d.completionMinimum then Valid
        else if currentRank >= 0 then OutOfOrder
        else Invalid
      else if incomingRank >= 0 && currentRank >= 0 && incomingRank < currentRank then Backward
      else if incomingRank >= 0 && currentRank >= 0 && incomingRank > currentRank then OutOfOrder
      else if incomingRank >= 0 && currentRank == -1 then OutOfOrder
      else Invalid
  }

  function SetOnce(stamps: Stamps, f: Field, at: Time): Stamps {
    if f in stamps then stamps else stamps[f := at]
  }

  /** Timestamps after an event is applied. Events without a field in the definition fall back to
      the hard-coded banking fields; FUNDED always back-fills the activation timestamp. */
  function ApplyStamps(stamps: Stamps, e: Event, at: Time, d: JourneyDefinition): Stamps {
    if e in d.timestampField then
      var filled := if e == Funded then SetOnce(stamps, AccountActivatedAt, at) else stamps;
      SetOnce(filled, d.timestampField[e], at)
    else
      match e
      case UcnCaptured => SetOnce(stamps, UcnCapturedAt, at)
      case AccountOpened => SetOnce(stamps, AccountOpenedAt, at)
      case AccountActivated => SetOnce(stamps, AccountActivatedAt, at)
      case Funded => SetOnce(SetOnce(stamps, AccountActivatedAt, at), FundedAt, at)
      case DebitOrderSwitched => SetOnce(stamps, DebitOrderSwitchedAt, at)
      case SalarySwitched => SetOnce(stamps, SalarySwitchedAt, at)
      case FirstTransactionCompleted => SetOnce(stamps, FirstTransactionCompletedAt, at)
      case _ => stamps
  }

  /** The highest position below `n` whose milestone carries a timestamp, or 0. */
  function TopRank(d: JourneyDefinition, stamps: Stamps, n: nat): (r: nat)
    requires 0 < n <= |d.coreSequence|
    ensures r < n
    ensures r > 0 ==> Stamped(d, stamps, d.coreSequence[r])
    ensures forall i | r < i < n :: !Stamped(d, stamps, d.coreSequence[i])
  {
    if n == 1 then 0
    else if Stamped(d, stamps, d.coreSequence[n - 1]) then n - 1
    else TopRank(d, stamps, n - 1)
  }

  function CurrentRank(d: JourneyDefinition, stamps: Stamps): (r: nat)
    requires |d.coreSequence| > 0
    ensures r < |d.coreSequence|
  {
    TopRank(d, stamps, |d.coreSequence|)
  }

  function DeriveMilestone(d: JourneyDefinition, stamps: Stamps): Event
    requires |d.coreSequence| > 0
  {
    d.coreSequence[CurrentRank(d, stamps)]
  }

  predicate DeriveComplete(d: JourneyDefinition, stamps: Stamps) {
    && (d.completionMinimum.Some? ==> Stamped(d, stamps, d.completionMinimum.value))
    && exists e | e in d.completionEvents :: Stamped(d, stamps, e)
  }

  function DeriveCompletedAt(isComplete: bool, completedAt: Option<Time>, now: Time): Option<Time> {
    if isComplete && completedAt == None then Some(now) else completedAt
  }

  function DeriveSnapshot(status: Event, p: ProgressDefinition, isComplete: bool): Snapshot {
    if isComplete then Snapshot(Some(100), Some(p.completeBand), Some(p.completeDisplay), None)
    else if status !in p.milestones then Snapshot(None, None, None, None)
    else
      var m := p.milestones[status];
      Snapshot(Some(m.percent), Some(m.band), Some(m.display), m.next)
  }

  function Accepts(i: Instance, e: Event, d: JourneyDefinition): bool {
    Classify(i.status, i.stamps, e, d) == Valid
  }

  /** The instance once its timestamps are known: everything else is re-derived from them. */
  function Derived(i: Instance, stamps: Stamps, now: Time, d: JourneyDefinition, p: ProgressDefinition): Instance
    requires |d.coreSequence| > 0
  {
    var milestone := DeriveMilestone(d, stamps);
    var complete := DeriveComplete(d, stamps);
    Instance(Some(milestone), Some(milestone), stamps, complete,
             DeriveCompletedAt(complete, i.completedAt, now),
             Some(if complete then Completed else InProgress),
             DeriveSnapshot(milestone, p, complete))
  }

  function Step(i: Instance, a: Arrival, d: JourneyDefinition, p: ProgressDefinition): Instance
    requires |d.coreSequence| > 0
  {
    if Accepts(i, a.event, d)
    then Derived(i, ApplyStamps(i.stamps, a.event, a.occurredAt, d), a.now, d, p)
    else i
  }

  function Run(i: Instance, arrivals: seq<Arrival>, d: JourneyDefinition, p: ProgressDefinition): Instance
    requires |d.coreSequence| > 0
    decreases |arrivals|
  {
    if arrivals == [] then i else Run(Step(i, arrivals[0], d, p), arrivals[1..], d, p)
  }

  /** The arrivals of a run that were accepted, in order. */
  function AcceptedOf(i: Instance, arrivals: seq<Arrival>, d: JourneyDefinition, p: ProgressDefinition): seq<Arrival>
    requires |d.coreSequence| > 0
    decreases |arrivals|
  {
    if arrivals == [] then []
    else
      var rest := AcceptedOf(Step(i, arrivals[0], d, p), arrivals[1..], d, p);
      if Accepts(i, arrivals[0].event, d) then [arrivals[0]] + rest else rest
  }

  /** A referral before its first journey event. */
  predicate Fresh(i: Instance) {
    (i.status == None || i.status == Some(Validated)) && i.stamps == map[] && !i.isComplete && i.completedAt == None
  }

  /** What every run keeps: no status means no timestamps, otherwise the status is the milestone
      derived from the timestamps; completion and its time go together. */
  ghost predicate Consistent(i: Instance, d: JourneyDefinition) {
    && |d.coreSequence| > 0
    && i.stamps.Keys <= Fields(d)
    && (i.status == None ==> i.stamps == map[])
    && (i.status.Some? ==> i.status == Some(DeriveMilestone(d, i.stamps)))
    && i.isComplete == DeriveComplete(d, i.stamps)
    && (i.completedAt.Some? <==> i.isComplete)
  }

  /** `j` may come after `i`: timestamps kept as they were, rank not lower, completion not undone. */
  ghost predicate Advances(i: Instance, j: Instance, d: JourneyDefinition) {
    && Submap(i.stamps, j.stamps)
    && StatusRank(i.status, d.coreSequence) <= StatusRank(j.status, d.coreSequence)
    && (i.status.Some? ==> j.status.Some?)
    && (i.isComplete ==> j.isComplete && j.completedAt == i.completedAt)
  }

  // ----- one step -----

  /** What being accepted means in a well-formed journey: either the start from no status, or a
      timed event whose own timestamp was still missing. */
  lemma {:induction false} AcceptedMeans(i: Instance, e: Event, d: JourneyDefinition)
    requires WellFormed(d) && Consistent(i, d) && Accepts(i, e, d)
    ensures if i.status == None then e == Validated else e in d.timestampField && !Stamped(d, i.stamps, e)
  {
    if i.status.Some? {
      var r := CurrentRank(d, i.stamps);
      assert i.status == Some(d.coreSequence[r]);
    }
  }

  lemma RankOfMilestone(d: JourneyDefinition, stamps: Stamps)
    requires TimedCore(d)
    ensures StatusRank(Some(DeriveMilestone(d, stamps)), d.coreSequence) == CurrentRank(d, stamps)
  {
    RanksOfDistinct(d.coreSequence);
  }

  lemma {:induction false} MoreStampsHigherRank(d: JourneyDefinition, s: Stamps, t: Stamps)
    requires |d.coreSequence| > 0 && Submap(s, t)
    ensures CurrentRank(d, s) <= CurrentRank(d, t)
    ensures DeriveComplete(d, s) ==> DeriveComplete(d, t)
  {
    var r := CurrentRank(d, s);
    if r > 0 { assert Stamped(d, t, d.coreSequence[r]); }
    if DeriveComplete(d, s) {
      var e :| e in d.completionEvents && Stamped(d, s, e);
      assert Stamped(d, t, e);
    }
  }

  lemma ApplyStampsSetsOnce(stamps: Stamps, e: Event, at: Time, d: JourneyDefinition)
    requires e == Validated || e in d.timestampField
    requires Validated !in d.timestampField
    requires stamps.Keys <= Fields(d)
    ensures var t := ApplyStamps(stamps, e, at, d);
            Submap(stamps, t) && t.Keys <= Fields(d) && (e in d.timestampField ==> Stamped(d, t, e))
  {
    if e in d.timestampField { assert d.timestampField[e] in d.timestampField.Values; }
  }

  lemma {:induction false} StepKeeps(i: Instance, a: Arrival, d: JourneyDefinition, p: ProgressDefinition)
    requires WellFormed(d) && Consistent(i, d)
    ensures Consistent(Step(i, a, d, p), d)
    ensures Advances(i, Step(i, a, d, p), d)
  {
    if Accepts(i, a.event, d) {
      AcceptedMeans(i, a.event, d);
      ApplyStampsSetsOnce(i.stamps, a.event, a.occurredAt, d);
      var t := ApplyStamps(i.stamps, a.event, a.occurredAt, d);
      MoreStampsHigherRank(d, i.stamps, t);
      RankOfMilestone(d, i.stamps);
      RankOfMilestone(d, t);
    }
  }
}
