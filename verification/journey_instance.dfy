/** The instance dictionary as the orchestrator works on it: fields assigned in place, each method
    tied to the pure machine. */
module JourneyInstance {
  import opened Prelude
  import opened JourneyDefinitions
  import opened JourneyMachine

  class InstanceDict {
    var status: Option<Event>
    var currentMilestone: Option<Event>
    var stamps: Stamps
    var isComplete: bool
    var completedAt: Option<Time>
    var platformStatus: Option<PlatformStatus>
    var snapshot: Snapshot

    ghost function View(): Instance
      reads this
    {
      Instance(status, currentMilestone, stamps, isComplete, completedAt, platformStatus, snapshot)
    }

    constructor (i: Instance)
      ensures View() == i
    {
      status, currentMilestone, stamps := i.status, i.currentMilestone, i.stamps;
      isComplete, completedAt := i.isComplete, i.completedAt;
      platformStatus, snapshot := i.platformStatus, i.snapshot;
    }

    method SetStamp(f: Field, at: Time)
      modifies this`stamps
      ensures stamps == SetOnce(old(stamps), f, at)
    {
      if f !in stamps { stamps := stamps[f := at]; }
    }

    method ApplyEventFields(e: Event, at: Time, d: JourneyDefinition)
      modifies this`stamps
      ensures stamps == ApplyStamps(old(stamps), e, at, d)
    {
      if e in d.timestampField {
        if e == Funded { SetStamp(AccountActivatedAt, at); }
        SetStamp(d.timestampField[e], at);
        return;
      }
      match e
      case UcnCaptured => SetStamp(UcnCapturedAt, at);
      case AccountOpened => SetStamp(AccountOpenedAt, at);
      case AccountActivated => SetStamp(AccountActivatedAt, at);
      case Funded =>
        SetStamp(AccountActivatedAt, at);
        SetStamp(FundedAt, at);
      case DebitOrderSwitched => SetStamp(DebitOrderSwitchedAt, at);
      case SalarySwitched => SetStamp(SalarySwitchedAt, at);
      case FirstTransactionCompleted => SetStamp(FirstTransactionCompletedAt, at);
      case _ =>
    }

    /** Scans the core sequence from the top down. */
    method DeriveCurrentMilestone(d: JourneyDefinition) returns (milestone: Event)
      requires |d.coreSequence| > 0
      ensures milestone == DeriveMilestone(d, stamps)
    {
      var n := |d.coreSequence|;
      while n > 1
        invariant 1 <= n <= |d.coreSequence|
        invariant TopRank(d, stamps, n) == CurrentRank(d, stamps)
      {
        if Stamped(d, stamps, d.coreSequence[n - 1]) { return d.coreSequence[n - 1]; }
        n := n - 1;
      }
      return d.coreSequence[0];
    }

    method DeriveCompletion(d: JourneyDefinition, now: Time) returns (complete: bool, at: Option<Time>)
      ensures complete == DeriveComplete(d, stamps)
      ensures at == DeriveCompletedAt(complete, completedAt, now)
    {
      complete := false;
      if d.completionMinimum == None || Stamped(d, stamps, d.completionMinimum.value) {
        var todo := d.completionEvents;
        while todo != {} && !complete
          invariant todo <= d.completionEvents
          invariant complete ==> exists e | e in d.completionEvents :: Stamped(d, stamps, e)
          invariant !complete ==> forall e | e in d.completionEvents - todo :: !Stamped(d, stamps, e)
          decreases todo
        {
          var e :| e in todo;
          complete := Stamped(d, stamps, e);
          todo := todo - {e};
        }
      }
      at := completedAt;
      if complete && at == None { at := Some(now); }
    }

    /** The tail shared by live handling and replay: timestamps first, then everything derived. */
    method ApplyAccepted(e: Event, at: Time, now: Time, d: JourneyDefinition, p: ProgressDefinition)
      requires |d.coreSequence| > 0
      modifies this
      ensures View() == Derived(old(View()), ApplyStamps(old(stamps), e, at, d), now, d, p)
    {
      ApplyEventFields(e, at, d);
      var milestone := DeriveCurrentMilestone(d);
      isComplete, completedAt := DeriveCompletion(d, now);
      status := Some(milestone);
      currentMilestone := Some(milestone);
      platformStatus := Some(if isComplete then Completed else InProgress);
      snapshot := DeriveSnapshot(milestone, p, isComplete);
    }

    /** Replay of one event on an instance held in memory. */
    method ApplyProgressEvent(e: Event, at: Time, now: Time, d: JourneyDefinition, p: ProgressDefinition)
      returns (verdict: Verdict)
      requires |d.coreSequence| > 0
      modifies this
      ensures verdict == Classify(old(status), old(stamps), e, d)
      ensures View() == Step(old(View()), Arrival(e, at, now), d, p)
    {
      verdict := Classify(status, stamps, e, d);
      if verdict == Valid { ApplyAccepted(e, at, now, d, p); }
    }

    /** Clears the projection before a replay: back to a validated referral with nothing recorded. */
    method ResetProjection(p: ProgressDefinition)
      modifies this
      ensures Fresh(View()) && status == Some(Validated)
      ensures View() == Instance(Some(Validated), Some(Validated), map[], false, None, Some(InProgress),
                                 DeriveSnapshot(Validated, p, false))
    {
      status, currentMilestone, stamps := Some(Validated), Some(Validated), map[];
      isComplete, completedAt := false, None;
      platformStatus, snapshot := Some(InProgress), DeriveSnapshot(Validated, p, false);
    }

    /** Replay of a whole event list, counting applied and ignored events. */
    method Replay(arrivals: seq<Arrival>, d: JourneyDefinition, p: ProgressDefinition)
      returns (applied: nat, ignored: nat)
      requires |d.coreSequence| > 0
      modifies this
      ensures View() == Run(old(View()), arrivals, d, p)
      ensures applied == |AcceptedOf(old(View()), arrivals, d, p)|
      ensures applied + ignored == |arrivals|
    {
      applied, ignored := 0, 0;
      var k := 0;
      while k < |arrivals|
        invariant 0 <= k <= |arrivals|
        invariant applied + ignored == k
        invariant Run(View(), arrivals[k..], d, p) == Run(old(View()), arrivals, d, p)
        invariant applied + |AcceptedOf(View(), arrivals[k..], d, p)| == |AcceptedOf(old(View()), arrivals, d, p)|
      {
        var a := arrivals[k];
        assert arrivals[k..][0] == a && arrivals[k..][1..] == arrivals[k + 1..];
        var verdict := ApplyProgressEvent(a.event, a.occurredAt, a.now, d, p);
        if verdict == Valid { applied := applied + 1; } else { ignored := ignored + 1; }
        k := k + 1;
      }
      assert arrivals[k..] == [];
    }
  }
}
