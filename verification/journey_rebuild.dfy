/** Rebuilding a referral from the event log: replay in order of occurrence, without the gate against
    self-referrals, compared with what live handling made of the events as they arrived. */
module JourneyRebuild {
  import opened Prelude
  import opened JourneyDefinitions
  import opened JourneyMachine
  import opened JourneyInstance
  import opened JourneyRuns
  import opened JourneyCharts
  import opened JourneyStore
  import opened JourneyLive

  // ----- the log in order of occurrence -----

  /** Puts an event after all that occurred no later. */
  function Place(sorted: seq<ProgressEvent>, ev: ProgressEvent): seq<ProgressEvent> {
    if sorted == [] || sorted[|sorted| - 1].occurredAt <= ev.occurredAt then sorted + [ev]
    else Place(sorted[..|sorted| - 1], ev) + [sorted[|sorted| - 1]]
  }

  /** The log ordered by occurrence, then by arrival. */
  function InOrder(log: seq<ProgressEvent>): seq<ProgressEvent> {
    if log == [] then [] else Place(InOrder(log[..|log| - 1]), log[|log| - 1])
  }

  ghost predicate Ascending(events: seq<ProgressEvent>) {
    forall i, j | 0 <= i < j < |events| :: events[i].occurredAt <= events[j].occurredAt
  }

  /** The events that occurred at one time, in the order of the list. */
  function At(events: seq<ProgressEvent>, time: Time): seq<ProgressEvent> {
    if events == [] then []
    else
      var rest, last := At(events[..|events| - 1], time), events[|events| - 1];
      if last.occurredAt == time then rest + [last] else rest
  }

  lemma AtLast(events: seq<ProgressEvent>, ev: ProgressEvent, time: Time)
    ensures At(events + [ev], time) == if ev.occurredAt == time then At(events, time) + [ev] else At(events, time)
  {
    assert (events + [ev])[..|events|] == events;
  }

  lemma {:induction false} NoneAt(events: seq<ProgressEvent>, time: Time)
    requires forall ev | ev in events :: ev.occurredAt < time
    ensures At(events, time) == []
  {
    if events != [] {
      assert events[|events| - 1] in events;
      NoneAt(events[..|events| - 1], time);
    }
  }

  lemma {:induction false} PlaceAscends(sorted: seq<ProgressEvent>, ev: ProgressEvent)
    requires Ascending(sorted)
    ensures Ascending(Place(sorted, ev)) && multiset(Place(sorted, ev)) == multiset(sorted) + multiset{ev}
  {
    if sorted != [] && ev.occurredAt < sorted[|sorted| - 1].occurredAt {
      var init, last := sorted[..|sorted| - 1], sorted[|sorted| - 1];
      assert sorted == init + [last];
      PlaceAscends(init, ev);
      PlacedBefore(init, ev, last);
    }
  }

  lemma {:induction false} PlaceKeepsTimes(sorted: seq<ProgressEvent>, ev: ProgressEvent, time: Time)
    ensures At(Place(sorted, ev), time) == At(sorted + [ev], time)
  {
    if sorted != [] && ev.occurredAt < sorted[|sorted| - 1].occurredAt {
      var init, last := sorted[..|sorted| - 1], sorted[|sorted| - 1];
      assert sorted == init + [last];
      PlaceKeepsTimes(init, ev, time);
      AtLast(sorted, ev, time);
      AtLast(init, ev, time);
      AtLast(init, last, time);
      AtLast(Place(init, ev), last, time);
    }
  }

  lemma PlacedBefore(init: seq<ProgressEvent>, ev: ProgressEvent, last: ProgressEvent)
    requires Ascending(init + [last]) && Ascending(Place(init, ev)) && ev.occurredAt < last.occurredAt
    requires multiset(Place(init, ev)) == multiset(init) + multiset{ev}
    ensures Ascending(Place(init, ev) + [last])
  {
    var placed, whole := Place(init, ev), init + [last];
    forall k | 0 <= k < |placed| ensures placed[k].occurredAt <= last.occurredAt {
      assert placed[k] in multiset(placed);
      if placed[k] in init {
        var j :| 0 <= j < |init| && init[j] == placed[k];
        assert whole[j] == init[j] && whole[|init|] == last;
      }
    }
  }

  /** Ordering rearranges the log into ascending times and keeps the order of arrival at each time. */
  lemma {:induction false} InOrderIsStableSort(log: seq<ProgressEvent>, time: Time)
    ensures Ascending(InOrder(log)) && multiset(InOrder(log)) == multiset(log)
    ensures At(InOrder(log), time) == At(log, time)
  {
    if log != [] {
      var init, last := log[..|log| - 1], log[|log| - 1];
      assert log == init + [last];
      InOrderIsStableSort(init, time);
      PlaceAscends(InOrder(init), last);
      PlaceKeepsTimes(InOrder(init), last, time);
      AtLast(InOrder(init), last, time);
      AtLast(init, last, time);
    }
  }

  lemma {:induction false} AscendingIsInOrder(log: seq<ProgressEvent>)
    requires Ascending(log)
    ensures InOrder(log) == log
  {
    if log != [] { AscendingIsInOrder(log[..|log| - 1]); }
  }

  // ----- the rebuild -----

  function RowCode(row: Row): JourneyCode {
    if row.journeyCode.Some? then row.journeyCode.value else DEFAULT_JOURNEY_CODE
  }

  function RowVersion(row: Row): JourneyVersion {
    if row.journeyVersion.Some? then row.journeyVersion.value else DEFAULT_JOURNEY_VERSION
  }

  /** The projection before a replay. */
  function Reset(p: ProgressDefinition): Instance {
    Instance(Some(Validated), Some(Validated), map[], false, None, Some(InProgress),
             DeriveSnapshot(Validated, p, false))
  }

  /** The log as replay sees it at time `now`. */
  function Replayed(log: seq<ProgressEvent>, now: Time): seq<Arrival> {
    var sorted := InOrder(log);
    seq(|sorted|, k requires 0 <= k < |sorted| => Arrival(Normalize(sorted[k].source), sorted[k].occurredAt, now))
  }

  /** What a rebuild makes of a row; None where the journey is not registered. */
  function Rebuilt(row: Row, log: seq<ProgressEvent>, setting: Setting, now: Time): Option<Instance> {
    match GetJourneyDefinition(RowCode(row), RowVersion(row))
    case None => None
    case Some(d) =>
      if |d.coreSequence| == 0 then None
      else
        var p := setting.progress(RowCode(row));
        Some(Run(Reset(p), Replayed(log, now), d, p))
  }

  /** Writing a rebuilt instance back, unless the table refuses its status. */
  function WrittenBack(row: Row, i: Instance, setting: Setting, now: Time): Row {
    if i.status.Some? && i.status.value in setting.statuses
    then row.(status := i.status, stamps := Persisted(i.stamps), snapshot := i.snapshot, isComplete := i.isComplete,
              completedAt := i.completedAt, updatedAt := Some(now))
    else row
  }

  method RebuildReferralInstance(row: Row, log: seq<ProgressEvent>, dryRun: bool, setting: Setting, now: Time)
    returns (rebuilt: Option<Instance>, row': Row)
    ensures rebuilt == Rebuilt(row, log, setting, now)
    ensures row' == if dryRun || rebuilt == None then row else WrittenBack(row, rebuilt.value, setting, now)
  {
    var found := GetJourneyDefinition(RowCode(row), RowVersion(row));
    if found == None { return None, row; }
    if |found.value.coreSequence| == 0 { return None, row; }
    var p := setting.progress(RowCode(row));
    var instance := new InstanceDict(Load(row));
    instance.ResetProjection(p);
    var applied, ignored := instance.Replay(Replayed(log, now), found.value, p);
    var after := Instance(instance.status, instance.currentMilestone, instance.stamps, instance.isComplete,
                          instance.completedAt, instance.platformStatus, instance.snapshot);
    rebuilt, row' := Some(after), if dryRun then row else WrittenBack(row, after, setting, now);
  }

  // ----- when two runs agree -----

  /** Both lists of arrivals attain the same events. */
  ghost predicate SameAttained(d: JourneyDefinition, s: seq<Arrival>, t: seq<Arrival>) {
    forall e | e in d.timestampField :: Attained(d, Reachable(d, s), e) <==> Attained(d, Reachable(d, t), e)
  }

  /** They first attain those with a stored timestamp at the same times. */
  ghost predicate SameTimes(d: JourneyDefinition, s: seq<Arrival>, t: seq<Arrival>) {
    forall e | e in d.timestampField && d.timestampField[e] in PERSISTED :: FirstTime(d, s, e) == FirstTime(d, t, e)
  }

  /** Status, completion and stored timestamps are the same. */
  ghost predicate Agree(i: Instance, j: Instance) {
    i.status == j.status && i.isComplete == j.isComplete && Persisted(i.stamps) == Persisted(j.stamps)
  }

  /** Timestamps of side events are stored. */
  ghost predicate SidesStored(d: JourneyDefinition) {
    forall e | e in d.timestampField && e !in d.coreSequence :: d.timestampField[e] in PERSISTED
  }

  lemma LookupPersisted(s: Stamps, f: Field)
    ensures Lookup(Persisted(s), f) == if f in PERSISTED then Lookup(s, f) else None
  {
  }

  lemma {:induction false} SameStampsSameRank(d: JourneyDefinition, s: Stamps, t: Stamps, n: nat)
    requires 0 < n <= |d.coreSequence|
    requires forall k | 0 < k < n :: Stamped(d, s, d.coreSequence[k]) <==> Stamped(d, t, d.coreSequence[k])
    ensures TopRank(d, s, n) == TopRank(d, t, n)
  {
    if n > 1 { SameStampsSameRank(d, s, t, n - 1); }
  }

  lemma SameStampedSameStatus(d: JourneyDefinition, s: Stamps, t: Stamps)
    requires TimedCore(d) && forall e | e in d.timestampField :: Stamped(d, s, e) <==> Stamped(d, t, e)
    ensures DeriveMilestone(d, s) == DeriveMilestone(d, t) && (DeriveComplete(d, s) <==> DeriveComplete(d, t))
  {
    SameStampsSameRank(d, s, t, |d.coreSequence|);
  }

  lemma SameLookupsSamePersisted(d: JourneyDefinition, s: Stamps, t: Stamps)
    requires OwnFields(d) && s.Keys <= Fields(d) && t.Keys <= Fields(d)
    requires forall e | e in d.timestampField && d.timestampField[e] in PERSISTED ::
               Lookup(s, d.timestampField[e]) == Lookup(t, d.timestampField[e])
    ensures Persisted(s) == Persisted(t)
  {
    forall f ensures Lookup(Persisted(s), f) == Lookup(Persisted(t), f) {
      LookupPersisted(s, f);
      LookupPersisted(t, f);
      if f in PERSISTED && f in d.timestampField.Values {
        var e :| e in d.timestampField && d.timestampField[e] == f;
      }
    }
    SameLookups(Persisted(s), Persisted(t));
  }

  lemma SameLookups<K, V>(m: map<K, V>, n: map<K, V>)
    requires forall k :: Lookup(m, k) == Lookup(n, k)
    ensures m == n
  {
    forall k ensures k in m <==> k in n { assert Lookup(m, k) == Lookup(n, k); }
    forall k | k in m ensures m[k] == n[k] { assert Lookup(m, k) == Lookup(n, k); }
  }

  /** The timestamps a run ends with, event by event. */
  ghost predicate Tells(d: JourneyDefinition, arrivals: seq<Arrival>, i: Instance) {
    && Consistent(i, d) && i.status.Some?
    && (forall e | e in d.timestampField :: Stamped(d, i.stamps, e) <==> Attained(d, Reachable(d, arrivals), e))
    && (forall e | e in d.timestampField :: Lookup(i.stamps, d.timestampField[e]) == FirstTime(d, arrivals, e))
  }

  lemma RunTells(i: Instance, arrivals: seq<Arrival>, d: JourneyDefinition, p: ProgressDefinition)
    requires Charted(d) && Fresh(i) && i.status == Some(Validated)
    ensures Tells(d, arrivals, Run(i, arrivals, d, p))
  {
    RunAttains(i, arrivals, d, p);
    forall e | e in d.timestampField
      ensures Lookup(Run(i, arrivals, d, p).stamps, d.timestampField[e]) == FirstTime(d, arrivals, e)
    {
      StampIsFirstTime(i, arrivals, d, p, e);
    }
  }

  lemma SameStatusSameCore(d: JourneyDefinition, s: Stamps, t: Stamps, e: Event)
    requires TimedCore(d) && PrefixStamped(d, s) && PrefixStamped(d, t)
             && DeriveMilestone(d, s) == DeriveMilestone(d, t)
    requires e in d.timestampField && e in d.coreSequence
    ensures Stamped(d, s, e) <==> Stamped(d, t, e)
  {
    var k := IndexOf(d.coreSequence, e);
    assert d.coreSequence[k] == e;
    MilestoneIsRank(d, s, CurrentRank(d, t));
    StampedIsBelowRank(d, s, k);
    StampedIsBelowRank(d, t, k);
  }

  lemma AgreeingRunsAttainTheSame(d: JourneyDefinition, s: seq<Arrival>, i: Instance, t: seq<Arrival>, j: Instance)
    requires TimedCore(d) && SidesStored(d) && PrefixStamped(d, i.stamps) && PrefixStamped(d, j.stamps)
    requires Tells(d, s, i) && Tells(d, t, j) && Agree(i, j)
    ensures SameAttained(d, s, t) && SameTimes(d, s, t)
  {
    forall e | e in d.timestampField && d.timestampField[e] in PERSISTED
      ensures FirstTime(d, s, e) == FirstTime(d, t, e)
    {
      LookupPersisted(i.stamps, d.timestampField[e]);
      LookupPersisted(j.stamps, d.timestampField[e]);
    }
    forall e | e in d.timestampField ensures Stamped(d, i.stamps, e) <==> Stamped(d, j.stamps, e) {
      if e in d.coreSequence {
        SameStatusSameCore(d, i.stamps, j.stamps, e);
      } else {
        assert Lookup(i.stamps, d.timestampField[e]) == Lookup(j.stamps, d.timestampField[e]);
      }
    }
  }

  lemma SameAttainmentsAgree(d: JourneyDefinition, s: seq<Arrival>, i: Instance, t: seq<Arrival>, j: Instance)
    requires TimedCore(d) && OwnFields(d) && Tells(d, s, i) && Tells(d, t, j)
    requires SameAttained(d, s, t) && SameTimes(d, s, t)
    ensures Agree(i, j)
  {
    SameStampedSameStatus(d, i.stamps, j.stamps);
    SameLookupsSamePersisted(d, i.stamps, j.stamps);
  }

  /** Two runs of a charted journey from VALIDATED agree exactly when their arrivals attain the same
      events, at the same times where those are stored. */
  lemma RunsAgreeExactlyWhen(i: Instance, s: seq<Arrival>, j: Instance, t: seq<Arrival>, d: JourneyDefinition,
                             p: ProgressDefinition)
    requires Charted(d) && SidesStored(d)
    requires Fresh(i) && i.status == Some(Validated) && Fresh(j) && j.status == Some(Validated)
    ensures Agree(Run(i, s, d, p), Run(j, t, d, p)) <==> SameAttained(d, s, t) && SameTimes(d, s, t)
  {
    RunTells(i, s, d, p);
    RunTells(j, t, d, p);
    RunAttains(i, s, d, p);
    RunAttains(j, t, d, p);
    if Agree(Run(i, s, d, p), Run(j, t, d, p)) {
      AgreeingRunsAttainTheSame(d, s, Run(i, s, d, p), t, Run(j, t, d, p));
    }
    if SameAttained(d, s, t) && SameTimes(d, s, t) {
      SameAttainmentsAgree(d, s, Run(i, s, d, p), t, Run(j, t, d, p));
    }
  }

  // ----- rebuild against live handling -----

  lemma RegisteredIsCharted(code: JourneyCode, version: JourneyVersion, d: JourneyDefinition)
    requires GetJourneyDefinition(code, version) == Some(d)
    ensures Charted(d) && SidesStored(d)
  {
    var ok := (d: JourneyDefinition) => Charted(d) && SidesStored(d);
    BankingIsCharted();
    BankingSidesAreStored();
    InsuranceIsCharted();
    RetailIsCharted();
    LinearSidesAreStored(INSURANCE_POLICY_V1);
    LinearSidesAreStored(RETAIL_LOYALTY_V1);
    RegisteredIsShipped(ok, code, version);
  }

  lemma BankingSidesAreStored()
    ensures SidesStored(BANKING_TRANSACTIONAL_V1)
  {
    BankingFields();
    var fields := BANKING_TRANSACTIONAL_V1.timestampField;
    assert forall e | e in fields :: fields[e] in fields.Values;
  }

  lemma LinearSidesAreStored(d: JourneyDefinition)
    requires OwnFields(d) && (d == INSURANCE_POLICY_V1 || d == RETAIL_LOYALTY_V1)
    ensures SidesStored(d)
  {
    assert SideEvents(d) == {};
  }

  /** A row shows an instance if its status, completion and timestamps are those of the instance. */
  ghost predicate Shows(row: Row, i: Instance) {
    row.status == i.status && row.isComplete == i.isComplete && row.stamps == Persisted(i.stamps)
  }

  /** The events that live handling gave the machine: those from the first processed one on that pass
      the self-referral gate. */
  function LiveArrivals(row: Row, events: seq<ProgressEvent>, setting: Setting): seq<Arrival> {
    var n := FirstProcessed(row, events, setting);
    if n == |events| then [] else Admitted(row, events[n..], setting)
  }

  lemma {:induction false} BoundStaysBound(row: Row, events: seq<ProgressEvent>, setting: Setting)
    requires row.journeyCode.Some? && row.journeyVersion.Some?
    ensures LiveRun(row, events, setting).journeyCode == row.journeyCode
    ensures LiveRun(row, events, setting).journeyVersion == row.journeyVersion
    decreases |events|
  {
    if events != [] {
      KeepsBinding(row, events[0], setting);
      BoundStaysBound(HandleRow(row, events[0], setting).0, events[1..], setting);
    }
  }

  lemma KeepsBinding(row: Row, ev: ProgressEvent, setting: Setting)
    requires row.journeyCode.Some? && row.journeyVersion.Some?
    ensures var row' := HandleRow(row, ev, setting).0;
            row'.journeyCode == row.journeyCode && row'.journeyVersion == row.journeyVersion
  {
  }

  /** The first processed event binds the row for good. */
  lemma LiveRowIsBound(row: Row, events: seq<ProgressEvent>, setting: Setting)
    requires FirstProcessed(row, events, setting) < |events|
    ensures var ev, live := events[FirstProcessed(row, events, setting)], LiveRun(row, events, setting);
            RowCode(live) == EffectiveCode(row, ev) && RowVersion(live) == EffectiveVersion(row, ev)
  {
    var n := FirstProcessed(row, events, setting);
    NothingBeforeFirstProcessed(row, events, setting);
    assert Processing(row, setting)(events[n]) && events[n..][0] == events[n];
    ProcessedBinds(row, events[n], setting);
    BoundStaysBound(HandleRow(row, events[n], setting).0, events[n..][1..], setting);
  }

  lemma LiveRunMirrors(row: Row, events: seq<ProgressEvent>, d: JourneyDefinition, setting: Setting)
    requires Untouched(row) && row.status == Some(Validated) && TimedCore(d) && Fits(d, setting.statuses)
    requires var live := LiveRun(row, events, setting); GetJourneyDefinition(RowCode(live), RowVersion(live)) == Some(d)
    ensures var live := LiveRun(row, events, setting);
            Mirrors(live, Run(Load(row), LiveArrivals(row, events, setting), d, setting.progress(RowCode(live))))
  {
    var n := FirstProcessed(row, events, setting);
    FreshIsConsistent(Load(row), d);
    if n < |events| { LiveRowIsBound(row, events, setting); }
    LiveSimulatesReplay(row, Load(row), events, d, setting);
  }

  /** What a row is rebuilt to is what the row shows. */
  ghost predicate RebuildShows(row: Row, log: seq<ProgressEvent>, setting: Setting, now: Time) {
    var rebuilt := Rebuilt(row, log, setting, now);
    rebuilt.Some? && Shows(row, rebuilt.value)
  }

  lemma RebuildReplays(row: Row, log: seq<ProgressEvent>, d: JourneyDefinition, setting: Setting, now: Time)
    requires GetJourneyDefinition(RowCode(row), RowVersion(row)) == Some(d) && |d.coreSequence| > 0
    ensures var p := setting.progress(RowCode(row));
            RebuildShows(row, log, setting, now) <==> Shows(row, Run(Reset(p), Replayed(log, now), d, p))
  {
  }

  /** A rebuild shows what live handling left behind exactly when the log in order of occurrence attains
      the same events as the arrivals handled live, at the same times where those are stored. */
  lemma RebuildMatchesLiveExactlyWhen(row: Row, events: seq<ProgressEvent>, d: JourneyDefinition, setting: Setting,
                                      now: Time)
    requires Untouched(row) && row.status == Some(Validated) && Fits(d, setting.statuses)
    requires var live := LiveRun(row, events, setting); GetJourneyDefinition(RowCode(live), RowVersion(live)) == Some(d)
    ensures RebuildShows(LiveRun(row, events, setting), events, setting, now)
       <==> && SameAttained(d, LiveArrivals(row, events, setting), Replayed(events, now))
            && SameTimes(d, LiveArrivals(row, events, setting), Replayed(events, now))
  {
    var live := LiveRun(row, events, setting);
    var p, s, t := setting.progress(RowCode(live)), LiveArrivals(row, events, setting), Replayed(events, now);
    RegisteredIsCharted(RowCode(live), RowVersion(live), d);
    LiveRunMirrors(row, events, d, setting);
    RunsAgreeExactlyWhen(Load(row), s, Reset(p), t, d, p);
    RebuildReplays(live, events, d, setting, now);
  }

  // ----- logs that arrived in order -----

  lemma {:induction false} SameButClockAttains(d: JourneyDefinition, s: seq<Arrival>, t: seq<Arrival>, e: Event)
    requires SameButClock(s, t)
    ensures Reachable(d, s) == Reachable(d, t) && FirstTime(d, s, e) == FirstTime(d, t, e)
    decreases |s|
  {
    if s != [] { SameButClockAttains(d, s[..|s| - 1], t[..|t| - 1], e); }
  }

  /** No event names the referrer as referee. */
  ghost predicate NoSelfReferral(row: Row, events: seq<ProgressEvent>) {
    !IsSelfReferral(row.referrer, row.referee) && forall ev | ev in events :: !IsSelfReferral(row.referrer, ev.referee)
  }

  function ArrivalsOf(events: seq<ProgressEvent>): seq<Arrival> {
    seq(|events|, k requires 0 <= k < |events| => ArrivalOf(events[k]))
  }

  lemma AdmittedFirst(row: Row, events: seq<ProgressEvent>, setting: Setting)
    requires events != [] && !IsSelfReferral(row.referrer, BindReferee(row.referee, events[0].referee))
    ensures Admitted(row, events, setting)
         == [ArrivalOf(events[0])] + Admitted(HandleRow(row, events[0], setting).0, events[1..], setting)
  {
  }

  lemma ArrivalsOfFirst(events: seq<ProgressEvent>)
    requires events != []
    ensures ArrivalsOf(events) == [ArrivalOf(events[0])] + ArrivalsOf(events[1..])
  {
  }

  lemma {:induction false} AllPassTheGate(row: Row, events: seq<ProgressEvent>, setting: Setting)
    requires NoSelfReferral(row, events)
    ensures Admitted(row, events, setting) == ArrivalsOf(events)
    decreases |events|
  {
    if events != [] {
      var row' := HandleRow(row, events[0], setting).0;
      assert events[0] in events;
      GateStaysOpen(row, events[0], setting);
      assert forall ev | ev in events[1..] :: ev in events;
      AllPassTheGate(row', events[1..], setting);
      AdmittedFirst(row, events, setting);
      ArrivalsOfFirst(events);
    }
  }

  /** A bound row whose events are no self-referrals shows the run of its arrivals. */
  lemma BoundRowShowsArrivals(row: Row, events: seq<ProgressEvent>, d: JourneyDefinition, setting: Setting)
    requires Untouched(row) && TimedCore(d) && Fits(d, setting.statuses) && NoSelfReferral(row, events)
    requires row.journeyCode.Some? && row.journeyVersion.Some?
    requires GetJourneyDefinition(RowCode(row), RowVersion(row)) == Some(d)
    ensures Mirrors(LiveRun(row, events, setting),
                    Run(Load(row), ArrivalsOf(events), d, setting.progress(RowCode(row))))
  {
    FreshIsConsistent(Load(row), d);
    BoundRowsResolve(row, events);
    AllPassTheGate(row, events, setting);
    SimulatesWhileResolved(row, Load(row), events, RowCode(row), RowVersion(row), d, setting);
  }

  /** For a bound row and events that are no self-referrals the condition is one on the list of events: as
      it arrived and as it is ordered. */
  lemma BoundRebuildMatchesExactlyWhen(row: Row, events: seq<ProgressEvent>, d: JourneyDefinition, setting: Setting,
                                       now: Time)
    requires Untouched(row) && row.status == Some(Validated) && Fits(d, setting.statuses)
    requires row.journeyCode.Some? && row.journeyVersion.Some? && NoSelfReferral(row, events)
    requires GetJourneyDefinition(RowCode(row), RowVersion(row)) == Some(d)
    ensures RebuildShows(LiveRun(row, events, setting), events, setting, now)
       <==> && SameAttained(d, ArrivalsOf(events), Replayed(events, now))
            && SameTimes(d, ArrivalsOf(events), Replayed(events, now))
  {
    var live, p := LiveRun(row, events, setting), setting.progress(RowCode(row));
    RegisteredIsCharted(RowCode(row), RowVersion(row), d);
    BoundStaysBound(row, events, setting);
    BoundRowShowsArrivals(row, events, d, setting);
    RunsAgreeExactlyWhen(Load(row), ArrivalsOf(events), Reset(p), Replayed(events, now), d, p);
    RebuildReplays(live, events, d, setting, now);
  }

  lemma GateStaysOpen(row: Row, ev: ProgressEvent, setting: Setting)
    requires !IsSelfReferral(row.referrer, row.referee) && !IsSelfReferral(row.referrer, ev.referee)
    ensures var row' := HandleRow(row, ev, setting).0;
            row'.referrer == row.referrer && !IsSelfReferral(row'.referrer, row'.referee)
    ensures !IsSelfReferral(row.referrer, BindReferee(row.referee, ev.referee))
  {
  }

  lemma SameButClockAgree(d: JourneyDefinition, s: seq<Arrival>, t: seq<Arrival>)
    requires SameButClock(s, t)
    ensures SameAttained(d, s, t) && SameTimes(d, s, t)
  {
    forall e | e in d.timestampField ensures Reachable(d, s) == Reachable(d, t)
      && FirstTime(d, s, e) == FirstTime(d, t, e)
    {
      SameButClockAttains(d, s, t, e);
    }
  }

  lemma AscendingLogReplaysArrivals(events: seq<ProgressEvent>, now: Time)
    requires Ascending(events)
    ensures SameButClock(ArrivalsOf(events), Replayed(events, now))
  {
    AscendingIsInOrder(events);
  }

  /** If the events of a journey occurred in the order they arrived and none is a self-referral, the
      rebuild shows what live handling left behind. */
  lemma RebuildInOrderMatchesLive(row: Row, events: seq<ProgressEvent>, d: JourneyDefinition, setting: Setting,
                                  now: Time)
    requires var live := LiveRun(row, events, setting);
             && GetJourneyDefinition(RowCode(live), RowVersion(live)) == Some(d)
             && ResolveTo(row, events, RowCode(live), RowVersion(live))
    requires Untouched(row) && row.status == Some(Validated) && Fits(d, setting.statuses)
    requires Ascending(events) && NoSelfReferral(row, events)
    ensures RebuildShows(LiveRun(row, events, setting), events, setting, now)
  {
    var live, s, t := LiveRun(row, events, setting), ArrivalsOf(events), Replayed(events, now);
    var p := setting.progress(RowCode(live));
    RegisteredIsCharted(RowCode(live), RowVersion(live), d);
    FreshIsConsistent(Load(row), d);
    AllPassTheGate(row, events, setting);
    SimulatesWhileResolved(row, Load(row), events, RowCode(live), RowVersion(live), d, setting);
    AscendingLogReplaysArrivals(events, now);
    SameButClockAgree(d, s, t);
    RunsAgreeExactlyWhen(Load(row), s, Reset(p), t, d, p);
    RebuildReplays(live, events, d, setting, now);
  }

  // ----- logs that did not -----

  /** An event that arrives before the one it follows is refused live, yet replayed in its place: the
      rebuilt referral is a milestone further than the live one. */
  lemma LateArrivalIsRebuiltFurther(row: Row, late: ProgressEvent, early: ProgressEvent, d: JourneyDefinition,
                                    setting: Setting, now: Time)
    requires Untouched(row) && row.status == Some(Validated) && Fits(d, setting.statuses)
    requires WellFormed(d) && StepsUp(d) && |d.coreSequence| > 2
    requires d.coreSequence[2] !in Allowed(d, Some(d.coreSequence[0]))
    requires Normalize(early.source) == d.coreSequence[2] && Normalize(late.source) == d.coreSequence[1]
    requires late.occurredAt < early.occurredAt && NoSelfReferral(row, [early, late])
    requires row.journeyCode.Some? && row.journeyVersion.Some?
    requires GetJourneyDefinition(RowCode(row), RowVersion(row)) == Some(d)
    ensures LiveRun(row, [early, late], setting).status == Some(d.coreSequence[1])
    ensures !RebuildShows(LiveRun(row, [early, late], setting), [early, late], setting, now)
  {
    LateArrivalLive(row, late, early, d, setting);
    LateArrivalRebuilt(late, early, d, setting.progress(RowCode(row)), now);
    BoundStaysBound(row, [early, late], setting);
    DistinctMilestones(d);
    RebuildReplays(LiveRun(row, [early, late], setting), [early, late], d, setting, now);
  }

  lemma DistinctMilestones(d: JourneyDefinition)
    requires TimedCore(d) && |d.coreSequence| > 2
    ensures d.coreSequence[1] != d.coreSequence[2]
  {
  }

  lemma LateArrivalLive(row: Row, late: ProgressEvent, early: ProgressEvent, d: JourneyDefinition, setting: Setting)
    requires Untouched(row) && row.status == Some(Validated) && Fits(d, setting.statuses)
    requires WellFormed(d) && StepsUp(d) && |d.coreSequence| > 2
    requires d.coreSequence[2] !in Allowed(d, Some(d.coreSequence[0]))
    requires Normalize(early.source) == d.coreSequence[2] && Normalize(late.source) == d.coreSequence[1]
    requires NoSelfReferral(row, [early, late]) && row.journeyCode.Some? && row.journeyVersion.Some?
    requires GetJourneyDefinition(RowCode(row), RowVersion(row)) == Some(d)
    ensures LiveRun(row, [early, late], setting).status == Some(d.coreSequence[1])
  {
    BoundRowShowsArrivals(row, [early, late], d, setting);
    PairOfArrivals(early, late);
    FreshIsConsistent(Load(row), d);
    EarlyThenLate(Load(row), ArrivalOf(early), ArrivalOf(late), d, setting.progress(RowCode(row)));
  }

  lemma PairOfArrivals(a: ProgressEvent, b: ProgressEvent)
    ensures ArrivalsOf([a, b]) == [ArrivalOf(a), ArrivalOf(b)]
  {
  }

  lemma LateArrivalRebuilt(late: ProgressEvent, early: ProgressEvent, d: JourneyDefinition, p: ProgressDefinition,
                           now: Time)
    requires WellFormed(d) && StepsUp(d) && |d.coreSequence| > 2 && late.occurredAt < early.occurredAt
    requires Normalize(early.source) == d.coreSequence[2] && Normalize(late.source) == d.coreSequence[1]
    ensures Run(Reset(p), Replayed([early, late], now), d, p).status == Some(d.coreSequence[2])
  {
    LateSortsFirst(early, late, now);
    LateThenEarly(Reset(p), Arrival(Normalize(late.source), late.occurredAt, now),
                  Arrival(Normalize(early.source), early.occurredAt, now), d, p);
  }

  lemma EarlyThenLate(i: Instance, early: Arrival, late: Arrival, d: JourneyDefinition, p: ProgressDefinition)
    requires WellFormed(d) && StepsUp(d) && |d.coreSequence| > 2 && Consistent(i, d) && i.status == Some(Validated)
    requires d.coreSequence[2] !in Allowed(d, Some(d.coreSequence[0]))
    requires early.event == d.coreSequence[2] && late.event == d.coreSequence[1]
    ensures Run(i, [early, late], d, p).status == Some(d.coreSequence[1])
  {
    SkippingIsRefusedThenAccepted(i, early, late, d, p);
    RunPair(i, early, late, d, p);
    NextMilestoneIsAccepted(i, d, 1);
    AcceptedEventDecidesStatus(i, late, d, p);
  }

  lemma LateThenEarly(i: Instance, late: Arrival, early: Arrival, d: JourneyDefinition, p: ProgressDefinition)
    requires WellFormed(d) && StepsUp(d) && |d.coreSequence| > 2 && Fresh(i) && i.status == Some(Validated)
    requires early.event == d.coreSequence[2] && late.event == d.coreSequence[1]
    ensures Run(i, [late, early], d, p).status == Some(d.coreSequence[2])
  {
    FreshIsConsistent(i, d);
    RunPair(i, late, early, d, p);
    NextMilestoneIsAccepted(i, d, 1);
    AcceptedEventDecidesStatus(i, late, d, p);
    StepKeeps(i, late, d, p);
    NextMilestoneIsAccepted(Step(i, late, d, p), d, 2);
    AcceptedEventDecidesStatus(Step(i, late, d, p), early, d, p);
  }

  lemma LateSortsFirst(early: ProgressEvent, late: ProgressEvent, now: Time)
    requires late.occurredAt < early.occurredAt
    ensures Replayed([early, late], now) == [Arrival(Normalize(late.source), late.occurredAt, now),
                                             Arrival(Normalize(early.source), early.occurredAt, now)]
  {
    assert [early, late][..1] == [early] && [early][..0] == [];
    assert InOrder([early]) == [early];
    assert Place([], late) == [late];
    assert InOrder([early, late]) == Place([early], late) == [late] + [early];
  }

  /** A self-referral that live handling refused is replayed: the row stays as it was, the rebuilt
      referral has moved. */
  lemma SelfReferralIsReplayed(row: Row, ev: ProgressEvent, d: JourneyDefinition, setting: Setting, now: Time)
    requires Untouched(row) && row.status == Some(Validated) && WellFormed(d) && StepsUp(d) && |d.coreSequence| > 1
    requires IsSelfReferral(row.referrer, BindReferee(row.referee, ev.referee))
             && Normalize(ev.source) == d.coreSequence[1]
    requires GetJourneyDefinition(RowCode(row), RowVersion(row)) == Some(d)
    ensures LiveRun(row, [ev], setting) == row && !RebuildShows(row, [ev], setting, now)
  {
    OneEventRebuilt(ev, d, setting.progress(RowCode(row)), now);
    RebuildReplays(row, [ev], d, setting, now);
    assert [ev][1..] == [];
    assert d.coreSequence[1] != d.coreSequence[0];
  }

  lemma OneEventRebuilt(ev: ProgressEvent, d: JourneyDefinition, p: ProgressDefinition, now: Time)
    requires WellFormed(d) && StepsUp(d) && |d.coreSequence| > 1 && Normalize(ev.source) == d.coreSequence[1]
    ensures Run(Reset(p), Replayed([ev], now), d, p).status == Some(d.coreSequence[1])
  {
    var i, a := Reset(p), Arrival(d.coreSequence[1], ev.occurredAt, now);
    OneEventReplayed(ev, now);
    FreshIsConsistent(i, d);
    NextMilestoneIsAccepted(i, d, 1);
    AcceptedEventDecidesStatus(i, a, d, p);
    RunOne(i, a, d, p);
  }

  lemma OneEventReplayed(ev: ProgressEvent, now: Time)
    ensures Replayed([ev], now) == [Arrival(Normalize(ev.source), ev.occurredAt, now)]
  {
    assert [ev][..0] == [] && InOrder([ev]) == [ev];
  }

  lemma RunOne(i: Instance, a: Arrival, d: JourneyDefinition, p: ProgressDefinition)
    requires |d.coreSequence| > 0
    ensures Run(i, [a], d, p) == Step(i, a, d, p)
  {
    RunLast(i, [], a, d, p);
    assert [] + [a] == [a];
  }
}
