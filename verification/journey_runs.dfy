/** Results about whole runs of a journey: invariants, prefixes, replay, redelivery, bounds. */
module JourneyRuns {
  import opened Prelude
  import opened JourneyDefinitions
  import opened JourneyMachine

  // ----- invariants of every run -----

  lemma {:induction false} RunKeeps(i: Instance, arrivals: seq<Arrival>, d: JourneyDefinition, p: ProgressDefinition)
    requires WellFormed(d) && Consistent(i, d)
    ensures Consistent(Run(i, arrivals, d, p), d)
    ensures Advances(i, Run(i, arrivals, d, p), d)
    decreases |arrivals|
  {
    if arrivals != [] {
      StepKeeps(i, arrivals[0], d, p);
      RunKeeps(Step(i, arrivals[0], d, p), arrivals[1..], d, p);
    }
  }

  lemma {:induction false} RunConcat(i: Instance, s: seq<Arrival>, t: seq<Arrival>, d: JourneyDefinition,
                                     p: ProgressDefinition)
    requires |d.coreSequence| > 0
    ensures Run(i, s + t, d, p) == Run(Run(i, s, d, p), t, d, p)
    decreases |s|
  {
    if s == [] {
      assert s + t == t;
    } else {
      assert (s + t)[1..] == s[1..] + t;
      RunConcat(Step(i, s[0], d, p), s[1..], t, d, p);
    }
  }

  /** Starting from a fresh referral, any two points of any run of any well-formed journey satisfy
      the state invariant, and the later point only adds to the earlier one. */
  lemma RunsAreOrdered(i: Instance, arrivals: seq<Arrival>, m: nat, n: nat, d: JourneyDefinition, p: ProgressDefinition)
    requires WellFormed(d) && Fresh(i) && m <= n <= |arrivals|
    ensures var a, b := Run(i, arrivals[..m], d, p), Run(i, arrivals[..n], d, p);
            Consistent(a, d) && Consistent(b, d) && Advances(a, b, d)
  {
    FreshIsConsistent(i, d);
    RunKeeps(i, arrivals[..m], d, p);
    assert arrivals[..n] == arrivals[..m] + arrivals[m..n];
    RunConcat(i, arrivals[..m], arrivals[m..n], d, p);
    RunKeeps(Run(i, arrivals[..m], d, p), arrivals[m..n], d, p);
  }

  lemma FreshIsConsistent(i: Instance, d: JourneyDefinition)
    requires TimedCore(d) && Fresh(i)
    ensures Consistent(i, d)
  {
  }

  /** An accepted core event becomes the status, strictly above the old one; an accepted side event
      leaves the status alone. */
  lemma {:induction false} AcceptedEventDecidesStatus(i: Instance, a: Arrival, d: JourneyDefinition,
                                                      p: ProgressDefinition)
    requires WellFormed(d) && Consistent(i, d) && Accepts(i, a.event, d)
    ensures var j := Step(i, a, d, p);
            if a.event in d.coreSequence
            then j.status == Some(a.event)
                 && StatusRank(i.status, d.coreSequence) < StatusRank(j.status, d.coreSequence)
            else j.status == i.status
  {
    var e := a.event;
    AcceptedMeans(i, e, d);
    RankOfMilestone(d, i.stamps);
    if i.status.Some? {
      if e in d.coreSequence {
        AcceptedIsAhead(i, e, d);
        CoreEventRises(d, i.stamps, e, a.occurredAt);
        RanksOfDistinct(d.coreSequence);
      } else {
        SideEventStays(d, i.stamps, e, a.occurredAt);
      }
    }
  }

  lemma AcceptedIsAhead(i: Instance, e: Event, d: JourneyDefinition)
    requires WellFormed(d) && Consistent(i, d) && i.status.Some? && Accepts(i, e, d) && e in d.coreSequence
    ensures CurrentRank(d, i.stamps) < IndexOf(d.coreSequence, e)
  {
    var r, k := CurrentRank(d, i.stamps), IndexOf(d.coreSequence, e);
    assert i.status == Some(d.coreSequence[r]) && d.coreSequence[k] == e;
  }

  lemma CoreEventRises(d: JourneyDefinition, s: Stamps, e: Event, at: Time)
    requires WellFormed(d) && e in d.coreSequence && e in d.timestampField
    requires CurrentRank(d, s) < IndexOf(d.coreSequence, e)
    ensures CurrentRank(d, ApplyStamps(s, e, at, d)) == IndexOf(d.coreSequence, e)
  {
    var core, k, t := d.coreSequence, IndexOf(d.coreSequence, e), ApplyStamps(s, e, at, d);
    forall i | k < i < |core| ensures !Stamped(d, t, core[i]) {
      assert core[i] != core[k];
      assert e !in core[i..];
      BackfillStaysBelow(d, s, e, at, i);
    }
    RankIs(d, t, k);
  }

  lemma SideEventStays(d: JourneyDefinition, s: Stamps, e: Event, at: Time)
    requires WellFormed(d) && e !in d.coreSequence && e in d.timestampField
    ensures CurrentRank(d, ApplyStamps(s, e, at, d)) == CurrentRank(d, s)
  {
    var core, r, t := d.coreSequence, CurrentRank(d, s), ApplyStamps(s, e, at, d);
    forall i | r < i < |core| ensures !Stamped(d, t, core[i]) {
      assert e !in core[i..];
      BackfillStaysBelow(d, s, e, at, i);
    }
    RankIs(d, t, r);
  }

  /** Applying a timed event stamps no core milestone other than the event itself and milestones
      below FUNDED. */
  lemma BackfillStaysBelow(d: JourneyDefinition, s: Stamps, e: Event, at: Time, i: nat)
    requires WellFormed(d) && e in d.timestampField
    requires 0 < i < |d.coreSequence| && d.coreSequence[i] != e && e !in d.coreSequence[i..]
    ensures Stamped(d, ApplyStamps(s, e, at, d), d.coreSequence[i]) == Stamped(d, s, d.coreSequence[i])
  {
  }

  lemma {:induction false} TopRankIs(d: JourneyDefinition, s: Stamps, r: nat, n: nat)
    requires r < n <= |d.coreSequence|
    requires r > 0 ==> Stamped(d, s, d.coreSequence[r])
    requires forall i | r < i < n :: !Stamped(d, s, d.coreSequence[i])
    ensures TopRank(d, s, n) == r
  {
  }

  lemma RankIs(d: JourneyDefinition, s: Stamps, r: nat)
    requires r < |d.coreSequence|
    requires r > 0 ==> Stamped(d, s, d.coreSequence[r])
    requires forall i | r < i < |d.coreSequence| :: !Stamped(d, s, d.coreSequence[i])
    ensures CurrentRank(d, s) == r
  {
    TopRankIs(d, s, r, |d.coreSequence|);
  }

  // ----- how many events can be accepted -----

  /** What is still open in an instance: unset timestamps, plus the missing status. */
  ghost function Open(i: Instance, d: JourneyDefinition): nat {
    |d.timestampField.Values - i.stamps.Keys| + if i.status == None then 1 else 0
  }

  lemma AcceptanceUsesUpOpen(i: Instance, a: Arrival, d: JourneyDefinition, p: ProgressDefinition)
    requires WellFormed(d) && Consistent(i, d) && Accepts(i, a.event, d)
    ensures Open(Step(i, a, d, p), d) < Open(i, d)
  {
    AcceptedMeans(i, a.event, d);
    ApplyStampsSetsOnce(i.stamps, a.event, a.occurredAt, d);
    var t := ApplyStamps(i.stamps, a.event, a.occurredAt, d);
    LeavesNoMore(d.timestampField.Values, i.stamps.Keys, t.Keys);
    if i.status.Some? {
      assert d.timestampField[a.event] in d.timestampField.Values;
      LeavesFewer(d.timestampField.Values, i.stamps.Keys, t.Keys, d.timestampField[a.event]);
    }
  }

  lemma LeavesNoMore<T>(all: set<T>, s: set<T>, t: set<T>)
    requires s <= t
    ensures |all - t| <= |all - s|
  {
    SubsetIsSmaller(all - t, all - s);
  }

  lemma LeavesFewer<T>(all: set<T>, s: set<T>, t: set<T>, x: T)
    requires s <= t && x in all && x !in s && x in t
    ensures |all - t| < |all - s|
  {
    SubsetIsSmaller(all - t, all - s - {x});
  }

  lemma SubsetIsSmaller<T>(s: set<T>, t: set<T>)
    requires s <= t
    ensures |s| <= |t|
  {
    assert t == s + (t - s);
  }

  lemma {:induction false} AcceptedBound(i: Instance, arrivals: seq<Arrival>, d: JourneyDefinition,
                                         p: ProgressDefinition)
    requires WellFormed(d) && Consistent(i, d)
    ensures |AcceptedOf(i, arrivals, d, p)| + Open(Run(i, arrivals, d, p), d) <= Open(i, d)
    decreases |arrivals|
  {
    if arrivals != [] {
      StepKeeps(i, arrivals[0], d, p);
      if Accepts(i, arrivals[0].event, d) { AcceptanceUsesUpOpen(i, arrivals[0], d, p); }
      AcceptedBound(Step(i, arrivals[0], d, p), arrivals[1..], d, p);
    }
  }

  lemma {:induction false} FewerValues<K, V>(m: map<K, V>)
    ensures |m.Values| <= |m|
    decreases |m|
  {
    if m != map[] {
      var k :| k in m;
      var rest := m - {k};
      assert rest.Keys == m.Keys - {k};
      FewerValues(rest);
      assert m.Values <= rest.Values + {m[k]} by {
        forall v | v in m.Values ensures v in rest.Values + {m[k]} {
          var j :| j in m && m[j] == v;
          if j != k { assert j in rest && rest[j] == v; }
        }
      }
      SubsetIsSmaller(m.Values, rest.Values + {m[k]});
    } else {
      assert m.Values == {};
    }
  }

  /** However many events arrive, a referral accepts at most one per timed event type, plus the
      start. */
  lemma AtMostTimedEventsPlusOne(i: Instance, arrivals: seq<Arrival>, d: JourneyDefinition, p: ProgressDefinition)
    requires WellFormed(d) && Fresh(i)
    ensures |AcceptedOf(i, arrivals, d, p)| <= |d.timestampField| + 1
  {
    FreshIsConsistent(i, d);
    AcceptedBound(i, arrivals, d, p);
    FewerValues(d.timestampField);
    assert d.timestampField.Values - i.stamps.Keys == d.timestampField.Values;
  }

  lemma ShippedAcceptanceBounds(i: Instance, arrivals: seq<Arrival>, p: ProgressDefinition)
    requires Fresh(i)
    ensures |AcceptedOf(i, arrivals, BANKING_TRANSACTIONAL_V1, p)| <= 8
    ensures |AcceptedOf(i, arrivals, INSURANCE_POLICY_V1, p)| <= 5
    ensures |AcceptedOf(i, arrivals, RETAIL_LOYALTY_V1, p)| <= 4
  {
    BankingTimedEventCount();
    InsuranceTimedEventCount();
    RetailTimedEventCount();
    BankingIsWellFormed();
    InsuranceIsLinear();
    RetailIsLinear();
    AtMostTimedEventsPlusOne(i, arrivals, BANKING_TRANSACTIONAL_V1, p);
    AtMostTimedEventsPlusOne(i, arrivals, INSURANCE_POLICY_V1, p);
    AtMostTimedEventsPlusOne(i, arrivals, RETAIL_LOYALTY_V1, p);
  }

  // ----- replay and redelivery -----

  /** The accepted events alone reproduce the run, and none of them is lost on the way. */
  lemma {:induction false} AcceptedEventsReproduceRun(i: Instance, arrivals: seq<Arrival>, d: JourneyDefinition,
                                                      p: ProgressDefinition)
    requires |d.coreSequence| > 0
    ensures Run(i, AcceptedOf(i, arrivals, d, p), d, p) == Run(i, arrivals, d, p)
    ensures AcceptedOf(i, AcceptedOf(i, arrivals, d, p), d, p) == AcceptedOf(i, arrivals, d, p)
    decreases |arrivals|
  {
    if arrivals != [] {
      AcceptedEventsReproduceRun(Step(i, arrivals[0], d, p), arrivals[1..], d, p);
    }
  }

  /** An event once accepted is refused at every later point of any run. */
  lemma NeverAcceptedTwice(i: Instance, a: Arrival, later: seq<Arrival>, d: JourneyDefinition, p: ProgressDefinition)
    requires WellFormed(d) && Consistent(i, d) && Accepts(i, a.event, d)
    ensures !Accepts(Run(Step(i, a, d, p), later, d, p), a.event, d)
  {
    var j := Step(i, a, d, p);
    StepKeeps(i, a, d, p);
    RunKeeps(j, later, d, p);
    AcceptedMeans(i, a.event, d);
    var k := Run(j, later, d, p);
    if Accepts(k, a.event, d) { AcceptedMeans(k, a.event, d); }
    if a.event in d.timestampField {
      ApplyStampsSetsOnce(i.stamps, a.event, a.occurredAt, d);
      assert Stamped(d, k.stamps, a.event);
    }
  }

  /** Redelivering arrivals changes nothing exactly when none of them is acceptable as things
      stand: no acceptance is ever undone by later arrivals. */
  lemma {:induction false} UnchangedIffNothingAcceptable(i: Instance, arrivals: seq<Arrival>, d: JourneyDefinition,
                                                         p: ProgressDefinition)
    requires WellFormed(d) && Consistent(i, d)
    ensures Run(i, arrivals, d, p) == i <==> forall a | a in arrivals :: !Accepts(i, a.event, d)
    decreases |arrivals|
  {
    if arrivals != [] {
      var a, rest := arrivals[0], arrivals[1..];
      assert a in arrivals;
      if Accepts(i, a.event, d) {
        AcceptedFirstChanges(i, a, rest, d, p);
      } else {
        UnchangedIffNothingAcceptable(i, rest, d, p);
        assert arrivals == [a] + rest;
      }
    }
  }

  lemma AcceptedFirstChanges(i: Instance, a: Arrival, rest: seq<Arrival>, d: JourneyDefinition, p: ProgressDefinition)
    requires WellFormed(d) && Consistent(i, d) && Accepts(i, a.event, d)
    ensures Run(Step(i, a, d, p), rest, d, p) != i
  {
    StepKeeps(i, a, d, p);
    AcceptanceUsesUpOpen(i, a, d, p);
    AcceptedBound(Step(i, a, d, p), rest, d, p);
  }

  /** Redelivering the accepted events of a run to its final instance changes nothing. */
  lemma {:induction false} AcceptedEventsAreIdempotent(i: Instance, arrivals: seq<Arrival>, later: seq<Arrival>,
                                                       d: JourneyDefinition, p: ProgressDefinition)
    requires WellFormed(d) && Consistent(i, d)
    ensures var f := Run(Run(i, arrivals, d, p), later, d, p);
            forall a | a in AcceptedOf(i, arrivals, d, p) :: !Accepts(f, a.event, d)
    decreases |arrivals|
  {
    if arrivals != [] {
      var a := arrivals[0];
      StepKeeps(i, a, d, p);
      AcceptedEventsAreIdempotent(Step(i, a, d, p), arrivals[1..], later, d, p);
      if Accepts(i, a.event, d) {
        NeverAcceptedTwice(i, a, arrivals[1..] + later, d, p);
        RunConcat(Step(i, a, d, p), arrivals[1..], later, d, p);
      }
    }
  }

  lemma RedeliveringAcceptedChangesNothing(i: Instance, arrivals: seq<Arrival>, d: JourneyDefinition,
                                           p: ProgressDefinition)
    requires WellFormed(d) && Fresh(i)
    ensures var f := Run(i, arrivals, d, p);
            Run(f, AcceptedOf(i, arrivals, d, p), d, p) == f
  {
    FreshIsConsistent(i, d);
    RunKeeps(i, arrivals, d, p);
    AcceptedEventsAreIdempotent(i, arrivals, [], d, p);
    UnchangedIffNothingAcceptable(Run(i, arrivals, d, p), AcceptedOf(i, arrivals, d, p), d, p);
  }

  /** Redelivering a whole run, rejected events included, can still move the referral: an event that
      came too early is refused the first time and accepted the second time. */
  lemma EarlyEventAcceptedOnRedelivery(i: Instance, early: Arrival, onTime: Arrival, d: JourneyDefinition,
                                       p: ProgressDefinition)
    requires WellFormed(d) && Consistent(i, d)
    requires !Accepts(i, early.event, d) && Accepts(Step(i, onTime, d, p), early.event, d)
    ensures var f := Run(i, [early, onTime], d, p); Run(f, [early, onTime], d, p) != f
  {
    RunPair(i, early, onTime, d, p);
    StepKeeps(i, onTime, d, p);
    UnchangedIffNothingAcceptable(Step(i, onTime, d, p), [early, onTime], d, p);
    assert early in [early, onTime];
  }

  lemma RunPair(i: Instance, a: Arrival, b: Arrival, d: JourneyDefinition, p: ProgressDefinition)
    requires |d.coreSequence| > 0
    ensures Run(i, [a, b], d, p) == Step(Step(i, a, d, p), b, d, p)
  {
    var j := Step(i, a, d, p);
    assert [a, b][1..] == [b] && [b][1..] == [];
    assert Run(j, [b], d, p) == Run(Step(j, b, d, p), [], d, p);
  }

  /** Delivering the arrivals a second time moves a fresh referral on. */
  ghost predicate AdvancesAgain(i: Instance, arrivals: seq<Arrival>, d: JourneyDefinition, p: ProgressDefinition) {
    |d.coreSequence| > 0 && Fresh(i) && Run(Run(i, arrivals, d, p), arrivals, d, p) != Run(i, arrivals, d, p)
  }

  ghost predicate MayAdvance(d: JourneyDefinition, p: ProgressDefinition) {
    exists i: Instance, arrivals: seq<Arrival> :: AdvancesAgain(i, arrivals, d, p)
  }

  /** Where the third core milestone cannot follow the first directly, delivering it before the second
      and then both again advances the referral. */
  lemma RedeliveringAllMayAdvance(d: JourneyDefinition, p: ProgressDefinition)
    requires WellFormed(d) && StepsUp(d) && |d.coreSequence| > 2
    requires d.coreSequence[2] !in Allowed(d, Some(d.coreSequence[0]))
    ensures MayAdvance(d, p)
  {
    var i := Instance(Some(Validated), None, map[], false, None, None, Snapshot(None, None, None, None));
    FreshIsConsistent(i, d);
    var early, onTime := Arrival(d.coreSequence[2], 2, 2), Arrival(d.coreSequence[1], 1, 1);
    SkippingIsRefusedThenAccepted(i, early, onTime, d, p);
    EarlyEventAcceptedOnRedelivery(i, early, onTime, d, p);
    assert AdvancesAgain(i, [early, onTime], d, p);
  }

  /** The milestone after next is refused, and accepted once the next is in. */
  lemma SkippingIsRefusedThenAccepted(i: Instance, early: Arrival, onTime: Arrival, d: JourneyDefinition,
                                      p: ProgressDefinition)
    requires WellFormed(d) && StepsUp(d) && |d.coreSequence| > 2 && Consistent(i, d)
    requires d.coreSequence[2] !in Allowed(d, Some(d.coreSequence[0]))
    requires i.status == Some(Validated) && onTime.event == d.coreSequence[1] && early.event == d.coreSequence[2]
    ensures !Accepts(i, early.event, d) && Accepts(Step(i, onTime, d, p), early.event, d)
  {
    var core := d.coreSequence;
    assert core[0] == Validated;
    NextMilestoneIsAccepted(i, d, 1);
    AcceptedEventDecidesStatus(i, onTime, d, p);
    StepKeeps(i, onTime, d, p);
    NextMilestoneIsAccepted(Step(i, onTime, d, p), d, 2);
    CoreEventsAreNotSide(d, core[2]);
  }

  lemma CoreEventsAreNotSide(d: JourneyDefinition, e: Event)
    requires e in d.coreSequence
    ensures e !in SideEvents(d)
  {
  }

  /** At each core milestone the next one is accepted. */
  lemma NextMilestoneIsAccepted(i: Instance, d: JourneyDefinition, k: nat)
    requires WellFormed(d) && StepsUp(d) && Consistent(i, d)
    requires 0 < k < |d.coreSequence| && i.status == Some(d.coreSequence[k - 1])
    ensures Accepts(i, d.coreSequence[k], d)
  {
    var core := d.coreSequence;
    MilestoneIsRank(d, i.stamps, k - 1);
    assert core[k] in Allowed(d, Some(core[k - 1]));
  }

  lemma MilestoneIsRank(d: JourneyDefinition, s: Stamps, k: nat)
    requires TimedCore(d) && k < |d.coreSequence| && DeriveMilestone(d, s) == d.coreSequence[k]
    ensures CurrentRank(d, s) == k
  {
    var r := CurrentRank(d, s);
    assert d.coreSequence[r] == d.coreSequence[k];
  }

  lemma LinearMayAdvance(d: JourneyDefinition, p: ProgressDefinition)
    requires Linear(d) && |d.coreSequence| > 2
    ensures MayAdvance(d, p)
  {
    LinearStepsUp(d);
    assert Allowed(d, Some(d.coreSequence[0])) == {d.coreSequence[1]};
    RedeliveringAllMayAdvance(d, p);
  }

  lemma BankingCannotSkip()
    ensures var d := BANKING_TRANSACTIONAL_V1;
            |d.coreSequence| > 2 && d.coreSequence[2] !in Allowed(d, Some(d.coreSequence[0]))
  {
  }

  lemma BankingMayAdvance(p: ProgressDefinition)
    ensures MayAdvance(BANKING_TRANSACTIONAL_V1, p)
  {
    BankingIsWellFormed();
    BankingStepsUp();
    BankingCannotSkip();
    RedeliveringAllMayAdvance(BANKING_TRANSACTIONAL_V1, p);
  }

  /** In all three shipped journeys redelivery can advance a referral. */
  lemma ShippedRedeliveryMayAdvance(p: ProgressDefinition)
    ensures MayAdvance(BANKING_TRANSACTIONAL_V1, p)
    ensures MayAdvance(INSURANCE_POLICY_V1, p)
    ensures MayAdvance(RETAIL_LOYALTY_V1, p)
  {
    BankingMayAdvance(p);
    InsuranceIsLinear();
    LinearMayAdvance(INSURANCE_POLICY_V1, p);
    RetailIsLinear();
    LinearMayAdvance(RETAIL_LOYALTY_V1, p);
  }

  function Iterate<T>(f: T -> T, x: T, times: nat): T
    decreases times
  {
    if times == 0 then x else Iterate(f, f(x), times - 1)
  }

  lemma {:induction false} Settled<T>(f: T -> T, x: T, times: nat)
    requires f(x) == x
    ensures Iterate(f, x, times) == x
  {
    if times > 0 { Settled(f, x, times - 1); }
  }

  lemma {:induction false} IterationSettles<T(!new)>(f: T -> T, ok: T -> bool, left: T -> nat, x: T, times: nat)
    requires forall y | ok(y) :: ok(f(y)) && (f(y) == y || left(f(y)) < left(y))
    requires ok(x) && times >= left(x)
    ensures f(Iterate(f, x, times)) == Iterate(f, x, times)
    decreases times
  {
    if f(x) == x { Settled(f, x, times); } else { IterationSettles(f, ok, left, f(x), times - 1); }
  }

  /** Delivers all arrivals once more. */
  function Pass(arrivals: seq<Arrival>, d: JourneyDefinition, p: ProgressDefinition): Instance -> Instance
    requires |d.coreSequence| > 0
  {
    i => Run(i, arrivals, d, p)
  }

  /** At-least-once delivery settles: after as many passes as there are timed events plus one,
      further redelivery changes nothing. */
  lemma RedeliverySettles(i: Instance, arrivals: seq<Arrival>, times: nat, d: JourneyDefinition, p: ProgressDefinition)
    requires WellFormed(d) && Consistent(i, d) && times >= Open(i, d)
    ensures var f := Iterate(Pass(arrivals, d, p), i, times); Run(f, arrivals, d, p) == f
  {
    PassesUseUpOpen(arrivals, d, p);
    IterationSettles(Pass(arrivals, d, p), IsConsistent(d), OpenIn(d), i, times);
  }

  ghost function IsConsistent(d: JourneyDefinition): Instance -> bool { i => Consistent(i, d) }

  ghost function OpenIn(d: JourneyDefinition): Instance -> nat { i => Open(i, d) }

  lemma PassesUseUpOpen(arrivals: seq<Arrival>, d: JourneyDefinition, p: ProgressDefinition)
    requires WellFormed(d)
    ensures var pass, ok, left := Pass(arrivals, d, p), IsConsistent(d), OpenIn(d);
            forall j | ok(j) :: ok(pass(j)) && (pass(j) == j || left(pass(j)) < left(j))
  {
    forall j | IsConsistent(d)(j)
      ensures var k := Pass(arrivals, d, p)(j); IsConsistent(d)(k) && (k == j || OpenIn(d)(k) < OpenIn(d)(j))
    {
      PassUsesUpOpen(j, arrivals, d, p);
    }
  }

  lemma PassUsesUpOpen(i: Instance, arrivals: seq<Arrival>, d: JourneyDefinition, p: ProgressDefinition)
    requires WellFormed(d) && Consistent(i, d)
    ensures Consistent(Run(i, arrivals, d, p), d)
    ensures Run(i, arrivals, d, p) == i || Open(Run(i, arrivals, d, p), d) < Open(i, d)
  {
    RunKeeps(i, arrivals, d, p);
    AcceptedBound(i, arrivals, d, p);
    UnchangedIfNoneAccepted(i, arrivals, d, p);
  }

  lemma {:induction false} UnchangedIfNoneAccepted(i: Instance, arrivals: seq<Arrival>, d: JourneyDefinition,
                                                   p: ProgressDefinition)
    requires |d.coreSequence| > 0
    ensures AcceptedOf(i, arrivals, d, p) == [] ==> Run(i, arrivals, d, p) == i
    decreases |arrivals|
  {
    if arrivals != [] { UnchangedIfNoneAccepted(Step(i, arrivals[0], d, p), arrivals[1..], d, p); }
  }

  // ----- no gaps below the status -----

  /** Every transition moves one core milestone up, except that FUNDED may step over the milestone
      whose timestamp it back-fills. */
  ghost predicate NoGaps(d: JourneyDefinition) {
    var core := d.coreSequence;
    forall r, k | 0 <= r < |core| && 0 <= k < |core| && core[k] in Allowed(d, Some(core[r])) ::
      || k == r + 1
      || (k == r + 2 && core[k] == Funded && core[r + 1] in d.timestampField &&
          d.timestampField[core[r + 1]] == AccountActivatedAt)
  }

  /** The stamped core milestones form a prefix of the core sequence. */
  ghost predicate PrefixStamped(d: JourneyDefinition, s: Stamps) {
    forall i, j | 0 < i < j < |d.coreSequence| && Stamped(d, s, d.coreSequence[j]) :: Stamped(d, s, d.coreSequence[i])
  }

  lemma StampedUpTo(d: JourneyDefinition, s: Stamps, m: nat)
    requires |d.coreSequence| > 0 && PrefixStamped(d, s) && 0 < m <= CurrentRank(d, s)
    ensures Stamped(d, s, d.coreSequence[m])
  {
  }

  lemma StampedAfter(d: JourneyDefinition, s: Stamps, e: Event, at: Time, x: Event)
    requires e in d.timestampField && x in d.timestampField
    ensures Stamped(d, ApplyStamps(s, e, at, d), x)
       <==> Stamped(d, s, x)
            || d.timestampField[x] == d.timestampField[e]
            || (e == Funded && d.timestampField[x] == AccountActivatedAt)
  {
  }

  lemma TransitionHasNoGap(d: JourneyDefinition, r: nat, k: nat)
    requires NoGaps(d) && r < |d.coreSequence| && k < |d.coreSequence|
    requires d.coreSequence[k] in Allowed(d, Some(d.coreSequence[r]))
    ensures k == r + 1
         || (k == r + 2 && d.coreSequence[k] == Funded && d.coreSequence[r + 1] in d.timestampField &&
             d.timestampField[d.coreSequence[r + 1]] == AccountActivatedAt)
  {
  }

  /** What a core event leaves stamped: itself, everything below the old rank, and, when FUNDED skips
      activation, the milestone it skipped. */
  lemma CoreEventFillsPrefix(d: JourneyDefinition, s: Stamps, e: Event, at: Time, m: nat)
    requires TimedCore(d) && NoGaps(d) && PrefixStamped(d, s)
    requires e in d.coreSequence && e in d.timestampField && e in Allowed(d, Some(DeriveMilestone(d, s)))
    requires 0 < m <= IndexOf(d.coreSequence, e)
    ensures Stamped(d, ApplyStamps(s, e, at, d), d.coreSequence[m])
  {
    var r := CurrentRank(d, s);
    StampedAfter(d, s, e, at, d.coreSequence[m]);
    TransitionHasNoGap(d, r, IndexOf(d.coreSequence, e));
    if m <= r { StampedUpTo(d, s, m); }
  }

  lemma CoreEventKeepsPrefix(d: JourneyDefinition, s: Stamps, e: Event, at: Time)
    requires WellFormed(d) && NoGaps(d) && PrefixStamped(d, s) && s.Keys <= Fields(d)
    requires e in d.coreSequence && e in d.timestampField
    requires CurrentRank(d, s) < IndexOf(d.coreSequence, e) && e in Allowed(d, Some(DeriveMilestone(d, s)))
    ensures PrefixStamped(d, ApplyStamps(s, e, at, d))
  {
    var k, t := IndexOf(d.coreSequence, e), ApplyStamps(s, e, at, d);
    forall m: nat | 0 < m <= k ensures Stamped(d, t, d.coreSequence[m]) { CoreEventFillsPrefix(d, s, e, at, m); }
    CoreEventRises(d, s, e, at);
    TopOfPrefix(d, t, k);
  }

  lemma TopOfPrefix(d: JourneyDefinition, s: Stamps, k: nat)
    requires |d.coreSequence| > 0 && CurrentRank(d, s) == k
    requires forall m | 0 < m <= k :: Stamped(d, s, d.coreSequence[m])
    ensures PrefixStamped(d, s)
  {
  }

  lemma TimedEventKeepsPrefix(d: JourneyDefinition, s: Stamps, e: Event, at: Time)
    requires WellFormed(d) && NoGaps(d) && PrefixStamped(d, s) && s.Keys <= Fields(d) && e in d.timestampField
    requires e in d.coreSequence ==>
               CurrentRank(d, s) < IndexOf(d.coreSequence, e) && e in Allowed(d, Some(DeriveMilestone(d, s)))
    ensures PrefixStamped(d, ApplyStamps(s, e, at, d))
  {
    if e in d.coreSequence { CoreEventKeepsPrefix(d, s, e, at); } else { SideEventKeepsPrefix(d, s, e, at); }
  }

  /** What acceptance says about the timestamps alone. */
  lemma AcceptedFromStamps(i: Instance, e: Event, d: JourneyDefinition)
    requires WellFormed(d) && Consistent(i, d) && Accepts(i, e, d)
    ensures i.status == None ==> e == Validated && i.stamps == map[]
    ensures i.status.Some? ==> e in d.timestampField
    ensures i.status.Some? && e in d.coreSequence ==>
              CurrentRank(d, i.stamps) < IndexOf(d.coreSequence, e)
                && e in Allowed(d, Some(DeriveMilestone(d, i.stamps)))
  {
    AcceptedMeans(i, e, d);
    if i.status.Some? && e in d.coreSequence {
      AcceptedIsAhead(i, e, d);
      AcceptedCoreIsAllowed(i, e, d);
    }
  }

  lemma StepStamps(i: Instance, a: Arrival, d: JourneyDefinition, p: ProgressDefinition)
    requires |d.coreSequence| > 0
    ensures Step(i, a, d, p).stamps
         == if Accepts(i, a.event, d) then ApplyStamps(i.stamps, a.event, a.occurredAt, d) else i.stamps
  {
  }

  lemma StartStampsNothing(d: JourneyDefinition, s: Stamps, at: Time)
    requires Validated !in d.timestampField
    ensures ApplyStamps(s, Validated, at, d) == s
  {
  }

  lemma StepKeepsPrefix(i: Instance, a: Arrival, d: JourneyDefinition, p: ProgressDefinition)
    requires WellFormed(d) && NoGaps(d) && Consistent(i, d) && PrefixStamped(d, i.stamps)
    ensures PrefixStamped(d, Step(i, a, d, p).stamps)
  {
    StepStamps(i, a, d, p);
    if Accepts(i, a.event, d) {
      AcceptedFromStamps(i, a.event, d);
      if i.status == None {
        StartStampsNothing(d, i.stamps, a.occurredAt);
      } else {
        TimedEventKeepsPrefix(d, i.stamps, a.event, a.occurredAt);
      }
    }
  }

  lemma AcceptedCoreIsAllowed(i: Instance, e: Event, d: JourneyDefinition)
    requires Consistent(i, d) && Accepts(i, e, d) && e in d.coreSequence
    ensures e in Allowed(d, i.status)
  {
  }

  lemma SideEventKeepsPrefix(d: JourneyDefinition, s: Stamps, e: Event, at: Time)
    requires WellFormed(d) && PrefixStamped(d, s) && s.Keys <= Fields(d)
    requires e !in d.coreSequence && e in d.timestampField
    ensures PrefixStamped(d, ApplyStamps(s, e, at, d))
  {
    SideEventStays(d, s, e, at);
    ApplyStampsSetsOnce(s, e, at, d);
  }

  lemma {:induction false} RunKeepsPrefix(i: Instance, arrivals: seq<Arrival>, d: JourneyDefinition,
                                          p: ProgressDefinition)
    requires WellFormed(d) && NoGaps(d) && Consistent(i, d) && PrefixStamped(d, i.stamps)
    ensures PrefixStamped(d, Run(i, arrivals, d, p).stamps)
    decreases |arrivals|
  {
    if arrivals != [] {
      StepKeeps(i, arrivals[0], d, p);
      StepKeepsPrefix(i, arrivals[0], d, p);
      RunKeepsPrefix(Step(i, arrivals[0], d, p), arrivals[1..], d, p);
    }
  }

  lemma SingleFileHasNoGaps(d: JourneyDefinition)
    requires TimedCore(d) && SingleFile(d)
    ensures NoGaps(d)
  {
    var core := d.coreSequence;
    forall r, k | 0 <= r < |core| && 0 <= k < |core| && core[k] in Allowed(d, Some(core[r])) ensures k == r + 1 {
      if r < |core| - 1 { assert core[k] == core[r + 1]; }
    }
  }

  /** In every run of the banking journey the timestamps of the core milestones form a prefix, even
      when funding arrives before activation. */
  lemma BankingStampsArePrefix(i: Instance, arrivals: seq<Arrival>, p: ProgressDefinition)
    requires Fresh(i)
    ensures PrefixStamped(BANKING_TRANSACTIONAL_V1, Run(i, arrivals, BANKING_TRANSACTIONAL_V1, p).stamps)
  {
    BankingIsWellFormed();
    BankingHasNoGaps();
    FreshIsConsistent(i, BANKING_TRANSACTIONAL_V1);
    RunKeepsPrefix(i, arrivals, BANKING_TRANSACTIONAL_V1, p);
  }

  /** In a linear journey, insurance and retail among them, they do so too. */
  lemma LinearStampsArePrefix(i: Instance, arrivals: seq<Arrival>, d: JourneyDefinition, p: ProgressDefinition)
    requires Linear(d) && Fresh(i)
    ensures PrefixStamped(d, Run(i, arrivals, d, p).stamps)
  {
    SingleFileHasNoGaps(d);
    FreshIsConsistent(i, d);
    RunKeepsPrefix(i, arrivals, d, p);
  }

  lemma BankingHasNoGaps()
    ensures NoGaps(BANKING_TRANSACTIONAL_V1)
  {
    var d, core := BANKING_TRANSACTIONAL_V1, BANKING_TRANSACTIONAL_V1.coreSequence;
    assert forall r, k | 0 <= r < |core| && 0 <= k < |core| && core[k] in Allowed(d, Some(core[r])) ::
        k == r + 1 || (r == 2 && k == 4);
  }

  // ----- walking up a journey -----

  /** One arrival per core milestone, in order, up to the k-th. */
  function Walk(d: JourneyDefinition, k: nat): seq<Arrival>
    requires k < |d.coreSequence|
  {
    if k == 0 then [Arrival(Validated, 0, 0)] else Walk(d, k - 1) + [Arrival(d.coreSequence[k], k, k)]
  }

  /** Walking up a journey from nothing reaches every core milestone. */
  lemma {:induction false} WalkReaches(i: Instance, d: JourneyDefinition, p: ProgressDefinition, k: nat)
    requires WellFormed(d) && StepsUp(d) && Fresh(i) && i.status == None && k < |d.coreSequence|
    ensures Consistent(Run(i, Walk(d, k), d, p), d)
    ensures Run(i, Walk(d, k), d, p).status == Some(d.coreSequence[k])
  {
    FreshIsConsistent(i, d);
    if k == 0 {
      WalkStarts(i, d, p);
    } else {
      var j, a := Run(i, Walk(d, k - 1), d, p), Arrival(d.coreSequence[k], k, k);
      WalkReaches(i, d, p, k - 1);
      RunLast(i, Walk(d, k - 1), a, d, p);
      NextMilestoneIsAccepted(j, d, k);
      StepKeeps(j, a, d, p);
      AcceptedEventDecidesStatus(j, a, d, p);
    }
  }

  lemma WalkStarts(i: Instance, d: JourneyDefinition, p: ProgressDefinition)
    requires WellFormed(d) && StepsUp(d) && Consistent(i, d) && i.status == None
    ensures Consistent(Run(i, Walk(d, 0), d, p), d)
    ensures Run(i, Walk(d, 0), d, p).status == Some(d.coreSequence[0])
  {
    var a := Arrival(Validated, 0, 0);
    RunLast(i, [], a, d, p);
    assert [] + [a] == Walk(d, 0);
    StepKeeps(i, a, d, p);
    AcceptedEventDecidesStatus(i, a, d, p);
    assert d.coreSequence[0] == Validated;
  }

  lemma RunLast(i: Instance, arrivals: seq<Arrival>, a: Arrival, d: JourneyDefinition, p: ProgressDefinition)
    requires |d.coreSequence| > 0
    ensures Run(i, arrivals + [a], d, p) == Step(Run(i, arrivals, d, p), a, d, p)
  {
    RunConcat(i, arrivals, [a], d, p);
    var j := Run(i, arrivals, d, p);
    assert [a][1..] == [];
    assert Run(Step(j, a, d, p), [], d, p) == Step(j, a, d, p);
  }

  // ----- replay at another time -----

  ghost predicate SameButClock(s: seq<Arrival>, t: seq<Arrival>) {
    |s| == |t| && forall k | 0 <= k < |s| :: s[k].event == t[k].event && s[k].occurredAt == t[k].occurredAt
  }

  ghost predicate SameButCompletionTime(i: Instance, j: Instance) {
    i.(completedAt := None) == j.(completedAt := None) && (i.completedAt.Some? <==> j.completedAt.Some?)
  }

  lemma StepIgnoresClock(i: Instance, j: Instance, a: Arrival, b: Arrival, d: JourneyDefinition, p: ProgressDefinition)
    requires |d.coreSequence| > 0 && SameButCompletionTime(i, j)
    requires a.event == b.event && a.occurredAt == b.occurredAt
    ensures SameButCompletionTime(Step(i, a, d, p), Step(j, b, d, p))
  {
    assert i.status == i.(completedAt := None).status && i.stamps == i.(completedAt := None).stamps;
  }

  /** Replaying the same events later gives the same instance except for the completion instant,
      which is read from the clock. */
  lemma {:induction false} ReplayIgnoresClock(i: Instance, j: Instance, s: seq<Arrival>, t: seq<Arrival>,
                                              d: JourneyDefinition, p: ProgressDefinition)
    requires |d.coreSequence| > 0 && SameButCompletionTime(i, j) && SameButClock(s, t)
    ensures SameButCompletionTime(Run(i, s, d, p), Run(j, t, d, p))
    decreases |s|
  {
    if s != [] {
      StepIgnoresClock(i, j, s[0], t[0], d, p);
      ReplayIgnoresClock(Step(i, s[0], d, p), Step(j, t[0], d, p), s[1..], t[1..], d, p);
    }
  }
}
