/** What a run of a journey reaches, told from the arrivals alone: the milestones that some of them, taken
    in order along allowed transitions, lead to. */
module JourneyCharts {
  import opened Prelude
  import opened JourneyDefinitions
  import opened JourneyMachine
  import opened JourneyRuns

  // ----- the shape of a journey -----

  /** A transition that skips milestones may also be taken from each milestone it skips. */
  ghost predicate Convex(d: JourneyDefinition) {
    var core := d.coreSequence;
    forall a, c, k | 0 <= a <= c < k < |core| && core[k] in Allowed(d, Some(core[a])) ::
      core[k] in Allowed(d, Some(core[c]))
  }

  /** Side events open up at the top of the core sequence, and there alone. */
  ghost predicate SidesAtTop(d: JourneyDefinition) {
    var core := d.coreSequence;
    && |core| > 0
    && (forall e | e in SideEvents(d) ::
          e in Allowed(d, Some(core[|core| - 1])) && d.completionMinimum == Some(core[|core| - 1]))
    && (forall e, k | e in SideEvents(d) && 0 <= k < |core| && e in Allowed(d, Some(core[k])) :: k == |core| - 1)
  }

  /** Timed events are milestones or side events, each with a field of its own; the field FUNDED
      back-fills is one of them. */
  ghost predicate OwnFields(d: JourneyDefinition) {
    && (forall e | e in d.timestampField :: e in d.coreSequence || e in SideEvents(d))
    && (forall e, f | e in d.timestampField && f in d.timestampField && e != f ::
        d.timestampField[e] != d.timestampField[f])
    && Fields(d) == d.timestampField.Values
  }

  ghost predicate BackfillsCore(d: JourneyDefinition) {
    Funded in d.timestampField ==>
      && Funded in d.coreSequence
      && forall e | e in d.timestampField && d.timestampField[e] == AccountActivatedAt :: e in d.coreSequence
  }

  ghost predicate Charted(d: JourneyDefinition) {
    WellFormed(d) && NoGaps(d) && Convex(d) && SidesAtTop(d) && OwnFields(d) && BackfillsCore(d)
  }

  lemma BankingIsConvex()
    ensures Convex(BANKING_TRANSACTIONAL_V1)
  {
    var d, core := BANKING_TRANSACTIONAL_V1, BANKING_TRANSACTIONAL_V1.coreSequence;
    assert forall a, k | 0 <= a < k < |core| && core[k] in Allowed(d, Some(core[a])) ::
      k == a + 1 || (a == 2 && k == 4);
    assert core[4] in Allowed(d, Some(core[3]));
  }

  lemma BankingSideEvents()
    ensures SideEvents(BANKING_TRANSACTIONAL_V1) == {DebitOrderSwitched, SalarySwitched, FirstTransactionCompleted}
  {
  }

  lemma BankingSidesAtTop()
    ensures SidesAtTop(BANKING_TRANSACTIONAL_V1)
  {
    var d, core := BANKING_TRANSACTIONAL_V1, BANKING_TRANSACTIONAL_V1.coreSequence;
    BankingSideEvents();
    assert core[|core| - 1] == Funded;
    assert forall k | 0 <= k < 4 :: Allowed(d, Some(core[k])) !! SideEvents(d);
  }

  lemma BankingTimedEvents()
    ensures forall e | e in BANKING_TRANSACTIONAL_V1.timestampField ::
              e in BANKING_TRANSACTIONAL_V1.coreSequence || e in SideEvents(BANKING_TRANSACTIONAL_V1)
  {
    var core := BANKING_TRANSACTIONAL_V1.coreSequence;
    BankingSideEvents();
    assert core[1] == UcnCaptured && core[2] == AccountOpened && core[3] == AccountActivated && core[4] == Funded;
  }

  lemma BankingDistinctFields()
    ensures var fields := BANKING_TRANSACTIONAL_V1.timestampField;
            forall e, f | e in fields && f in fields && e != f :: fields[e] != fields[f]
  {
  }

  lemma BankingBackfillIsOwnField()
    ensures AccountActivatedAt in BANKING_TRANSACTIONAL_V1.timestampField.Values
    ensures BackfillsCore(BANKING_TRANSACTIONAL_V1)
  {
    var d := BANKING_TRANSACTIONAL_V1;
    assert AccountActivated in d.timestampField && d.timestampField[AccountActivated] == AccountActivatedAt;
    BankingDistinctFields();
    assert d.coreSequence[3] == AccountActivated && d.coreSequence[4] == Funded;
  }

  lemma BankingOwnFields()
    ensures OwnFields(BANKING_TRANSACTIONAL_V1)
  {
    BankingTimedEvents();
    BankingDistinctFields();
    BankingBackfillIsOwnField();
  }

  lemma BankingIsCharted()
    ensures Charted(BANKING_TRANSACTIONAL_V1)
  {
    BankingIsWellFormed();
    BankingHasNoGaps();
    BankingIsConvex();
    BankingSidesAtTop();
    BankingOwnFields();
    BankingBackfillIsOwnField();
  }

  /** A linear journey whose timed events are its milestones, each with a field of its own. */
  lemma LinearIsCharted(d: JourneyDefinition)
    requires Linear(d) && SideEvents(d) == {} && forall e | e in d.timestampField :: e in d.coreSequence
    ensures Charted(d)
  {
    SingleFileHasNoGaps(d);
    LinearIsConvex(d);
    LinearOwnFields(d);
  }

  lemma LinearIsConvex(d: JourneyDefinition)
    requires SingleFile(d) && TimedCore(d)
    ensures Convex(d)
  {
    var core := d.coreSequence;
    forall a, c, k | 0 <= a <= c < k < |core| && core[k] in Allowed(d, Some(core[a]))
      ensures core[k] in Allowed(d, Some(core[c]))
    {
      if a < |core| - 1 { assert core[k] == core[a + 1]; }
    }
  }

  lemma LinearOwnFields(d: JourneyDefinition)
    requires SingleFile(d) && TimedCore(d) && forall e | e in d.timestampField :: e in d.coreSequence
    ensures OwnFields(d) && BackfillsCore(d)
  {
    var core := d.coreSequence;
    forall e, f | e in d.timestampField && f in d.timestampField && e != f
      ensures d.timestampField[e] != d.timestampField[f]
    {
      var k :| 0 <= k < |core| && core[k] == e;
      assert k > 0;
    }
  }

  lemma InsuranceIsCharted()
    ensures Charted(INSURANCE_POLICY_V1)
  {
    var d := INSURANCE_POLICY_V1;
    InsuranceIsLinear();
    assert d.coreSequence[1] == QuoteRequested && d.coreSequence[2] == QuoteAccepted;
    assert d.coreSequence[3] == PolicyIssued && d.coreSequence[4] == FirstPremiumPaid;
    assert SideEvents(d) == {};
    LinearIsCharted(d);
  }

  lemma RetailIsCharted()
    ensures Charted(RETAIL_LOYALTY_V1)
  {
    var d := RETAIL_LOYALTY_V1;
    RetailIsLinear();
    assert d.coreSequence[1] == BasketCreated && d.coreSequence[2] == OrderPlaced
      && d.coreSequence[3] == FirstPurchaseCompleted;
    assert SideEvents(d) == {};
    LinearIsCharted(d);
  }

  // ----- what arrivals lead to -----

  /** The events that some of the arrivals, taken in order along allowed transitions from VALIDATED,
      lead to. */
  function Reachable(d: JourneyDefinition, arrivals: seq<Arrival>): set<Event> {
    if arrivals == [] then {Validated}
    else
      var before, e := Reachable(d, arrivals[..|arrivals| - 1]), arrivals[|arrivals| - 1].event;
      Extended(d, before, e)
  }

  predicate Follows(d: JourneyDefinition, reached: set<Event>, e: Event) {
    exists g | g in reached :: e in Allowed(d, Some(g))
  }

  /** A core milestone is attained by reaching it or one above it, a side event by reaching it. */
  predicate Attained(d: JourneyDefinition, reached: set<Event>, e: Event) {
    if e in d.coreSequence
    then SomeAtLeast(reached, RankIn(d), IndexOf(d.coreSequence, e))
    else e in reached
  }

  function RankIn(d: JourneyDefinition): Event -> int { e => IndexOf(d.coreSequence, e) }

  predicate SomeAtLeast(reached: set<Event>, rank: Event -> int, m: int) {
    exists g | g in reached :: rank(g) >= m
  }

  /** When the arrivals first attain an event. */
  function FirstTime(d: JourneyDefinition, arrivals: seq<Arrival>, e: Event): Option<Time> {
    if arrivals == [] then None
    else
      var init, last := arrivals[..|arrivals| - 1], arrivals[|arrivals| - 1];
      if Attained(d, Reachable(d, init), e) then FirstTime(d, init, e)
      else if Attained(d, Reachable(d, arrivals), e) then Some(last.occurredAt)
      else None
  }

  // ----- runs do what arrivals lead to -----

  /** The timestamps set are those of the attained events, and the milestone they give is reachable. */
  ghost predicate Matches(d: JourneyDefinition, stamps: Stamps, reached: set<Event>)
    requires |d.coreSequence| > 0
  {
    && (forall e | e in d.timestampField :: Stamped(d, stamps, e) <==> Attained(d, reached, e))
    && DeriveMilestone(d, stamps) in reached
  }

  lemma RankBound(d: JourneyDefinition, stamps: Stamps, reached: set<Event>, g: Event)
    requires TimedCore(d) && Matches(d, stamps, reached) && g in reached && g in d.coreSequence
    ensures IndexOf(d.coreSequence, g) <= CurrentRank(d, stamps)
  {
    var k := IndexOf(d.coreSequence, g);
    if k > 0 {
      assert d.coreSequence[k] in d.timestampField;
      assert RankIn(d)(g) >= k;
      assert Attained(d, reached, g);
    }
  }

  lemma RankOf(d: JourneyDefinition, k: nat)
    requires TimedCore(d) && k < |d.coreSequence|
    ensures IndexOf(d.coreSequence, d.coreSequence[k]) == k
  {
    RanksOfDistinct(d.coreSequence);
  }

  /** In a prefix-stamped journey a core milestone is stamped exactly up to the current rank. */
  lemma StampedIsBelowRank(d: JourneyDefinition, stamps: Stamps, k: nat)
    requires TimedCore(d) && PrefixStamped(d, stamps) && 0 < k < |d.coreSequence|
    ensures Stamped(d, stamps, d.coreSequence[k]) <==> k <= CurrentRank(d, stamps)
  {
    if k <= CurrentRank(d, stamps) { StampedUpTo(d, stamps, k); }
  }

  lemma OneMoreAtLeast(reached: set<Event>, rank: Event -> int, e: Event, m: int)
    ensures SomeAtLeast(reached + {e}, rank, m) <==> SomeAtLeast(reached, rank, m) || rank(e) >= m
  {
    if g :| g in reached && rank(g) >= m { assert g in reached + {e}; }
    if rank(e) >= m { assert e in reached + {e}; }
  }

  /** What one more reachable core event attains. */
  lemma AttainedByCore(d: JourneyDefinition, reached: set<Event>, e: Event, x: Event)
    requires e in d.coreSequence
    ensures Attained(d, reached + {e}, x) <==>
              Attained(d, reached, x) || (x in d.coreSequence
                                          && IndexOf(d.coreSequence, e) >= IndexOf(d.coreSequence, x))
  {
    if x in d.coreSequence {
      OneMoreAtLeast(reached, RankIn(d), e, IndexOf(d.coreSequence, x));
      assert RankIn(d)(e) == IndexOf(d.coreSequence, e);
    } else {
      assert x != e;
    }
  }

  lemma AttainedBySide(d: JourneyDefinition, reached: set<Event>, e: Event, x: Event)
    requires e !in d.coreSequence
    ensures Attained(d, reached + {e}, x) <==> Attained(d, reached, x) || x == e
  {
    if x in d.coreSequence {
      OneMoreAtLeast(reached, RankIn(d), e, IndexOf(d.coreSequence, x));
      assert RankIn(d)(e) == -1;
    }
  }

  // ----- one step -----

  /** An instance under way whose timestamps are those of what has been reached. */
  ghost predicate UnderWay(j: Instance, d: JourneyDefinition, reached: set<Event>) {
    Consistent(j, d) && j.status.Some? && PrefixStamped(d, j.stamps) && Matches(d, j.stamps, reached)
  }

  lemma AcceptedFollows(j: Instance, e: Event, d: JourneyDefinition)
    requires Charted(d) && Consistent(j, d) && j.status.Some? && Accepts(j, e, d)
    ensures e in d.timestampField && e in Allowed(d, Some(DeriveMilestone(d, j.stamps)))
  {
    AcceptedMeans(j, e, d);
    if e in SideEvents(d) { SideEventsFollowTop(d, e); }
  }

  lemma SideEventsFollowTop(d: JourneyDefinition, e: Event)
    requires SidesAtTop(d) && e in SideEvents(d)
    ensures e in Allowed(d, d.completionMinimum)
  {
  }

  /** Applying a core event above the rank stamps the core milestones up to it, and no side event. */
  lemma CoreStepStamps(d: JourneyDefinition, s: Stamps, e: Event, at: Time, k: nat)
    requires WellFormed(d) && NoGaps(d) && PrefixStamped(d, s) && s.Keys <= Fields(d)
    requires e in d.coreSequence && e in d.timestampField && 0 < k < |d.coreSequence|
    requires CurrentRank(d, s) < IndexOf(d.coreSequence, e) && e in Allowed(d, Some(DeriveMilestone(d, s)))
    ensures Stamped(d, ApplyStamps(s, e, at, d), d.coreSequence[k]) <==> k <= IndexOf(d.coreSequence, e)
  {
    CoreEventKeepsPrefix(d, s, e, at);
    CoreEventRises(d, s, e, at);
    StampedIsBelowRank(d, ApplyStamps(s, e, at, d), k);
  }

  lemma CoreStepSparesSides(d: JourneyDefinition, s: Stamps, e: Event, at: Time, x: Event)
    requires OwnFields(d) && BackfillsCore(d) && e in d.coreSequence && e in d.timestampField
    requires x in d.timestampField && x !in d.coreSequence
    ensures Stamped(d, ApplyStamps(s, e, at, d), x) <==> Stamped(d, s, x)
  {
    StampedAfter(d, s, e, at, x);
  }

  lemma SideStepStamps(d: JourneyDefinition, s: Stamps, e: Event, at: Time, x: Event)
    requires OwnFields(d) && BackfillsCore(d) && e !in d.coreSequence && e in d.timestampField && x in d.timestampField
    ensures Stamped(d, ApplyStamps(s, e, at, d), x) <==> Stamped(d, s, x) || x == e
  {
    StampedAfter(d, s, e, at, x);
  }

  lemma CoreStepMatchesAt(d: JourneyDefinition, s: Stamps, reached: set<Event>, e: Event, at: Time, x: Event)
    requires WellFormed(d) && NoGaps(d) && OwnFields(d) && BackfillsCore(d)
    requires PrefixStamped(d, s) && s.Keys <= Fields(d) && Matches(d, s, reached)
    requires e in d.coreSequence && e in d.timestampField && x in d.timestampField
    requires CurrentRank(d, s) < IndexOf(d.coreSequence, e) && e in Allowed(d, Some(DeriveMilestone(d, s)))
    ensures Stamped(d, ApplyStamps(s, e, at, d), x) <==> Attained(d, reached + {e}, x)
  {
    AttainedByCore(d, reached, e, x);
    if x in d.coreSequence {
      var k := IndexOf(d.coreSequence, x);
      assert d.coreSequence[k] == x;
      CoreStepStamps(d, s, e, at, k);
      BelowRankIsAttained(d, s, reached, x);
    } else {
      CoreStepSparesSides(d, s, e, at, x);
    }
  }

  lemma CoreStepMatches(d: JourneyDefinition, s: Stamps, reached: set<Event>, e: Event, at: Time)
    requires Charted(d) && PrefixStamped(d, s) && s.Keys <= Fields(d) && Matches(d, s, reached)
    requires e in d.coreSequence && e in d.timestampField
    requires CurrentRank(d, s) < IndexOf(d.coreSequence, e) && e in Allowed(d, Some(DeriveMilestone(d, s)))
    ensures Matches(d, ApplyStamps(s, e, at, d), reached + {e})
  {
    CoreEventRises(d, s, e, at);
    var t, wider := ApplyStamps(s, e, at, d), reached + {e};
    forall x | x in d.timestampField ensures Stamped(d, t, x) <==> Attained(d, wider, x) {
      CoreStepMatchesAt(d, s, reached, e, at, x);
    }
    MatchesBy(d, t, wider, e);
  }

  lemma MatchesBy(d: JourneyDefinition, t: Stamps, reached: set<Event>, e: Event)
    requires |d.coreSequence| > 0 && e in reached && DeriveMilestone(d, t) == e
    requires forall x | x in d.timestampField :: Stamped(d, t, x) <==> Attained(d, reached, x)
    ensures Matches(d, t, reached)
  {
  }

  lemma BelowRankIsAttained(d: JourneyDefinition, s: Stamps, reached: set<Event>, x: Event)
    requires TimedCore(d) && PrefixStamped(d, s) && Matches(d, s, reached) && x in d.coreSequence
             && x in d.timestampField
    ensures Attained(d, reached, x) <==> IndexOf(d.coreSequence, x) <= CurrentRank(d, s)
  {
    var k := IndexOf(d.coreSequence, x);
    assert d.coreSequence[k] == x;
    StampedIsBelowRank(d, s, k);
  }

  lemma SideStepMatchesAt(d: JourneyDefinition, s: Stamps, reached: set<Event>, e: Event, at: Time, x: Event)
    requires OwnFields(d) && BackfillsCore(d) && e !in d.coreSequence && e in d.timestampField && x in d.timestampField
    requires |d.coreSequence| > 0 && Matches(d, s, reached)
    ensures Stamped(d, ApplyStamps(s, e, at, d), x) <==> Attained(d, reached + {e}, x)
  {
    SideStepStamps(d, s, e, at, x);
    AttainedBySide(d, reached, e, x);
  }

  lemma SideStepMatches(d: JourneyDefinition, s: Stamps, reached: set<Event>, e: Event, at: Time)
    requires Charted(d) && Matches(d, s, reached) && e !in d.coreSequence && e in d.timestampField
    ensures Matches(d, ApplyStamps(s, e, at, d), reached + {e})
  {
    SideEventStays(d, s, e, at);
    var t, wider := ApplyStamps(s, e, at, d), reached + {e};
    forall x | x in d.timestampField ensures Stamped(d, t, x) <==> Attained(d, wider, x) {
      SideStepMatchesAt(d, s, reached, e, at, x);
    }
    MatchesBy(d, t, wider, DeriveMilestone(d, s));
  }

  lemma AcceptedStepMatches(j: Instance, a: Arrival, d: JourneyDefinition, p: ProgressDefinition, reached: set<Event>)
    requires Charted(d) && UnderWay(j, d, reached) && Accepts(j, a.event, d)
    ensures Follows(d, reached, a.event) && Matches(d, Step(j, a, d, p).stamps, reached + {a.event})
  {
    var e := a.event;
    AcceptedFollows(j, e, d);
    StepStamps(j, a, d, p);
    if e in d.coreSequence {
      AcceptedFromStamps(j, e, d);
      CoreStepMatches(d, j.stamps, reached, e, a.occurredAt);
    } else {
      SideStepMatches(d, j.stamps, reached, e, a.occurredAt);
    }
  }

  lemma RefusedIsStamped(j: Instance, e: Event, d: JourneyDefinition)
    requires Consistent(j, d) && j.status.Some? && !Accepts(j, e, d)
             && e in Allowed(d, Some(DeriveMilestone(d, j.stamps)))
    ensures Stamped(d, j.stamps, e)
  {
  }

  lemma FollowedIsCore(d: JourneyDefinition, g: Event, e: Event)
    requires WellFormed(d) && e in Allowed(d, Some(g))
    ensures g in d.coreSequence && e in d.timestampField
  {
    var k := IndexOf(d.coreSequence, g);
    assert d.coreSequence[k] == g;
  }

  lemma ConvexFollow(d: JourneyDefinition, g: Event, c: nat, e: Event)
    requires Convex(d) && g in d.coreSequence && e in d.coreSequence && e in Allowed(d, Some(g))
    requires IndexOf(d.coreSequence, g) <= c < IndexOf(d.coreSequence, e)
    ensures e in Allowed(d, Some(d.coreSequence[c]))
  {
    var core := d.coreSequence;
    assert core[IndexOf(core, g)] == g && core[IndexOf(core, e)] == e;
  }

  lemma TopFollow(d: JourneyDefinition, g: Event, e: Event)
    requires SidesAtTop(d) && g in d.coreSequence && e in SideEvents(d) && e in Allowed(d, Some(g))
    ensures IndexOf(d.coreSequence, g) == |d.coreSequence| - 1
  {
    assert d.coreSequence[IndexOf(d.coreSequence, g)] == g;
  }

  lemma AheadIsAccepted(j: Instance, e: Event, d: JourneyDefinition, reached: set<Event>)
    requires Charted(d) && UnderWay(j, d, reached) && Follows(d, reached, e) && e in d.coreSequence
    ensures IndexOf(d.coreSequence, e) > CurrentRank(d, j.stamps) ==> Accepts(j, e, d)
  {
    var g :| g in reached && e in Allowed(d, Some(g));
    FollowedIsCore(d, g, e);
    RankBound(d, j.stamps, reached, g);
    var b := IndexOf(d.coreSequence, e);
    assert d.coreSequence[b] == e;
    if b > CurrentRank(d, j.stamps) {
      StampedIsBelowRank(d, j.stamps, b);
      ConvexFollow(d, g, CurrentRank(d, j.stamps), e);
    }
  }

  /** A refused event that follows something reached leads to nothing new. */
  lemma RefusedCoreIsBelow(j: Instance, e: Event, d: JourneyDefinition, reached: set<Event>)
    requires Charted(d) && UnderWay(j, d, reached) && !Accepts(j, e, d)
    requires Follows(d, reached, e) && e in d.coreSequence
    ensures IndexOf(d.coreSequence, e) <= CurrentRank(d, j.stamps)
  {
    AheadIsAccepted(j, e, d, reached);
  }

  lemma RefusedSideIsReached(j: Instance, e: Event, d: JourneyDefinition, reached: set<Event>)
    requires Charted(d) && UnderWay(j, d, reached) && !Accepts(j, e, d)
    requires Follows(d, reached, e) && e !in d.coreSequence
    ensures e in reached
  {
    var g :| g in reached && e in Allowed(d, Some(g));
    FollowedIsCore(d, g, e);
    RankBound(d, j.stamps, reached, g);
    TopFollow(d, g, e);
    assert d.coreSequence[CurrentRank(d, j.stamps)] == g;
    RefusedIsStamped(j, e, d);
  }

  lemma BelowRankAddsNothing(d: JourneyDefinition, s: Stamps, reached: set<Event>, e: Event, x: Event)
    requires TimedCore(d) && PrefixStamped(d, s) && Matches(d, s, reached) && x in d.timestampField
    requires e in d.coreSequence && IndexOf(d.coreSequence, e) <= CurrentRank(d, s)
    ensures Attained(d, reached + {e}, x) <==> Attained(d, reached, x)
  {
    AttainedByCore(d, reached, e, x);
    if x in d.coreSequence { BelowRankIsAttained(d, s, reached, x); }
  }

  lemma RefusedSideMatches(j: Instance, e: Event, d: JourneyDefinition, reached: set<Event>)
    requires Charted(d) && UnderWay(j, d, reached) && !Accepts(j, e, d)
    requires Follows(d, reached, e) && e !in d.coreSequence
    ensures Matches(d, j.stamps, reached + {e})
  {
    RefusedSideIsReached(j, e, d, reached);
    KnownEventMatches(d, j.stamps, reached, e);
  }

  lemma KnownEventMatches(d: JourneyDefinition, s: Stamps, reached: set<Event>, e: Event)
    requires |d.coreSequence| > 0 && Matches(d, s, reached) && e in reached
    ensures Matches(d, s, reached + {e})
  {
    assert reached + {e} == reached;
  }

  lemma RefusedCoreMatches(d: JourneyDefinition, s: Stamps, reached: set<Event>, e: Event)
    requires TimedCore(d) && PrefixStamped(d, s) && Matches(d, s, reached)
    requires e in d.coreSequence && IndexOf(d.coreSequence, e) <= CurrentRank(d, s)
    ensures Matches(d, s, reached + {e})
  {
    forall x | x in d.timestampField ensures Attained(d, reached + {e}, x) <==> Attained(d, reached, x) {
      BelowRankAddsNothing(d, s, reached, e, x);
    }
  }

  function Extended(d: JourneyDefinition, reached: set<Event>, e: Event): set<Event> {
    if Follows(d, reached, e) then reached + {e} else reached
  }

  lemma StepMatches(j: Instance, a: Arrival, d: JourneyDefinition, p: ProgressDefinition, reached: set<Event>)
    requires Charted(d) && UnderWay(j, d, reached)
    ensures Matches(d, Step(j, a, d, p).stamps, Extended(d, reached, a.event))
  {
    if Accepts(j, a.event, d) {
      AcceptedStepMatches(j, a, d, p, reached);
    } else if Follows(d, reached, a.event) {
      if a.event in d.coreSequence {
        RefusedCoreIsBelow(j, a.event, d, reached);
        RefusedCoreMatches(d, j.stamps, reached, a.event);
      } else {
        RefusedSideMatches(j, a.event, d, reached);
      }
    }
  }

  lemma StepStaysUnderWay(j: Instance, a: Arrival, d: JourneyDefinition, p: ProgressDefinition, reached: set<Event>)
    requires Charted(d) && UnderWay(j, d, reached)
    ensures UnderWay(Step(j, a, d, p), d, Extended(d, reached, a.event))
  {
    StepKeeps(j, a, d, p);
    StepKeepsPrefix(j, a, d, p);
    StepMatches(j, a, d, p, reached);
  }

  // ----- runs -----

  /** A run of a charted journey from VALIDATED stamps exactly the events its arrivals attain. */
  lemma {:induction false} RunAttains(i: Instance, arrivals: seq<Arrival>, d: JourneyDefinition, p: ProgressDefinition)
    requires Charted(d) && Fresh(i) && i.status == Some(Validated)
    ensures UnderWay(Run(i, arrivals, d, p), d, Reachable(d, arrivals))
    decreases |arrivals|
  {
    if arrivals == [] {
      StartMatches(i, d);
    } else {
      var init, a := arrivals[..|arrivals| - 1], arrivals[|arrivals| - 1];
      RunAttains(i, init, d, p);
      assert arrivals == init + [a];
      RunLast(i, init, a, d, p);
      StepStaysUnderWay(Run(i, init, d, p), a, d, p, Reachable(d, init));
    }
  }

  lemma StartMatches(i: Instance, d: JourneyDefinition)
    requires Charted(d) && Fresh(i) && i.status == Some(Validated)
    ensures UnderWay(i, d, {Validated})
  {
    FreshIsConsistent(i, d);
    RankOf(d, 0);
    forall e | e in d.timestampField ensures !Attained(d, {Validated}, e) {
      if e in d.coreSequence { assert d.coreSequence[IndexOf(d.coreSequence, e)] == e; }
    }
  }

  // ----- when events are first attained -----

  function Lookup<K, V>(m: map<K, V>, k: K): Option<V> { if k in m then Some(m[k]) else None }

  lemma NewStampsAreNow(s: Stamps, e: Event, at: Time, d: JourneyDefinition, f: Field)
    requires f !in s && f in ApplyStamps(s, e, at, d)
    ensures ApplyStamps(s, e, at, d)[f] == at
  {
  }

  /** A step keeps the timestamps there are, and those it adds are its own. */
  lemma StepStampsNow(j: Instance, a: Arrival, d: JourneyDefinition, p: ProgressDefinition, f: Field)
    requires WellFormed(d) && Consistent(j, d)
    ensures f in j.stamps ==> Lookup(Step(j, a, d, p).stamps, f) == Lookup(j.stamps, f)
    ensures f !in j.stamps && f in Step(j, a, d, p).stamps ==> Step(j, a, d, p).stamps[f] == a.occurredAt
  {
    StepKeeps(j, a, d, p);
    StepStamps(j, a, d, p);
    if f !in j.stamps && f in Step(j, a, d, p).stamps { NewStampsAreNow(j.stamps, a.event, a.occurredAt, d, f); }
  }

  lemma StampedIffAttained(i: Instance, arrivals: seq<Arrival>, d: JourneyDefinition, p: ProgressDefinition, e: Event)
    requires Charted(d) && Fresh(i) && i.status == Some(Validated) && e in d.timestampField
    ensures d.timestampField[e] in Run(i, arrivals, d, p).stamps <==> Attained(d, Reachable(d, arrivals), e)
    ensures Consistent(Run(i, arrivals, d, p), d)
  {
    RunAttains(i, arrivals, d, p);
    assert Stamped(d, Run(i, arrivals, d, p).stamps, e) <==> Attained(d, Reachable(d, arrivals), e);
  }

  lemma FirstTimeLast(d: JourneyDefinition, init: seq<Arrival>, a: Arrival, e: Event)
    ensures FirstTime(d, init + [a], e)
         == if Attained(d, Reachable(d, init), e) then FirstTime(d, init, e)
            else if Attained(d, Reachable(d, init + [a]), e) then Some(a.occurredAt)
            else None
  {
    assert (init + [a])[..|init|] == init;
  }

  /** The timestamp of an event after a run is when its arrivals first attain it. */
  ghost predicate StampsFirstTime(i: Instance, d: JourneyDefinition, p: ProgressDefinition, e: Event,
                                  arrivals: seq<Arrival>)
  {
    && |d.coreSequence| > 0 && e in d.timestampField
    && Lookup(Run(i, arrivals, d, p).stamps, d.timestampField[e]) == FirstTime(d, arrivals, e)
  }

  lemma NothingStampedAtStart(i: Instance, d: JourneyDefinition, p: ProgressDefinition, e: Event)
    requires |d.coreSequence| > 0 && i.stamps == map[] && e in d.timestampField
    ensures StampsFirstTime(i, d, p, e, [])
  {
  }

  lemma StampsAfterEveryLast(i: Instance, d: JourneyDefinition, p: ProgressDefinition, e: Event)
    requires Charted(d) && Fresh(i) && i.status == Some(Validated) && e in d.timestampField
    ensures forall init, a :: StampsFirstTime(i, d, p, e, init) ==> StampsFirstTime(i, d, p, e, init + [a])
  {
    forall init, a | StampsFirstTime(i, d, p, e, init) ensures StampsFirstTime(i, d, p, e, init + [a]) {
      StampAfterLast(i, init, a, d, p, e);
    }
  }

  lemma StampIsFirstTime(i: Instance, arrivals: seq<Arrival>, d: JourneyDefinition, p: ProgressDefinition, e: Event)
    requires Charted(d) && Fresh(i) && i.status == Some(Validated) && e in d.timestampField
    ensures StampsFirstTime(i, d, p, e, arrivals)
  {
    NothingStampedAtStart(i, d, p, e);
    StampsAfterEveryLast(i, d, p, e);
    SnocInduction((s: seq<Arrival>) => StampsFirstTime(i, d, p, e, s), arrivals);
  }

  lemma StampAfterLast(i: Instance, init: seq<Arrival>, a: Arrival, d: JourneyDefinition, p: ProgressDefinition,
                       e: Event)
    requires Charted(d) && Fresh(i) && i.status == Some(Validated) && e in d.timestampField
    requires StampsFirstTime(i, d, p, e, init)
    ensures StampsFirstTime(i, d, p, e, init + [a])
  {
    FirstTimeLast(d, init, a, e);
    StampedIffAttained(i, init, d, p, e);
    StampedIffAttained(i, init + [a], d, p, e);
    RunLast(i, init, a, d, p);
    StepStampsNow(Run(i, init, d, p), a, d, p, d.timestampField[e]);
  }
}
