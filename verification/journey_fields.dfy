/** What the shipped journeys do, told on timestamps and statuses: the hard-coded rules of the code that
    runs without a journey definition, and the answers to every event in every run. */
module JourneyFields {
  import opened Prelude
  import opened JourneyDefinitions
  import opened JourneyMachine
  import opened JourneyRuns
  import opened JourneyCharts

  // ----- the rules that need no definition -----

  /** The timestamps an event sets where no definition is given. */
  function LegacyStamps(s: Stamps, e: Event, at: Time): Stamps {
    match e
    case UcnCaptured => Filled(s, {UcnCapturedAt}, at)
    case AccountOpened => Filled(s, {AccountOpenedAt}, at)
    case AccountActivated => Filled(s, {AccountActivatedAt}, at)
    case Funded => Filled(s, {AccountActivatedAt, FundedAt}, at)
    case DebitOrderSwitched => Filled(s, {DebitOrderSwitchedAt}, at)
    case SalarySwitched => Filled(s, {SalarySwitchedAt}, at)
    case FirstTransactionCompleted => Filled(s, {FirstTransactionCompletedAt}, at)
    case _ => s
  }

  /** Sets the missing ones of some timestamps. */
  function Filled(s: Stamps, fields: set<Field>, at: Time): Stamps {
    map f | f in s.Keys + fields :: if f in s then s[f] else at
  }

  function LegacyMilestone(s: Stamps): Event {
    if FundedAt in s then Funded
    else if AccountActivatedAt in s then AccountActivated
    else if AccountOpenedAt in s then AccountOpened
    else if UcnCapturedAt in s then UcnCaptured
    else Validated
  }

  predicate LegacyComplete(s: Stamps) {
    FundedAt in s && (SalarySwitchedAt in s || DebitOrderSwitchedAt in s || FirstTransactionCompletedAt in s)
  }

  /** The top milestone with a timestamp, counted from the bottom. */
  lemma MilestoneAt(d: JourneyDefinition, s: Stamps, r: nat)
    requires r < |d.coreSequence| && (r > 0 ==> Stamped(d, s, d.coreSequence[r]))
    requires forall k | r < k < |d.coreSequence| :: !Stamped(d, s, d.coreSequence[k])
    ensures DeriveMilestone(d, s) == d.coreSequence[r]
  {
    RankIs(d, s, r);
  }

  lemma BankingStamped(s: Stamps)
    ensures var d := BANKING_TRANSACTIONAL_V1;
            && (Stamped(d, s, UcnCaptured) <==> UcnCapturedAt in s)
            && (Stamped(d, s, AccountOpened) <==> AccountOpenedAt in s)
            && (Stamped(d, s, AccountActivated) <==> AccountActivatedAt in s)
            && (Stamped(d, s, Funded) <==> FundedAt in s)
  {
  }

  lemma BankingSideStamped(s: Stamps)
    ensures var d := BANKING_TRANSACTIONAL_V1;
            && (Stamped(d, s, DebitOrderSwitched) <==> DebitOrderSwitchedAt in s)
            && (Stamped(d, s, SalarySwitched) <==> SalarySwitchedAt in s)
            && (Stamped(d, s, FirstTransactionCompleted) <==> FirstTransactionCompletedAt in s)
  {
  }

  lemma BankingCore()
    ensures BANKING_TRANSACTIONAL_V1.coreSequence == [Validated, UcnCaptured, AccountOpened, AccountActivated, Funded]
  {
  }

  /** A five-step ladder, told by which steps carry timestamps. */
  lemma LadderTop(d: JourneyDefinition, s: Stamps)
    requires |d.coreSequence| == 5
    ensures var c := d.coreSequence;
            DeriveMilestone(d, s) == if Stamped(d, s, c[4]) then c[4] else if Stamped(d, s, c[3]) then c[3]
                                     else if Stamped(d, s, c[2]) then c[2] else if Stamped(d, s, c[1]) then c[1]
                                     else c[0]
  {
    var c := d.coreSequence;
    MilestoneAt(d, s, if Stamped(d, s, c[4]) then 4 else if Stamped(d, s, c[3]) then 3
                      else if Stamped(d, s, c[2]) then 2 else if Stamped(d, s, c[1]) then 1 else 0);
  }

  /** With the banking definition the status derived from any timestamps is that of the hard-coded rule. */
  lemma BankingMilestoneIsLegacy(s: Stamps)
    ensures |BANKING_TRANSACTIONAL_V1.coreSequence| > 0
    ensures DeriveMilestone(BANKING_TRANSACTIONAL_V1, s) == LegacyMilestone(s)
  {
    BankingCore();
    BankingStamped(s);
    LadderTop(BANKING_TRANSACTIONAL_V1, s);
  }

  lemma CompleteBySides(d: JourneyDefinition, s: Stamps, a: Event, b: Event, c: Event)
    requires d.completionMinimum.Some? && d.completionEvents == {a, b, c}
    ensures DeriveComplete(d, s) <==>
              Stamped(d, s, d.completionMinimum.value) && (Stamped(d, s, a) || Stamped(d, s, b) || Stamped(d, s, c))
  {
  }

  /** So is completion: funded, and a debit order, salary switch or first transaction. */
  lemma BankingCompleteIsLegacy(s: Stamps)
    ensures DeriveComplete(BANKING_TRANSACTIONAL_V1, s) <==> LegacyComplete(s)
  {
    var d := BANKING_TRANSACTIONAL_V1;
    BankingStamped(s);
    BankingSideStamped(s);
    assert d.completionMinimum == Some(Funded);
    CompleteBySides(d, s, DebitOrderSwitched, SalarySwitched, FirstTransactionCompleted);
  }

  lemma SetOnceFills(s: Stamps, f: Field, at: Time)
    ensures SetOnce(s, f, at) == Filled(s, {f}, at)
  {
  }

  lemma FilledTwice(s: Stamps, f: Field, g: Field, at: Time)
    ensures SetOnce(SetOnce(s, f, at), g, at) == Filled(s, {f, g}, at)
  {
  }

  /** The hard-coded rule, set once and one field at a time. */
  lemma LegacyBySteps(s: Stamps, e: Event, at: Time)
    ensures LegacyStamps(s, e, at) ==
              match e
              case UcnCaptured => SetOnce(s, UcnCapturedAt, at)
              case AccountOpened => SetOnce(s, AccountOpenedAt, at)
              case AccountActivated => SetOnce(s, AccountActivatedAt, at)
              case Funded => SetOnce(SetOnce(s, AccountActivatedAt, at), FundedAt, at)
              case DebitOrderSwitched => SetOnce(s, DebitOrderSwitchedAt, at)
              case SalarySwitched => SetOnce(s, SalarySwitchedAt, at)
              case FirstTransactionCompleted => SetOnce(s, FirstTransactionCompletedAt, at)
              case _ => s
  {
    SetOnceFills(s, UcnCapturedAt, at);
    SetOnceFills(s, AccountOpenedAt, at);
    SetOnceFills(s, AccountActivatedAt, at);
    FilledTwice(s, AccountActivatedAt, FundedAt, at);
    SetOnceFills(s, DebitOrderSwitchedAt, at);
    SetOnceFills(s, SalarySwitchedAt, at);
    SetOnceFills(s, FirstTransactionCompletedAt, at);
  }

  /** And so are the timestamps every event sets. */
  lemma BankingStampsAreLegacy(s: Stamps, e: Event, at: Time)
    ensures ApplyStamps(s, e, at, BANKING_TRANSACTIONAL_V1) == LegacyStamps(s, e, at)
  {
    LegacyBySteps(s, e, at);
  }

  /** Events that a definition does not time fall back on the hard-coded rule. */
  lemma UntimedEventsFallBack(s: Stamps, e: Event, at: Time, d: JourneyDefinition)
    requires e !in d.timestampField
    ensures ApplyStamps(s, e, at, d) == LegacyStamps(s, e, at)
  {
    LegacyBySteps(s, e, at);
  }

  // ----- insurance and retail on timestamps -----

  lemma InsuranceCore()
    ensures INSURANCE_POLICY_V1.coreSequence
         == [Validated, QuoteRequested, QuoteAccepted, PolicyIssued, FirstPremiumPaid]
  {
  }

  lemma InsuranceStamped(s: Stamps)
    ensures var d := INSURANCE_POLICY_V1;
            && (Stamped(d, s, QuoteRequested) <==> UcnCapturedAt in s)
            && (Stamped(d, s, QuoteAccepted) <==> AccountOpenedAt in s)
            && (Stamped(d, s, PolicyIssued) <==> AccountActivatedAt in s)
            && (Stamped(d, s, FirstPremiumPaid) <==> FundedAt in s)
  {
  }

  lemma CompleteByOne(d: JourneyDefinition, s: Stamps, e: Event)
    requires d.completionMinimum == None && d.completionEvents == {e}
    ensures DeriveComplete(d, s) <==> Stamped(d, s, e)
  {
  }

  /** Insurance keeps its milestones in the columns of banking: the timestamps of its four steps are those
      of capture, opening, activation and funding. */
  lemma InsuranceOnFields(s: Stamps)
    ensures |INSURANCE_POLICY_V1.coreSequence| > 0
    ensures DeriveMilestone(INSURANCE_POLICY_V1, s) ==
              if FundedAt in s then FirstPremiumPaid else if AccountActivatedAt in s then PolicyIssued
              else if AccountOpenedAt in s then QuoteAccepted else if UcnCapturedAt in s then QuoteRequested
              else Validated
    ensures DeriveComplete(INSURANCE_POLICY_V1, s) <==> FundedAt in s
  {
    InsuranceCore();
    InsuranceStamped(s);
    LadderTop(INSURANCE_POLICY_V1, s);
    CompleteByOne(INSURANCE_POLICY_V1, s, FirstPremiumPaid);
  }

  lemma RetailCore()
    ensures RETAIL_LOYALTY_V1.coreSequence == [Validated, BasketCreated, OrderPlaced, FirstPurchaseCompleted]
  {
  }

  lemma RetailStamped(s: Stamps)
    ensures var d := RETAIL_LOYALTY_V1;
            && (Stamped(d, s, BasketCreated) <==> BasketCreatedAt in s)
            && (Stamped(d, s, OrderPlaced) <==> OrderPlacedAt in s)
            && (Stamped(d, s, FirstPurchaseCompleted) <==> FirstPurchaseCompletedAt in s)
  {
  }

  lemma RetailOnFields(s: Stamps)
    ensures |RETAIL_LOYALTY_V1.coreSequence| > 0
    ensures DeriveMilestone(RETAIL_LOYALTY_V1, s) ==
              if FirstPurchaseCompletedAt in s then FirstPurchaseCompleted else if OrderPlacedAt in s then OrderPlaced
              else if BasketCreatedAt in s then BasketCreated else Validated
    ensures DeriveComplete(RETAIL_LOYALTY_V1, s) <==> FirstPurchaseCompletedAt in s
  {
    RetailCore();
    RetailStamped(s);
    ShortLadderTop(RETAIL_LOYALTY_V1, s);
    CompleteByOne(RETAIL_LOYALTY_V1, s, FirstPurchaseCompleted);
  }

  lemma ShortLadderTop(d: JourneyDefinition, s: Stamps)
    requires |d.coreSequence| == 4
    ensures var c := d.coreSequence;
            DeriveMilestone(d, s) == if Stamped(d, s, c[3]) then c[3] else if Stamped(d, s, c[2]) then c[2]
                                     else if Stamped(d, s, c[1]) then c[1] else c[0]
  {
    var c := d.coreSequence;
    MilestoneAt(d, s, if Stamped(d, s, c[3]) then 3 else if Stamped(d, s, c[2]) then 2
                      else if Stamped(d, s, c[1]) then 1 else 0);
  }

  // ----- whole runs -----

  /** What a referral shows once it has moved: everything follows from its timestamps. */
  ghost predicate Follows(j: Instance, milestone: Event, complete: bool, p: ProgressDefinition) {
    && j.status == Some(milestone) && j.currentMilestone == Some(milestone) && j.isComplete == complete
    && j.platformStatus == Some(if complete then Completed else InProgress)
    && j.snapshot.percent == (if complete then Some(100)
                              else if milestone in p.milestones then Some(p.milestones[milestone].percent) else None)
    && j.snapshot.band == (if complete then Some(p.completeBand)
                           else if milestone in p.milestones then Some(p.milestones[milestone].band) else None)
    && j.snapshot.display == (if complete then Some(p.completeDisplay)
                              else if milestone in p.milestones then Some(p.milestones[milestone].display) else None)
    && j.snapshot.next == (if complete || milestone !in p.milestones then None else p.milestones[milestone].next)
  }

  lemma {:induction false} RunFollows(i: Instance, arrivals: seq<Arrival>, d: JourneyDefinition, p: ProgressDefinition)
    requires |d.coreSequence| > 0
    ensures var j := Run(i, arrivals, d, p);
            j == i || Follows(j, DeriveMilestone(d, j.stamps), DeriveComplete(d, j.stamps), p)
    decreases |arrivals|
  {
    if arrivals != [] { RunFollows(Step(i, arrivals[0], d, p), arrivals[1..], d, p); }
  }

  /** In every banking run: complete exactly when funded and a debit order, salary switch or first
      transaction is in; the status is the highest milestone with a timestamp; the rest follows. */
  lemma BankingRuns(i: Instance, arrivals: seq<Arrival>, p: ProgressDefinition)
    requires Fresh(i)
    ensures |BANKING_TRANSACTIONAL_V1.coreSequence| > 0
    ensures var j := Run(i, arrivals, BANKING_TRANSACTIONAL_V1, p);
            && (j.isComplete <==>
                  && FundedAt in j.stamps
                  && (DebitOrderSwitchedAt in j.stamps || SalarySwitchedAt in j.stamps
                      || FirstTransactionCompletedAt in j.stamps))
            && (j == i || Follows(j, LegacyMilestone(j.stamps), j.isComplete, p))
  {
    BankingCore();
    RunFollows(i, arrivals, BANKING_TRANSACTIONAL_V1, p);
    var j := Run(i, arrivals, BANKING_TRANSACTIONAL_V1, p);
    BankingMilestoneIsLegacy(j.stamps);
    BankingCompleteIsLegacy(j.stamps);
  }

  lemma InsuranceRuns(i: Instance, arrivals: seq<Arrival>, p: ProgressDefinition)
    requires Fresh(i)
    ensures |INSURANCE_POLICY_V1.coreSequence| > 0
    ensures var j := Run(i, arrivals, INSURANCE_POLICY_V1, p);
            && (j.isComplete <==> FundedAt in j.stamps)
            && (j.isComplete ==> j.status == Some(FirstPremiumPaid))
  {
    InsuranceCore();
    RunFollows(i, arrivals, INSURANCE_POLICY_V1, p);
    InsuranceOnFields(Run(i, arrivals, INSURANCE_POLICY_V1, p).stamps);
  }

  lemma RetailRuns(i: Instance, arrivals: seq<Arrival>, p: ProgressDefinition)
    requires Fresh(i)
    ensures |RETAIL_LOYALTY_V1.coreSequence| > 0
    ensures var j := Run(i, arrivals, RETAIL_LOYALTY_V1, p);
            && (j.isComplete <==> FirstPurchaseCompletedAt in j.stamps)
            && (j.isComplete ==> j.status == Some(FirstPurchaseCompleted))
  {
    RetailCore();
    RunFollows(i, arrivals, RETAIL_LOYALTY_V1, p);
    RetailOnFields(Run(i, arrivals, RETAIL_LOYALTY_V1, p).stamps);
  }

  /** The completion instant is the time at which the completing event is handled. */
  lemma CompletionInstant(i: Instance, arrivals: seq<Arrival>, a: Arrival, d: JourneyDefinition, p: ProgressDefinition)
    requires WellFormed(d) && Fresh(i)
    ensures var before, after := Run(i, arrivals, d, p), Run(i, arrivals + [a], d, p);
            !before.isComplete && after.isComplete ==> before.completedAt == None && after.completedAt == Some(a.now)
  {
    FreshIsConsistent(i, d);
    RunKeeps(i, arrivals, d, p);
    RunLast(i, arrivals, a, d, p);
  }

  // ----- the verdict on every event -----

  /** What a run of a charted journey keeps, as far as verdicts need it. */
  ghost predicate UnderWayAt(j: Instance, d: JourneyDefinition, r: nat) {
    && Charted(d) && StepsUp(d) && Consistent(j, d) && PrefixStamped(d, j.stamps)
    && r < |d.coreSequence| && j.status == Some(d.coreSequence[r])
  }

  lemma VerdictByRanks(status: Option<Event>, s: Stamps, e: Event, d: JourneyDefinition, r: nat, k: nat)
    requires StatusRank(status, d.coreSequence) == r && StatusRank(Some(e), d.coreSequence) == k
    requires e !in SideEvents(d)
    ensures Classify(status, s, e, d) ==
              if Stamped(d, s, e) then Duplicate else if e in Allowed(d, status) then Valid
              else if k < r then Backward else if k > r then OutOfOrder else Invalid
  {
  }

  /** Which core milestones are stamped and allowed at position r. */
  lemma CoreAt(j: Instance, d: JourneyDefinition, r: nat, k: nat)
    requires UnderWayAt(j, d, r) && k < |d.coreSequence|
    ensures Stamped(d, j.stamps, d.coreSequence[k]) <==> 0 < k <= r
    ensures k <= r ==> d.coreSequence[k] !in Allowed(d, Some(d.coreSequence[r]))
    ensures k == r + 1 ==> d.coreSequence[k] in Allowed(d, Some(d.coreSequence[r]))
  {
    MilestoneIsRank(d, j.stamps, r);
    if k > 0 { StampedIsBelowRank(d, j.stamps, k); }
    if k == r + 1 { assert d.coreSequence[k] in Allowed(d, Some(d.coreSequence[k - 1])); }
  }

  /** A milestone up to the status is a duplicate, the start a step back, the next one valid, and a later
      one valid only where a transition skips to it. */
  lemma VerdictOnCore(j: Instance, d: JourneyDefinition, r: nat, k: nat)
    requires UnderWayAt(j, d, r) && k < |d.coreSequence|
    ensures Classify(j.status, j.stamps, d.coreSequence[k], d) ==
              if k == 0 then (if r == 0 then Invalid else Backward)
              else if k <= r then Duplicate
              else if k == r + 1 || d.coreSequence[k] in Allowed(d, Some(d.coreSequence[r])) then Valid
              else OutOfOrder
  {
    RankOf(d, r);
    RankOf(d, k);
    CoreEventsAreNotSide(d, d.coreSequence[k]);
    CoreAt(j, d, r, k);
    VerdictByRanks(j.status, j.stamps, d.coreSequence[k], d, r, k);
  }

  lemma VerdictOffCore(status: Option<Event>, s: Stamps, e: Event, d: JourneyDefinition)
    requires e in SideEvents(d) && StatusRank(status, d.coreSequence) >= 0
    requires e in Allowed(d, status) ==> status == d.completionMinimum
    ensures Classify(status, s, e, d) ==
              if Stamped(d, s, e) then Duplicate else if status == d.completionMinimum then Valid else OutOfOrder
  {
  }

  /** Side events open at the top alone. */
  lemma SideAt(d: JourneyDefinition, r: nat, e: Event)
    requires Charted(d) && r < |d.coreSequence| && e in SideEvents(d)
    ensures e in d.timestampField && d.completionMinimum.Some?
    ensures Some(d.coreSequence[r]) == d.completionMinimum <==> r == |d.coreSequence| - 1
    ensures e in Allowed(d, Some(d.coreSequence[r])) ==> r == |d.coreSequence| - 1
  {
    assert d.completionMinimum == Some(d.coreSequence[|d.coreSequence| - 1]);
  }

  /** A side event is valid once, at the top; below it comes too early. */
  lemma VerdictOnSide(j: Instance, d: JourneyDefinition, r: nat, e: Event)
    requires UnderWayAt(j, d, r) && e in SideEvents(d)
    ensures e in d.timestampField
    ensures Classify(j.status, j.stamps, e, d) ==
              if d.timestampField[e] in j.stamps then Duplicate
              else if r == |d.coreSequence| - 1 then Valid
              else OutOfOrder
  {
    RankOf(d, r);
    SideAt(d, r, e);
    VerdictOffCore(j.status, j.stamps, e, d);
  }

  /** Other events are invalid. */
  lemma VerdictOnOthers(j: Instance, d: JourneyDefinition, r: nat, e: Event)
    requires UnderWayAt(j, d, r) && e !in SideEvents(d) && e !in d.coreSequence
    ensures Classify(j.status, j.stamps, e, d) == Invalid
  {
  }

  /** Without a status only the start is valid. */
  lemma VerdictAtStart(j: Instance, d: JourneyDefinition, e: Event)
    requires Charted(d) && StepsUp(d) && Consistent(j, d) && j.status == None
    ensures Classify(j.status, j.stamps, e, d) ==
              if e == Validated then Valid else if e in d.coreSequence then OutOfOrder else Invalid
  {
    if e in d.coreSequence { CoreEventsAreNotSide(d, e); }
    if e in SideEvents(d) { assert d.completionMinimum.Some?; }
  }

  /** Every point of every run is under way at the position of its status. */
  lemma RunIsUnderWay(i: Instance, arrivals: seq<Arrival>, d: JourneyDefinition, p: ProgressDefinition) returns (r: nat)
    requires Charted(d) && StepsUp(d) && Fresh(i)
    ensures var j := Run(i, arrivals, d, p);
            Consistent(j, d) && (j.status.Some? ==> UnderWayAt(j, d, r))
  {
    var j := Run(i, arrivals, d, p);
    FreshIsConsistent(i, d);
    RunKeeps(i, arrivals, d, p);
    RunKeepsPrefix(i, arrivals, d, p);
    r := CurrentRank(d, j.stamps);
  }

  // ----- what the shipped journeys accept -----

  predicate BankingNext(status: Option<Event>, e: Event) {
    match status
    case None => e == Validated
    case Some(Validated) => e == UcnCaptured
    case Some(UcnCaptured) => e == AccountOpened
    case Some(AccountOpened) => e == AccountActivated || e == Funded
    case Some(AccountActivated) => e == Funded
    case Some(Funded) => e == DebitOrderSwitched || e == SalarySwitched || e == FirstTransactionCompleted
    case _ => false
  }

  /** What banking takes next: the next milestone, funding right after opening too, and after funding each
      of the three completion events once. */
  predicate BankingTakes(status: Option<Event>, s: Stamps, e: Event) {
    && BankingNext(status, e)
    && (e == DebitOrderSwitched ==> DebitOrderSwitchedAt !in s)
    && (e == SalarySwitched ==> SalarySwitchedAt !in s)
    && (e == FirstTransactionCompleted ==> FirstTransactionCompletedAt !in s)
  }

  predicate InsuranceTakes(status: Option<Event>, e: Event) {
    match status
    case None => e == Validated
    case Some(Validated) => e == QuoteRequested
    case Some(QuoteRequested) => e == QuoteAccepted
    case Some(QuoteAccepted) => e == PolicyIssued
    case Some(PolicyIssued) => e == FirstPremiumPaid
    case _ => false
  }

  predicate RetailTakes(status: Option<Event>, e: Event) {
    match status
    case None => e == Validated
    case Some(Validated) => e == BasketCreated
    case Some(BasketCreated) => e == OrderPlaced
    case Some(OrderPlaced) => e == FirstPurchaseCompleted
    case _ => false
  }

  lemma ValidMeans(status: Option<Event>, s: Stamps, e: Event, d: JourneyDefinition)
    ensures Classify(status, s, e, d) == Valid <==>
              !Stamped(d, s, e) && (e in Allowed(d, status) || (e in SideEvents(d) && status == d.completionMinimum))
  {
  }

  /** In a charted journey acceptance is the transition table, once per timestamp. */
  lemma AcceptedByTable(j: Instance, d: JourneyDefinition, e: Event)
    requires Charted(d) && Consistent(j, d)
    ensures Accepts(j, e, d) <==> e in Allowed(d, j.status) && !Stamped(d, j.stamps, e)
  {
    ValidMeans(j.status, j.stamps, e, d);
    if e in SideEvents(d) { SideAt(d, |d.coreSequence| - 1, e); SideIsAllowedAtTop(d, e); }
  }

  lemma SideIsAllowedAtTop(d: JourneyDefinition, e: Event)
    requires Charted(d) && e in SideEvents(d)
    ensures e in Allowed(d, d.completionMinimum)
  {
  }

  lemma BankingTable(status: Option<Event>, e: Event)
    ensures e in Allowed(BANKING_TRANSACTIONAL_V1, status) <==> BankingNext(status, e)
  {
  }

  lemma OnlySidesMayRepeat(j: Instance, d: JourneyDefinition, e: Event)
    requires Charted(d) && Consistent(j, d) && j.status.Some? && e in Allowed(d, j.status) && e in d.coreSequence
    ensures !Stamped(d, j.stamps, e)
  {
    var k := IndexOf(d.coreSequence, e);
    var r := CurrentRank(d, j.stamps);
    assert d.coreSequence[k] == e && d.coreSequence[k] in Allowed(d, Some(d.coreSequence[r]));
    assert k > r;
  }

  /** At every point of every banking run exactly what banking takes next is accepted. */
  lemma BankingAccepts(i: Instance, arrivals: seq<Arrival>, e: Event, p: ProgressDefinition)
    requires Fresh(i)
    ensures |BANKING_TRANSACTIONAL_V1.coreSequence| > 0
    ensures var j := Run(i, arrivals, BANKING_TRANSACTIONAL_V1, p);
            Accepts(j, e, BANKING_TRANSACTIONAL_V1) <==> BankingTakes(j.status, j.stamps, e)
  {
    BankingIsCharted();
    FreshIsConsistent(i, BANKING_TRANSACTIONAL_V1);
    RunKeeps(i, arrivals, BANKING_TRANSACTIONAL_V1, p);
    ConsistentBankingAccepts(Run(i, arrivals, BANKING_TRANSACTIONAL_V1, p), e);
  }

  lemma BankingNextIsTimedOnce(status: Option<Event>, s: Stamps, e: Event)
    requires BankingNext(status, e)
    ensures if e in {DebitOrderSwitched, SalarySwitched, FirstTransactionCompleted}
            then Stamped(BANKING_TRANSACTIONAL_V1, s, e) <==> !BankingTakes(status, s, e)
            else BankingTakes(status, s, e) && e in BANKING_TRANSACTIONAL_V1.coreSequence
    ensures status == None ==> !Stamped(BANKING_TRANSACTIONAL_V1, s, e)
  {
    BankingCore();
    BankingSideStamped(s);
  }

  lemma ConsistentBankingAccepts(j: Instance, e: Event)
    requires Consistent(j, BANKING_TRANSACTIONAL_V1)
    ensures Accepts(j, e, BANKING_TRANSACTIONAL_V1) <==> BankingTakes(j.status, j.stamps, e)
  {
    BankingIsCharted();
    BankingTable(j.status, e);
    TakesByTable(j, BANKING_TRANSACTIONAL_V1, e);
    if BankingNext(j.status, e) { BankingNextIsTimedOnce(j.status, j.stamps, e); }
  }

  lemma TakesByTable(j: Instance, d: JourneyDefinition, e: Event)
    requires Charted(d) && Consistent(j, d)
    ensures Accepts(j, e, d) <==> e in Allowed(d, j.status) && !Stamped(d, j.stamps, e)
    ensures j.status.Some? && e in Allowed(d, j.status) && e in d.coreSequence ==> !Stamped(d, j.stamps, e)
  {
    AcceptedByTable(j, d, e);
    if j.status.Some? && e in d.coreSequence && e in Allowed(d, j.status) { OnlySidesMayRepeat(j, d, e); }
  }

  /** Insurance and retail accept their next milestone and nothing else. */
  lemma InsuranceAccepts(i: Instance, arrivals: seq<Arrival>, e: Event, p: ProgressDefinition)
    requires Fresh(i)
    ensures |INSURANCE_POLICY_V1.coreSequence| > 0
    ensures var j := Run(i, arrivals, INSURANCE_POLICY_V1, p);
            Accepts(j, e, INSURANCE_POLICY_V1) <==> InsuranceTakes(j.status, e)
  {
    InsuranceIsCharted();
    InsuranceIsLinear();
    FreshIsConsistent(i, INSURANCE_POLICY_V1);
    RunKeeps(i, arrivals, INSURANCE_POLICY_V1, p);
    ConsistentInsuranceAccepts(Run(i, arrivals, INSURANCE_POLICY_V1, p), e);
  }

  lemma InsuranceTable(status: Option<Event>, e: Event)
    ensures e in Allowed(INSURANCE_POLICY_V1, status) <==> InsuranceTakes(status, e)
  {
  }

  lemma AcceptedByLinearTable(j: Instance, d: JourneyDefinition, e: Event)
    requires Linear(d) && Charted(d) && Consistent(j, d)
    ensures Accepts(j, e, d) <==> e in Allowed(d, j.status)
  {
    AcceptedByTable(j, d, e);
    if j.status.Some? && e in Allowed(d, j.status) { LinearLeadsToCore(j, d, e); OnlySidesMayRepeat(j, d, e); }
  }

  lemma LinearLeadsToCore(j: Instance, d: JourneyDefinition, e: Event)
    requires Linear(d) && Consistent(j, d) && j.status.Some? && e in Allowed(d, j.status)
    ensures e in d.coreSequence
  {
    var r := CurrentRank(d, j.stamps);
    if r < |d.coreSequence| - 1 { assert Allowed(d, Some(d.coreSequence[r])) == {d.coreSequence[r + 1]}; }
  }

  lemma ConsistentInsuranceAccepts(j: Instance, e: Event)
    requires Consistent(j, INSURANCE_POLICY_V1)
    ensures Accepts(j, e, INSURANCE_POLICY_V1) <==> InsuranceTakes(j.status, e)
  {
    InsuranceIsCharted();
    InsuranceIsLinear();
    AcceptedByLinearTable(j, INSURANCE_POLICY_V1, e);
    InsuranceTable(j.status, e);
  }

  lemma RetailAccepts(i: Instance, arrivals: seq<Arrival>, e: Event, p: ProgressDefinition)
    requires Fresh(i)
    ensures |RETAIL_LOYALTY_V1.coreSequence| > 0
    ensures var j := Run(i, arrivals, RETAIL_LOYALTY_V1, p);
            Accepts(j, e, RETAIL_LOYALTY_V1) <==> RetailTakes(j.status, e)
  {
    RetailIsCharted();
    RetailIsLinear();
    FreshIsConsistent(i, RETAIL_LOYALTY_V1);
    RunKeeps(i, arrivals, RETAIL_LOYALTY_V1, p);
    ConsistentRetailAccepts(Run(i, arrivals, RETAIL_LOYALTY_V1, p), e);
  }

  lemma RetailTable(status: Option<Event>, e: Event)
    ensures e in Allowed(RETAIL_LOYALTY_V1, status) <==> RetailTakes(status, e)
  {
  }

  lemma ConsistentRetailAccepts(j: Instance, e: Event)
    requires Consistent(j, RETAIL_LOYALTY_V1)
    ensures Accepts(j, e, RETAIL_LOYALTY_V1) <==> RetailTakes(j.status, e)
  {
    RetailIsCharted();
    RetailIsLinear();
    AcceptedByLinearTable(j, RETAIL_LOYALTY_V1, e);
    RetailTable(j.status, e);
  }
}
