/** Journey definitions as data: the banking, insurance and retail journeys, and what makes a
    definition well formed. */
module JourneyDefinitions {
  import opened Prelude

  /** Milestones and event types share one vocabulary. */
  datatype Event =
    | Validated
    | UcnCaptured
    | AccountOpened
    | AccountActivated
    | Funded
    | DebitOrderSwitched
    | SalarySwitched
    | FirstTransactionCompleted
    | QuoteRequested
    | QuoteAccepted
    | PolicyIssued
    | FirstPremiumPaid
    | BasketCreated
    | OrderPlaced
    | FirstPurchaseCompleted
    | Unlisted(id: nat)

  /** Timestamp keys of the instance dictionary. */
  datatype Field =
    | UcnCapturedAt
    | AccountOpenedAt
    | AccountActivatedAt
    | FundedAt
    | DebitOrderSwitchedAt
    | SalarySwitchedAt
    | FirstTransactionCompletedAt
    | BasketCreatedAt
    | OrderPlacedAt
    | FirstPurchaseCompletedAt
    | OtherField(id: nat)

  datatype JourneyDefinition = JourneyDefinition(
    coreSequence: seq<Event>,
    allowedTransitions: map<Option<Event>, set<Event>>,
    timestampField: map<Event, Field>,
    completionEvents: set<Event>,
    completionMinimum: Option<Event>)

  function Allowed(d: JourneyDefinition, status: Option<Event>): set<Event> {
    if status in d.allowedTransitions then d.allowedTransitions[status] else {}
  }

  /** Position of a status in the core sequence; -1 for no status and for unknown ones. */
  function StatusRank(status: Option<Event>, core: seq<Event>): (r: int)
    ensures -1 <= r < |core|
    ensures r == -1 <==> status == None || status.value !in core
    ensures r >= 0 ==> status == Some(core[r])
  {
    match status
    case None => -1
    case Some(s) => IndexOf(core, s)
  }

  /** Completion events that lie outside the core sequence. */
  function SideEvents(d: JourneyDefinition): set<Event> {
    set e | e in d.completionEvents && e !in d.coreSequence
  }

  /** Every timestamp an accepted event of the journey may set. */
  function Fields(d: JourneyDefinition): set<Field> {
    d.timestampField.Values + if Funded in d.timestampField then {AccountActivatedAt} else {}
  }

  /** The core sequence starts at an untimed VALIDATED and every later milestone has a timestamp
      field that no other event shares. */
  ghost predicate TimedCore(d: JourneyDefinition) {
    var core := d.coreSequence;
    && |core| > 0
    && core[0] == Validated
    && NoDuplicates(core)
    && Validated !in d.timestampField
    && (forall i | 0 < i < |core| :: core[i] in d.timestampField)
    && (forall i, e | 0 < i < |core| && e in d.timestampField && e != core[i] ::
          d.timestampField[e] != d.timestampField[core[i]])
  }

  /** Transitions leave core milestones only, lead to timed events, and never go back. */
  ghost predicate ForwardTransitions(d: JourneyDefinition) {
    var core := d.coreSequence;
    && Allowed(d, None) <= {Validated}
    && (forall s | Some(s) in d.allowedTransitions :: s in core)
    && (forall i | 0 <= i < |core| :: Allowed(d, Some(core[i])) <= d.timestampField.Keys)
    && (forall i, j | 0 <= j <= i < |core| :: core[j] !in Allowed(d, Some(core[i])))
  }

  /** Side events are timed and open up at one core milestone. */
  ghost predicate GuardedSideEvents(d: JourneyDefinition) {
    && (forall e | e in SideEvents(d) :: e in d.timestampField)
    && (SideEvents(d) != {} ==> d.completionMinimum.Some?)
  }

  /** The field that FUNDED back-fills belongs to no core milestone above FUNDED. */
  ghost predicate BackfillBelowFunded(d: JourneyDefinition) {
    var core := d.coreSequence;
    Funded in d.timestampField ==>
      forall i | 0 < i < |core| && core[i] in d.timestampField && d.timestampField[core[i]] == AccountActivatedAt ::
        Funded in core[i..]
  }

  /** Declared shape of a journey that the results below rely on. */
  ghost predicate WellFormed(d: JourneyDefinition) {
    TimedCore(d) && ForwardTransitions(d) && GuardedSideEvents(d) && BackfillBelowFunded(d)
  }

  /** A journey that only ever moves one core milestone forward and completes on the last one. */
  ghost predicate SingleFile(d: JourneyDefinition) {
    var core := d.coreSequence;
    && |core| > 1
    && Funded !in d.timestampField
    && Allowed(d, None) == {Validated}
    && (forall i | 0 <= i < |core| - 1 :: Allowed(d, Some(core[i])) == {core[i + 1]})
    && Allowed(d, Some(core[|core| - 1])) == {}
    && d.completionEvents == {core[|core| - 1]}
    && d.completionMinimum == None
  }

  /** Every core milestone may follow the one below it. */
  ghost predicate StepsUp(d: JourneyDefinition) {
    var core := d.coreSequence;
    Validated in Allowed(d, None) && forall k | 0 < k < |core| :: core[k] in Allowed(d, Some(core[k - 1]))
  }

  ghost predicate Linear(d: JourneyDefinition) {
    WellFormed(d) && SingleFile(d)
  }

  const BANKING_TRANSACTIONAL_V1: JourneyDefinition := JourneyDefinition(
    [Validated, UcnCaptured, AccountOpened, AccountActivated, Funded],
    map[
      None := {Validated},
      Some(Validated) := {UcnCaptured},
      Some(UcnCaptured) := {AccountOpened},
      Some(AccountOpened) := {AccountActivated, Funded},
      Some(AccountActivated) := {Funded},
      Some(Funded) := {DebitOrderSwitched, SalarySwitched, FirstTransactionCompleted}
    ],
    map[
      UcnCaptured := UcnCapturedAt,
      AccountOpened := AccountOpenedAt,
      AccountActivated := AccountActivatedAt,
      Funded := FundedAt,
      DebitOrderSwitched := DebitOrderSwitchedAt,
      SalarySwitched := SalarySwitchedAt,
      FirstTransactionCompleted := FirstTransactionCompletedAt
    ],
    {DebitOrderSwitched, SalarySwitched, FirstTransactionCompleted},
    Some(Funded))

  const INSURANCE_POLICY_V1: JourneyDefinition := JourneyDefinition(
    [Validated, QuoteRequested, QuoteAccepted, PolicyIssued, FirstPremiumPaid],
    map[
      None := {Validated},
      Some(Validated) := {QuoteRequested},
      Some(QuoteRequested) := {QuoteAccepted},
      Some(QuoteAccepted) := {PolicyIssued},
      Some(PolicyIssued) := {FirstPremiumPaid}
    ],
    map[
      QuoteRequested := UcnCapturedAt,
      QuoteAccepted := AccountOpenedAt,
      PolicyIssued := AccountActivatedAt,
      FirstPremiumPaid := FundedAt
    ],
    {FirstPremiumPaid},
    None)

  const RETAIL_LOYALTY_V1: JourneyDefinition := JourneyDefinition(
    [Validated, BasketCreated, OrderPlaced, FirstPurchaseCompleted],
    map[
      None := {Validated},
      Some(Validated) := {BasketCreated},
      Some(BasketCreated) := {OrderPlaced},
      Some(OrderPlaced) := {FirstPurchaseCompleted}
    ],
    map[
      BasketCreated := BasketCreatedAt,
      OrderPlaced := OrderPlacedAt,
      FirstPurchaseCompleted := FirstPurchaseCompletedAt
    ],
    {FirstPurchaseCompleted},
    None)

  datatype JourneyCode = BankingTransactional | InsurancePolicy | RetailLoyalty | OtherJourney(id: nat)

  datatype JourneyVersion = V1 | OtherVersion(id: nat)

  const DEFAULT_JOURNEY_CODE: JourneyCode := BankingTransactional

  const DEFAULT_JOURNEY_VERSION: JourneyVersion := V1

  /** The registered definition of a journey; None where the lookup raises. */
  function GetJourneyDefinition(code: JourneyCode, version: JourneyVersion): Option<JourneyDefinition> {
    match (code, version)
    case (BankingTransactional, V1) => Some(BANKING_TRANSACTIONAL_V1)
    case (InsurancePolicy, V1) => Some(INSURANCE_POLICY_V1)
    case (RetailLoyalty, V1) => Some(RETAIL_LOYALTY_V1)
    case _ => None
  }

  lemma BankingFieldsAreOwn(i: nat, e: Event)
    requires var d := BANKING_TRANSACTIONAL_V1;
             0 < i < |d.coreSequence| && e in d.timestampField && e != d.coreSequence[i]
    ensures var d := BANKING_TRANSACTIONAL_V1;
            d.coreSequence[i] in d.timestampField && d.timestampField[e] != d.timestampField[d.coreSequence[i]]
  {
  }

  lemma BankingTimedCore()
    ensures TimedCore(BANKING_TRANSACTIONAL_V1)
  {
    var d, core := BANKING_TRANSACTIONAL_V1, BANKING_TRANSACTIONAL_V1.coreSequence;
    forall i, e | 0 < i < |core| && e in d.timestampField && e != core[i]
      ensures d.timestampField[e] != d.timestampField[core[i]]
    {
      BankingFieldsAreOwn(i, e);
    }
    assert NoDuplicates(core);
  }

  lemma BankingForwardTransitions()
    ensures ForwardTransitions(BANKING_TRANSACTIONAL_V1)
  {
    var d, core := BANKING_TRANSACTIONAL_V1, BANKING_TRANSACTIONAL_V1.coreSequence;
    assert forall i | 0 <= i < |core| :: Allowed(d, Some(core[i])) <= d.timestampField.Keys;
    assert forall i, j | 0 <= j <= i < |core| :: core[j] !in Allowed(d, Some(core[i]));
  }

  lemma BankingIsWellFormed()
    ensures WellFormed(BANKING_TRANSACTIONAL_V1)
  {
    BankingTimedCore();
    BankingForwardTransitions();
  }

  lemma BankingStepsUp()
    ensures StepsUp(BANKING_TRANSACTIONAL_V1)
  {
    var d, core := BANKING_TRANSACTIONAL_V1, BANKING_TRANSACTIONAL_V1.coreSequence;
    assert forall k | 0 < k < |core| :: core[k] in Allowed(d, Some(core[k - 1]));
  }

  lemma LinearStepsUp(d: JourneyDefinition)
    requires Linear(d)
    ensures StepsUp(d)
  {
    var core := d.coreSequence;
    forall k | 0 < k < |core| ensures core[k] in Allowed(d, Some(core[k - 1])) {
      assert Allowed(d, Some(core[k - 1])) == {core[k - 1 + 1]};
    }
  }

  lemma InsuranceTimedCore()
    ensures TimedCore(INSURANCE_POLICY_V1)
  {
    var d, core := INSURANCE_POLICY_V1, INSURANCE_POLICY_V1.coreSequence;
    assert forall i, e | 0 < i < |core| && e in d.timestampField && e != core[i] ::
        d.timestampField[e] != d.timestampField[core[i]];
    assert NoDuplicates(core);
  }

  lemma InsuranceForwardTransitions()
    ensures ForwardTransitions(INSURANCE_POLICY_V1)
  {
    var d, core := INSURANCE_POLICY_V1, INSURANCE_POLICY_V1.coreSequence;
    assert forall i | 0 <= i < |core| :: Allowed(d, Some(core[i])) <= d.timestampField.Keys;
    assert forall i, j | 0 <= j <= i < |core| :: core[j] !in Allowed(d, Some(core[i]));
  }

  lemma InsuranceSingleFile()
    ensures SingleFile(INSURANCE_POLICY_V1)
  {
    var d, core := INSURANCE_POLICY_V1, INSURANCE_POLICY_V1.coreSequence;
    assert forall i | 0 <= i < |core| - 1 :: Allowed(d, Some(core[i])) == {core[i + 1]};
  }

  lemma InsuranceIsLinear()
    ensures Linear(INSURANCE_POLICY_V1)
  {
    InsuranceTimedCore();
    InsuranceForwardTransitions();
    InsuranceSingleFile();
    assert SideEvents(INSURANCE_POLICY_V1) == {};
  }

  lemma RetailTimedCore()
    ensures TimedCore(RETAIL_LOYALTY_V1)
  {
    var d, core := RETAIL_LOYALTY_V1, RETAIL_LOYALTY_V1.coreSequence;
    assert forall i, e | 0 < i < |core| && e in d.timestampField && e != core[i] ::
        d.timestampField[e] != d.timestampField[core[i]];
    assert NoDuplicates(core);
  }

  lemma RetailForwardTransitions()
    ensures ForwardTransitions(RETAIL_LOYALTY_V1)
  {
    var d, core := RETAIL_LOYALTY_V1, RETAIL_LOYALTY_V1.coreSequence;
    assert forall i | 0 <= i < |core| :: Allowed(d, Some(core[i])) <= d.timestampField.Keys;
    assert forall i, j | 0 <= j <= i < |core| :: core[j] !in Allowed(d, Some(core[i]));
  }

  lemma RetailSingleFile()
    ensures SingleFile(RETAIL_LOYALTY_V1)
  {
    var d, core := RETAIL_LOYALTY_V1, RETAIL_LOYALTY_V1.coreSequence;
    assert forall i | 0 <= i < |core| - 1 :: Allowed(d, Some(core[i])) == {core[i + 1]};
  }

  lemma RetailIsLinear()
    ensures Linear(RETAIL_LOYALTY_V1)
  {
    RetailTimedCore();
    RetailForwardTransitions();
    RetailSingleFile();
    assert SideEvents(RETAIL_LOYALTY_V1) == {};
  }

  lemma BankingFields()
    ensures Fields(BANKING_TRANSACTIONAL_V1) ==
            {UcnCapturedAt, AccountOpenedAt, AccountActivatedAt, FundedAt, DebitOrderSwitchedAt,
             SalarySwitchedAt, FirstTransactionCompletedAt}
  {
    var m := BANKING_TRANSACTIONAL_V1.timestampField;
    assert UcnCaptured in m && AccountOpened in m && AccountActivated in m && Funded in m;
    assert DebitOrderSwitched in m && SalarySwitched in m && FirstTransactionCompleted in m;
  }

  lemma InsuranceFields()
    ensures Fields(INSURANCE_POLICY_V1) == {UcnCapturedAt, AccountOpenedAt, AccountActivatedAt, FundedAt}
  {
    var m := INSURANCE_POLICY_V1.timestampField;
    assert QuoteRequested in m && QuoteAccepted in m && PolicyIssued in m && FirstPremiumPaid in m;
  }

  lemma BankingTimedEventCount()
    ensures |BANKING_TRANSACTIONAL_V1.timestampField| == 7
  {
  }

  lemma InsuranceTimedEventCount()
    ensures |INSURANCE_POLICY_V1.timestampField| == 4
  {
  }

  lemma RetailTimedEventCount()
    ensures |RETAIL_LOYALTY_V1.timestampField| == 3
  {
  }

  lemma RanksOfDistinct(core: seq<Event>)
    requires NoDuplicates(core)
    ensures forall i | 0 <= i < |core| :: IndexOf(core, core[i]) == i
  {
    forall i | 0 <= i < |core| ensures IndexOf(core, core[i]) == i {
      var k := IndexOf(core, core[i]);
      assert core[i] in core;
      assert forall j | 0 <= j < k :: core[..k][j] == core[j];
    }
  }
}
