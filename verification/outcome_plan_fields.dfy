/** What the repair planner offers and the summaries show, told on counts and context. */
module OutcomePlanFields {
  import opened OutcomeRepair

  /** The missing steps, in the order of the money journey. */
  lemma MissingInOrder(o: Outcome)
    ensures Missing(o) == (if o.rewards <= 0 then [RewardRecorded] else [])
                        + (if o.commissions <= 0 then [CommissionCalculated] else [])
                        + (if o.walletMovements <= 0 then [WalletMovement] else [])
                        + (if o.invoices <= 0 then [InvoiceLine] else [])
                        + (if o.settled <= 0 then [SettlementSettled] else [])
  {
    var steps := MONEY_STEPS;
    assert steps[..5] == steps && steps[..5][..4] == steps[..4] && steps[..4][..3] == steps[..3];
    assert steps[..3][..2] == steps[..2] && steps[..2][..1] == steps[..1] && steps[..1][..0] == [];
    assert MissingAmong(o, steps[..1]) == if o.rewards <= 0 then [RewardRecorded] else [];
    assert MissingAmong(o, steps[..2])
        == MissingAmong(o, steps[..1]) + if o.commissions <= 0 then [CommissionCalculated] else [];
    assert MissingAmong(o, steps[..3])
        == MissingAmong(o, steps[..2]) + if o.walletMovements <= 0 then [WalletMovement] else [];
    assert MissingAmong(o, steps[..4]) == MissingAmong(o, steps[..3]) + if o.invoices <= 0 then [InvoiceLine] else [];
  }

  /** When each repair can be carried out. */
  lemma OfferedOnFields(o: Outcome)
    ensures Offered(o, CreateEvidence(RewardRecorded)) <==> o.rewards <= 0 && o.product
    ensures Offered(o, CreateEvidence(CommissionCalculated)) <==>
              o.commissions <= 0 && o.rewards > 0 && o.distributor && o.sponsor
    ensures Offered(o, CreateEvidence(WalletMovement)) <==> o.walletMovements <= 0 && o.commissions > 0
    ensures Offered(o, CreateEvidence(InvoiceLine)) <==> o.invoices <= 0 && o.rewards > 0 && o.sponsor
    ensures Offered(o, CreateEvidence(SettlementSettled)) <==>
              o.settled <= 0 && o.rewards > 0 && o.invoices > 0 && o.exceptions <= 0
    ensures Offered(o, ResolveExceptions) <==> o.exceptions > 0
    ensures !Offered(o, GuidedRepair)
  {
    OfferedMeans(o, CreateEvidence(RewardRecorded));
    OfferedMeans(o, CreateEvidence(CommissionCalculated));
    OfferedMeans(o, CreateEvidence(WalletMovement));
    OfferedMeans(o, CreateEvidence(InvoiceLine));
    OfferedMeans(o, CreateEvidence(SettlementSettled));
    OfferedMeans(o, ResolveExceptions);
    OfferedMeans(o, GuidedRepair);
  }

  /** Whose concern each is: producers supply rewards and invoices, distributors commissions and wallets,
      administrators settlements and exceptions. */
  predicate ConcernOf(c: Concern, owner: Owner) {
    match c
    case OpenException => owner == Admin
    case MissingStep(s) =>
      owner == if s == RewardRecorded || s == InvoiceLine then Producer
               else if s == CommissionCalculated || s == WalletMovement then Distributor
               else Admin
  }

  /** Every action stands for a missing step or the open exceptions, belongs to the owner of that concern, and
      is either the repair of it or guidance that cannot be carried out. */
  lemma ActionsOnFields(o: Outcome, a: Action)
    requires a in Actions(o)
    ensures ConcernOf(a.concern, a.owner)
    ensures a.concern == OpenException ==> o.exceptions > 0 && a.kind == ResolveExceptions && a.available
    ensures a.concern.MissingStep? ==>
              && a.concern.step in Missing(o)
              && (a.available <==> Offered(o, CreateEvidence(a.concern.step)))
              && a.kind == if a.available then CreateEvidence(a.concern.step) else GuidedRepair
  {
    ActionsMean(o, a);
    if a.concern.MissingStep? {
      OfferedMeans(o, CreateEvidence(a.concern.step));
      MissingMeans(o, a.concern.step);
    }
  }

  lemma {:induction false} StepEntriesOnFields(outcomes: seq<Outcome>, steps: seq<Step>)
    ensures forall e | e in StepEntries(outcomes, steps) ::
              && ConcernOf(e.concern, e.owner) && e.concern.MissingStep? && e.concern.step in steps
              && e.count == CountWhere(outcomes, LacksStep(e.concern.step)) > 0
  {
    if steps != [] {
      assert steps == steps[..|steps| - 1] + [steps[|steps| - 1]];
      StepEntriesOnFields(outcomes, steps[..|steps| - 1]);
    }
  }

  /** Every line of the breakdown names its concern's owner and how many outcomes it concerns. */
  lemma BreakdownOnFields(outcomes: seq<Outcome>, e: Entry)
    requires e in Breakdown(outcomes)
    ensures ConcernOf(e.concern, e.owner) && e.count > 0
    ensures e.count == match e.concern
                       case OpenException => CountWhere(outcomes, (o: Outcome) => o.exceptions > 0)
                       case MissingStep(RewardRecorded) => CountWhere(outcomes, (o: Outcome) => o.rewards <= 0)
                       case MissingStep(CommissionCalculated) =>
                         CountWhere(outcomes, (o: Outcome) => o.commissions <= 0)
                       case MissingStep(WalletMovement) => CountWhere(outcomes, (o: Outcome) => o.walletMovements <= 0)
                       case MissingStep(InvoiceLine) => CountWhere(outcomes, (o: Outcome) => o.invoices <= 0)
                       case MissingStep(SettlementSettled) => CountWhere(outcomes, (o: Outcome) => o.settled <= 0)
  {
    StepEntriesOnFields(outcomes, MONEY_STEPS);
    CountsAgree(outcomes, HasException(), (o: Outcome) => o.exceptions > 0);
    CountsAgree(outcomes, LacksStep(RewardRecorded), (o: Outcome) => o.rewards <= 0);
    CountsAgree(outcomes, LacksStep(CommissionCalculated), (o: Outcome) => o.commissions <= 0);
    CountsAgree(outcomes, LacksStep(WalletMovement), (o: Outcome) => o.walletMovements <= 0);
    CountsAgree(outcomes, LacksStep(InvoiceLine), (o: Outcome) => o.invoices <= 0);
    CountsAgree(outcomes, LacksStep(SettlementSettled), (o: Outcome) => o.settled <= 0);
  }

  /** What sends an outcome to which review, for each role. */
  lemma ReviewsOnFields(o: Outcome)
    ensures RoleItemReview(o, ProducerSupply) ==
              if o.rewards <= 0 || o.invoices <= 0 then ReviewAttention
              else if o.exceptions > 0 then AdminReview else ReviewReady
    ensures RoleItemReview(o, DistributorDemand) ==
              if o.commissions <= 0 || o.walletMovements <= 0 then ReviewAttention
              else if o.exceptions > 0 then AdminReview else ReviewReady
  {
    ReviewMeans(o, ProducerSupply);
    ReviewMeans(o, DistributorDemand);
    assert Owns(ProducerSupply)(RewardRecorded) && Owns(ProducerSupply)(InvoiceLine);
    assert Owns(DistributorDemand)(CommissionCalculated) && Owns(DistributorDemand)(WalletMovement);
    assert Evidence(o, RewardRecorded) == o.rewards && Evidence(o, InvoiceLine) == o.invoices;
    assert Evidence(o, CommissionCalculated) == o.commissions && Evidence(o, WalletMovement) == o.walletMovements;
  }

  /** A rate is the nearest number of ten-thousandths, halves to the even one; 0 of nothing. */
  lemma RateIsNearest(numerator: nat, denominator: nat)
    ensures denominator == 0 ==> Rate(numerator, denominator) == 0
    ensures denominator > 0 ==>
              var error := 2 * (Rate(numerator, denominator) * denominator - numerator * 10_000);
              var most: int := denominator;
              && -most <= error <= most
              && (error == most || error == -most ==> Rate(numerator, denominator) % 2 == 0)
  {
    if denominator > 0 {
      var below, rest := numerator * 10_000 / denominator, numerator * 10_000 % denominator;
      assert below * denominator + rest == numerator * 10_000;
      assert (below + 1) * denominator == below * denominator + denominator;
    }
  }

  /** A step's summary counts the outcomes with its evidence, and shows their rate. */
  lemma StepSummaryOnFields(s: Step, outcomes: seq<Outcome>)
    ensures var summary := SummariseStep(s, |outcomes|, outcomes);
            && summary.ready + CountWhere(outcomes, LacksStep(s)) == |outcomes|
            && summary.missing == CountWhere(outcomes, LacksStep(s))
            && summary.rate == Rate(summary.ready, |outcomes|)
  {
    StepSummaryNeverClamps(s, outcomes);
    CountsComplement(outcomes, HasStep(s), LacksStep(s));
  }
}
