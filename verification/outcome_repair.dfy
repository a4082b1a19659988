/** Reconciling completed outcomes with their money: which steps are missing, which repairs are
    offered for them, how repairs lead to READY, and the summaries over many outcomes. */
module OutcomeRepair {
  import opened Prelude

  datatype Step = RewardRecorded | CommissionCalculated | WalletMovement | InvoiceLine | SettlementSettled

  /** One completed outcome: how much evidence of each kind exists, and the context repairs need. */
  datatype Outcome = Outcome(
    rewards: int, commissions: int, walletMovements: int, invoices: int, settled: int, exceptions: int,
    product: bool, sponsor: bool, distributor: bool)

  datatype Owner = Producer | Distributor | Admin

  /** What an action or a breakdown entry is about. */
  datatype Concern = MissingStep(step: Step) | OpenException

  datatype Kind = CreateEvidence(step: Step) | GuidedRepair | ResolveExceptions

  datatype Action = Action(kind: Kind, concern: Concern, owner: Owner, available: bool)

  const MONEY_STEPS: seq<Step> := [RewardRecorded, CommissionCalculated, WalletMovement, InvoiceLine, SettlementSettled]

  function Evidence(o: Outcome, s: Step): int {
    match s
    case RewardRecorded => o.rewards
    case CommissionCalculated => o.commissions
    case WalletMovement => o.walletMovements
    case InvoiceLine => o.invoices
    case SettlementSettled => o.settled
  }

  function OwnerOf(c: Concern): Owner {
    match c
    case MissingStep(RewardRecorded) | MissingStep(InvoiceLine) => Producer
    case MissingStep(CommissionCalculated) | MissingStep(WalletMovement) => Distributor
    case MissingStep(SettlementSettled) | OpenException => Admin
  }

  function MissingAmong(o: Outcome, steps: seq<Step>): seq<Step> {
    if steps == [] then []
    else
      var rest, last := MissingAmong(o, steps[..|steps| - 1]), steps[|steps| - 1];
      if Evidence(o, last) <= 0 then rest + [last] else rest
  }

  function Missing(o: Outcome): seq<Step> { MissingAmong(o, MONEY_STEPS) }

  predicate Ready(o: Outcome) { o.exceptions <= 0 && Missing(o) == [] }

  // ----- repair actions -----

  /** What must exist before evidence of a step can be created. */
  predicate Prerequisites(o: Outcome, s: Step) {
    match s
    case RewardRecorded => o.product
    case CommissionCalculated => o.rewards > 0 && o.distributor && o.sponsor
    case WalletMovement => o.commissions > 0
    case InvoiceLine => o.rewards > 0 && o.sponsor
    case SettlementSettled => o.rewards > 0 && o.invoices > 0 && o.exceptions <= 0
  }

  function StepAction(o: Outcome, s: Step): Action {
    var c := MissingStep(s);
    if Prerequisites(o, s) then Action(CreateEvidence(s), c, OwnerOf(c), true)
      else Action(GuidedRepair, c, OwnerOf(c), false)
  }

  function StepActions(o: Outcome, missing: seq<Step>): seq<Action> {
    if missing == [] then []
    else StepActions(o, missing[..|missing| - 1]) + [StepAction(o, missing[|missing| - 1])]
  }

  function ExceptionActions(o: Outcome): seq<Action> {
    if o.exceptions > 0 then [Action(ResolveExceptions, OpenException, Admin, true)] else []
  }

  function Actions(o: Outcome): seq<Action> { StepActions(o, Missing(o)) + ExceptionActions(o) }

  method RepairActions(o: Outcome, missing: seq<Step>) returns (actions: seq<Action>)
    ensures actions == StepActions(o, missing) + ExceptionActions(o)
  {
    actions := [];
    for k := 0 to |missing|
      invariant actions == StepActions(o, missing[..k])
    {
      assert missing[..k + 1][..k] == missing[..k];
      var step := missing[k];
      var concern := MissingStep(step);
      var owner := OwnerOf(concern);
      if step == RewardRecorded && o.product {
        actions := actions + [Action(CreateEvidence(RewardRecorded), concern, owner, true)];
        continue;
      }
      if step == CommissionCalculated && o.rewards > 0 && o.distributor && o.sponsor {
        actions := actions + [Action(CreateEvidence(CommissionCalculated), concern, owner, true)];
        continue;
      }
      if step == WalletMovement && o.commissions > 0 {
        actions := actions + [Action(CreateEvidence(WalletMovement), concern, owner, true)];
        continue;
      }
      if step == InvoiceLine && o.rewards > 0 && o.sponsor {
        actions := actions + [Action(CreateEvidence(InvoiceLine), concern, owner, true)];
        continue;
      }
      if step == SettlementSettled && o.rewards > 0 && o.invoices > 0 && o.exceptions <= 0 {
        actions := actions + [Action(CreateEvidence(SettlementSettled), concern, owner, true)];
        continue;
      }
      actions := actions + [Action(GuidedRepair, concern, owner, false)];
    }
    assert missing[..|missing|] == missing;
    if o.exceptions > 0 {
      actions := actions + [Action(ResolveExceptions, OpenException, Admin, true)];
    }
  }

  // ----- what the lists hold -----

  lemma {:induction false} MissingAmongMeans(o: Outcome, steps: seq<Step>, s: Step)
    ensures s in MissingAmong(o, steps) <==> s in steps && Evidence(o, s) <= 0
  {
    if steps != [] {
      var init := steps[..|steps| - 1];
      assert steps == init + [steps[|steps| - 1]];
      MissingAmongMeans(o, init, s);
    }
  }

  lemma EveryStepIsListed(s: Step)
    ensures s in MONEY_STEPS
  {
    var k: nat := match s case RewardRecorded => 0 case CommissionCalculated => 1 case WalletMovement => 2
                  case InvoiceLine => 3 case SettlementSettled => 4;
    assert MONEY_STEPS[k] == s;
  }

  lemma MissingMeans(o: Outcome, s: Step)
    ensures s in Missing(o) <==> Evidence(o, s) <= 0
  {
    MissingAmongMeans(o, MONEY_STEPS, s);
    EveryStepIsListed(s);
  }

  predicate HasAllEvidence(o: Outcome) {
    o.rewards > 0 && o.commissions > 0 && o.walletMovements > 0 && o.invoices > 0 && o.settled > 0
  }

  lemma ReadyMeans(o: Outcome)
    ensures Ready(o) <==> o.exceptions <= 0 && HasAllEvidence(o)
  {
    MissingMeans(o, RewardRecorded);
    MissingMeans(o, CommissionCalculated);
    MissingMeans(o, WalletMovement);
    MissingMeans(o, InvoiceLine);
    MissingMeans(o, SettlementSettled);
    if Missing(o) != [] { MissingMeans(o, Missing(o)[0]); }
  }

  lemma {:induction false} StepActionsMean(o: Outcome, missing: seq<Step>, a: Action)
    ensures a in StepActions(o, missing) <==>
              a.concern.MissingStep? && a.concern.step in missing && a == StepAction(o, a.concern.step)
  {
    if missing != [] {
      var init := missing[..|missing| - 1];
      assert missing == init + [missing[|missing| - 1]];
      StepActionsMean(o, init, a);
    }
  }

  /** An action is offered exactly when it is the one for a missing step, or resolves open exceptions. */
  lemma ActionsMean(o: Outcome, a: Action)
    ensures a in Actions(o) <==>
              || (a.concern.MissingStep? && Evidence(o, a.concern.step) <= 0 && a == StepAction(o, a.concern.step))
              || (o.exceptions > 0 && a == Action(ResolveExceptions, OpenException, Admin, true))
  {
    StepActionsMean(o, Missing(o), a);
    if a.concern.MissingStep? { MissingMeans(o, a.concern.step); }
  }

  // ----- repairing -----

  predicate Offered(o: Outcome, kind: Kind) {
    exists a | a in Actions(o) :: a.kind == kind && a.available
  }

  lemma OfferedMeans(o: Outcome, kind: Kind)
    ensures Offered(o, kind) <==>
              match kind
              case CreateEvidence(s) => Evidence(o, s) <= 0 && Prerequisites(o, s)
              case GuidedRepair => false
              case ResolveExceptions => o.exceptions > 0
  {
    var resolve := Action(ResolveExceptions, OpenException, Admin, true);
    ActionsMean(o, resolve);
    forall a | a in Actions(o) ensures a == resolve
      || (a.concern.MissingStep? && Evidence(o, a.concern.step) <= 0 && a == StepAction(o, a.concern.step))
    {
      ActionsMean(o, a);
    }
    if kind.CreateEvidence? { ActionsMean(o, StepAction(o, kind.step)); }
  }

  /** A repair that succeeded leaves `count` pieces of evidence, or no open exception. */
  datatype Repair = Repair(kind: Kind, count: int)

  function Repaired(o: Outcome, r: Repair): Outcome {
    match r.kind
    case CreateEvidence(RewardRecorded) => o.(rewards := r.count)
    case CreateEvidence(CommissionCalculated) => o.(commissions := r.count)
    case CreateEvidence(WalletMovement) => o.(walletMovements := r.count)
    case CreateEvidence(InvoiceLine) => o.(invoices := r.count)
    case CreateEvidence(SettlementSettled) => o.(settled := r.count)
    case GuidedRepair => o
    case ResolveExceptions => o.(exceptions := 0)
  }

  /** A run performs offered repairs only, in any order, and each succeeds. */
  ghost predicate Follows(o: Outcome, run: seq<Repair>)
    decreases |run|
  {
    run == [] || (Offered(o, run[0].kind) && run[0].count > 0 && Follows(Repaired(o, run[0]), run[1..]))
  }

  ghost function After(o: Outcome, run: seq<Repair>): Outcome
    decreases |run|
  {
    if run == [] then o else After(Repaired(o, run[0]), run[1..])
  }

  function Gap(count: int): nat { if count <= 0 then 1 else 0 }

  /** How many repairs an outcome is away from READY. */
  function Work(o: Outcome): (w: nat)
    ensures w <= 6
  {
    Gap(o.rewards) + Gap(o.commissions) + Gap(o.walletMovements) + Gap(o.invoices) + Gap(o.settled)
    + if o.exceptions > 0 then 1 else 0
  }

  lemma WorkDoneMeansReady(o: Outcome)
    ensures Work(o) == 0 <==> Ready(o)
  {
    ReadyMeans(o);
  }

  /** Whether the context has what every missing piece of evidence will need. */
  predicate Repairable(o: Outcome) {
    && (o.rewards > 0 || o.product)
    && (o.commissions > 0 || (o.distributor && o.sponsor))
    && (o.invoices > 0 || o.sponsor)
  }

  lemma RepairMakesProgress(o: Outcome, r: Repair)
    requires Offered(o, r.kind) && r.count > 0
    ensures Work(Repaired(o, r)) == Work(o) - 1
    ensures Repairable(Repaired(o, r)) <==> Repairable(o)
  {
    OfferedMeans(o, r.kind);
  }

  /** The first repair worth doing. */
  function NextRepair(o: Outcome): Kind {
    if o.rewards <= 0 then CreateEvidence(RewardRecorded)
    else if o.commissions <= 0 then CreateEvidence(CommissionCalculated)
    else if o.walletMovements <= 0 then CreateEvidence(WalletMovement)
    else if o.invoices <= 0 then CreateEvidence(InvoiceLine)
    else if o.exceptions > 0 then ResolveExceptions
    else CreateEvidence(SettlementSettled)
  }

  /** There is no deadlock: a repairable outcome that is not READY always has a repair to offer. */
  lemma AlwaysSomethingToRepair(o: Outcome)
    requires Repairable(o) && !Ready(o)
    ensures Offered(o, NextRepair(o))
  {
    ReadyMeans(o);
    OfferedMeans(o, NextRepair(o));
  }

  /** With product, sponsor and distributor known, an outcome that is not READY has a repair to offer. */
  lemma KnownContextIsRepairable(o: Outcome)
    requires o.product && o.sponsor && o.distributor
    ensures !Ready(o) ==> exists a | a in Actions(o) :: a.available
  {
    if !Ready(o) { AlwaysSomethingToRepair(o); }
  }

  lemma {:induction false} RunMakesProgress(o: Outcome, run: seq<Repair>)
    requires Follows(o, run)
    ensures |run| == Work(o) - Work(After(o, run))
    ensures Repairable(After(o, run)) <==> Repairable(o)
    decreases |run|
  {
    if run != [] {
      RepairMakesProgress(o, run[0]);
      RunMakesProgress(Repaired(o, run[0]), run[1..]);
    }
  }

  /** Any order of offered repairs ends within six steps; a run that cannot go on has reached READY
      exactly if the outcome was repairable at the start. */
  lemma {:induction false} EveryRunEnds(o: Outcome, run: seq<Repair>)
    requires Follows(o, run)
    ensures |run| <= Work(o) <= 6
    ensures Ready(After(o, run)) <==> |run| == Work(o)
    ensures (forall kind :: !Offered(After(o, run), kind)) ==> (Ready(After(o, run)) <==> Repairable(o))
  {
    RunMakesProgress(o, run);
    var end := After(o, run);
    WorkDoneMeansReady(end);
    ReadyMeans(end);
    if Repairable(end) && !Ready(end) { AlwaysSomethingToRepair(end); }
  }

  ghost function Plan(o: Outcome): seq<Repair>
    requires Repairable(o)
    decreases Work(o)
  {
    if Ready(o) then []
    else
      AlwaysSomethingToRepair(o);
      RepairMakesProgress(o, Repair(NextRepair(o), 1));
      [Repair(NextRepair(o), 1)] + Plan(Repaired(o, Repair(NextRepair(o), 1)))
  }

  lemma {:induction false} PlanReachesReady(o: Outcome)
    requires Repairable(o)
    ensures Follows(o, Plan(o)) && Ready(After(o, Plan(o)))
    decreases Work(o)
  {
    if !Ready(o) {
      var first := Repair(NextRepair(o), 1);
      AlwaysSomethingToRepair(o);
      RepairMakesProgress(o, first);
      PlanReachesReady(Repaired(o, first));
      assert Plan(o)[1..] == Plan(Repaired(o, first));
    }
  }

  ghost predicate LeadsToReady(o: Outcome, run: seq<Repair>) { Follows(o, run) && Ready(After(o, run)) }

  /** Offered repairs can bring an outcome to READY exactly if it is repairable. */
  lemma ReadyIsReachable(o: Outcome)
    ensures (exists run :: LeadsToReady(o, run)) <==> Repairable(o)
  {
    if Repairable(o) {
      PlanReachesReady(o);
      assert LeadsToReady(o, Plan(o));
    }
    forall run | LeadsToReady(o, run) ensures Repairable(o) {
      RunMakesProgress(o, run);
      ReadyMeans(After(o, run));
    }
  }

  // ----- summaries -----

  /** How many outcomes meet a condition. */
  function CountWhere(outcomes: seq<Outcome>, p: Outcome -> bool): (n: nat)
    ensures n <= |outcomes|
  {
    if outcomes == [] then 0
    else CountWhere(outcomes[..|outcomes| - 1], p) + if p(outcomes[|outcomes| - 1]) then 1 else 0
  }

  function HasStep(s: Step): Outcome -> bool { (o: Outcome) => Evidence(o, s) > 0 }
  function LacksStep(s: Step): Outcome -> bool { (o: Outcome) => Evidence(o, s) <= 0 }
  function HasException(): Outcome -> bool { (o: Outcome) => o.exceptions > 0 }

  /** Divides, rounding to four places with ties to even; nothing out of nothing is zero. */
  function Rate(numerator: nat, denominator: nat): nat {
    if denominator == 0 then 0
    else
      var below, rest := numerator * 10_000 / denominator, numerator * 10_000 % denominator;
      if 2 * rest < denominator || (2 * rest == denominator && below % 2 == 0) then below else below + 1
  }

  datatype StepSummary = StepSummary(ready: nat, missing: nat, rate: nat)

  function SummariseStep(s: Step, total: nat, outcomes: seq<Outcome>): StepSummary {
    var ready := CountWhere(outcomes, HasStep(s));
    StepSummary(ready, Max(total - ready, 0), Rate(ready, total))
  }

  lemma {:induction false} CountsComplement(outcomes: seq<Outcome>, p: Outcome -> bool, q: Outcome -> bool)
    requires forall o | o in outcomes :: p(o) <==> !q(o)
    ensures CountWhere(outcomes, p) + CountWhere(outcomes, q) == |outcomes|
  {
    if outcomes != [] {
      assert outcomes[|outcomes| - 1] in outcomes;
      CountsComplement(outcomes[..|outcomes| - 1], p, q);
    }
  }

  lemma {:induction false} CountsAgree(outcomes: seq<Outcome>, p: Outcome -> bool, q: Outcome -> bool)
    requires forall o | o in outcomes :: p(o) <==> q(o)
    ensures CountWhere(outcomes, p) == CountWhere(outcomes, q)
  {
    if outcomes != [] {
      assert outcomes[|outcomes| - 1] in outcomes;
      CountsAgree(outcomes[..|outcomes| - 1], p, q);
    }
  }

  /** The clamp in a step summary never acts: its missing count is the number of outcomes lacking the step. */
  lemma {:induction false} StepSummaryNeverClamps(s: Step, outcomes: seq<Outcome>)
    ensures SummariseStep(s, |outcomes|, outcomes).missing == CountWhere(outcomes, LacksStep(s))
    ensures SummariseStep(s, |outcomes|, outcomes).ready + SummariseStep(s, |outcomes|, outcomes).missing == |outcomes|
  {
    CountsComplement(outcomes, HasStep(s), LacksStep(s));
  }

  /** The last step of the journey summary counts the outcomes with open exceptions as its ready ones. */
  function SummariseExceptions(exceptions: nat, total: nat): StepSummary {
    StepSummary(exceptions, Max(total - exceptions, 0), Rate(exceptions, total))
  }

  function LacksException(): Outcome -> bool { (o: Outcome) => o.exceptions <= 0 }

  /** Nor does the clamp of that step: its missing count is the number of outcomes without exceptions. */
  lemma ExceptionSummaryNeverClamps(outcomes: seq<Outcome>)
    ensures var step := SummariseExceptions(CountWhere(outcomes, HasException()), |outcomes|);
            step.missing == CountWhere(outcomes, LacksException()) && step.ready + step.missing == |outcomes|
  {
    CountsComplement(outcomes, HasException(), LacksException());
  }

  /** The largest page of outcomes. */
  const PAGE_LIMIT: nat := 250

  /** On a page, a rate shows as 1 only if nothing is left to do, and as 0 only if nothing is done. */
  lemma RateIsOneOnlyWhenComplete(n: nat, total: nat)
    requires n <= total && 0 < total <= PAGE_LIMIT
    ensures Rate(n, total) == 10_000 <==> n == total
    ensures Rate(n, total) == 0 <==> n == 0
  {
    if n == 0 {
      RateOf(0, 0, total);
    } else if n == total {
      RateOf(n, 10_000, total);
    } else {
      RateIsInside(n, total);
    }
  }

  lemma RateOf(n: nat, rate: nat, total: nat)
    requires total > 0 && n * 10_000 == rate * total
    ensures Rate(n, total) == rate
  {
    var below, rest := n * 10_000 / total, n * 10_000 % total;
    assert n * 10_000 == below * total + rest;
    if below < rate { BelowProduct(below + 1, rate, total); }
    if below > rate { BelowProduct(rate + 1, below, total); }
  }

  lemma RateIsInside(n: nat, total: nat)
    requires 0 < n < total <= PAGE_LIMIT
    ensures 0 < Rate(n, total) < 10_000
  {
    var below, rest := n * 10_000 / total, n * 10_000 % total;
    assert n * 10_000 == below * total + rest;
    if below < 1 { BelowProduct(below, 1, total); }
    if below > 9_998 { BelowProduct(9_999, below, total); }
  }

  lemma BelowProduct(a: nat, b: nat, total: nat)
    requires a <= b
    ensures a * total <= b * total
  {
  }

  // ----- attention breakdown -----

  datatype Entry = Entry(concern: Concern, count: nat, owner: Owner)

  function StepEntries(outcomes: seq<Outcome>, steps: seq<Step>): seq<Entry> {
    if steps == [] then []
    else
      var rest, last := StepEntries(outcomes, steps[..|steps| - 1]), steps[|steps| - 1];
      var count := CountWhere(outcomes, LacksStep(last));
      if count == 0 then rest else rest + [Entry(MissingStep(last), count, OwnerOf(MissingStep(last)))]
  }

  function ExceptionEntries(outcomes: seq<Outcome>): seq<Entry> {
    var count := CountWhere(outcomes, HasException());
    if count > 0 then [Entry(OpenException, count, Admin)] else []
  }

  function Breakdown(outcomes: seq<Outcome>): seq<Entry> {
    StepEntries(outcomes, MONEY_STEPS) + ExceptionEntries(outcomes)
  }

  method AttentionBreakdown(outcomes: seq<Outcome>) returns (breakdown: seq<Entry>)
    ensures breakdown == Breakdown(outcomes)
  {
    breakdown := [];
    var steps := MONEY_STEPS;
    for k := 0 to |steps|
      invariant breakdown == StepEntries(outcomes, steps[..k])
    {
      assert steps[..k + 1][..k] == steps[..k];
      var count := CountWhere(outcomes, LacksStep(steps[k]));
      if count <= 0 { continue; }
      breakdown := breakdown + [Entry(MissingStep(steps[k]), count, OwnerOf(MissingStep(steps[k])))];
    }
    assert steps[..|steps|] == steps;
    var exceptions := CountWhere(outcomes, HasException());
    if exceptions > 0 { breakdown := breakdown + [Entry(OpenException, exceptions, Admin)]; }
  }

  /** The counts of the entries about certain concerns. */
  function EntryTotal(entries: seq<Entry>, p: Concern -> bool): nat {
    if entries == [] then 0
    else
      EntryTotal(entries[..|entries| - 1], p)
      + if p(entries[|entries| - 1].concern) then entries[|entries| - 1].count else 0
  }

  function ActionCount(actions: seq<Action>, p: Concern -> bool): nat {
    if actions == [] then 0
    else ActionCount(actions[..|actions| - 1], p) + if p(actions[|actions| - 1].concern) then 1 else 0
  }

  /** The actions about certain concerns, over all outcomes. */
  function ActionTotal(outcomes: seq<Outcome>, p: Concern -> bool): nat {
    if outcomes == [] then 0
    else ActionTotal(outcomes[..|outcomes| - 1], p) + ActionCount(Actions(outcomes[|outcomes| - 1]), p)
  }

  lemma ActionCountSnoc(actions: seq<Action>, a: Action, p: Concern -> bool)
    ensures ActionCount(actions + [a], p) == ActionCount(actions, p) + if p(a.concern) then 1 else 0
  {
    assert (actions + [a])[..|actions|] == actions;
  }

  lemma EntryTotalSnoc(entries: seq<Entry>, e: Entry, p: Concern -> bool)
    ensures EntryTotal(entries + [e], p) == EntryTotal(entries, p) + if p(e.concern) then e.count else 0
  {
    assert (entries + [e])[..|entries|] == entries;
  }

  /** One outcome more adds one entry unit for each action it has. */
  lemma {:induction false} OutcomeAddsItsStepActions(outcomes: seq<Outcome>, o: Outcome, steps: seq<Step>,
                                                     p: Concern -> bool)
    ensures EntryTotal(StepEntries(outcomes + [o], steps), p)
         == EntryTotal(StepEntries(outcomes, steps), p) + ActionCount(StepActions(o, MissingAmong(o, steps)), p)
  {
    if steps != [] {
      var init, last := steps[..|steps| - 1], steps[|steps| - 1];
      OutcomeAddsItsStepActions(outcomes, o, init, p);
      StepEntriesTotal(outcomes, steps, p);
      StepEntriesTotal(outcomes + [o], steps, p);
      CountSnoc(outcomes, o, LacksStep(last));
      StepActionsCount(o, steps, p);
    }
  }

  lemma CountSnoc(outcomes: seq<Outcome>, o: Outcome, p: Outcome -> bool)
    ensures CountWhere(outcomes + [o], p) == CountWhere(outcomes, p) + if p(o) then 1 else 0
  {
    assert (outcomes + [o])[..|outcomes|] == outcomes;
  }

  lemma StepEntriesTotal(outcomes: seq<Outcome>, steps: seq<Step>, p: Concern -> bool)
    requires steps != []
    ensures EntryTotal(StepEntries(outcomes, steps), p)
         == EntryTotal(StepEntries(outcomes, steps[..|steps| - 1]), p)
            + if p(MissingStep(steps[|steps| - 1])) then CountWhere(outcomes, LacksStep(steps[|steps| - 1])) else 0
  {
    var init, last := steps[..|steps| - 1], steps[|steps| - 1];
    EntryTotalSnoc(StepEntries(outcomes, init),
                   Entry(MissingStep(last), CountWhere(outcomes, LacksStep(last)), OwnerOf(MissingStep(last))), p);
  }

  lemma StepActionsCount(o: Outcome, steps: seq<Step>, p: Concern -> bool)
    requires steps != []
    ensures ActionCount(StepActions(o, MissingAmong(o, steps)), p)
         == ActionCount(StepActions(o, MissingAmong(o, steps[..|steps| - 1])), p)
            + if p(MissingStep(steps[|steps| - 1])) && Evidence(o, steps[|steps| - 1]) <= 0 then 1 else 0
  {
    var init, last := steps[..|steps| - 1], steps[|steps| - 1];
    var rest := MissingAmong(o, init);
    assert (rest + [last])[..|rest|] == rest;
    ActionCountSnoc(StepActions(o, rest), StepAction(o, last), p);
  }

  lemma OutcomeAddsItsActions(outcomes: seq<Outcome>, o: Outcome, p: Concern -> bool)
    ensures EntryTotal(Breakdown(outcomes + [o]), p) == EntryTotal(Breakdown(outcomes), p) + ActionCount(Actions(o), p)
  {
    OutcomeAddsItsStepActions(outcomes, o, MONEY_STEPS, p);
    BreakdownTotal(outcomes, p);
    BreakdownTotal(outcomes + [o], p);
    CountSnoc(outcomes, o, HasException());
    ActionsTotal(o, p);
  }

  lemma BreakdownTotal(outcomes: seq<Outcome>, p: Concern -> bool)
    ensures EntryTotal(Breakdown(outcomes), p)
         == EntryTotal(StepEntries(outcomes, MONEY_STEPS), p) + if p(OpenException)
           then CountWhere(outcomes, HasException()) else 0
  {
    var entries := StepEntries(outcomes, MONEY_STEPS);
    EntryTotalSnoc(entries, Entry(OpenException, CountWhere(outcomes, HasException()), Admin), p);
    assert entries + [] == entries;
  }

  lemma ActionsTotal(o: Outcome, p: Concern -> bool)
    ensures ActionCount(Actions(o), p)
         == ActionCount(StepActions(o, Missing(o)), p) + if p(OpenException) && o.exceptions > 0 then 1 else 0
  {
    var actions := StepActions(o, Missing(o));
    ActionCountSnoc(actions, Action(ResolveExceptions, OpenException, Admin, true), p);
    assert actions + [] == actions;
  }

  lemma {:induction false} NoOutcomesNoEntries(steps: seq<Step>)
    ensures StepEntries([], steps) == []
  {
    if steps != [] { NoOutcomesNoEntries(steps[..|steps| - 1]); }
  }

  /** Counting by concern and counting by outcome agree: whatever concerns one looks at, the breakdown
      counts add up to the repair actions of all outcomes. */
  lemma {:induction false} BreakdownCountsActions(outcomes: seq<Outcome>, p: Concern -> bool)
    ensures EntryTotal(Breakdown(outcomes), p) == ActionTotal(outcomes, p)
  {
    if outcomes == [] {
      NoOutcomesNoEntries(MONEY_STEPS);
    } else {
      var init, last := outcomes[..|outcomes| - 1], outcomes[|outcomes| - 1];
      BreakdownCountsActions(init, p);
      assert outcomes == init + [last];
      OutcomeAddsItsActions(init, last, p);
    }
  }

  lemma {:induction false} AllActionsCounted(actions: seq<Action>)
    ensures ActionCount(actions, (_: Concern) => true) == |actions|
  {
    if actions != [] { AllActionsCounted(actions[..|actions| - 1]); }
  }

  lemma {:induction false} WorkIsNumberOfActions(o: Outcome)
    ensures |Actions(o)| == Work(o)
  {
    StepActionsLength(o, Missing(o));
    MissingLength(o);
  }

  lemma {:induction false} StepActionsLength(o: Outcome, missing: seq<Step>)
    ensures |StepActions(o, missing)| == |missing|
  {
    if missing != [] { StepActionsLength(o, missing[..|missing| - 1]); }
  }

  lemma MissingLength(o: Outcome)
    ensures |Missing(o)| == Gap(o.rewards) + Gap(o.commissions) + Gap(o.walletMovements) + Gap(o.invoices)
            + Gap(o.settled)
  {
    var steps := MONEY_STEPS;
    assert steps[..5] == steps;
    assert steps[..5][..4] == steps[..4];
    assert steps[..4][..3] == steps[..3];
    assert steps[..3][..2] == steps[..2];
    assert steps[..2][..1] == steps[..1];
    assert steps[..1][..0] == [];
    assert |MissingAmong(o, steps[..1])| == Gap(o.rewards);
    assert |MissingAmong(o, steps[..2])| == Gap(o.rewards) + Gap(o.commissions);
    assert |MissingAmong(o, steps[..3])| == Gap(o.rewards) + Gap(o.commissions) + Gap(o.walletMovements);
    assert |MissingAmong(o, steps[..4])| == Gap(o.rewards) + Gap(o.commissions) + Gap(o.walletMovements)
      + Gap(o.invoices);
  }

  // ----- role reviews -----

  datatype Role = ProducerSupply | DistributorDemand

  datatype Review = ReviewReady | ReviewAttention | AdminReview

  function Owns(role: Role): Step -> bool {
    (s: Step) => match role
                 case ProducerSupply => s == RewardRecorded || s == InvoiceLine
                 case DistributorDemand => s == CommissionCalculated || s == WalletMovement
  }

  function OwnedAmong(steps: seq<Step>, owned: Step -> bool): seq<Step> {
    if steps == [] then []
    else
      var rest, last := OwnedAmong(steps[..|steps| - 1], owned), steps[|steps| - 1];
      if owned(last) then rest + [last] else rest
  }

  function RoleItemReview(o: Outcome, role: Role): Review {
    var missing := OwnedAmong(Missing(o), Owns(role));
    if o.exceptions > 0 && missing == [] then AdminReview
    else if missing != [] then ReviewAttention
    else ReviewReady
  }

  lemma {:induction false} OwnedAmongMeans(steps: seq<Step>, owned: Step -> bool, s: Step)
    ensures s in OwnedAmong(steps, owned) <==> s in steps && owned(s)
  {
    if steps != [] {
      var init := steps[..|steps| - 1];
      assert steps == init + [steps[|steps| - 1]];
      OwnedAmongMeans(init, owned, s);
    }
  }

  /** A role's steps are in order exactly when none of them lacks evidence. */
  lemma OwnedMissingMeans(o: Outcome, role: Role)
    ensures OwnedAmong(Missing(o), Owns(role)) == [] <==> forall s: Step | Owns(role)(s) :: Evidence(o, s) > 0
  {
    var missing := OwnedAmong(Missing(o), Owns(role));
    if missing != [] {
      OwnedAmongMeans(Missing(o), Owns(role), missing[0]);
      MissingMeans(o, missing[0]);
    } else {
      forall s: Step | Owns(role)(s) ensures Evidence(o, s) > 0 {
        OwnedAmongMeans(Missing(o), Owns(role), s);
        MissingMeans(o, s);
      }
    }
  }

  /** An outcome is READY exactly when both roles see it as ready and it is settled. */
  lemma ReadyIsBothReviewsAndSettled(o: Outcome)
    ensures Ready(o) <==>
              RoleItemReview(o, ProducerSupply) == ReviewReady && RoleItemReview(o, DistributorDemand) == ReviewReady
                && o.settled > 0
  {
    ReadyMeans(o);
    OwnedMissingMeans(o, ProducerSupply);
    OwnedMissingMeans(o, DistributorDemand);
    assert Evidence(o, RewardRecorded) == o.rewards && Evidence(o, InvoiceLine) == o.invoices;
    assert Evidence(o, CommissionCalculated) == o.commissions && Evidence(o, WalletMovement) == o.walletMovements;
    assert Owns(ProducerSupply)(RewardRecorded) && Owns(ProducerSupply)(InvoiceLine);
    assert Owns(DistributorDemand)(CommissionCalculated) && Owns(DistributorDemand)(WalletMovement);
  }

  /** All of a role's steps have evidence. */
  predicate HasOwned(o: Outcome, role: Role) { forall s: Step | Owns(role)(s) :: Evidence(o, s) > 0 }

  function LacksOwned(role: Role): Outcome -> bool { (o: Outcome) => !HasOwned(o, role) }

  function HasOwnedWithException(role: Role): Outcome -> bool { (o: Outcome) => HasOwned(o, role) && o.exceptions > 0 }

  function HasOwnedAlone(role: Role): Outcome -> bool { (o: Outcome) => HasOwned(o, role) && o.exceptions <= 0 }

  function Reviewed(role: Role, review: Review): Outcome -> bool { (o: Outcome) => RoleItemReview(o, role) == review }

  /** An outcome needs a role's attention exactly when one of the role's own steps lacks evidence, whatever
      exceptions are open; otherwise an open exception sends it to an administrator. */
  lemma ReviewMeans(o: Outcome, role: Role)
    ensures RoleItemReview(o, role) == ReviewAttention <==> LacksOwned(role)(o)
    ensures RoleItemReview(o, role) == AdminReview <==> HasOwnedWithException(role)(o)
    ensures RoleItemReview(o, role) == ReviewReady <==> HasOwnedAlone(role)(o)
  {
    OwnedMissingMeans(o, role);
    assert OwnedAmong(Missing(o), Owns(role)) == [] <==> HasOwned(o, role);
  }

  /** A role summary counts the outcomes by the evidence of the role's own steps and by open exceptions,
      and counts each of them once. */
  lemma ReviewsPartition(outcomes: seq<Outcome>, role: Role)
    ensures CountWhere(outcomes, Reviewed(role, ReviewAttention)) == CountWhere(outcomes, LacksOwned(role))
    ensures CountWhere(outcomes, Reviewed(role, AdminReview)) == CountWhere(outcomes, HasOwnedWithException(role))
    ensures CountWhere(outcomes, Reviewed(role, ReviewReady)) == CountWhere(outcomes, HasOwnedAlone(role))
    ensures CountWhere(outcomes, Reviewed(role, ReviewReady)) + CountWhere(outcomes, Reviewed(role, ReviewAttention))
          + CountWhere(outcomes, Reviewed(role, AdminReview)) == |outcomes|
  {
    ReviewCountMeans(outcomes, role, ReviewAttention, LacksOwned(role));
    ReviewCountMeans(outcomes, role, AdminReview, HasOwnedWithException(role));
    ReviewCountMeans(outcomes, role, ReviewReady, HasOwnedAlone(role));
    ReviewsAddUp(outcomes, role);
  }

  lemma ReviewCountMeans(outcomes: seq<Outcome>, role: Role, review: Review, p: Outcome -> bool)
    requires && (review == ReviewAttention ==> p == LacksOwned(role))
             && (review == AdminReview ==> p == HasOwnedWithException(role))
             && (review == ReviewReady ==> p == HasOwnedAlone(role))
    ensures CountWhere(outcomes, Reviewed(role, review)) == CountWhere(outcomes, p)
  {
    forall o | o in outcomes ensures Reviewed(role, review)(o) <==> p(o) { ReviewMeans(o, role); }
    CountsAgree(outcomes, Reviewed(role, review), p);
  }

  lemma {:induction false} ReviewsAddUp(outcomes: seq<Outcome>, role: Role)
    ensures CountWhere(outcomes, Reviewed(role, ReviewReady)) + CountWhere(outcomes, Reviewed(role, ReviewAttention))
          + CountWhere(outcomes, Reviewed(role, AdminReview)) == |outcomes|
  {
    if outcomes != [] { ReviewsAddUp(outcomes[..|outcomes| - 1], role); }
  }
}
