/** The liability projection of one outcome: evidence from five sections becomes categorised items,
    duplicated reward evidence is set aside, and amounts are added up overall and by category. */
module LiabilityProjection {
  import opened Prelude
  import opened FundingLedger

  // ----- evidence -----

  /** A text field: what it means in upper case, and how it was spelled. */
  datatype Text<T> = Text(meaning: T, spelling: nat)

  datatype Beneficiary = Referee | OtherBeneficiary
  datatype RewardType = RefereeReward | CustomerReward | OtherReward

  datatype Status =
    | Fulfilled | Reversed | Failed | PendingFulfilment | Pending | Processing | Credited
    | Reserved | Released | Settled | Disputed
    | Success | FailedRetryable | FailedFinal | DeadLettered | SkippedDuplicate | OtherStatus

  /** The three places evidence may keep its status in, first one present wins. */
  datatype Statuses = Statuses(status: Option<Status>, commissionStatus: Option<Status>, sourceStatus: Option<Status>)

  datatype RewardEvidence = RewardEvidence(
    id: Option<nat>, beneficiaryType: Text<Beneficiary>, beneficiary: Option<nat>, rewardType: Text<RewardType>,
    amount: Option<real>, statuses: Statuses)

  datatype CommissionEvidence = CommissionEvidence(commissionAmount: Option<real>, amount: Option<real>,
                                                   statuses: Statuses)
  datatype FundingEvidence = FundingEvidence(amount: Option<real>, statuses: Statuses)
  datatype FulfilmentEvidence = FulfilmentEvidence(amount: Option<real>, rewardValue: Option<real>, statuses: Statuses)
  datatype SettlementEvidence = SettlementEvidence(amount: Option<real>, exceptions: int, statuses: Statuses)

  datatype Trace = Trace(
    rewards: seq<RewardEvidence>, commissions: seq<CommissionEvidence>, fundings: seq<FundingEvidence>,
    fulfilments: seq<FulfilmentEvidence>, settlements: seq<SettlementEvidence>)

  // ----- items -----

  datatype Family = FromReward | FromCommission | FromFunding | FromFulfilment | FromSettlement

  datatype Category = ToCustomer | ToReferrer | ToDistributor

  datatype LiabilityState =
    | IsCalculated | IsPending | IsReserved | IsReleased | IsFulfilled | IsSettled | IsReversed | IsFailed | IsDisputed

  datatype Item = Item(family: Family, category: Option<Category>, state: LiabilityState, cents: int)

  function SourceStatus(s: Statuses): Status {
    if s.status.Some? then s.status.value
    else if s.commissionStatus.Some? then s.commissionStatus.value
    else if s.sourceStatus.Some? then s.sourceStatus.value
    else OtherStatus
  }

  function Cents(amount: Option<real>): int {
    if amount.None? then 0 else ToCents(amount.value)
  }

  /** An absent or zero amount gives way to the other field. */
  function Either(first: Option<real>, second: Option<real>): Option<real> {
    if first.Some? && first.value != 0.0 then first else second
  }

  function RewardCategory(r: RewardEvidence): Category {
    if r.beneficiaryType.meaning == Referee || r.rewardType.meaning != OtherReward then ToCustomer else ToReferrer
  }

  function RewardState(s: Status): LiabilityState {
    match s
    case Fulfilled => IsFulfilled
    case Reversed => IsReversed
    case Failed => IsFailed
    case PendingFulfilment | Pending | Processing => IsPending
    case _ => IsCalculated
  }

  function CommissionState(s: Status): LiabilityState {
    match s
    case Credited => IsFulfilled
    case Reversed => IsReversed
    case Failed => IsFailed
    case _ => IsCalculated
  }

  function FundingState(s: Status): LiabilityState {
    match s
    case Reserved => IsReserved
    case Released => IsReleased
    case Settled => IsSettled
    case Reversed => IsReversed
    case Failed => IsFailed
    case Disputed => IsDisputed
    case _ => IsPending
  }

  function FulfilmentState(s: Status): LiabilityState {
    match s
    case Success | SkippedDuplicate => IsFulfilled
    case FailedRetryable | FailedFinal | DeadLettered | Failed => IsFailed
    case _ => IsPending
  }

  function SettlementState(exceptions: int, s: Status): LiabilityState {
    if exceptions > 0 then IsDisputed
    else
      match s
      case Settled => IsSettled
      case Failed => IsFailed
      case Reversed => IsReversed
      case Disputed => IsDisputed
      case _ => IsPending
  }

  function RewardItem(r: RewardEvidence): Item {
    Item(FromReward, Some(RewardCategory(r)), RewardState(SourceStatus(r.statuses)), Cents(r.amount))
  }

  function CommissionItem(c: CommissionEvidence): Item {
    Item(FromCommission, Some(ToDistributor), CommissionState(SourceStatus(c.statuses)),
         Cents(Either(c.commissionAmount, c.amount)))
  }

  function FundingItem(f: FundingEvidence): Item {
    Item(FromFunding, None, FundingState(SourceStatus(f.statuses)), Cents(f.amount))
  }

  function FulfilmentItem(f: FulfilmentEvidence): Item {
    Item(FromFulfilment, None, FulfilmentState(SourceStatus(f.statuses)), Cents(Either(f.amount, f.rewardValue)))
  }

  function SettlementItem(s: SettlementEvidence): Item {
    Item(FromSettlement, None, SettlementState(s.exceptions, SourceStatus(s.statuses)), Cents(s.amount))
  }

  // ----- duplicated reward evidence -----

  /** Two pieces of reward evidence with equal keys describe one reward. The status is not part of it. */
  datatype Key = Key(
    category: Category, id: Option<nat>, beneficiaryType: Text<Beneficiary>, beneficiary: Option<nat>,
    rewardType: Text<RewardType>, cents: int)

  function KeyOf(r: RewardEvidence): Key {
    Key(RewardCategory(r), r.id, r.beneficiaryType, r.beneficiary, r.rewardType, Cents(r.amount))
  }

  function Keys(rewards: seq<RewardEvidence>): set<Key> { set r | r in rewards :: KeyOf(r) }

  /** Each key's first evidence becomes an item. */
  function RewardItems(rewards: seq<RewardEvidence>): seq<Item> {
    if rewards == [] then []
    else
      var init, last := rewards[..|rewards| - 1], rewards[|rewards| - 1];
      if KeyOf(last) in Keys(init) then RewardItems(init) else RewardItems(init) + [RewardItem(last)]
  }

  function Mapped<T>(xs: seq<T>, f: T -> Item): seq<Item> {
    seq(|xs|, k requires 0 <= k < |xs| => f(xs[k]))
  }

  function OtherItems(t: Trace): seq<Item> {
    Mapped(t.commissions, CommissionItem) + Mapped(t.fundings, FundingItem)
    + Mapped(t.fulfilments, FulfilmentItem) + Mapped(t.settlements, SettlementItem)
  }

  function Items(t: Trace): seq<Item> { RewardItems(t.rewards) + OtherItems(t) }

  // ----- totals -----

  datatype Field =
    | ObligationTotal | ReservedTotal | ReleasedTotal | FulfilledTotal | SettledTotal
    | ReversedTotal | FailedTotal | DisputedTotal

  predicate Owed(i: Item) { i.family == FromReward || i.family == FromCommission }

  /** Whether an item adds to a total. */
  predicate Feeds(i: Item, f: Field) {
    match f
    case ObligationTotal => Owed(i) && i.state != IsReversed
    case ReservedTotal => i.state == IsReserved
    case ReleasedTotal => i.state == IsReleased
    case FulfilledTotal => i.state == IsFulfilled
    case SettledTotal => i.state == IsSettled
    case ReversedTotal => i.state == IsReversed
    case FailedTotal => i.state == IsFailed
    case DisputedTotal => i.state == IsDisputed
  }

  /** The sum of the items that satisfy a condition. */
  function Sum(items: seq<Item>, p: Item -> bool): int {
    if items == [] then 0
    else Sum(items[..|items| - 1], p) + if p(items[|items| - 1]) then items[|items| - 1].cents else 0
  }

  function Feeding(f: Field): Item -> bool { (i: Item) => Feeds(i, f) }

  function FeedingIn(c: Category, f: Field): Item -> bool { (i: Item) => i.category == Some(c) && Feeds(i, f) }

  function StateField(s: LiabilityState): Option<Field> {
    match s
    case IsReserved => Some(ReservedTotal)
    case IsReleased => Some(ReleasedTotal)
    case IsFulfilled => Some(FulfilledTotal)
    case IsSettled => Some(SettledTotal)
    case IsReversed => Some(ReversedTotal)
    case IsFailed => Some(FailedTotal)
    case IsDisputed => Some(DisputedTotal)
    case _ => None
  }

  const FIELDS: set<Field> := set f: Field | true
  const CATEGORIES: set<Category> := set c: Category | true

  /** Adds one item to a table of totals. */
  method AddItem(totals: map<Field, int>, item: Item) returns (added: map<Field, int>)
    requires forall f: Field :: f in totals
    ensures forall f: Field :: f in added && added[f] == totals[f] + if Feeds(item, f) then item.cents else 0
  {
    added := totals;
    if Owed(item) && item.state != IsReversed {
      added := added[ObligationTotal := added[ObligationTotal] + item.cents];
    }
    var field := StateField(item.state);
    if field.Some? { added := added[field.value := added[field.value] + item.cents]; }
  }

  method Totals(items: seq<Item>) returns (totals: map<Field, int>)
    ensures forall f: Field :: f in totals && totals[f] == Sum(items, Feeding(f))
  {
    totals := map f: Field | f in FIELDS :: 0;
    for k := 0 to |items|
      invariant forall f: Field :: f in totals && totals[f] == Sum(items[..k], Feeding(f))
    {
      assert items[..k + 1][..k] == items[..k];
      totals := AddItem(totals, items[k]);
    }
    assert items[..|items|] == items;
  }

  /** A table of totals by category adds up the given items. */
  ghost predicate AddsUp(totals: map<Category, map<Field, int>>, items: seq<Item>) {
    && (forall c: Category :: c in totals)
    && (forall c: Category, f: Field :: f in totals[c] && totals[c][f] == Sum(items, FeedingIn(c, f)))
  }

  method AddItemByCategory(totals: map<Category, map<Field, int>>, ghost items: seq<Item>, item: Item)
    returns (added: map<Category, map<Field, int>>)
    requires AddsUp(totals, items)
    ensures AddsUp(added, items + [item])
  {
    assert (items + [item])[..|items|] == items;
    added := totals;
    if item.category.Some? {
      var category := AddItem(totals[item.category.value], item);
      added := totals[item.category.value := category];
    }
  }

  method RecalculateByCategory(items: seq<Item>) returns (totals: map<Category, map<Field, int>>)
    ensures AddsUp(totals, items)
  {
    var zero := map f: Field | f in FIELDS :: 0;
    totals := map c: Category | c in CATEGORIES :: zero;
    for k := 0 to |items|
      invariant AddsUp(totals, items[..k])
    {
      assert items[..k + 1] == items[..k] + [items[k]];
      totals := AddItemByCategory(totals, items[..k], items[k]);
    }
    assert items[..|items|] == items;
  }

  lemma OneMoreReward(rewards: seq<RewardEvidence>, r: RewardEvidence)
    ensures Keys(rewards + [r]) == Keys(rewards) + {KeyOf(r)}
    ensures RewardItems(rewards + [r]) == if KeyOf(r) in Keys(rewards) then RewardItems(rewards)
            else RewardItems(rewards) + [RewardItem(r)]
  {
    assert (rewards + [r])[..|rewards|] == rewards;
  }

  /** Turns reward evidence into items, warning of every repeated key. */
  method CollectRewards(rewards: seq<RewardEvidence>) returns (items: seq<Item>, warnings: nat)
    ensures items == RewardItems(rewards)
    ensures warnings == |rewards| - |items|
  {
    var seen: set<Key> := {};
    items, warnings := [], 0;
    for k := 0 to |rewards|
      invariant seen == Keys(rewards[..k])
      invariant items == RewardItems(rewards[..k])
      invariant warnings == k - |items|
    {
      assert rewards[..k + 1] == rewards[..k] + [rewards[k]];
      OneMoreReward(rewards[..k], rewards[k]);
      if KeyOf(rewards[k]) in seen {
        warnings := warnings + 1;
      } else {
        items := items + [RewardItem(rewards[k])];
      }
      seen := seen + {KeyOf(rewards[k])};
    }
    assert rewards[..|rewards|] == rewards;
  }

  method Collect<T>(items: seq<Item>, xs: seq<T>, f: T -> Item) returns (collected: seq<Item>)
    ensures collected == items + Mapped(xs, f)
  {
    collected := items;
    for k := 0 to |xs|
      invariant |collected| == |items| + k
      invariant collected[..|items|] == items
      invariant forall j | 0 <= j < k :: collected[|items| + j] == f(xs[j])
    {
      collected := collected + [f(xs[k])];
    }
  }

  datatype Projection = Projection(
    items: seq<Item>, totals: map<Field, int>, byCategory: map<Category, map<Field, int>>, warnings: nat)

  /** What a projection of a trace must be. */
  ghost predicate IsProjection(p: Projection, t: Trace) {
    && p.items == Items(t)
    && p.warnings == |t.rewards| - |RewardItems(t.rewards)|
    && (forall f: Field :: f in p.totals && p.totals[f] == Sum(p.items, Feeding(f)))
    && AddsUp(p.byCategory, p.items)
  }

  method DeriveLiabilityProjection(t: Trace) returns (p: Projection)
    ensures IsProjection(p, t)
  {
    var items, warnings := CollectRewards(t.rewards);
    ghost var owed := items;
    items := Collect(items, t.commissions, CommissionItem);
    items := Collect(items, t.fundings, FundingItem);
    items := Collect(items, t.fulfilments, FulfilmentItem);
    items := Collect(items, t.settlements, SettlementItem);
    assert items == owed + OtherItems(t);
    var totals := Totals(items);
    var byCategory := RecalculateByCategory(items);
    p := Projection(items, totals, byCategory, warnings);
  }

  // ----- sums -----

  lemma {:induction false} SumConcat(a: seq<Item>, b: seq<Item>, p: Item -> bool)
    ensures Sum(a + b, p) == Sum(a, p) + Sum(b, p)
  {
    if b == [] {
      assert a + b == a;
    } else {
      SumConcat(a, b[..|b| - 1], p);
      assert (a + b)[..|a + b| - 1] == a + b[..|b| - 1];
    }
  }

  /** Conditions that split another split its sum. */
  lemma {:induction false} SumSplits(items: seq<Item>, whole: Item -> bool, part: Item -> bool, rest: Item -> bool)
    requires forall i | i in items :: (whole(i) <==> part(i) || rest(i)) && !(part(i) && rest(i))
    ensures Sum(items, whole) == Sum(items, part) + Sum(items, rest)
  {
    if items != [] {
      assert items[|items| - 1] in items;
      SumSplits(items[..|items| - 1], whole, part, rest);
    }
  }

  lemma {:induction false} SumOfNothing(items: seq<Item>, p: Item -> bool)
    requires forall i | i in items :: !p(i)
    ensures Sum(items, p) == 0
  {
    if items != [] {
      assert items[|items| - 1] in items;
      SumOfNothing(items[..|items| - 1], p);
    }
  }

  // ----- conservation -----

  /** What the sections put into the items: owed items carry a category and never reach a funding or
      settlement state; the others carry none. */
  predicate Sorted(i: Item) {
    && (Owed(i) <==> i.category.Some?)
    && (Owed(i) ==> i.state !in {IsReserved, IsReleased, IsSettled, IsDisputed})
  }

  lemma {:induction false} RewardItemsAreSorted(rewards: seq<RewardEvidence>)
    ensures forall i | i in RewardItems(rewards) :: Sorted(i) && i.family == FromReward
  {
    if rewards != [] { RewardItemsAreSorted(rewards[..|rewards| - 1]); }
  }

  lemma MappedAreSorted<T>(xs: seq<T>, f: T -> Item)
    requires forall x | x in xs :: Sorted(f(x))
    ensures forall i | i in Mapped(xs, f) :: Sorted(i)
  {
  }

  lemma ItemsAreSorted(t: Trace)
    ensures forall i | i in Items(t) :: Sorted(i)
  {
    RewardItemsAreSorted(t.rewards);
    MappedAreSorted(t.commissions, CommissionItem);
    MappedAreSorted(t.fundings, FundingItem);
    MappedAreSorted(t.fulfilments, FulfilmentItem);
    MappedAreSorted(t.settlements, SettlementItem);
  }

  function IsIn(c: Category): Item -> bool { (i: Item) => i.category == Some(c) }

  /** A condition that only categorised items meet is the sum over the three categories. */
  lemma SumByCategory(items: seq<Item>, whole: Item -> bool, customer: Item -> bool, referrer: Item -> bool,
                      distributor: Item -> bool)
    requires forall i | i in items ::
               && (whole(i) ==> i.category.Some?)
               && (customer(i) <==> i.category == Some(ToCustomer) && whole(i))
               && (referrer(i) <==> i.category == Some(ToReferrer) && whole(i))
               && (distributor(i) <==> i.category == Some(ToDistributor) && whole(i))
    ensures Sum(items, whole) == Sum(items, customer) + Sum(items, referrer) + Sum(items, distributor)
  {
    var rest := (i: Item) => whole(i) && i.category != Some(ToCustomer);
    SumSplits(items, whole, customer, rest);
    forall i | i in items ensures rest(i) ==> i.category == Some(ToReferrer) || i.category == Some(ToDistributor) {
      if rest(i) {
        assert i.category.value == ToCustomer || i.category.value == ToReferrer || i.category.value == ToDistributor;
      }
    }
    SumSplits(items, rest, referrer, distributor);
  }

  /** The overall obligation is the sum of the three categories' obligations. */
  lemma ObligationIsSumOfCategories(t: Trace, p: Projection)
    requires IsProjection(p, t)
    ensures p.totals[ObligationTotal]
         == p.byCategory[ToCustomer][ObligationTotal] + p.byCategory[ToReferrer][ObligationTotal]
          + p.byCategory[ToDistributor][ObligationTotal]
  {
    ItemsAreSorted(t);
    SumByCategory(p.items, Feeding(ObligationTotal), FeedingIn(ToCustomer, ObligationTotal),
                  FeedingIn(ToReferrer, ObligationTotal), FeedingIn(ToDistributor, ObligationTotal));
  }

  /** No category ever holds reserved, released, settled or disputed money. */
  lemma CategoriesHoldNoFunding(t: Trace, p: Projection, c: Category, f: Field)
    requires IsProjection(p, t)
    requires f in {ReservedTotal, ReleasedTotal, SettledTotal, DisputedTotal}
    ensures p.byCategory[c][f] == 0
  {
    ItemsAreSorted(t);
    SumOfNothing(p.items, FeedingIn(c, f));
  }

  /** What each category owes or has reversed is exactly what its items amount to. */
  lemma CategoryAccountsForItems(t: Trace, p: Projection, c: Category)
    requires IsProjection(p, t)
    ensures p.byCategory[c][ObligationTotal] + p.byCategory[c][ReversedTotal] == Sum(p.items, IsIn(c))
  {
    ItemsAreSorted(t);
    SumSplits(p.items, IsIn(c), FeedingIn(c, ObligationTotal), FeedingIn(c, ReversedTotal));
  }

  // ----- distinct amounts -----

  /** The amounts of all distinct keys among the rewards. */
  function DistinctCents(rewards: seq<RewardEvidence>): int {
    if rewards == [] then 0
    else
      var init, last := rewards[..|rewards| - 1], rewards[|rewards| - 1];
      DistinctCents(init) + if KeyOf(last) in Keys(init) then 0 else KeyOf(last).cents
  }

  function CommissionCents(commissions: seq<CommissionEvidence>): int {
    if commissions == [] then 0
    else
      var last := commissions[|commissions| - 1];
      CommissionCents(commissions[..|commissions| - 1]) + Cents(Either(last.commissionAmount, last.amount))
  }

  lemma {:induction false} RewardItemsAddUp(rewards: seq<RewardEvidence>)
    ensures Sum(RewardItems(rewards), Owed) == DistinctCents(rewards)
  {
    if rewards != [] {
      var init, last := rewards[..|rewards| - 1], rewards[|rewards| - 1];
      RewardItemsAddUp(init);
      assert (RewardItems(init) + [RewardItem(last)])[..|RewardItems(init)|] == RewardItems(init);
    }
  }

  lemma {:induction false} CommissionItemsAddUp(commissions: seq<CommissionEvidence>)
    ensures Sum(Mapped(commissions, CommissionItem), Owed) == CommissionCents(commissions)
  {
    if commissions != [] {
      var init := commissions[..|commissions| - 1];
      CommissionItemsAddUp(init);
      assert Mapped(commissions, CommissionItem)[..|init|] == Mapped(init, CommissionItem);
    }
  }

  lemma NothingOwed<T>(xs: seq<T>, f: T -> Item)
    requires forall x | x in xs :: !Owed(f(x))
    ensures Sum(Mapped(xs, f), Owed) == 0
  {
    var items := Mapped(xs, f);
    forall i | i in items ensures !Owed(i) {
      var k :| 0 <= k < |items| && items[k] == i;
      assert i == f(xs[k]);
    }
    SumOfNothing(items, Owed);
  }

  lemma OtherItemsAddUp(t: Trace)
    ensures Sum(OtherItems(t), Owed) == CommissionCents(t.commissions)
  {
    var c := Mapped(t.commissions, CommissionItem);
    var f, g, s := Mapped(t.fundings, FundingItem), Mapped(t.fulfilments, FulfilmentItem),
      Mapped(t.settlements, SettlementItem);
    CommissionItemsAddUp(t.commissions);
    SumConcat(c + f + g, s, Owed);
    SumConcat(c + f, g, Owed);
    SumConcat(c, f, Owed);
    NothingOwed(t.fundings, FundingItem);
    NothingOwed(t.fulfilments, FulfilmentItem);
    NothingOwed(t.settlements, SettlementItem);
  }

  /** Money is conserved: over the three categories, obligations and reversals together are the amounts
      of all distinct rewards and all commissions. */
  lemma NothingIsLost(t: Trace, p: Projection)
    requires IsProjection(p, t)
    ensures p.byCategory[ToCustomer][ObligationTotal] + p.byCategory[ToCustomer][ReversedTotal]
          + p.byCategory[ToReferrer][ObligationTotal] + p.byCategory[ToReferrer][ReversedTotal]
          + p.byCategory[ToDistributor][ObligationTotal] + p.byCategory[ToDistributor][ReversedTotal]
         == DistinctCents(t.rewards) + CommissionCents(t.commissions)
  {
    CategoryAccountsForItems(t, p, ToCustomer);
    CategoryAccountsForItems(t, p, ToReferrer);
    CategoryAccountsForItems(t, p, ToDistributor);
    OwedByCategory(t);
    SumConcat(RewardItems(t.rewards), OtherItems(t), Owed);
    RewardItemsAddUp(t.rewards);
    OtherItemsAddUp(t);
  }

  lemma OwedByCategory(t: Trace)
    ensures Sum(Items(t), Owed) == Sum(Items(t), IsIn(ToCustomer)) + Sum(Items(t), IsIn(ToReferrer))
            + Sum(Items(t), IsIn(ToDistributor))
  {
    ItemsAreSorted(t);
    SumByCategory(Items(t), Owed, IsIn(ToCustomer), IsIn(ToReferrer), IsIn(ToDistributor));
  }

  // ----- repeated evidence -----

  /** Evidence repeated after its first occurrence changes no item. */
  lemma {:induction false} RepeatAddsNoItem(before: seq<RewardEvidence>, r: RewardEvidence, after: seq<RewardEvidence>)
    requires KeyOf(r) in Keys(before)
    ensures RewardItems(before + [r] + after) == RewardItems(before + after)
  {
    if after == [] {
      OneMoreReward(before, r);
      assert before + [r] + after == before + [r] && before + after == before;
    } else {
      var init, last := after[..|after| - 1], after[|after| - 1];
      RepeatAddsNoItem(before, r, init);
      RepeatAddsNoKey(before, r, init);
      OneMoreReward(before + [r] + init, last);
      OneMoreReward(before + init, last);
      assert before + [r] + after == (before + [r] + init) + [last];
      assert before + after == (before + init) + [last];
    }
  }

  lemma RepeatAddsNoKey(before: seq<RewardEvidence>, r: RewardEvidence, after: seq<RewardEvidence>)
    requires KeyOf(r) in Keys(before)
    ensures Keys(before + [r] + after) == Keys(before + after)
  {
    forall k | k in Keys(before + [r] + after) ensures k in Keys(before + after) {
      var e :| e in before + [r] + after && KeyOf(e) == k;
      if e == r { RepeatedElsewhere(before, r, after); } else { assert e in before + after; }
    }
    forall k | k in Keys(before + after) ensures k in Keys(before + [r] + after) {
      var e :| e in before + after && KeyOf(e) == k;
      assert e in before + [r] + after;
    }
  }

  lemma RepeatedElsewhere(before: seq<RewardEvidence>, r: RewardEvidence, after: seq<RewardEvidence>)
    requires KeyOf(r) in Keys(before)
    ensures KeyOf(r) in Keys(before + after)
  {
    var e :| e in before && KeyOf(e) == KeyOf(r);
    assert e in before + after;
  }

  /** Repeating a reward under a key already seen adds exactly one warning and changes no total. */
  lemma RepeatOnlyWarns(t: Trace, before: seq<RewardEvidence>, r: RewardEvidence, after: seq<RewardEvidence>,
                        p: Projection, q: Projection)
    requires t.rewards == before + after && KeyOf(r) in Keys(before)
    requires IsProjection(p, t) && IsProjection(q, t.(rewards := before + [r] + after))
    ensures q.warnings == p.warnings + 1
    ensures q.items == p.items
    ensures forall f: Field :: q.totals[f] == p.totals[f]
    ensures forall c: Category, f: Field :: q.byCategory[c][f] == p.byCategory[c][f]
  {
    RepeatAddsNoItem(before, r, after);
  }

  // ----- the order of evidence -----

  function Without(rewards: seq<RewardEvidence>, k: Key): (rest: seq<RewardEvidence>)
    ensures |rest| <= |rewards|
    ensures forall r :: r in rest <==> r in rewards && KeyOf(r) != k
  {
    if rewards == [] then []
    else
      var init, last := rewards[..|rewards| - 1], rewards[|rewards| - 1];
      assert rewards == init + [last];
      if KeyOf(last) == k then Without(init, k) else Without(init, k) + [last]
  }

  lemma {:induction false} WithoutDropsOneAmount(rewards: seq<RewardEvidence>, k: Key)
    ensures DistinctCents(rewards) == DistinctCents(Without(rewards, k)) + if k in Keys(rewards) then k.cents else 0
  {
    if rewards != [] {
      var init, last := rewards[..|rewards| - 1], rewards[|rewards| - 1];
      WithoutDropsOneAmount(init, k);
      assert rewards == init + [last];
      var rest := Without(init, k);
      if KeyOf(last) != k {
        assert (rest + [last])[..|rest|] == rest;
        assert KeyOf(last) in Keys(rest) <==> KeyOf(last) in Keys(init);
      }
    }
  }

  /** The conserved amount depends only on which keys occur: not on the order of the evidence, on
      repetitions, or on the status each repetition carries. */
  lemma {:induction false} DistinctCentsDependOnKeys(a: seq<RewardEvidence>, b: seq<RewardEvidence>)
    requires Keys(a) == Keys(b)
    ensures DistinctCents(a) == DistinctCents(b)
    decreases |a|
  {
    if a == [] {
      KeyedIffAny(b);
    } else {
      var init, k := a[..|a| - 1], KeyOf(a[|a| - 1]);
      assert k in Keys(a);
      WithoutDropsOneAmount(a, k);
      WithoutDropsOneAmount(b, k);
      assert Without(a, k) == Without(init, k);
      WithoutKeys(a, k);
      WithoutKeys(b, k);
      DistinctCentsDependOnKeys(Without(a, k), Without(b, k));
    }
  }

  lemma KeyedIffAny(rewards: seq<RewardEvidence>)
    ensures Keys(rewards) == {} <==> rewards == []
  {
    if rewards != [] { assert KeyOf(rewards[0]) in Keys(rewards); }
  }

  lemma WithoutKeys(rewards: seq<RewardEvidence>, k: Key)
    ensures Keys(Without(rewards, k)) == Keys(rewards) - {k}
  {
  }
}
