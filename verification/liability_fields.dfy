/** What each piece of evidence adds to the liability totals, told on its amounts, statuses and
    beneficiaries. */
module LiabilityFields {
  import opened Prelude
  import opened FundingLedger
  import opened LiabilityProjection
  import opened LiabilityOrder

  /** The status a piece of evidence is read with: the first of its three fields that is present. */
  predicate ReadsAs(s: Statuses, status: Status) {
    || s.status == Some(status)
    || (s.status == None && s.commissionStatus == Some(status))
    || (s.status == None && s.commissionStatus == None && s.sourceStatus == Some(status))
  }

  lemma ReadStatus(s: Statuses, status: Status)
    requires status != OtherStatus
    ensures SourceStatus(s) == status <==> ReadsAs(s, status)
  {
  }

  /** The total of one more item. */
  lemma OneMoreItem(items: seq<Item>, i: Item, p: Item -> bool)
    ensures Sum(items + [i], p) == Sum(items, p) + if p(i) then i.cents else 0
  {
    assert (items + [i])[..|items|] == items;
  }

  lemma MappedLast<T>(xs: seq<T>, x: T, f: T -> Item)
    ensures Mapped(xs + [x], f) == Mapped(xs, f) + [f(x)]
  {
  }

  /** Adding one item anywhere adds its share. */
  lemma ItemBetween(before: seq<Item>, i: Item, after: seq<Item>, p: Item -> bool)
    ensures Sum(before + [i] + after, p) == Sum(before + after, p) + if p(i) then i.cents else 0
  {
    SumConcat(before + [i], after, p);
    SumConcat(before, after, p);
    OneMoreItem(before, i, p);
  }

  // ----- commissions -----

  lemma Regrouped(a: seq<Item>, b: seq<Item>, x: seq<Item>, y: seq<Item>, z: seq<Item>)
    ensures a + (b + x + y + z) == (a + b) + (x + y + z)
  {
  }

  lemma CommissionItemLast(t: Trace, c: CommissionEvidence, p: Item -> bool)
    ensures Sum(Items(t.(commissions := t.commissions + [c])), p)
         == Sum(Items(t), p) + if p(CommissionItem(c)) then CommissionItem(c).cents else 0
  {
    var x, y, z := Mapped(t.fundings, FundingItem), Mapped(t.fulfilments, FulfilmentItem),
      Mapped(t.settlements, SettlementItem);
    var rewards, before := RewardItems(t.rewards), Mapped(t.commissions, CommissionItem);
    MappedLast(t.commissions, c, CommissionItem);
    Regrouped(rewards, before + [CommissionItem(c)], x, y, z);
    Regrouped(rewards, before, x, y, z);
    assert rewards + (before + [CommissionItem(c)]) == (rewards + before) + [CommissionItem(c)];
    ItemBetween(rewards + before, CommissionItem(c), x + y + z, p);
  }

  /** The commission amount, or the plain amount where that is absent or zero; in cents. */
  predicate CommissionWorth(c: CommissionEvidence, cents: int) {
    if c.commissionAmount.Some? && c.commissionAmount.value != 0.0 then cents == ToCents(c.commissionAmount.value)
    else if c.amount.Some? then cents == ToCents(c.amount.value)
    else cents == 0
  }

  /** What one more commission adds overall: an obligation unless reversed, and to the total of its state. */
  lemma CommissionAdds(t: Trace, c: CommissionEvidence, f: Field, cents: int)
    requires CommissionWorth(c, cents)
    ensures Sum(Items(t.(commissions := t.commissions + [c])), Feeding(f)) - Sum(Items(t), Feeding(f)) ==
              match f
              case ObligationTotal => if ReadsAs(c.statuses, Reversed) then 0 else cents
              case ReversedTotal => if ReadsAs(c.statuses, Reversed) then cents else 0
              case FulfilledTotal => if ReadsAs(c.statuses, Credited) then cents else 0
              case FailedTotal => if ReadsAs(c.statuses, Status.Failed) then cents else 0
              case _ => 0
  {
    CommissionItemLast(t, c, Feeding(f));
    ReadStatus(c.statuses, Reversed);
    ReadStatus(c.statuses, Credited);
    ReadStatus(c.statuses, Status.Failed);
  }

  /** And by category: to the distributor's totals alone. */
  lemma CommissionAddsIn(t: Trace, c: CommissionEvidence, category: Category, f: Field)
    ensures Sum(Items(t.(commissions := t.commissions + [c])), FeedingIn(category, f))
              - Sum(Items(t), FeedingIn(category, f))
         == if category == ToDistributor
            then Sum(Items(t.(commissions := t.commissions + [c])), Feeding(f)) - Sum(Items(t), Feeding(f))
            else 0
  {
    CommissionItemLast(t, c, FeedingIn(category, f));
    CommissionItemLast(t, c, Feeding(f));
  }

  // ----- funding, fulfilment, settlement -----

  lemma FundingItemLast(t: Trace, x: FundingEvidence, p: Item -> bool)
    ensures Sum(Items(t.(fundings := t.fundings + [x])), p)
         == Sum(Items(t), p) + if p(FundingItem(x)) then FundingItem(x).cents else 0
  {
    var rest := Mapped(t.fulfilments, FulfilmentItem) + Mapped(t.settlements, SettlementItem);
    var before := RewardItems(t.rewards) + (Mapped(t.commissions, CommissionItem) + Mapped(t.fundings, FundingItem));
    MappedLast(t.fundings, x, FundingItem);
    assert Items(t.(fundings := t.fundings + [x])) == before + [FundingItem(x)] + rest;
    assert Items(t) == before + rest;
    ItemBetween(before, FundingItem(x), rest, p);
  }

  function CentsOf(amount: Option<real>): int { if amount.Some? then ToCents(amount.value) else 0 }

  /** What one more funding record adds: never an obligation, and to the total of its state alone. */
  lemma FundingAdds(t: Trace, x: FundingEvidence, f: Field)
    ensures Sum(Items(t.(fundings := t.fundings + [x])), Feeding(f)) - Sum(Items(t), Feeding(f)) ==
              if match f
                 case ObligationTotal => false
                 case FulfilledTotal => false
                 case ReservedTotal => ReadsAs(x.statuses, Reserved)
                 case ReleasedTotal => ReadsAs(x.statuses, Released)
                 case SettledTotal => ReadsAs(x.statuses, Settled)
                 case ReversedTotal => ReadsAs(x.statuses, Reversed)
                 case FailedTotal => ReadsAs(x.statuses, Status.Failed)
                 case DisputedTotal => ReadsAs(x.statuses, Disputed)
              then CentsOf(x.amount) else 0
  {
    FundingItemLast(t, x, Feeding(f));
    ReadStatus(x.statuses, Reserved);
    ReadStatus(x.statuses, Released);
    ReadStatus(x.statuses, Settled);
    ReadStatus(x.statuses, Reversed);
    ReadStatus(x.statuses, Status.Failed);
    ReadStatus(x.statuses, Disputed);
  }

  lemma FulfilmentItemLast(t: Trace, x: FulfilmentEvidence, p: Item -> bool)
    ensures Sum(Items(t.(fulfilments := t.fulfilments + [x])), p)
         == Sum(Items(t), p) + if p(FulfilmentItem(x)) then FulfilmentItem(x).cents else 0
  {
    var rest := Mapped(t.settlements, SettlementItem);
    var before := RewardItems(t.rewards) + (Mapped(t.commissions, CommissionItem) + Mapped(t.fundings, FundingItem)
                                            + Mapped(t.fulfilments, FulfilmentItem));
    MappedLast(t.fulfilments, x, FulfilmentItem);
    assert Items(t.(fulfilments := t.fulfilments + [x])) == before + [FulfilmentItem(x)] + rest;
    assert Items(t) == before + rest;
    ItemBetween(before, FulfilmentItem(x), rest, p);
  }

  /** The amount, or the reward value where that is absent or zero; in cents. */
  predicate FulfilmentWorth(x: FulfilmentEvidence, cents: int) {
    if x.amount.Some? && x.amount.value != 0.0 then cents == ToCents(x.amount.value)
    else if x.rewardValue.Some? then cents == ToCents(x.rewardValue.value)
    else cents == 0
  }

  /** What one more fulfilment attempt adds: to fulfilled for a success or a skipped duplicate, to failed for
      any failure, else nothing. */
  lemma FulfilmentAdds(t: Trace, x: FulfilmentEvidence, f: Field, cents: int)
    requires FulfilmentWorth(x, cents)
    ensures Sum(Items(t.(fulfilments := t.fulfilments + [x])), Feeding(f)) - Sum(Items(t), Feeding(f)) ==
              if match f
                 case FulfilledTotal => ReadsAs(x.statuses, Success) || ReadsAs(x.statuses, SkippedDuplicate)
                 case FailedTotal =>
                   || ReadsAs(x.statuses, FailedRetryable) || ReadsAs(x.statuses, FailedFinal)
                   || ReadsAs(x.statuses, Status.DeadLettered) || ReadsAs(x.statuses, Status.Failed)
                 case _ => false
              then cents else 0
  {
    FulfilmentItemLast(t, x, Feeding(f));
    ReadStatus(x.statuses, Success);
    ReadStatus(x.statuses, SkippedDuplicate);
    ReadStatus(x.statuses, FailedRetryable);
    ReadStatus(x.statuses, FailedFinal);
    ReadStatus(x.statuses, Status.DeadLettered);
    ReadStatus(x.statuses, Status.Failed);
  }

  lemma SettlementItemLast(t: Trace, x: SettlementEvidence, p: Item -> bool)
    ensures Sum(Items(t.(settlements := t.settlements + [x])), p)
         == Sum(Items(t), p) + if p(SettlementItem(x)) then SettlementItem(x).cents else 0
  {
    MappedLast(t.settlements, x, SettlementItem);
    assert Items(t.(settlements := t.settlements + [x])) == Items(t) + [SettlementItem(x)];
    OneMoreItem(Items(t), SettlementItem(x), p);
  }

  /** What one more settlement adds: to disputed if it has exceptions, whatever its status; else to the
      total of its status. */
  lemma SettlementAdds(t: Trace, x: SettlementEvidence, f: Field)
    ensures Sum(Items(t.(settlements := t.settlements + [x])), Feeding(f)) - Sum(Items(t), Feeding(f)) ==
              if match f
                 case DisputedTotal => x.exceptions > 0 || ReadsAs(x.statuses, Disputed)
                 case SettledTotal => x.exceptions <= 0 && ReadsAs(x.statuses, Settled)
                 case FailedTotal => x.exceptions <= 0 && ReadsAs(x.statuses, Status.Failed)
                 case ReversedTotal => x.exceptions <= 0 && ReadsAs(x.statuses, Reversed)
                 case _ => false
              then CentsOf(x.amount) else 0
  {
    SettlementItemLast(t, x, Feeding(f));
    ReadStatus(x.statuses, Settled);
    ReadStatus(x.statuses, Status.Failed);
    ReadStatus(x.statuses, Reversed);
    ReadStatus(x.statuses, Disputed);
  }

  /** Funding, fulfilment and settlement reach no category. */
  lemma OthersReachNoCategory(t: Trace, x: FundingEvidence, y: FulfilmentEvidence, z: SettlementEvidence,
                              category: Category, f: Field)
    ensures Sum(Items(t.(fundings := t.fundings + [x])), FeedingIn(category, f))
         == Sum(Items(t), FeedingIn(category, f))
    ensures Sum(Items(t.(fulfilments := t.fulfilments + [y])), FeedingIn(category, f))
         == Sum(Items(t), FeedingIn(category, f))
    ensures Sum(Items(t.(settlements := t.settlements + [z])), FeedingIn(category, f))
         == Sum(Items(t), FeedingIn(category, f))
  {
    FundingItemLast(t, x, FeedingIn(category, f));
    FulfilmentItemLast(t, y, FeedingIn(category, f));
    SettlementItemLast(t, z, FeedingIn(category, f));
  }

  // ----- rewards -----

  /** Rewards to a referee, and referee and customer rewards, are the customer's; all others the referrer's. */
  predicate ForCustomer(r: RewardEvidence) {
    || r.beneficiaryType.meaning == Referee || r.rewardType.meaning == RefereeReward
    || r.rewardType.meaning == CustomerReward
  }

  /** Two pieces of evidence describe one reward: same reward id, beneficiary, texts as spelled, and cents. */
  predicate SameReward(r: RewardEvidence, s: RewardEvidence) {
    && r.id == s.id && r.beneficiaryType == s.beneficiaryType && r.beneficiary == s.beneficiary
    && r.rewardType == s.rewardType && CentsOf(r.amount) == CentsOf(s.amount)
  }

  lemma SameKeyExactlyWhen(r: RewardEvidence, s: RewardEvidence)
    ensures KeyOf(r) == KeyOf(s) <==> SameReward(r, s)
  {
  }

  lemma KnownKeyExactlyWhen(rewards: seq<RewardEvidence>, r: RewardEvidence)
    ensures KeyOf(r) in Keys(rewards) <==> exists s :: s in rewards && SameReward(s, r)
  {
    if s :| s in rewards && KeyOf(s) == KeyOf(r) { SameKeyExactlyWhen(s, r); }
    if s :| s in rewards && SameReward(s, r) { SameKeyExactlyWhen(s, r); }
  }

  lemma RewardItemLast(t: Trace, r: RewardEvidence, p: Item -> bool)
    ensures Sum(Items(t.(rewards := t.rewards + [r])), p)
         == Sum(Items(t), p) + if KeyOf(r) in Keys(t.rewards) then 0 else Share(r, p)
  {
    TotalsOfReordered(t, t.rewards + [r], p);
    OneMoreShare(t.rewards, r, p);
  }

  predicate RewardPart(r: RewardEvidence, f: Field) {
    match f
    case ObligationTotal => !ReadsAs(r.statuses, Reversed)
    case FulfilledTotal => ReadsAs(r.statuses, Fulfilled)
    case ReversedTotal => ReadsAs(r.statuses, Reversed)
    case FailedTotal => ReadsAs(r.statuses, Status.Failed)
    case _ => false
  }

  lemma RewardFeeds(r: RewardEvidence, f: Field)
    ensures Feeds(RewardItem(r), f) <==> RewardPart(r, f)
  {
    ReadStatus(r.statuses, Fulfilled);
    ReadStatus(r.statuses, Reversed);
    ReadStatus(r.statuses, Status.Failed);
  }

  /** What one more piece of reward evidence adds overall: nothing if it describes a reward seen before; else
      an obligation unless reversed, and to the total of its state. */
  lemma RewardAdds(t: Trace, r: RewardEvidence, f: Field)
    ensures Sum(Items(t.(rewards := t.rewards + [r])), Feeding(f)) - Sum(Items(t), Feeding(f))
         == if (exists s :: s in t.rewards && SameReward(s, r)) || !RewardPart(r, f) then 0 else CentsOf(r.amount)
  {
    RewardItemLast(t, r, Feeding(f));
    KnownKeyExactlyWhen(t.rewards, r);
    RewardFeeds(r, f);
  }

  lemma ShareIn(r: RewardEvidence, category: Category, f: Field)
    ensures Share(r, FeedingIn(category, f))
         == if category == (if ForCustomer(r) then ToCustomer else ToReferrer) then Share(r, Feeding(f)) else 0
  {
  }

  /** And by category: the customer's or the referrer's. */
  lemma RewardAddsIn(t: Trace, r: RewardEvidence, category: Category, f: Field)
    ensures Sum(Items(t.(rewards := t.rewards + [r])), FeedingIn(category, f)) - Sum(Items(t), FeedingIn(category, f))
         == if category == (if ForCustomer(r) then ToCustomer else ToReferrer)
            then Sum(Items(t.(rewards := t.rewards + [r])), Feeding(f)) - Sum(Items(t), Feeding(f))
            else 0
  {
    RewardItemLast(t, r, FeedingIn(category, f));
    RewardItemLast(t, r, Feeding(f));
    ShareIn(r, category, f);
  }

  /** Items whose state feeds no total of its own: rewards wait or are only calculated, commissions are
      calculated, and funding, fulfilment and settlement are pending, whatever else their status says. */
  lemma UnfedStates(r: RewardEvidence, c: CommissionEvidence, x: FundingEvidence, y: FulfilmentEvidence,
                    z: SettlementEvidence)
    ensures RewardItem(r).state == IsPending <==>
              SourceStatus(r.statuses) in {PendingFulfilment, Status.Pending, Processing}
    ensures RewardItem(r).state == IsCalculated <==>
              SourceStatus(r.statuses) !in
              {Fulfilled, Reversed, Status.Failed, PendingFulfilment, Status.Pending, Processing}
    ensures CommissionItem(c).state == IsCalculated <==>
              SourceStatus(c.statuses) !in {Credited, Reversed, Status.Failed}
    ensures FundingItem(x).state == IsPending <==>
              SourceStatus(x.statuses) !in {Reserved, Released, Settled, Reversed, Status.Failed, Disputed}
    ensures FulfilmentItem(y).state == IsPending <==>
              SourceStatus(y.statuses) !in
              {Success, SkippedDuplicate, FailedRetryable, FailedFinal, Status.DeadLettered, Status.Failed}
    ensures SettlementItem(z).state == IsPending <==>
              z.exceptions <= 0 && SourceStatus(z.statuses) !in {Settled, Status.Failed, Reversed, Disputed}
  {
  }
}
