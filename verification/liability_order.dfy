/** When the order of reward evidence matters to a total. Of several pieces with one key the first becomes
    the item, and its status decides which totals the amount feeds. */
module LiabilityOrder {
  import opened Prelude
  import opened LiabilityProjection

  /** What the reward evidence adds to the total of the items that meet a condition. */
  function RewardSum(rewards: seq<RewardEvidence>, p: Item -> bool): int { Sum(RewardItems(rewards), p) }

  function Share(r: RewardEvidence, p: Item -> bool): int { if p(RewardItem(r)) then Cents(r.amount) else 0 }

  lemma OneMoreShare(rewards: seq<RewardEvidence>, r: RewardEvidence, p: Item -> bool)
    ensures RewardSum(rewards + [r], p)
         == RewardSum(rewards, p) + if KeyOf(r) in Keys(rewards) then 0 else Share(r, p)
  {
    OneMoreReward(rewards, r);
    assert (RewardItems(rewards) + [RewardItem(r)])[..|RewardItems(rewards)|] == RewardItems(rewards);
  }

  // ----- two neighbours -----

  /** What comes later adds the same after lists with the same keys. */
  lemma {:induction false} SameKeysSameRest(x: seq<RewardEvidence>, y: seq<RewardEvidence>, after: seq<RewardEvidence>,
                                            p: Item -> bool)
    requires Keys(x) == Keys(y)
    ensures RewardSum(x + after, p) - RewardSum(x, p) == RewardSum(y + after, p) - RewardSum(y, p)
    ensures Keys(x + after) == Keys(y + after)
  {
    if after == [] {
      assert x + after == x && y + after == y;
    } else {
      var init, last := after[..|after| - 1], after[|after| - 1];
      SameKeysSameRest(x, y, init, p);
      assert x + after == (x + init) + [last] && y + after == (y + init) + [last];
      OneMoreShare(x + init, last, p);
      OneMoreShare(y + init, last, p);
      OneMoreReward(x + init, last);
      OneMoreReward(y + init, last);
    }
  }

  lemma TwoMoreShares(before: seq<RewardEvidence>, r: RewardEvidence, s: RewardEvidence, p: Item -> bool)
    ensures Keys(before + [r] + [s]) == Keys(before) + {KeyOf(r), KeyOf(s)}
    ensures RewardSum(before + [r] + [s], p)
         == RewardSum(before, p) + (if KeyOf(r) in Keys(before) then 0 else Share(r, p))
            + (if KeyOf(s) in Keys(before) || KeyOf(s) == KeyOf(r) then 0 else Share(s, p))
  {
    OneMoreReward(before, r);
    OneMoreReward(before + [r], s);
    OneMoreShare(before, r, p);
    OneMoreShare(before + [r], s, p);
  }

  /** Swapping two neighbouring pieces of evidence keeps a total exactly when they have different keys, or
      their key came before, or they are worth nothing, or both feed the total or neither does. */
  lemma SwapKeepsTotalExactlyWhen(before: seq<RewardEvidence>, r: RewardEvidence, s: RewardEvidence,
                                  after: seq<RewardEvidence>, p: Item -> bool)
    ensures RewardSum(before + [r] + [s] + after, p) == RewardSum(before + [s] + [r] + after, p) <==>
              || KeyOf(r) != KeyOf(s) || KeyOf(r) in Keys(before) || Cents(r.amount) == 0
              || (p(RewardItem(r)) <==> p(RewardItem(s)))
  {
    TwoMoreShares(before, r, s, p);
    TwoMoreShares(before, s, r, p);
    SameKeysSameRest(before + [r] + [s], before + [s] + [r], after, p);
    assert KeyOf(r) == KeyOf(s) ==> Cents(r.amount) == Cents(s.amount);
  }

  /** A swap that matters: the amount moves between obligation and reversed. */
  lemma OrderDecidesState(r: RewardEvidence, s: RewardEvidence)
    requires KeyOf(r) == KeyOf(s) && Cents(r.amount) != 0
    requires SourceStatus(r.statuses) == Reversed && SourceStatus(s.statuses) == Fulfilled
    ensures RewardSum([r, s], Feeding(ObligationTotal)) != RewardSum([s, r], Feeding(ObligationTotal))
    ensures RewardSum([r, s], Feeding(ReversedTotal)) != RewardSum([s, r], Feeding(ReversedTotal))
  {
    assert [] + [r] + [s] + [] == [r, s] && [] + [s] + [r] + [] == [s, r];
    SwapKeepsTotalExactlyWhen([], r, s, [], Feeding(ObligationTotal));
    SwapKeepsTotalExactlyWhen([], r, s, [], Feeding(ReversedTotal));
  }

  // ----- every order -----

  /** Two pieces of one key, worth something, of which one feeds the total and the other does not. */
  predicate Disagree(r: RewardEvidence, s: RewardEvidence, p: Item -> bool) {
    KeyOf(r) == KeyOf(s) && Cents(r.amount) != 0 && p(RewardItem(r)) != p(RewardItem(s))
  }

  ghost predicate Unanimous(rewards: seq<RewardEvidence>, p: Item -> bool) {
    forall i, j | 0 <= i < |rewards| && 0 <= j < |rewards| :: !Disagree(rewards[i], rewards[j], p)
  }

  /** Whether some evidence of a key feeds the total. */
  function KeyFeeds(rewards: seq<RewardEvidence>, p: Item -> bool): Key -> bool {
    (k: Key) => exists r | r in rewards :: KeyOf(r) == k && p(RewardItem(r))
  }

  /** The keys tell what their evidence feeds. */
  ghost predicate Tells(feeds: Key -> bool, rewards: seq<RewardEvidence>, p: Item -> bool) {
    forall r | r in rewards :: Cents(r.amount) != 0 ==> (p(RewardItem(r)) <==> feeds(KeyOf(r)))
  }

  function Only(rewards: seq<RewardEvidence>, feeds: Key -> bool): (rest: seq<RewardEvidence>)
    ensures forall r :: r in rest <==> r in rewards && feeds(KeyOf(r))
  {
    if rewards == [] then []
    else
      var init, last := rewards[..|rewards| - 1], rewards[|rewards| - 1];
      assert rewards == init + [last];
      if feeds(KeyOf(last)) then Only(init, feeds) + [last] else Only(init, feeds)
  }

  lemma OneMoreAmount(rewards: seq<RewardEvidence>, r: RewardEvidence)
    ensures DistinctCents(rewards + [r])
         == DistinctCents(rewards) + if KeyOf(r) in Keys(rewards) then 0 else Cents(r.amount)
  {
    assert (rewards + [r])[..|rewards|] == rewards;
  }

  lemma OnlyLast(init: seq<RewardEvidence>, last: RewardEvidence, feeds: Key -> bool)
    ensures Only(init + [last], feeds)
         == if feeds(KeyOf(last)) then Only(init, feeds) + [last] else Only(init, feeds)
  {
    assert (init + [last])[..|init|] == init;
  }

  lemma TotalByKeysLast(init: seq<RewardEvidence>, last: RewardEvidence, feeds: Key -> bool, p: Item -> bool)
    requires Cents(last.amount) != 0 ==> (p(RewardItem(last)) <==> feeds(KeyOf(last)))
    requires RewardSum(init, p) == DistinctCents(Only(init, feeds))
    ensures RewardSum(init + [last], p) == DistinctCents(Only(init + [last], feeds))
  {
    OneMoreShare(init, last, p);
    OnlyLast(init, last, feeds);
    OneMoreAmount(Only(init, feeds), last);
    if feeds(KeyOf(last)) { OnlyKeepsKey(init, feeds, KeyOf(last)); }
  }

  /** Where keys tell, a total is the amounts of the distinct keys that feed it. */
  lemma {:induction false} TotalByKeys(rewards: seq<RewardEvidence>, feeds: Key -> bool, p: Item -> bool)
    requires Tells(feeds, rewards, p)
    ensures RewardSum(rewards, p) == DistinctCents(Only(rewards, feeds))
  {
    if rewards != [] {
      var init, last := rewards[..|rewards| - 1], rewards[|rewards| - 1];
      assert rewards == init + [last] && last in rewards;
      assert forall r | r in init :: r in rewards;
      TotalByKeys(init, feeds, p);
      TotalByKeysLast(init, last, feeds, p);
    }
  }

  lemma OnlyKeepsKey(rewards: seq<RewardEvidence>, feeds: Key -> bool, k: Key)
    requires feeds(k)
    ensures k in Keys(Only(rewards, feeds)) <==> k in Keys(rewards)
  {
  }

  lemma UnanimousTells(rewards: seq<RewardEvidence>, p: Item -> bool)
    requires Unanimous(rewards, p)
    ensures Tells(KeyFeeds(rewards, p), rewards, p)
  {
    forall r | r in rewards && Cents(r.amount) != 0 ensures p(RewardItem(r)) <==> KeyFeeds(rewards, p)(KeyOf(r)) {
      var i :| 0 <= i < |rewards| && rewards[i] == r;
      if KeyFeeds(rewards, p)(KeyOf(r)) {
        var s :| s in rewards && KeyOf(s) == KeyOf(r) && p(RewardItem(s));
        var j :| 0 <= j < |rewards| && rewards[j] == s;
        assert !Disagree(rewards[i], rewards[j], p);
      }
    }
  }

  lemma SameEvidenceSameKeys(a: seq<RewardEvidence>, b: seq<RewardEvidence>, feeds: Key -> bool)
    requires forall r :: r in a <==> r in b
    ensures Keys(Only(a, feeds)) == Keys(Only(b, feeds))
  {
  }

  /** Where the evidence is unanimous, a total depends on which evidence there is: neither on its order nor
      on repetitions. */
  lemma UnanimousTotalsDependOnEvidence(a: seq<RewardEvidence>, b: seq<RewardEvidence>, p: Item -> bool)
    requires Unanimous(a, p) && forall r :: r in a <==> r in b
    ensures RewardSum(a, p) == RewardSum(b, p)
  {
    var feeds := KeyFeeds(a, p);
    UnanimousTells(a, p);
    TotalByKeys(a, feeds, p);
    TotalByKeys(b, feeds, p);
    SameEvidenceSameKeys(a, b, feeds);
    DistinctCentsDependOnKeys(Only(a, feeds), Only(b, feeds));
  }

  /** Every order of the evidence gives the same total. */
  ghost predicate OrderIsFree(rewards: seq<RewardEvidence>, p: Item -> bool) {
    forall other: seq<RewardEvidence> | multiset(other) == multiset(rewards) ::
      RewardSum(other, p) == RewardSum(rewards, p)
  }

  /** Two pieces brought to the front. */
  lemma BroughtToFront(rewards: seq<RewardEvidence>, i: nat, j: nat) returns (rest: seq<RewardEvidence>)
    requires i < j < |rewards|
    ensures multiset([] + [rewards[i]] + [rewards[j]] + rest) == multiset(rewards)
    ensures multiset([] + [rewards[j]] + [rewards[i]] + rest) == multiset(rewards)
  {
    rest := rewards[..i] + rewards[i + 1..j] + rewards[j + 1..];
    assert rewards == rewards[..i] + [rewards[i]] + rewards[i + 1..j] + [rewards[j]] + rewards[j + 1..];
  }

  lemma DisagreementShows(rewards: seq<RewardEvidence>, i: nat, j: nat, p: Item -> bool)
    requires i < j < |rewards| && Disagree(rewards[i], rewards[j], p)
    ensures !OrderIsFree(rewards, p)
  {
    var r, s := rewards[i], rewards[j];
    var rest := BroughtToFront(rewards, i, j);
    SwapKeepsTotalExactlyWhen([], r, s, rest, p);
    assert RewardSum([] + [r] + [s] + rest, p) != RewardSum([] + [s] + [r] + rest, p);
  }

  /** A total is the same for every order of the reward evidence exactly when no two pieces of one key,
      worth something, disagree on whether they feed it. */
  lemma OrderIsFreeExactlyWhen(rewards: seq<RewardEvidence>, p: Item -> bool)
    ensures OrderIsFree(rewards, p) <==> Unanimous(rewards, p)
  {
    if Unanimous(rewards, p) {
      forall other: seq<RewardEvidence> | multiset(other) == multiset(rewards)
        ensures RewardSum(other, p) == RewardSum(rewards, p)
      {
        SameElements(other, rewards);
        UnanimousTotalsDependOnEvidence(rewards, other, p);
      }
    } else {
      var i, j :| 0 <= i < |rewards| && 0 <= j < |rewards| && Disagree(rewards[i], rewards[j], p);
      if i < j { DisagreementShows(rewards, i, j, p); } else { DisagreementShows(rewards, j, i, p); }
    }
  }

  lemma SameElements(a: seq<RewardEvidence>, b: seq<RewardEvidence>)
    requires multiset(a) == multiset(b)
    ensures forall r :: r in a <==> r in b
  {
    forall r ensures r in a <==> r in b {
      assert r in a <==> r in multiset(a);
      assert r in b <==> r in multiset(b);
    }
  }

  // ----- projections -----

  lemma TotalsOfReordered(t: Trace, other: seq<RewardEvidence>, p: Item -> bool)
    ensures Sum(Items(t.(rewards := other)), p) - Sum(Items(t), p) == RewardSum(other, p) - RewardSum(t.rewards, p)
  {
    SumConcat(RewardItems(t.rewards), OtherItems(t), p);
    SumConcat(RewardItems(other), OtherItems(t), p);
  }

  /** The same for whole projections: reordering the rewards of a trace keeps each overall and each category
      total about which the rewards are unanimous. */
  lemma ReorderedProjectionsAgree(t: Trace, other: seq<RewardEvidence>, q: Projection, u: Projection)
    requires multiset(other) == multiset(t.rewards)
    requires IsProjection(q, t) && IsProjection(u, t.(rewards := other))
    ensures forall f: Field | Unanimous(t.rewards, Feeding(f)) :: u.totals[f] == q.totals[f]
    ensures forall c: Category, f: Field | Unanimous(t.rewards, FeedingIn(c, f)) ::
              u.byCategory[c][f] == q.byCategory[c][f]
  {
    forall f: Field | Unanimous(t.rewards, Feeding(f)) ensures u.totals[f] == q.totals[f] {
      OrderIsFreeExactlyWhen(t.rewards, Feeding(f));
      TotalsOfReordered(t, other, Feeding(f));
    }
    forall c: Category, f: Field | Unanimous(t.rewards, FeedingIn(c, f))
      ensures u.byCategory[c][f] == q.byCategory[c][f]
    {
      OrderIsFreeExactlyWhen(t.rewards, FeedingIn(c, f));
      TotalsOfReordered(t, other, FeedingIn(c, f));
    }
  }
}
