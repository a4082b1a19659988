/** What the repair commands write and the money map shows, told on policies, rules, rewards and rows. */
module OutcomeFields {
  import opened Prelude
  import opened OutcomeEvidence
  import opened OutcomeLink

  /** Whole cents nearest to an amount, halves away from zero. */
  predicate IsRounded(x: real, cents: int) {
    var error := x - cents as real;
    if x >= 0.0 then -0.5 <= error < 0.5 else -0.5 < error <= 0.5
  }

  lemma RoundsAwayFromZero(x: real, cents: int)
    ensures Round(x) == cents <==> IsRounded(x, cents)
  {
  }

  /** A completed outcome that the tenant filter lets through. */
  predicate InHand(w: World, track: Track, filter: Option<Tenant>) {
    && track in w.instances && w.instances[track].complete
    && (filter == None || filter.value == w.instances[track].tenant)
  }

  // ----- rewards -----

  /** What a policy pays: its referrer amount, or its referee amount where that is not positive and the
      policy allows it. */
  predicate Pays(p: Policy, cents: int) {
    cents > 0 && (p.referrerCents == cents || (p.referrerCents <= 0 && p.allowsReferee && p.refereeCents == cents))
  }

  lemma PaysExactlyWhen(p: Policy, cents: int)
    ensures Pays(p, cents) <==> PolicyCents(p) == cents > 0
  {
  }

  /** A reward repair inserts one reward of the policy's kind and amount for the outcome's tenant, unless the
      outcome is not in hand, no policy pays, or a reward of that kind is there. */
  lemma CreatedReward(w: World, s: Books, track: Track, filter: Option<Tenant>, cents: int)
    requires track in w.policies && Pays(w.policies[track], cents)
    ensures CreateReward(w, s, track, filter)
         == if InHand(w, track, filter)
               && forall r | r in s.rewards :: r.track != track || r.kind != w.policies[track].kind
            then s.(rewards := s.rewards
                               + [Reward(track, w.policies[track].kind, w.instances[track].tenant, cents as real)])
            else s
  {
    PaysExactlyWhen(w.policies[track], cents);
  }

  lemma NoPolicyNoReward(w: World, s: Books, track: Track, filter: Option<Tenant>)
    requires track !in w.policies || forall cents :: !Pays(w.policies[track], cents)
    ensures CreateReward(w, s, track, filter) == s
  {
    if track in w.policies { PaysExactlyWhen(w.policies[track], PolicyCents(w.policies[track])); }
  }

  // ----- commissions -----

  function OrZero(x: Option<int>): int { if x.Some? then x.value else 0 }

  function OrNothing(x: Option<real>): real { if x.Some? then x.value else 0.0 }

  /** The commission of a rule before its bounds, from its share of the reward. */
  predicate IsRawOf(rule: Rule, estimate: Option<int>, share: real, cents: int) {
    match rule.kind
    case Percentage => IsRounded(share, cents)
    case Fixed => cents == OrZero(rule.fixed)
    case Hybrid => IsRounded(OrZero(rule.fixed) as real + share, cents)
    case Estimated => cents == OrZero(estimate)
  }

  predicate IsRaw(rule: Rule, estimate: Option<int>, reward: real, cents: int) {
    IsRawOf(rule, estimate, ShareOf(reward, OrNothing(rule.rate)), cents)
  }

  lemma RawFromShare(rule: Rule, estimate: Option<int>, reward: real, share: real, cents: int)
    requires share == ShareOf(reward, OrElse(rule.rate, 0.0))
    ensures RawCommission(rule, estimate, reward) == cents <==> IsRawOf(rule, estimate, share, cents)
  {
    assert OrElse(rule.fixed, 0) == OrZero(rule.fixed) && OrElse(estimate, 0) == OrZero(estimate);
    RoundsAwayFromZero(share, cents);
    RoundsAwayFromZero(OrZero(rule.fixed) as real + share, cents);
  }

  /** The share of a reward is its amount times the rate, none without a rate. */
  lemma ShareIsProduct(reward: real, rate: real)
    ensures ShareOf(reward, rate) == reward * rate
  {
  }

  lemma RawExactlyWhen(rule: Rule, estimate: Option<int>, reward: real, cents: int)
    ensures RawCommission(rule, estimate, reward) == cents <==> IsRaw(rule, estimate, reward, cents)
  {
    assert OrElse(rule.rate, 0.0) == OrNothing(rule.rate);
    RawFromShare(rule, estimate, reward, ShareOf(reward, OrNothing(rule.rate)), cents);
  }

  /** Bounds: without a most they do nothing; with one, the amount raised to the least is cut to it. */
  predicate IsBounded(rule: Rule, raw: int, cents: int) {
    var raised := if rule.least.Some? && rule.least.value > raw then rule.least.value else raw;
    match rule.most
    case None => cents == raw
    case Some(most) => cents <= most && cents <= raised && (cents == most || cents == raised)
  }

  lemma BoundedExactlyWhen(rule: Rule, raw: int)
    ensures IsBounded(rule, raw, BoundedCommission(rule, raw))
    ensures forall cents | IsBounded(rule, raw, cents) :: cents == BoundedCommission(rule, raw)
  {
  }

  /** What a reward earns under a link's rule. */
  ghost predicate IsEarned(link: Link, reward: Reward, cents: int) {
    if link.rule == None then cents == 0
    else exists raw ::
      IsRaw(link.rule.value, link.estimate, reward.amount, raw) && IsBounded(link.rule.value, raw, cents)
  }

  lemma EarnedExactlyWhen(link: Link, reward: Reward, cents: int)
    ensures CommissionFor(link, reward) == cents <==> IsEarned(link, reward, cents)
  {
    if link.rule.Some? {
      var rule, raw := link.rule.value, RawCommission(link.rule.value, link.estimate, reward.amount);
      RawExactlyWhen(rule, link.estimate, reward.amount, raw);
      BoundedExactlyWhen(rule, raw);
      if IsEarned(link, reward, cents) {
        var other :| IsRaw(rule, link.estimate, reward.amount, other) && IsBounded(rule, other, cents);
        RawExactlyWhen(rule, link.estimate, reward.amount, other);
      }
    }
  }

  /** A commission repair for a picked reward inserts what that reward earns, on the rule's account, for the
      outcome's tenant and referral, uncredited; unless the outcome is not in hand or a commission names it. */
  lemma CreatedCommission(w: World, s: Books, track: Track, filter: Option<Tenant>, k: RewardId, cents: int)
    requires Earns(w, s, track, k) && IsEarned(w.links[track], s.rewards[k], cents)
    ensures w.links[track].rule.Some?
    ensures CreateCommission(w, s, track, filter, Some(k))
         == if && InHand(w, track, filter)
               && forall c | c in s.commissions ::
                    c.tenant != w.instances[track].tenant || (c.source != Some(track) && c.correlation != Some(track))
            then s.(commissions := s.commissions
                      + [Commission(w.instances[track].tenant, Some(track), Some(track),
                                    Account(w.links[track].distributor, w.links[track].rule.value.currency), cents,
                                    false)])
            else s
  {
    EarnedExactlyWhen(w.links[track], s.rewards[k], cents);
  }

  /** Which rewards can be picked: the referral's own, under an active link, with something to earn. */
  lemma EarnsExactlyWhen(w: World, s: Books, track: Track, k: RewardId)
    ensures Earns(w, s, track, k) <==>
              && k < |s.rewards| && s.rewards[k].track == track && track in w.links && w.links[track].active
              && exists cents :: cents > 0 && IsEarned(w.links[track], s.rewards[k], cents)
  {
    if k < |s.rewards| && track in w.links {
      EarnedExactlyWhen(w.links[track], s.rewards[k], CommissionFor(w.links[track], s.rewards[k]));
      if cents :| cents > 0 && IsEarned(w.links[track], s.rewards[k], cents) {
        EarnedExactlyWhen(w.links[track], s.rewards[k], cents);
      }
    }
  }

  // ----- wallets -----

  /** A commission is due: it stems from the referral, passes the filter, has an active wallet, and no
      movement of its tenant names the referral. */
  lemma DueExactlyWhen(s: Books, track: Track, filter: Option<Tenant>, e: nat)
    ensures Creditable(s, track, filter, e) <==>
              && e < |s.commissions| && s.commissions[e].source == Some(track)
              && (filter == None || filter.value == s.commissions[e].tenant)
              && s.commissions[e].account in s.wallets && s.wallets[s.commissions[e].account].active
              && forall m | m in s.movements ::
                   m.tenant != s.commissions[e].tenant || (m.correlation != Some(track) && m.source != Some(track))
  {
  }

  /** Crediting a commission: its wallet grows by it on both balances, the movement says so for its tenant and
      referral, and the commission is marked. */
  lemma CreditedCommission(s: Books, e: nat)
    requires e < |s.commissions| && s.commissions[e].account in s.wallets
    ensures var t, c := CreditOne(s, e), s.commissions[e];
            var w := s.wallets[c.account];
            && t.wallets == s.wallets[c.account := Wallet(w.active, w.current + c.cents, w.available + c.cents)]
            && t.commissions
            == s.commissions[e := Commission(c.tenant, c.source, c.correlation, c.account, c.cents, true)]
            && t.movements == s.movements + [Movement(c.tenant, c.account, true, c.cents, w.available,
                                                      w.available + c.cents, c.source, c.source)]
            && t.rewards == s.rewards && t.invoices == s.invoices && t.lines == s.lines
            && t.audits == s.audits && t.settlements == s.settlements && t.exceptions == s.exceptions
  {
  }

  // ----- invoices -----

  /** The rewards an invoice repair bills: the referral's own without a line, in order. */
  lemma BilledRewards(s: Books, track: Track, k: RewardId)
    ensures k in ToInvoice(s, track) <==>
              k < |s.rewards| && s.rewards[k].track == track && forall l | l in s.lines :: l.reward != k
  {
    SelectMeans(|s.rewards|, Uninvoiced(s, track));
  }

  lemma {:induction false} LinesByReward(rewards: seq<Reward>, invoice: nat, ids: seq<RewardId>)
    requires forall k | k in ids :: k < |rewards|
    ensures |InvoiceLines(rewards, invoice, ids)| == |ids|
    ensures forall n | 0 <= n < |ids| ::
              var l := InvoiceLines(rewards, invoice, ids)[n];
              l.invoice == invoice && l.reward == ids[n] < |rewards| && IsRounded(rewards[ids[n]].amount, l.cents)
  {
    if ids != [] {
      var init := ids[..|ids| - 1];
      assert ids == init + [ids[|ids| - 1]];
      assert forall k | k in init :: k in ids;
      LinesByReward(rewards, invoice, init);
      assert ids[|ids| - 1] in ids;
      RoundsAwayFromZero(AmountAt(rewards, ids[|ids| - 1]), Round(AmountAt(rewards, ids[|ids| - 1])));
    }
  }

  /** An invoice repair files one invoice for the outcome's tenant and sponsor, over the rounded total of the
      billed rewards, with a line for each; unless the outcome is not in hand or linked, or nothing is
      unbilled. */
  lemma CreatedInvoice(w: World, s: Books, track: Track, filter: Option<Tenant>)
    ensures var t, ids := CreateInvoice(w, s, track, filter), ToInvoice(s, track);
            if !InHand(w, track, filter) || track !in w.links || !w.links[track].active || ids == [] then t == s
            else
              && |t.invoices| == |s.invoices| + 1 && t.invoices[..|s.invoices|] == s.invoices
              && t.invoices[|s.invoices|].tenant == w.instances[track].tenant
              && t.invoices[|s.invoices|].sponsor == w.links[track].sponsor
              && IsRounded(Amounts(s.rewards, ids), t.invoices[|s.invoices|].subtotal)
              && t.lines == s.lines + InvoiceLines(s.rewards, |s.invoices|, ids)
              && t == s.(invoices := t.invoices, lines := t.lines)
  {
    RoundsAwayFromZero(Amounts(s.rewards, ToInvoice(s, track)), Round(Amounts(s.rewards, ToInvoice(s, track))));
  }

  // ----- settlements -----

  /** The rewards a settlement repair takes up: the referral's own that pass the filter, billed and not
      settled, of a completed outcome. */
  lemma TakenUpRewards(w: World, s: Books, track: Track, filter: Option<Tenant>, k: RewardId)
    ensures k in ToSettle(w, s, track, filter) <==>
              && k < |s.rewards| && s.rewards[k].track == track
              && (filter == None || filter.value == s.rewards[k].tenant)
              && track in w.instances && w.instances[track].complete
              && (exists l :: l in s.lines && l.reward == k)
              && forall x | x in s.settlements :: x.reward != k || x.status != Settled
  {
    SelectMeans(|s.rewards|, Unsettled(w, s, track, filter));
  }

  lemma {:induction false} SettledRowsOnFields(s: Books, ids: seq<RewardId>)
    requires forall k | k in ids :: k < |s.rewards|
    ensures forall x | x in Settlements(s, ids) ::
              && x.status == Settled && x.reward in ids && x.reward < |s.rewards|
              && (x.reward !in s.audits || s.audits[x.reward] == x.reward)
              && IsRounded(s.rewards[x.reward].amount, x.cents)
    ensures forall k | k in ids && (k !in s.audits || s.audits[k] == k) ::
              exists x :: x in Settlements(s, ids) && x.reward == k
  {
    if ids != [] {
      var init, last := ids[..|ids| - 1], ids[|ids| - 1];
      assert ids == init + [last];
      assert forall k | k in init :: k in ids;
      SettledRowsOnFields(s, init);
      assert last in ids;
      RoundsAwayFromZero(AmountAt(s.rewards, last), Round(AmountAt(s.rewards, last)));
      assert Correlated(s.audits, last) ==>
               Settlement(last, Settled, Round(AmountAt(s.rewards, last))) in Settlements(s, ids);
    }
  }

  /** A settlement repair audits every reward it takes up that has no audit, and adds a SETTLED row for each
      whose audit is its own. */
  lemma CreatedSettlements(w: World, s: Books, track: Track, filter: Option<Tenant>, k: RewardId)
    ensures var t, ids := CreateSettlement(w, s, track, filter), ToSettle(w, s, track, filter);
            && t == s.(audits := t.audits, settlements := s.settlements + Settlements(s, ids))
            && (k in t.audits <==> k in s.audits || k in ids)
            && (k in s.audits ==> t.audits[k] == s.audits[k])
            && (k in ids && k !in s.audits ==> t.audits[k] == k)
  {
    AuditedOnFields(s.audits, ToSettle(w, s, track, filter), k);
  }

  lemma {:induction false} AuditedOnFields(audits: map<RewardId, RewardId>, ids: seq<RewardId>, k: RewardId)
    ensures var t := Audited(audits, ids);
            && (k in t <==> k in audits || k in ids)
            && (k in audits ==> t[k] == audits[k])
            && (k in ids && k !in audits ==> t[k] == k)
  {
    if ids != [] {
      assert ids == ids[..|ids| - 1] + [ids[|ids| - 1]];
      AuditedOnFields(audits, ids[..|ids| - 1], k);
    }
  }

  // ----- exceptions -----

  /** Resolving closes an exception exactly if it is on a settlement of one of the referral's rewards that
      passes the filter; everything else stays. */
  lemma ResolvedException(s: Books, track: Track, filter: Option<Tenant>, k: nat)
    requires k < |s.exceptions|
    ensures var t, x := ResolveExceptions(s, track, filter), s.exceptions[k];
            && |t.exceptions| == |s.exceptions| && t == s.(exceptions := t.exceptions)
            && t.exceptions[k].settlement == x.settlement
            && (t.exceptions[k].open <==>
                  x.open && !(&& x.settlement < |s.settlements| && s.settlements[x.settlement].reward < |s.rewards|
                              && s.rewards[s.settlements[x.settlement].reward].track == track
                              && (filter == None
                                  || filter.value == s.rewards[s.settlements[x.settlement].reward].tenant)))
  {
  }

  /** The reported number of resolved exceptions is that of those it closed. */
  lemma ResolvedCount(s: Books, track: Track, filter: Option<Tenant>)
    ensures var t, n := ResolveExceptions(s, track, filter), |s.exceptions|;
            && |t.exceptions| == n
            && Select(n, OpenFor(s, track, filter))
            == Select(n, (k: nat) => k < n && s.exceptions[k].open && !t.exceptions[k].open)
  {
    var t, n := ResolveExceptions(s, track, filter), |s.exceptions|;
    SelectSame(n, OpenFor(s, track, filter), (k: nat) => k < n && s.exceptions[k].open && !t.exceptions[k].open);
  }

  // ----- the money map -----

  lemma {:induction false} SelectCounts(n: nat, p: nat -> bool)
    ensures |Select(n, p)| == |set k: nat | k < n && p(k)|
  {
    if n > 0 {
      SelectCounts(n - 1, p);
      var before, after := set k: nat | k < n - 1 && p(k), set k: nat | k < n && p(k);
      assert after == before + if p(n - 1) then {n - 1} else {};
    }
  }

  function RewardRows(s: Books, track: Track): set<nat> {
    set k: nat | k < |s.rewards| && s.rewards[k].track == track
  }

  function CommissionRows(s: Books, tenant: Tenant, track: Track): set<nat> {
    set k: nat | k < |s.commissions| && s.commissions[k].tenant == tenant
                 && (s.commissions[k].source == Some(track) || s.commissions[k].correlation == Some(track))
  }

  function MovementIds(s: Books, tenant: Tenant, track: Track): set<nat> {
    set k: nat | k < |s.movements| && s.movements[k].tenant == tenant
                 && (s.movements[k].source == Some(track) || s.movements[k].correlation == Some(track))
  }

  predicate IsOver(s: Books, track: Track, j: nat) {
    exists l | l in s.lines :: l.invoice == j && l.reward in RewardRows(s, track)
  }

  function InvoiceIds(s: Books, track: Track): set<nat> { set j: nat | j < |s.invoices| && IsOver(s, track, j) }

  function SettledIds(s: Books, track: Track): set<nat> {
    set k: nat | k < |s.settlements| && s.settlements[k].status == Settled
                 && s.settlements[k].reward in RewardRows(s, track)
  }

  function OpenExceptionIds(s: Books, track: Track): set<nat> {
    set k: nat | k < |s.exceptions| && s.exceptions[k].open && s.exceptions[k].settlement < |s.settlements|
                 && s.settlements[s.exceptions[k].settlement].reward in RewardRows(s, track)
  }

  /** What the money map counts for a completed referral: its rewards, its tenant's commissions and movements
      that name it, the invoices and settlements over its rewards, and the open exceptions on those. */
  lemma MoneyMapCounts(w: World, s: Books, track: Track)
    requires track in w.instances
    ensures var o, tenant := Reported(w, s, track), w.instances[track].tenant;
            && o.rewards == |RewardRows(s, track)| && o.commissions == |CommissionRows(s, tenant, track)|
            && o.walletMovements == |MovementIds(s, tenant, track)| && o.invoices == |InvoiceIds(s, track)|
            && o.settled == |SettledIds(s, track)| && o.exceptions == |OpenExceptionIds(s, track)|
  {
    var i := w.instances[track];
    SelectCounts(|s.rewards|, IsReward(s.rewards, track));
    assert (set k: nat | k < |s.rewards| && IsReward(s.rewards, track)(k)) == RewardRows(s, track);
    SelectCounts(|s.commissions|, IsCommission(s.commissions, i.tenant, track));
    assert (set k: nat | k < |s.commissions| && IsCommission(s.commissions, i.tenant, track)(k))
        == CommissionRows(s, i.tenant, track);
    SelectCounts(|s.movements|, IsMovement(s.movements, i.tenant, track));
    assert (set k: nat | k < |s.movements| && IsMovement(s.movements, i.tenant, track)(k))
        == MovementIds(s, i.tenant, track);
    InvoiceCount(s, track);
    SettledCountOnFields(s, track);
    ExceptionCount(s, track);
  }

  lemma InvoiceCount(s: Books, track: Track)
    ensures |Select(|s.invoices|, IsInvoice(s.rewards, s.lines, track))| == |InvoiceIds(s, track)|
  {
    var p := IsInvoice(s.rewards, s.lines, track);
    SelectCounts(|s.invoices|, p);
    forall j: nat ensures p(j) <==> IsOver(s, track, j) {
      if p(j) { var l :| l in s.lines && l.invoice == j && OfTrack(s.rewards, track, l.reward); }
    }
    assert (set j: nat | j < |s.invoices| && p(j)) == InvoiceIds(s, track);
  }

  lemma SettledCountOnFields(s: Books, track: Track)
    ensures |Select(|s.settlements|, IsSettled(s.rewards, s.settlements, track))| == |SettledIds(s, track)|
  {
    var p := IsSettled(s.rewards, s.settlements, track);
    SelectCounts(|s.settlements|, p);
    assert (set k: nat | k < |s.settlements| && p(k)) == SettledIds(s, track);
  }

  lemma ExceptionCount(s: Books, track: Track)
    ensures |Select(|s.exceptions|, IsOpen(s.rewards, s.settlements, s.exceptions, track))|
         == |OpenExceptionIds(s, track)|
  {
    var p := IsOpen(s.rewards, s.settlements, s.exceptions, track);
    SelectCounts(|s.exceptions|, p);
    assert (set k: nat | k < |s.exceptions| && p(k)) == OpenExceptionIds(s, track);
  }

  /** The context the map shows: the product on file, the sponsor of an active link, and a distributor that is
      the link's or the referrer. */
  lemma MoneyMapContext(w: World, s: Books, track: Track)
    requires track in w.instances
    ensures var o := Reported(w, s, track);
            && (o.product <==> w.instances[track].product)
            && (o.sponsor <==> track in w.links && w.links[track].active)
            && (o.distributor <==> (track in w.links && w.links[track].active) || w.instances[track].referrer)
  {
  }
}
