/** When an outcome can be repaired to READY on the tables themselves. */
module OutcomeReach {
  import opened Prelude
  import opened OutcomeEvidence
  import opened OutcomeWallets
  import opened OutcomeBooks
  import opened OutcomeLink
  import R = OutcomeRepair

  /** The reward that a repair would create. */
  function PolicyReward(w: World, track: Track): Reward
    requires track in w.instances && track in w.policies
  {
    Reward(track, w.policies[track].kind, w.instances[track].tenant, PolicyCents(w.policies[track]) as real)
  }

  /** A reward of the referral, present or still to be created, earns a commission. */
  ghost predicate CanEarn(w: World, s: Books, track: Track)
    requires track in w.instances
  {
    Linked(w, track) &&
    if Reported(w, s, track).rewards > 0 then exists k :: Earns(w, s, track, k)
    else PolicyPays(w, track) && CommissionFor(w.links[track], PolicyReward(w, track)) > 0
  }

  /** A commission of the referral, present or still to be created, can be credited. */
  ghost predicate CanCreditOne(w: World, s: Books, track: Track)
    requires track in w.instances
  {
    if Reported(w, s, track).commissions > 0
    then exists e: nat :: Creditable(s, track, Some(w.instances[track].tenant), e)
    else
      Linked(w, track) && w.links[track].rule.Some? &&
      var account := Account(w.links[track].distributor, w.links[track].rule.value.currency);
      account in s.wallets && s.wallets[account].active
  }

  /** A reward of the referral, billed or still to be, can be settled. */
  ghost predicate CanSettleOne(w: World, s: Books, track: Track)
    requires track in w.instances
  {
    if Reported(w, s, track).invoices > 0 then exists k :: CanSettle(s, track, None, k)
    else if Reported(w, s, track).rewards > 0 then exists k :: OfTrack(s.rewards, track, k) && Correlated(s.audits, k)
    else Correlated(s.audits, |s.rewards|)
  }

  /** Policy, product, rule, wallet and audits supply whatever evidence is missing. */
  ghost predicate Supplied(w: World, s: Books, track: Track) {
    && track in w.instances && w.instances[track].complete
    && var o := Reported(w, s, track);
       && (o.rewards > 0 || (PolicyPays(w, track) && w.instances[track].product))
       && (o.commissions > 0 || CanEarn(w, s, track))
       && (o.walletMovements > 0 || CanCreditOne(w, s, track))
       && (o.invoices > 0 || Linked(w, track))
       && (o.settled > 0 || CanSettleOne(w, s, track))
  }

  lemma SuppliedReward(w: World, s: Books, track: Track) returns (c: Command)
    requires Grounded(s) && Supplied(w, s, track) && Reported(w, s, track).rewards <= 0
    ensures Effective(w, s, track, c) && Supplied(w, Perform(w, s, c), track)
  {
    c := RepairReward(track, None);
    var o, t := Reported(w, s, track), CreateReward(w, s, track, None);
    R.OfferedMeans(o, R.CreateEvidence(R.RewardRecorded));
    RewardRepairPerforms(w, s, track, None);
    NoRewardYet(s.rewards, track);
    assert t.rewards == s.rewards + [PolicyReward(w, track)];
    if o.commissions <= 0 { assert Earns(w, t, track, |s.rewards|); }
    CreditableSame(w, s, t, track);
    if o.settled <= 0 {
      if o.invoices > 0 {
        var k :| CanSettle(s, track, None, k);
        assert CanSettle(t, track, None, k);
      } else {
        assert OfTrack(t.rewards, track, |s.rewards|) && Correlated(t.audits, |s.rewards|);
      }
    }
  }

  /** Where commissions, wallets and movements stay, what can be credited stays. */
  lemma CreditableSame(w: World, s: Books, t: Books, track: Track)
    requires track in w.instances && t.commissions == s.commissions && t.wallets == s.wallets
             && t.movements == s.movements
    ensures CanCreditOne(w, t, track) <==> CanCreditOne(w, s, track)
  {
    assert forall e: nat :: Creditable(t, track, Some(w.instances[track].tenant), e)
                       <==> Creditable(s, track, Some(w.instances[track].tenant), e);
  }

  lemma SuppliedCommission(w: World, s: Books, track: Track) returns (c: Command)
    requires Grounded(s) && Supplied(w, s, track)
    requires var o := Reported(w, s, track); o.rewards > 0 && o.commissions <= 0
    ensures Effective(w, s, track, c) && Supplied(w, Perform(w, s, c), track)
  {
    var k :| Earns(w, s, track, k);
    c := RepairCommission(track, None, Some(k));
    var o, t := Reported(w, s, track), CreateCommission(w, s, track, None, Some(k));
    R.OfferedMeans(o, R.CreateEvidence(R.CommissionCalculated));
    CommissionRepairPerforms(w, s, track, None, Some(k));
    NotRecordedYet(s.commissions, w.instances[track].tenant, track);
    if o.walletMovements <= 0 {
      MovementRows(s.movements, w.instances[track].tenant, track);
      assert Creditable(t, track, Some(w.instances[track].tenant), |s.commissions|);
    }
    SettleableSame(w, s, t, track);
  }

  lemma SettleableSame(w: World, s: Books, t: Books, track: Track)
    requires track in w.instances && t.rewards == s.rewards && t.lines == s.lines && t.audits == s.audits
             && t.invoices == s.invoices
    ensures CanSettleOne(w, t, track) <==> CanSettleOne(w, s, track)
  {
    assert forall k :: CanSettle(t, track, None, k) <==> CanSettle(s, track, None, k);
  }

  lemma SuppliedWallet(w: World, s: Books, track: Track) returns (c: Command)
    requires Supplied(w, s, track)
    requires var o := Reported(w, s, track); o.commissions > 0 && o.walletMovements <= 0
    ensures Effective(w, s, track, c) && Supplied(w, Perform(w, s, c), track)
  {
    var chosen := EffectiveWalletRepair(w, s, track);
    c := RepairWallet(track, Some(w.instances[track].tenant), chosen);
    CreditStaysSupplied(w, s, track, chosen);
  }

  /** Crediting `chosen` brings movements and changes nothing else on the map. */
  ghost predicate BringsMovements(w: World, s: Books, track: Track, chosen: seq<nat>)
    requires track in w.instances
  {
    var o, after := Reported(w, s, track), Reported(w, Credit(s, chosen), track);
    after.walletMovements > 0 && after == o.(walletMovements := after.walletMovements)
  }

  lemma EffectiveWalletRepair(w: World, s: Books, track: Track) returns (chosen: seq<nat>)
    requires track in w.instances && w.instances[track].complete
    requires var o := Reported(w, s, track); o.commissions > 0 && o.walletMovements <= 0
    requires CanCreditOne(w, s, track)
    ensures Effective(w, s, track, RepairWallet(track, Some(w.instances[track].tenant), chosen))
    ensures BringsMovements(w, s, track, chosen)
  {
    R.OfferedMeans(Reported(w, s, track), R.CreateEvidence(R.WalletMovement));
    chosen := PayingChoice(s, track, w.instances[track].tenant);
    WalletRepairPerforms(w, s, track, Some(w.instances[track].tenant), chosen);
  }

  lemma PayingChoice(s: Books, track: Track, tenant: Tenant) returns (chosen: seq<nat>)
    requires exists e: nat :: Creditable(s, track, Some(tenant), e)
    ensures ValidChoice(s, track, Some(tenant), chosen) && PaysTenant(s.commissions, chosen, tenant, track)
  {
    chosen := FirstPerWallet(s, track, Some(tenant), |s.commissions|);
    ChoiceExists(s, track, Some(tenant));
    TenantWalletRepairPays(s, track, tenant, chosen);
  }

  lemma CreditStaysSupplied(w: World, s: Books, track: Track, chosen: seq<nat>)
    requires Supplied(w, s, track) && BringsMovements(w, s, track, chosen) && Reported(w, s, track).commissions > 0
    ensures Supplied(w, Credit(s, chosen), track)
  {
    CreditKeepsSupplies(w, s, track, chosen);
  }

  lemma CreditKeepsSupplies(w: World, s: Books, track: Track, chosen: seq<nat>)
    requires track in w.instances
    ensures var t := Credit(s, chosen);
            && (CanEarn(w, t, track) <==> CanEarn(w, s, track))
              && (CanSettleOne(w, t, track) <==> CanSettleOne(w, s, track))
  {
    CreditFrame(s, chosen);
    EarningSame(w, s, Credit(s, chosen), track);
    SettleableSame(w, s, Credit(s, chosen), track);
  }

  lemma EarningSame(w: World, s: Books, t: Books, track: Track)
    requires track in w.instances && t.rewards == s.rewards
    ensures CanEarn(w, t, track) <==> CanEarn(w, s, track)
  {
    assert forall k :: Earns(w, t, track, k) <==> Earns(w, s, track, k);
  }

  lemma SuppliedInvoice(w: World, s: Books, track: Track) returns (c: Command)
    requires Grounded(s) && Supplied(w, s, track)
    requires var o := Reported(w, s, track); o.rewards > 0 && o.invoices <= 0
    ensures Effective(w, s, track, c) && Supplied(w, Perform(w, s, c), track)
  {
    c := RepairInvoice(track, None);
    var o, t := Reported(w, s, track), CreateInvoice(w, s, track, None);
    R.OfferedMeans(o, R.CreateEvidence(R.InvoiceLine));
    InvoiceRepairPerforms(w, s, track, None);
    EarningSame(w, s, t, track);
    CreditableSame(w, s, t, track);
    if o.settled <= 0 {
      var k :| OfTrack(s.rewards, track, k) && Correlated(s.audits, k);
      AfterInvoicing(s, track, |s.invoices|, k);
      InvoicedCanSettle(w, s, track, k);
    }
  }

  lemma InvoicedCanSettle(w: World, s: Books, track: Track, k: RewardId)
    requires Grounded(s) && track in w.instances && w.instances[track].complete && Linked(w, track)
    requires OfTrack(s.rewards, track, k) && Correlated(s.audits, k)
    ensures CanSettle(CreateInvoice(w, s, track, None), track, None, k)
  {
    AfterInvoicing(s, track, |s.invoices|, k);
    if ToInvoice(s, track) == [] {
      assert s.lines + InvoiceLines(s.rewards, |s.invoices|, []) == s.lines;
    }
  }

  lemma SuppliedResolve(w: World, s: Books, track: Track) returns (c: Command)
    requires Grounded(s) && Supplied(w, s, track) && Reported(w, s, track).exceptions > 0
    ensures Effective(w, s, track, c) && Supplied(w, Perform(w, s, c), track)
  {
    c := ResolveAll(track, None);
    var t := ResolveExceptions(s, track, None);
    R.OfferedMeans(Reported(w, s, track), R.ResolveExceptions);
    ResolvingAllClears(s, track);
    ResolvingPerforms(w, s, track, None);
    EarningSame(w, s, t, track);
    CreditableSame(w, s, t, track);
    SettleableSame(w, s, t, track);
  }

  lemma SuppliedSettlement(w: World, s: Books, track: Track) returns (c: Command)
    requires Grounded(s) && Supplied(w, s, track)
    requires var o := Reported(w, s, track); o.rewards > 0 && o.invoices > 0 && o.exceptions <= 0 && o.settled <= 0
    ensures Effective(w, s, track, c) && Supplied(w, Perform(w, s, c), track)
  {
    c := RepairSettlement(track, None);
    var t := CreateSettlement(w, s, track, None);
    R.OfferedMeans(Reported(w, s, track), R.CreateEvidence(R.SettlementSettled));
    SettlementRepairPerforms(w, s, track, None);
    EarningSame(w, s, t, track);
    CreditableSame(w, s, t, track);
  }

  /** While an outcome is supplied but not READY, some command is effective and leaves it supplied. */
  lemma NextEffectiveCommand(w: World, s: Books, track: Track) returns (c: Command)
    requires Grounded(s) && Supplied(w, s, track) && !R.Ready(Reported(w, s, track))
    ensures Effective(w, s, track, c) && Supplied(w, Perform(w, s, c), track)
  {
    var o := Reported(w, s, track);
    R.ReadyMeans(o);
    if o.rewards <= 0 {
      c := SuppliedReward(w, s, track);
    } else if o.commissions <= 0 {
      c := SuppliedCommission(w, s, track);
    } else if o.walletMovements <= 0 {
      c := SuppliedWallet(w, s, track);
    } else if o.invoices <= 0 {
      c := SuppliedInvoice(w, s, track);
    } else if o.exceptions > 0 {
      c := SuppliedResolve(w, s, track);
    } else {
      c := SuppliedSettlement(w, s, track);
    }
  }

  /** A run of effective commands from `s` that ends in READY. */
  ghost predicate LeadsToReady(w: World, s: Books, track: Track, states: seq<Books>, commands: seq<Command>)
    requires track in w.instances
  {
    && IsRun(w, states, commands) && states[0] == s
    && (forall k | 0 <= k < |commands| :: Effective(w, states[k], track, commands[k]))
    && R.Ready(Reported(w, states[|commands|], track))
  }

  /** If policy, rule, wallet and audits supply what is missing, effective commands reach READY. */
  lemma {:induction false} SuppliedReachesReady(w: World, s: Books, track: Track)
    returns (states: seq<Books>, commands: seq<Command>)
    requires Grounded(s) && Supplied(w, s, track)
    ensures LeadsToReady(w, s, track, states, commands)
    decreases R.Work(Reported(w, s, track))
  {
    if R.Ready(Reported(w, s, track)) {
      states, commands := [s], [];
    } else {
      var c := NextEffectiveCommand(w, s, track);
      var t := Perform(w, s, c);
      var r := EffectiveCommandRepairs(w, s, track, c);
      R.RepairMakesProgress(Reported(w, s, track), r);
      CommandKeepsGrounded(w, s, c);
      states, commands := SuppliedReachesReady(w, t, track);
      LeadsFrom(w, s, track, c, states, commands);
      states, commands := [s] + states, [c] + commands;
    }
  }

  lemma LeadsFrom(w: World, s: Books, track: Track, c: Command, states: seq<Books>, commands: seq<Command>)
    requires track in w.instances && Effective(w, s, track, c)
    requires LeadsToReady(w, Perform(w, s, c), track, states, commands)
    ensures LeadsToReady(w, s, track, [s] + states, [c] + commands)
  {
    var longer, more := [s] + states, [c] + commands;
    forall k | 0 <= k < |more|
      ensures Possible(w, longer[k], more[k]) && longer[k + 1] == Perform(w, longer[k], more[k])
              && Effective(w, longer[k], track, more[k])
    {
      if k > 0 { assert longer[k] == states[k - 1] && more[k] == commands[k - 1] && longer[k + 1] == states[k]; }
    }
    assert longer[|more|] == states[|commands|];
  }

  // ----- and that nothing else reaches READY -----

  lemma RewardWasSupplied(w: World, s: Books, track: Track, filter: Option<Tenant>)
    requires Grounded(s) && track in w.instances && Effective(w, s, track, RepairReward(track, filter))
    requires Supplied(w, CreateReward(w, s, track, filter), track)
    ensures Supplied(w, s, track)
  {
    var o, t := Reported(w, s, track), CreateReward(w, s, track, filter);
    R.OfferedMeans(o, R.CreateEvidence(R.RewardRecorded));
    RewardRepairPerforms(w, s, track, filter);
    NoRewardYet(s.rewards, track);
    assert t.rewards == s.rewards + [PolicyReward(w, track)];
    OnlyNewReward(s, t, track);
    CreditableSame(w, s, t, track);
  }

  lemma OnlyNewReward(s: Books, t: Books, track: Track)
    requires |t.rewards| == |s.rewards| + 1
    requires forall k | 0 <= k < |s.rewards| :: t.rewards[k] == s.rewards[k] && s.rewards[k].track != track
    ensures forall k | OfTrack(t.rewards, track, k) :: k == |s.rewards|
  {
  }

  lemma CommissionWasSupplied(w: World, s: Books, track: Track, filter: Option<Tenant>, pick: Option<RewardId>)
    requires track in w.instances && Effective(w, s, track, RepairCommission(track, filter, pick))
    requires Supplied(w, CreateCommission(w, s, track, filter, pick), track)
    ensures Supplied(w, s, track)
  {
    var o, t := Reported(w, s, track), CreateCommission(w, s, track, filter, pick);
    R.OfferedMeans(o, R.CreateEvidence(R.CommissionCalculated));
    CommissionRepairPerforms(w, s, track, filter, pick);
    if o.walletMovements <= 0 { OnlyNewCommission(w, s, track, filter, pick); }
    SettleableSame(w, s, t, track);
  }

  /** What can be credited afterwards is the commission just created, on the rule's account. */
  lemma OnlyNewCommission(w: World, s: Books, track: Track, filter: Option<Tenant>, pick: Option<RewardId>)
    requires Completed(w, track, filter) && pick.Some? && Earns(w, s, track, pick.value)
    requires Reported(w, s, track).commissions <= 0
    requires var t := CreateCommission(w, s, track, filter, pick);
             exists e: nat :: Creditable(t, track, Some(w.instances[track].tenant), e)
    ensures CanCreditOne(w, s, track)
  {
    var tenant, t := w.instances[track].tenant, CreateCommission(w, s, track, filter, pick);
    var e: nat :| Creditable(t, track, Some(tenant), e);
    if e < |s.commissions| {
      SelectNone(|s.commissions|, IsCommission(s.commissions, tenant, track), e);
    }
  }

  lemma WalletWasSupplied(w: World, s: Books, track: Track, filter: Option<Tenant>, chosen: seq<nat>)
    requires track in w.instances && Effective(w, s, track, RepairWallet(track, filter, chosen))
    requires Supplied(w, Credit(s, chosen), track)
    ensures Supplied(w, s, track)
  {
    R.OfferedMeans(Reported(w, s, track), R.CreateEvidence(R.WalletMovement));
    WalletRepairPerforms(w, s, track, filter, chosen);
    CreditKeepsSupplies(w, s, track, chosen);
    var k :| 0 <= k < |chosen| && chosen[k] < |s.commissions|
      && s.commissions[chosen[k]].tenant == w.instances[track].tenant
      && s.commissions[chosen[k]].source == Some(track);
    assert Creditable(s, track, filter, chosen[k]);
    assert Creditable(s, track, Some(w.instances[track].tenant), chosen[k]);
  }

  lemma InvoiceWasSupplied(w: World, s: Books, track: Track, filter: Option<Tenant>)
    requires Grounded(s) && track in w.instances && Effective(w, s, track, RepairInvoice(track, filter))
    requires Supplied(w, CreateInvoice(w, s, track, filter), track)
    ensures Supplied(w, s, track)
  {
    R.OfferedMeans(Reported(w, s, track), R.CreateEvidence(R.InvoiceLine));
    InvoiceRepairPerforms(w, s, track, filter);
    BillingWasSupplied(w, s, CreateInvoice(w, s, track, filter), track);
  }

  /** Billing supplies nothing but the invoice. */
  lemma BillingWasSupplied(w: World, s: Books, t: Books, track: Track)
    requires t == s.(lines := t.lines, invoices := t.invoices) && Supplied(w, t, track) && Linked(w, track)
    requires Reported(w, s, track) == Reported(w, t, track).(invoices := 0)
    requires var o := Reported(w, t, track); o.rewards > 0 && o.invoices > 0
    ensures Supplied(w, s, track)
  {
    EarningSame(w, s, t, track);
    CreditableSame(w, s, t, track);
    if Reported(w, s, track).settled <= 0 { BillingAside(s, t, track); }
  }

  lemma BillingAside(s: Books, t: Books, track: Track)
    requires t.rewards == s.rewards && t.audits == s.audits && exists k :: CanSettle(t, track, None, k)
    ensures exists k :: OfTrack(s.rewards, track, k) && Correlated(s.audits, k)
  {
    var k :| CanSettle(t, track, None, k);
    assert OfTrack(s.rewards, track, k) && Correlated(s.audits, k);
  }

  lemma SettlementWasSupplied(w: World, s: Books, track: Track, filter: Option<Tenant>)
    requires Grounded(s) && track in w.instances && Effective(w, s, track, RepairSettlement(track, filter))
    requires Supplied(w, CreateSettlement(w, s, track, filter), track)
    ensures Supplied(w, s, track)
  {
    R.OfferedMeans(Reported(w, s, track), R.CreateEvidence(R.SettlementSettled));
    SettlementRepairPerforms(w, s, track, filter);
    SettlesUnfiltered(s, track, filter);
    SettlingWasSupplied(w, s, CreateSettlement(w, s, track, filter), track);
  }

  /** Settling supplies nothing but the settlement. */
  lemma SettlingWasSupplied(w: World, s: Books, t: Books, track: Track)
    requires t == s.(audits := t.audits, settlements := t.settlements) && Supplied(w, t, track)
    requires Reported(w, s, track) == Reported(w, t, track).(settled := Reported(w, s, track).settled)
    requires Reported(w, s, track).invoices > 0 && exists k :: CanSettle(s, track, None, k)
    ensures Supplied(w, s, track)
  {
    EarningSame(w, s, t, track);
    CreditableSame(w, s, t, track);
  }

  lemma SettlesUnfiltered(s: Books, track: Track, filter: Option<Tenant>)
    requires exists k :: CanSettle(s, track, filter, k)
    ensures exists k :: CanSettle(s, track, None, k)
  {
    var k :| CanSettle(s, track, filter, k);
    assert CanSettle(s, track, None, k);
  }

  lemma ResolveWasSupplied(w: World, s: Books, track: Track, filter: Option<Tenant>)
    requires track in w.instances && Supplied(w, ResolveExceptions(s, track, filter), track)
    ensures Supplied(w, s, track)
  {
    var t := ResolveExceptions(s, track, filter);
    ResolvingPerforms(w, s, track, filter);
    EarningSame(w, s, t, track);
    CreditableSame(w, s, t, track);
    SettleableSame(w, s, t, track);
  }

  /** An outcome that is supplied after an effective command was supplied before it. */
  lemma WasSupplied(w: World, s: Books, track: Track, c: Command)
    requires Grounded(s) && track in w.instances && Effective(w, s, track, c) && Supplied(w, Perform(w, s, c), track)
    ensures Supplied(w, s, track)
  {
    match c
    case RepairReward(_, filter) => RewardWasSupplied(w, s, track, filter);
    case RepairCommission(_, filter, pick) => CommissionWasSupplied(w, s, track, filter, pick);
    case RepairWallet(_, filter, chosen) => WalletWasSupplied(w, s, track, filter, chosen);
    case RepairInvoice(_, filter) => InvoiceWasSupplied(w, s, track, filter);
    case RepairSettlement(_, filter) => SettlementWasSupplied(w, s, track, filter);
    case ResolveAll(_, filter) => ResolveWasSupplied(w, s, track, filter);
  }

  lemma {:induction false} ReadyWasSupplied(w: World, s: Books, track: Track, states: seq<Books>,
                                            commands: seq<Command>)
    requires Grounded(s) && track in w.instances && w.instances[track].complete
    requires LeadsToReady(w, s, track, states, commands)
    ensures Supplied(w, s, track)
    decreases |commands|
  {
    if commands == [] {
      R.ReadyMeans(Reported(w, s, track));
    } else {
      LeadsOn(w, s, track, states, commands);
      CommandKeepsGrounded(w, s, commands[0]);
      ReadyWasSupplied(w, states[1], track, states[1..], commands[1..]);
      WasSupplied(w, s, track, commands[0]);
    }
  }

  lemma LeadsOn(w: World, s: Books, track: Track, states: seq<Books>, commands: seq<Command>)
    requires track in w.instances && commands != [] && LeadsToReady(w, s, track, states, commands)
    ensures Effective(w, s, track, commands[0]) && states[1] == Perform(w, s, commands[0])
    ensures LeadsToReady(w, states[1], track, states[1..], commands[1..])
  {
    var later, rest := states[1..], commands[1..];
    forall k | 0 <= k < |rest|
      ensures Possible(w, later[k], rest[k]) && later[k + 1] == Perform(w, later[k], rest[k])
      ensures Effective(w, later[k], track, rest[k])
    {
      assert later[k] == states[k + 1] && rest[k] == commands[k + 1] && later[k + 1] == states[k + 2];
    }
    assert later[|rest|] == states[|commands|];
  }

  /** On the tables themselves, effective commands can take a completed outcome to READY exactly when
      policy, product, rule, wallet and audits supply what is missing. */
  lemma ReadyReachableExactlyWhenSupplied(w: World, s: Books, track: Track)
    requires Grounded(s) && track in w.instances && w.instances[track].complete
    ensures (exists states, commands :: LeadsToReady(w, s, track, states, commands)) <==> Supplied(w, s, track)
  {
    if Supplied(w, s, track) {
      var states, commands := SuppliedReachesReady(w, s, track);
      assert LeadsToReady(w, s, track, states, commands);
    }
    if states, commands :| LeadsToReady(w, s, track, states, commands) {
      ReadyWasSupplied(w, s, track, states, commands);
    }
  }
}
