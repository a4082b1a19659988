/** The repair commands as updates of tables. Each command first reads the rows it will work on, then
    inserts and updates from what it read. */
module OutcomeTables {
  import opened Prelude
  import opened OutcomeEvidence
  import opened OutcomeWallets

  lemma CanCredit(s: Books, track: Track, filter: Option<Tenant>, chosen: seq<nat>, k: nat)
    requires ValidChoice(s, track, filter, chosen) && k < |chosen|
    ensures var t := Credit(s, chosen[..k]);
            chosen[k] < |t.commissions| && t.commissions[chosen[k]].account in t.wallets
  {
    CreditFrame(s, chosen[..k]);
    assert Creditable(s, track, filter, chosen[k]);
    assert SameCommission(s.commissions[chosen[k]], Credit(s, chosen[..k]).commissions[chosen[k]]);
  }

  class Tables {
    var rewards: seq<Reward>
    var commissions: seq<Commission>
    var wallets: map<Account, Wallet>
    var movements: seq<Movement>
    var invoices: seq<Invoice>
    var lines: seq<Line>
    var audits: map<RewardId, RewardId>
    var settlements: seq<Settlement>
    var exceptions: seq<SettlementException>

    function View(): Books
      reads this
    {
      Books(rewards, commissions, wallets, movements, invoices, lines, audits, settlements, exceptions)
    }

    constructor (s: Books)
      ensures View() == s
    {
      rewards, commissions, wallets, movements := s.rewards, s.commissions, s.wallets, s.movements;
      invoices, lines := s.invoices, s.lines;
      audits, settlements, exceptions := s.audits, s.settlements, s.exceptions;
    }

    method CreateRewardEvidence(w: World, track: Track, filter: Option<Tenant>) returns (created: nat)
      modifies this`rewards
      ensures View() == CreateReward(w, old(View()), track, filter)
      ensures created == |rewards| - |old(rewards)|
    {
      if !Completed(w, track, filter) || track !in w.policies { return 0; }
      var policy := w.policies[track];
      var cents := PolicyCents(policy);
      if cents <= 0 || HasReward(rewards, track, policy.kind) { return 0; }
      rewards := rewards + [Reward(track, policy.kind, w.instances[track].tenant, cents as real)];
      return 1;
    }

    /** The first reward of the referral that earns a commission. */
    method FirstEarning(w: World, track: Track) returns (pick: Option<RewardId>)
      ensures ValidPick(w, View(), track, pick)
    {
      for k := 0 to |rewards|
        invariant forall j: nat | j < k :: !Earns(w, View(), track, j)
      {
        if Earns(w, View(), track, k) { return Some(k); }
      }
      return None;
    }

    method CreateCommissionEvidence(w: World, track: Track, filter: Option<Tenant>)
      returns (created: nat, ghost pick: Option<RewardId>)
      modifies this`commissions
      ensures ValidPick(w, old(View()), track, pick)
      ensures View() == CreateCommission(w, old(View()), track, filter, pick)
      ensures created == |commissions| - |old(commissions)|
    {
      var found := FirstEarning(w, track);
      pick := found;
      if found == None || !Completed(w, track, filter) { return 0, pick; }
      var link, tenant := w.links[track], w.instances[track].tenant;
      if Recorded(commissions, tenant, track) { return 0, pick; }
      var account := Account(link.distributor, link.rule.value.currency);
      commissions := commissions
        + [Commission(tenant, Some(track), Some(track), account, CommissionFor(link, rewards[found.value]), false)];
      return 1, pick;
    }

    /** The commissions to credit: the first one due on each wallet. */
    method DueCommissions(track: Track, filter: Option<Tenant>) returns (due: seq<nat>)
      ensures due == FirstPerWallet(View(), track, filter, |commissions|)
    {
      due := [];
      for e := 0 to |commissions|
        invariant due == FirstPerWallet(View(), track, filter, e)
      {
        if Creditable(View(), track, filter, e) && !Covered(View(), due, e) { due := due + [e]; }
      }
    }

    method CreditCommission(e: nat)
      requires e < |commissions| && commissions[e].account in wallets
      modifies this`wallets, this`movements, this`commissions
      ensures View() == CreditOne(old(View()), e)
    {
      var c := commissions[e];
      var w := wallets[c.account];
      wallets := wallets[c.account := Wallet(w.active, w.current + c.cents, w.available + c.cents)];
      movements := movements + [Movement(c.tenant, c.account, true, c.cents, w.available,
                                         w.available + c.cents, c.source, c.source)];
      commissions := commissions[e := c.(credited := true)];
    }

    method CreateWalletEvidence(track: Track, filter: Option<Tenant>) returns (chosen: seq<nat>)
      modifies this`wallets, this`movements, this`commissions
      ensures ValidChoice(old(View()), track, filter, chosen)
      ensures View() == Credit(old(View()), chosen)
    {
      chosen := DueCommissions(track, filter);
      ChoiceExists(View(), track, filter);
      ghost var start := View();
      for k := 0 to |chosen|
        invariant View() == Credit(start, chosen[..k])
      {
        assert chosen[..k + 1][..k] == chosen[..k];
        CanCredit(start, track, filter, chosen, k);
        CreditCommission(chosen[k]);
      }
      assert chosen[..|chosen|] == chosen;
    }

    method UninvoicedRewards(track: Track) returns (ids: seq<RewardId>)
      ensures ids == ToInvoice(View(), track)
    {
      ids := [];
      for k := 0 to |rewards|
        invariant ids == Select(k, Uninvoiced(View(), track))
      {
        if rewards[k].track == track && !HasLine(lines, k) { ids := ids + [k]; }
      }
    }

    method CreateInvoiceEvidence(w: World, track: Track, filter: Option<Tenant>) returns (lineCount: nat)
      modifies this`invoices, this`lines
      ensures View() == CreateInvoice(w, old(View()), track, filter)
      ensures lineCount == |lines| - |old(lines)|
    {
      if !Completed(w, track, filter) || !Linked(w, track) { return 0; }
      var ids := UninvoicedRewards(track);
      if ids == [] { return 0; }
      var total: real := 0.0;
      var added: seq<Line> := [];
      for k := 0 to |ids|
        invariant total == Amounts(rewards, ids[..k])
        invariant added == InvoiceLines(rewards, |invoices|, ids[..k]) && |added| == k
        invariant View() == old(View())
      {
        assert ids[..k + 1][..k] == ids[..k];
        var amount := AmountAt(rewards, ids[k]);
        total := total + amount;
        added := added + [Line(|invoices|, ids[k], Round(amount))];
      }
      assert ids[..|ids|] == ids;
      invoices := invoices + [Invoice(w.instances[track].tenant, w.links[track].sponsor, Round(total))];
      lines := lines + added;
      return |added|;
    }

    method UnsettledRewards(w: World, track: Track, filter: Option<Tenant>) returns (ids: seq<RewardId>)
      ensures ids == ToSettle(w, View(), track, filter)
    {
      ids := [];
      for k := 0 to |rewards|
        invariant ids == Select(k, Unsettled(w, View(), track, filter))
      {
        if rewards[k].track == track && Matches(filter, rewards[k].tenant) && track in w.instances
          && w.instances[track].complete
           && HasLine(lines, k) && !HasSettled(settlements, k) {
          ids := ids + [k];
        }
      }
    }

    method CreateSettlementEvidence(w: World, track: Track, filter: Option<Tenant>) returns (settled: nat)
      modifies this`audits, this`settlements
      ensures View() == CreateSettlement(w, old(View()), track, filter)
      ensures settled == |settlements| - |old(settlements)|
    {
      var ids := UnsettledRewards(w, track, filter);
      ghost var start := View();
      var added: seq<Settlement> := [];
      var known := audits;
      for k := 0 to |ids|
        invariant audits == Audited(start.audits, ids[..k])
        invariant added == Settlements(start, ids[..k])
        invariant View() == start.(audits := audits)
        invariant known == start.audits
      {
        assert ids[..k + 1][..k] == ids[..k];
        if ids[k] !in audits { audits := audits[ids[k] := ids[k]]; }
        if Correlated(known, ids[k]) {
          added := added + [Settlement(ids[k], Settled, Round(AmountAt(rewards, ids[k])))];
        }
      }
      assert ids[..|ids|] == ids;
      settlements := settlements + added;
      return |added|;
    }

    /** Answers how many exceptions were open until now. */
    method ResolveSettlementExceptions(track: Track, filter: Option<Tenant>) returns (resolved: nat)
      modifies this`exceptions
      ensures View() == ResolveExceptions(old(View()), track, filter)
      ensures resolved == |Select(|old(exceptions)|, OpenFor(old(View()), track, filter))|
    {
      resolved := 0;
      ghost var start := View();
      var done: seq<SettlementException> := [];
      for k := 0 to |exceptions|
        invariant View() == start && |done| == k
        invariant forall j | 0 <= j < k :: done[j] == Resolved(start, exceptions[j], track, filter)
        invariant resolved == |Select(k, OpenFor(start, track, filter))|
      {
        var x := exceptions[k];
        if x.open && ConcernsTrack(View(), x, track, filter) {
          done := done + [x.(open := false)];
          resolved := resolved + 1;
        } else {
          done := done + [x];
        }
      }
      exceptions := done;
    }
  }
}
