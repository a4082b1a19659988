/** Crediting commissions to wallets: when a repeated wallet repair does nothing, and why every cent a
    wallet gains is in its ledger. */
module OutcomeWallets {
  import opened Prelude
  import opened OutcomeEvidence

  /** A referral is the source of at most one commission per tenant. */
  ghost predicate UniqueSources(commissions: seq<Commission>) {
    forall i, j | 0 <= i < j < |commissions| && commissions[i].source.Some? ::
      commissions[i].source != commissions[j].source || commissions[i].tenant != commissions[j].tenant
  }

  // ----- what crediting leaves alone -----

  predicate SameCommission(c: Commission, d: Commission) { c.(credited := true) == d.(credited := true) }

  ghost predicate SameCommissions(a: seq<Commission>, b: seq<Commission>) {
    |a| == |b| && forall e | 0 <= e < |a| :: SameCommission(a[e], b[e])
  }

  ghost predicate SameWallets(a: map<Account, Wallet>, b: map<Account, Wallet>) {
    a.Keys == b.Keys && forall k | k in a :: a[k].active == b[k].active
  }

  /** Crediting changes wallets, movements and the credited marks, nothing else. */
  lemma {:induction false} CreditFrame(s: Books, chosen: seq<nat>)
    ensures var t := Credit(s, chosen);
            && t == s.(wallets := t.wallets, movements := t.movements, commissions := t.commissions)
            && SameCommissions(s.commissions, t.commissions) && SameWallets(s.wallets, t.wallets)
  {
    if chosen != [] { CreditFrame(s, chosen[..|chosen| - 1]); }
  }

  lemma MovedByOne(movements: seq<Movement>, m: Movement, tenant: Tenant, track: Track)
    ensures Moved(movements + [m], tenant, track)
       <==> Moved(movements, tenant, track) || (m.tenant == tenant
                                                && (m.correlation == Some(track) || m.source == Some(track)))
  {
    if Moved(movements, tenant, track) {
      var n :| n in movements && n.tenant == tenant && (n.correlation == Some(track) || n.source == Some(track));
      assert n in movements + [m];
    }
    assert m in movements + [m];
  }

  /** Some chosen commission of the referral belongs to the tenant. */
  ghost predicate PaysTenant(commissions: seq<Commission>, chosen: seq<nat>, tenant: Tenant, track: Track) {
    exists k | 0 <= k < |chosen| ::
      chosen[k] < |commissions| && commissions[chosen[k]].tenant == tenant
        && commissions[chosen[k]].source == Some(track)
  }

  /** Commissions that can be credited because their wallets exist. */
  ghost predicate HaveWallets(s: Books, chosen: seq<nat>) {
    forall k | 0 <= k < |chosen| :: chosen[k] < |s.commissions| && s.commissions[chosen[k]].account in s.wallets
  }

  lemma {:induction false} MovedAfter(s: Books, chosen: seq<nat>, tenant: Tenant, track: Track)
    requires HaveWallets(s, chosen)
    ensures Moved(Credit(s, chosen).movements, tenant, track)
       <==> Moved(s.movements, tenant, track) || PaysTenant(s.commissions, chosen, tenant, track)
  {
    if chosen != [] {
      var init, last := chosen[..|chosen| - 1], chosen[|chosen| - 1];
      MovedAfter(s, init, tenant, track);
      CreditFrame(s, init);
      var t := Credit(s, init);
      assert SameCommission(s.commissions[last], t.commissions[last]);
      MovedByOne(t.movements, CreditMovement(t.commissions[last], t.wallets[t.commissions[last].account]), tenant,
                 track);
      PaysByOne(s.commissions, init, last, tenant, track);
      assert chosen == init + [last];
    }
  }

  lemma PaysByOne(commissions: seq<Commission>, init: seq<nat>, last: nat, tenant: Tenant, track: Track)
    requires last < |commissions|
    ensures PaysTenant(commissions, init + [last], tenant, track)
       <==> PaysTenant(commissions, init, tenant, track)
            || (commissions[last].tenant == tenant && commissions[last].source == Some(track))
  {
    var all := init + [last];
    assert all[|init|] == last;
    if PaysTenant(commissions, init, tenant, track) {
      var k :| 0 <= k < |init| && init[k] < |commissions| && commissions[init[k]].tenant == tenant
        && commissions[init[k]].source == Some(track);
      assert all[k] == init[k];
    }
    if PaysTenant(commissions, all, tenant, track)
      && !(commissions[last].tenant == tenant && commissions[last].source == Some(track)) {
      var k :| 0 <= k < |all| && all[k] < |commissions| && commissions[all[k]].tenant == tenant
        && commissions[all[k]].source == Some(track);
      assert init[k] == all[k];
    }
  }

  /** After a wallet repair, a commission is still due exactly if it was due and was not chosen. */
  lemma StillCreditable(s: Books, track: Track, filter: Option<Tenant>, chosen: seq<nat>, e: nat)
    requires UniqueSources(s.commissions) && ValidChoice(s, track, filter, chosen)
    ensures Creditable(Credit(s, chosen), track, filter, e) <==> Creditable(s, track, filter, e) && e !in chosen
  {
    CreditFrame(s, chosen);
    if e < |s.commissions| && s.commissions[e].source == Some(track) {
      var c := s.commissions[e];
      assert SameCommission(c, Credit(s, chosen).commissions[e]);
      MovedAfter(s, chosen, c.tenant, track);
      if PaysTenant(s.commissions, chosen, c.tenant, track) {
        var k :| 0 <= k < |chosen| && chosen[k] < |s.commissions| && s.commissions[chosen[k]].tenant == c.tenant
          && s.commissions[chosen[k]].source == Some(track);
        assert chosen[k] == e;
      }
    }
  }

  // ----- when twice is once -----

  /** No two commissions that are due share a wallet. */
  ghost predicate OnePerWallet(s: Books, track: Track, filter: Option<Tenant>) {
    forall d: nat, e: nat | Creditable(s, track, filter, d) && Creditable(s, track, filter, e) ::
      s.commissions[d].account == s.commissions[e].account ==> d == e
  }

  /** Whatever a second wallet repair chooses, it changes nothing. */
  ghost predicate SecondRunIsIdle(t: Books, track: Track, filter: Option<Tenant>) {
    forall again | ValidChoice(t, track, filter, again) :: Credit(t, again) == t
  }

  /** The first commission due on each wallet, among the first `n`. */
  function FirstPerWallet(s: Books, track: Track, filter: Option<Tenant>, n: nat): seq<nat> {
    if n == 0 then []
    else
      var before := FirstPerWallet(s, track, filter, n - 1);
      if Creditable(s, track, filter, n - 1) && !Covered(s, before, n - 1) then before + [n - 1] else before
  }

  /** The commissions are due and on different wallets. */
  ghost predicate DueOnDistinctWallets(s: Books, track: Track, filter: Option<Tenant>, chosen: seq<nat>) {
    && (forall k | 0 <= k < |chosen| :: Creditable(s, track, filter, chosen[k]))
    && (forall j, k | 0 <= j < k < |chosen| :: s.commissions[chosen[j]].account != s.commissions[chosen[k]].account)
  }

  lemma {:induction false} FirstPerWalletIsDistinct(s: Books, track: Track, filter: Option<Tenant>, n: nat)
    ensures DueOnDistinctWallets(s, track, filter, FirstPerWallet(s, track, filter, n))
  {
    if n > 0 {
      var before := FirstPerWallet(s, track, filter, n - 1);
      FirstPerWalletIsDistinct(s, track, filter, n - 1);
      if Creditable(s, track, filter, n - 1) && !Covered(s, before, n - 1) {
        OneMoreWallet(s, track, filter, before, n - 1);
      }
    }
  }

  lemma OneMoreWallet(s: Books, track: Track, filter: Option<Tenant>, before: seq<nat>, e: nat)
    requires DueOnDistinctWallets(s, track, filter, before) && Creditable(s, track, filter, e) && !Covered(s, before, e)
    ensures DueOnDistinctWallets(s, track, filter, before + [e])
  {
    var all := before + [e];
    forall k | 0 <= k < |all| ensures Creditable(s, track, filter, all[k]) {
      if k < |before| { assert all[k] == before[k]; }
    }
    forall j, k | 0 <= j < k < |all| ensures s.commissions[all[j]].account != s.commissions[all[k]].account {
      assert all[j] == before[j];
      if k < |before| { assert all[k] == before[k]; }
    }
  }

  lemma {:induction false} FirstPerWalletCovers(s: Books, track: Track, filter: Option<Tenant>, n: nat, e: nat)
    requires e < n && Creditable(s, track, filter, e)
    ensures Covered(s, FirstPerWallet(s, track, filter, n), e)
  {
    var before, chosen := FirstPerWallet(s, track, filter, n - 1), FirstPerWallet(s, track, filter, n);
    if e < n - 1 {
      FirstPerWalletCovers(s, track, filter, n - 1, e);
      CoveredStays(s, before, chosen, e);
    } else if chosen != before {
      assert chosen[|before|] == e;
    }
  }

  lemma CoveredStays(s: Books, before: seq<nat>, chosen: seq<nat>, e: nat)
    requires before <= chosen && Covered(s, before, e)
    ensures Covered(s, chosen, e)
  {
    var k :| 0 <= k < |before| && before[k] < |s.commissions|
      && s.commissions[before[k]].account == s.commissions[e].account;
    assert chosen[k] == before[k];
  }

  lemma ChoiceExists(s: Books, track: Track, filter: Option<Tenant>)
    ensures ValidChoice(s, track, filter, FirstPerWallet(s, track, filter, |s.commissions|))
  {
    var chosen := FirstPerWallet(s, track, filter, |s.commissions|);
    FirstPerWalletIsDistinct(s, track, filter, |s.commissions|);
    forall e: nat | Creditable(s, track, filter, e) ensures Covered(s, chosen, e) {
      FirstPerWalletCovers(s, track, filter, |s.commissions|, e);
    }
  }

  lemma CreditingMoves(s: Books, chosen: seq<nat>)
    requires chosen != [] && HaveWallets(s, chosen)
    ensures |Credit(s, chosen).movements| > |s.movements|
  {
    var init, last := chosen[..|chosen| - 1], chosen[|chosen| - 1];
    MovementsGrow(s, init);
    CreditFrame(s, init);
    assert SameCommission(s.commissions[last], Credit(s, init).commissions[last]);
  }

  lemma {:induction false} MovementsGrow(s: Books, chosen: seq<nat>)
    ensures |Credit(s, chosen).movements| >= |s.movements|
  {
    if chosen != [] { MovementsGrow(s, chosen[..|chosen| - 1]); }
  }

  /** A wallet repair run twice equals one run exactly when no two commissions due share a wallet. */
  lemma WalletRepairIsIdempotentExactlyWhen(s: Books, track: Track, filter: Option<Tenant>, chosen: seq<nat>)
    requires UniqueSources(s.commissions) && ValidChoice(s, track, filter, chosen)
    ensures SecondRunIsIdle(Credit(s, chosen), track, filter) <==> OnePerWallet(s, track, filter)
  {
    if OnePerWallet(s, track, filter) {
      NothingLeftToCredit(s, track, filter, chosen);
    } else {
      SomethingLeftToCredit(s, track, filter, chosen);
    }
  }

  lemma ChosenIfCovered(s: Books, track: Track, filter: Option<Tenant>, chosen: seq<nat>, e: nat)
    requires ValidChoice(s, track, filter, chosen) && OnePerWallet(s, track, filter) && Creditable(s, track, filter, e)
    ensures e in chosen
  {
    assert Covered(s, chosen, e);
    var k :| 0 <= k < |chosen| && chosen[k] < |s.commissions|
      && s.commissions[chosen[k]].account == s.commissions[e].account;
    assert Creditable(s, track, filter, chosen[k]);
  }

  lemma NothingDue(t: Books, track: Track, filter: Option<Tenant>, again: seq<nat>)
    requires ValidChoice(t, track, filter, again)
    requires forall e: nat :: !Creditable(t, track, filter, e)
    ensures again == []
  {
    FirstIsDue(t, track, filter, again);
  }

  lemma FirstIsDue(t: Books, track: Track, filter: Option<Tenant>, again: seq<nat>)
    requires ValidChoice(t, track, filter, again)
    ensures again == [] || Creditable(t, track, filter, again[0])
  {
  }

  lemma NothingLeftToCredit(s: Books, track: Track, filter: Option<Tenant>, chosen: seq<nat>)
    requires UniqueSources(s.commissions) && ValidChoice(s, track, filter, chosen) && OnePerWallet(s, track, filter)
    ensures SecondRunIsIdle(Credit(s, chosen), track, filter)
  {
    var t := Credit(s, chosen);
    forall e: nat ensures !Creditable(t, track, filter, e) {
      StillCreditable(s, track, filter, chosen, e);
      if Creditable(s, track, filter, e) { ChosenIfCovered(s, track, filter, chosen, e); }
    }
    forall again | ValidChoice(t, track, filter, again) ensures Credit(t, again) == t {
      NothingDue(t, track, filter, again);
    }
  }

  /** Of two commissions due on one wallet, a choice leaves one out. */
  lemma OneIsLeftOut(s: Books, track: Track, filter: Option<Tenant>, chosen: seq<nat>, d: nat, e: nat)
    requires ValidChoice(s, track, filter, chosen) && d != e
    requires d < |s.commissions| && e < |s.commissions| && s.commissions[d].account == s.commissions[e].account
    ensures d !in chosen || e !in chosen
  {
    if d in chosen {
      var j :| 0 <= j < |chosen| && chosen[j] == d;
      forall k | 0 <= k < |chosen| ensures chosen[k] != e {
        if j < k { assert s.commissions[chosen[j]].account != s.commissions[chosen[k]].account; }
        if k < j { assert s.commissions[chosen[k]].account != s.commissions[chosen[j]].account; }
      }
    }
  }

  lemma DueMeansBusy(t: Books, track: Track, filter: Option<Tenant>, e: nat)
    requires Creditable(t, track, filter, e)
    ensures !SecondRunIsIdle(t, track, filter)
  {
    var again := FirstPerWallet(t, track, filter, |t.commissions|);
    ChoiceExists(t, track, filter);
    assert Covered(t, again, e);
    CreditingMoves(t, again);
  }

  lemma SomethingLeftToCredit(s: Books, track: Track, filter: Option<Tenant>, chosen: seq<nat>)
    requires UniqueSources(s.commissions) && ValidChoice(s, track, filter, chosen) && !OnePerWallet(s, track, filter)
    ensures !SecondRunIsIdle(Credit(s, chosen), track, filter)
  {
    var d: nat, e: nat :| Creditable(s, track, filter, d) && Creditable(s, track, filter, e)
      && s.commissions[d].account == s.commissions[e].account && d != e;
    OneIsLeftOut(s, track, filter, chosen, d, e);
    var left := if d in chosen then e else d;
    StillCreditable(s, track, filter, chosen, left);
    DueMeansBusy(Credit(s, chosen), track, filter, left);
  }

  /** A repair for one tenant is always idempotent. */
  lemma {:induction false} TenantRepairIsIdempotent(s: Books, track: Track, tenant: Tenant, chosen: seq<nat>)
    requires UniqueSources(s.commissions) && ValidChoice(s, track, Some(tenant), chosen)
    ensures SecondRunIsIdle(Credit(s, chosen), track, Some(tenant))
  {
    OneDuePerTenant(s, track, tenant);
    NothingLeftToCredit(s, track, Some(tenant), chosen);
  }

  lemma OneDuePerTenant(s: Books, track: Track, tenant: Tenant)
    requires UniqueSources(s.commissions)
    ensures OnePerWallet(s, track, Some(tenant))
  {
    forall d: nat, e: nat | Creditable(s, track, Some(tenant), d) && Creditable(s, track, Some(tenant), e)
      ensures d == e
    {
      if d < e { DueTwice(s.commissions, track, tenant, d, e); }
      if e < d { DueTwice(s.commissions, track, tenant, e, d); }
    }
  }

  lemma DueTwice(commissions: seq<Commission>, track: Track, tenant: Tenant, d: nat, e: nat)
    requires UniqueSources(commissions) && d < e < |commissions|
    ensures !(commissions[d].source == commissions[e].source == Some(track)
              && commissions[d].tenant == commissions[e].tenant == tenant)
  {
  }

  /** Without a tenant filter it need not be: two tenants' commissions for the same referral on one
      wallet are credited one run at a time. */
  lemma TwoTenantsNeedTwoRuns(s: Books, track: Track, chosen: seq<nat>, a: Tenant, b: Tenant, account: Account,
                              cents: int)
    requires a != b && account in s.wallets && s.wallets[account].active && s.movements == []
    requires s.commissions == [Commission(a, Some(track), None, account, cents, false),
                               Commission(b, Some(track), None, account, cents, false)]
    requires ValidChoice(s, track, None, chosen)
    ensures !SecondRunIsIdle(Credit(s, chosen), track, None)
  {
    assert Creditable(s, track, None, 0) && Creditable(s, track, None, 1);
    assert !OnePerWallet(s, track, None);
    WalletRepairIsIdempotentExactlyWhen(s, track, None, chosen);
  }

  // ----- every cent is in the ledger -----

  /** What credits have added to a wallet. */
  function CreditSum(movements: seq<Movement>, account: Account): int {
    if movements == [] then 0
    else
      var last := movements[|movements| - 1];
      CreditSum(movements[..|movements| - 1], account)
      + if last.credit && last.account == account then last.cents else 0
  }

  lemma CreditSumSnoc(movements: seq<Movement>, m: Movement, account: Account)
    ensures CreditSum(movements + [m], account)
         == CreditSum(movements, account) + if m.credit && m.account == account then m.cents else 0
  {
    assert (movements + [m])[..|movements|] == movements;
  }

  /** A new entry starts from what the wallet held before and ends at what it holds after. */
  ghost predicate EntryBalances(wallets: map<Account, Wallet>, added: seq<Movement>, k: int)
    requires 0 <= k < |added|
  {
    && added[k].credit && added[k].account in wallets
    && added[k].before == wallets[added[k].account].available + CreditSum(added[..k], added[k].account)
    && added[k].after == added[k].before + added[k].cents
  }

  /** A wallet's share of what `LedgerExplains` says. */
  ghost predicate Grew(s: Books, t: Books, a: Account, sum: int)
    requires a in s.wallets && a in t.wallets
  {
    t.wallets[a].available == s.wallets[a].available + sum && t.wallets[a].current == s.wallets[a].current + sum
  }

  /** From `s` to `t`, wallets grew by exactly the credits entered in between, each entry in balance. */
  ghost predicate LedgerExplains(s: Books, t: Books) {
    && s.movements <= t.movements
    && t.wallets.Keys == s.wallets.Keys
    && (forall a | a in s.wallets :: Grew(s, t, a, CreditSum(t.movements[|s.movements|..], a)))
    && (forall k | 0 <= k < |t.movements| - |s.movements| :: EntryBalances(s.wallets, t.movements[|s.movements|..], k))
  }

  lemma CreditOneGrows(s: Books, t: Books, e: nat, a: Account)
    requires LedgerExplains(s, t) && a in s.wallets
    requires e < |t.commissions| && t.commissions[e].account in t.wallets
    ensures var u := CreditOne(t, e);
            s.movements <= u.movements && a in u.wallets && Grew(s, u, a, CreditSum(u.movements[|s.movements|..], a))
  {
    var c, u, added := t.commissions[e], CreditOne(t, e), t.movements[|s.movements|..];
    var m := CreditMovement(c, t.wallets[c.account]);
    assert u.movements[|s.movements|..] == added + [m];
    CreditSumSnoc(added, m, a);
  }

  lemma CreditOneIsExplained(s: Books, t: Books, e: nat)
    requires LedgerExplains(s, t)
    ensures LedgerExplains(s, CreditOne(t, e))
  {
    if e < |t.commissions| && t.commissions[e].account in t.wallets {
      var c, u, added := t.commissions[e], CreditOne(t, e), t.movements[|s.movements|..];
      var m := CreditMovement(c, t.wallets[c.account]);
      assert u.movements[|s.movements|..] == added + [m];
      forall a | a in s.wallets ensures a in u.wallets && Grew(s, u, a, CreditSum(added + [m], a)) {
        CreditOneGrows(s, t, e, a);
      }
      forall k | 0 <= k < |added| + 1 ensures EntryBalances(s.wallets, added + [m], k) {
        EntryStays(s.wallets, added, m, k);
      }
    }
  }

  lemma EntryStays(wallets: map<Account, Wallet>, added: seq<Movement>, m: Movement, k: int)
    requires 0 <= k <= |added|
    requires if k < |added| then EntryBalances(wallets, added, k)
             else m.credit && m.account in wallets
                  && m.before == wallets[m.account].available + CreditSum(added, m.account)
                  && m.after == m.before + m.cents
    ensures EntryBalances(wallets, added + [m], k)
  {
    assert (added + [m])[..k] == added[..k];
    assert added[..|added|] == added;
  }

  lemma {:induction false} CreditIsExplained(s: Books, t: Books, chosen: seq<nat>)
    requires LedgerExplains(s, t)
    ensures LedgerExplains(s, Credit(t, chosen))
  {
    if chosen != [] {
      CreditIsExplained(s, t, chosen[..|chosen| - 1]);
      CreditOneIsExplained(s, Credit(t, chosen[..|chosen| - 1]), chosen[|chosen| - 1]);
    }
  }

  lemma NothingToExplain(s: Books)
    ensures LedgerExplains(s, s)
  {
    assert s.movements[|s.movements|..] == [];
  }
}
