/** The money map read from the tables, and how the repair commands move it: each command does to its
    outcome what the repair planner expects of it. */
module OutcomeLink {
  import opened Prelude
  import opened OutcomeEvidence
  import opened OutcomeWallets
  import opened OutcomeBooks
  import R = OutcomeRepair

  // ----- the money map -----

  function OfTrack(rewards: seq<Reward>, track: Track, k: RewardId): bool { k < |rewards| && rewards[k].track == track }

  function IsReward(rewards: seq<Reward>, track: Track): nat -> bool { (k: nat) => OfTrack(rewards, track, k) }

  function IsCommission(commissions: seq<Commission>, tenant: Tenant, track: Track): nat -> bool {
    (k: nat) => && k < |commissions| && commissions[k].tenant == tenant
                && (commissions[k].source == Some(track) || commissions[k].correlation == Some(track))
  }

  function IsMovement(movements: seq<Movement>, tenant: Tenant, track: Track): nat -> bool {
    (k: nat) => && k < |movements| && movements[k].tenant == tenant
                && (movements[k].correlation == Some(track) || movements[k].source == Some(track))
  }

  predicate InvoicesTrack(rewards: seq<Reward>, lines: seq<Line>, track: Track, j: nat) {
    exists l | l in lines :: l.invoice == j && OfTrack(rewards, track, l.reward)
  }

  function IsInvoice(rewards: seq<Reward>, lines: seq<Line>, track: Track): nat -> bool {
    (j: nat) => InvoicesTrack(rewards, lines, track, j)
  }

  function IsSettled(rewards: seq<Reward>, settlements: seq<Settlement>, track: Track): nat -> bool {
    (k: nat) => k < |settlements| && settlements[k].status == Settled && OfTrack(rewards, track, settlements[k].reward)
  }

  function IsOpen(rewards: seq<Reward>, settlements: seq<Settlement>, exceptions: seq<SettlementException>,
                  track: Track): nat -> bool
  {
    (k: nat) => && k < |exceptions| && exceptions[k].open && exceptions[k].settlement < |settlements|
                && OfTrack(rewards, track, settlements[exceptions[k].settlement].reward)
  }

  /** How a completed referral appears on the money map. */
  function Reported(w: World, s: Books, track: Track): R.Outcome
    requires track in w.instances
  {
    var i := w.instances[track];
    R.Outcome(|Select(|s.rewards|, IsReward(s.rewards, track))|,
              |Select(|s.commissions|, IsCommission(s.commissions, i.tenant, track))|,
              |Select(|s.movements|, IsMovement(s.movements, i.tenant, track))|,
              |Select(|s.invoices|, IsInvoice(s.rewards, s.lines, track))|,
              |Select(|s.settlements|, IsSettled(s.rewards, s.settlements, track))|,
              |Select(|s.exceptions|, IsOpen(s.rewards, s.settlements, s.exceptions, track))|,
              i.product, Linked(w, track), Linked(w, track) || i.referrer)
  }

  /** Rows refer to rows on file. */
  ghost predicate Grounded(s: Books) {
    && Filed(s)
    && (forall l | l in s.lines :: l.reward < |s.rewards|)
    && (forall x | x in s.settlements :: x.reward < |s.rewards|)
    && (forall x | x in s.exceptions :: x.settlement < |s.settlements|)
  }

  lemma {:induction false} SelectSame(n: nat, p: nat -> bool, q: nat -> bool)
    requires forall k: nat | k < n :: p(k) <==> q(k)
    ensures Select(n, p) == Select(n, q)
  {
    if n > 0 { SelectSame(n - 1, p, q); }
  }

  lemma SelectSome(n: nat, p: nat -> bool, k: nat)
    requires k < n && p(k)
    ensures |Select(n, p)| > 0
  {
    SelectMeans(n, p);
    assert k in Select(n, p);
  }

  /** Nothing selected among the first rows, and nothing among the new ones. */
  lemma SelectNone(n: nat, p: nat -> bool, k: nat)
    requires |Select(n, p)| == 0 && k < n
    ensures !p(k)
  {
    SelectMeans(n, p);
    assert k !in Select(n, p);
  }

  // ----- rewards -----

  /** Adding a reward disturbs nothing else on the map. */
  lemma RewardDisturbsNothing(s: Books, r: Reward, track: Track)
    requires Grounded(s)
    ensures var rewards := s.rewards + [r];
            && Select(|s.invoices|, IsInvoice(rewards, s.lines, track))
              == Select(|s.invoices|, IsInvoice(s.rewards, s.lines, track))
            && Select(|s.settlements|, IsSettled(rewards, s.settlements, track))
              == Select(|s.settlements|, IsSettled(s.rewards, s.settlements, track))
            && Select(|s.exceptions|, IsOpen(rewards, s.settlements, s.exceptions, track))
               == Select(|s.exceptions|, IsOpen(s.rewards, s.settlements, s.exceptions, track))
  {
    var rewards := s.rewards + [r];
    assert forall k: nat | k < |s.rewards| :: OfTrack(rewards, track, k) == OfTrack(s.rewards, track, k);
    SelectSame(|s.invoices|, IsInvoice(rewards, s.lines, track), IsInvoice(s.rewards, s.lines, track));
    assert forall k: nat | k < |s.settlements| :: s.settlements[k] in s.settlements;
    SelectSame(|s.settlements|, IsSettled(rewards, s.settlements, track), IsSettled(s.rewards, s.settlements, track));
    assert forall k: nat | k < |s.exceptions| :: s.exceptions[k] in s.exceptions;
    SelectSame(|s.exceptions|, IsOpen(rewards, s.settlements, s.exceptions, track),
               IsOpen(s.rewards, s.settlements, s.exceptions, track));
  }

  predicate PolicyPays(w: World, track: Track) { track in w.policies && PolicyCents(w.policies[track]) > 0 }

  /** A command's effect on the map is the effect of a repair of its kind. */
  ghost predicate Performs(w: World, s: Books, t: Books, track: Track, kind: R.Kind, count: int)
    requires track in w.instances
  {
    Reported(w, t, track) == R.Repaired(Reported(w, s, track), R.Repair(kind, count))
  }

  /** A reward repair brings reward evidence exactly if a policy in force pays something. */
  lemma RewardRepairPerforms(w: World, s: Books, track: Track, filter: Option<Tenant>)
    requires Grounded(s) && Completed(w, track, filter)
    requires R.Offered(Reported(w, s, track), R.CreateEvidence(R.RewardRecorded))
    ensures var t := CreateReward(w, s, track, filter); var count := Reported(w, t, track).rewards;
            Performs(w, s, t, track, R.CreateEvidence(R.RewardRecorded), count) && (count > 0 <==> PolicyPays(w, track))
  {
    R.OfferedMeans(Reported(w, s, track), R.CreateEvidence(R.RewardRecorded));
    NoRewardYet(s.rewards, track);
    var t := CreateReward(w, s, track, filter);
    if PolicyPays(w, track) {
      var r := t.rewards[|s.rewards|];
      RewardDisturbsNothing(s, r, track);
      SelectSome(|t.rewards|, IsReward(t.rewards, track), |s.rewards|);
    }
  }

  lemma NoRewardYet(rewards: seq<Reward>, track: Track)
    requires |Select(|rewards|, IsReward(rewards, track))| == 0
    ensures forall r | r in rewards :: r.track != track
  {
    forall k: nat | k < |rewards| ensures rewards[k].track != track {
      SelectNone(|rewards|, IsReward(rewards, track), k);
    }
  }

  // ----- commissions -----

  /** A commission repair brings evidence exactly if some reward of the referral earns a commission. */
  lemma CommissionRepairPerforms(w: World, s: Books, track: Track, filter: Option<Tenant>, pick: Option<RewardId>)
    requires Completed(w, track, filter) && ValidPick(w, s, track, pick)
    requires R.Offered(Reported(w, s, track), R.CreateEvidence(R.CommissionCalculated))
    ensures var t := CreateCommission(w, s, track, filter, pick); var count := Reported(w, t, track).commissions;
            Performs(w, s, t, track, R.CreateEvidence(R.CommissionCalculated), count) && (count > 0 <==> pick.Some?)
  {
    R.OfferedMeans(Reported(w, s, track), R.CreateEvidence(R.CommissionCalculated));
    var tenant := w.instances[track].tenant;
    var t := CreateCommission(w, s, track, filter, pick);
    NotRecordedYet(s.commissions, tenant, track);
    if pick.Some? {
      SelectSome(|t.commissions|, IsCommission(t.commissions, tenant, track), |s.commissions|);
    }
  }

  lemma NotRecordedYet(commissions: seq<Commission>, tenant: Tenant, track: Track)
    ensures |Select(|commissions|, IsCommission(commissions, tenant, track))| > 0
            || !Recorded(commissions, tenant, track)
  {
    if Recorded(commissions, tenant, track) {
      var c :| c in commissions && c.tenant == tenant && (c.source == Some(track) || c.correlation == Some(track));
      var k: nat :| k < |commissions| && commissions[k] == c;
      SelectSome(|commissions|, IsCommission(commissions, tenant, track), k);
    }
  }

  // ----- wallets -----

  /** A wallet repair, with or without a tenant filter, brings evidence exactly if it credits a commission
      of the referral's own tenant. */
  lemma WalletRepairPerforms(w: World, s: Books, track: Track, filter: Option<Tenant>, chosen: seq<nat>)
    requires track in w.instances && ValidChoice(s, track, filter, chosen)
    requires R.Offered(Reported(w, s, track), R.CreateEvidence(R.WalletMovement))
    ensures var t := Credit(s, chosen); var count := Reported(w, t, track).walletMovements;
            && Performs(w, s, t, track, R.CreateEvidence(R.WalletMovement), count)
            && (count > 0 <==> PaysTenant(s.commissions, chosen, w.instances[track].tenant, track))
  {
    var tenant := w.instances[track].tenant;
    var t := Credit(s, chosen);
    CreditFrame(s, chosen);
    CommissionsStay(s.commissions, t.commissions, tenant, track);
    R.OfferedMeans(Reported(w, s, track), R.CreateEvidence(R.WalletMovement));
    MovementRows(s.movements, tenant, track);
    MovementRows(t.movements, tenant, track);
    MovedAfter(s, chosen, tenant, track);
  }

  /** With the tenant as filter it does exactly if a commission is due on an active wallet. */
  lemma TenantWalletRepairPays(s: Books, track: Track, tenant: Tenant, chosen: seq<nat>)
    requires ValidChoice(s, track, Some(tenant), chosen)
    ensures PaysTenant(s.commissions, chosen, tenant, track) <==> exists e: nat :: Creditable(s, track, Some(tenant), e)
  {
    SomeoneIsPaid(s, track, tenant, chosen);
  }

  lemma CommissionsStay(a: seq<Commission>, b: seq<Commission>, tenant: Tenant, track: Track)
    requires SameCommissions(a, b)
    ensures Select(|b|, IsCommission(b, tenant, track)) == Select(|a|, IsCommission(a, tenant, track))
  {
    assert forall k: nat | k < |a| :: SameCommission(a[k], b[k]);
    SelectSame(|a|, IsCommission(a, tenant, track), IsCommission(b, tenant, track));
  }

  lemma MovementRows(movements: seq<Movement>, tenant: Tenant, track: Track)
    ensures |Select(|movements|, IsMovement(movements, tenant, track))| > 0 <==> Moved(movements, tenant, track)
  {
    var p := IsMovement(movements, tenant, track);
    if Moved(movements, tenant, track) {
      var m :| m in movements && m.tenant == tenant && (m.correlation == Some(track) || m.source == Some(track));
      var k: nat :| k < |movements| && movements[k] == m;
      SelectSome(|movements|, p, k);
    } else {
      forall k: nat | k < |movements| ensures !p(k) { assert movements[k] in movements; }
      SelectNothing(|movements|, p);
    }
  }

  lemma SomeoneIsPaid(s: Books, track: Track, tenant: Tenant, chosen: seq<nat>)
    requires ValidChoice(s, track, Some(tenant), chosen)
    ensures PaysTenant(s.commissions, chosen, tenant, track) <==> exists e: nat :: Creditable(s, track, Some(tenant), e)
  {
    if chosen != [] {
      assert Creditable(s, track, Some(tenant), chosen[0]);
    }
    if e: nat :| Creditable(s, track, Some(tenant), e) {
      assert Covered(s, chosen, e);
    }
  }

  // ----- invoices -----

  lemma InvoiceRows(s: Books, track: Track)
    requires Filed(s)
    ensures |Select(|s.invoices|, IsInvoice(s.rewards, s.lines, track))| > 0
       <==> exists l | l in s.lines :: OfTrack(s.rewards, track, l.reward)
  {
    var p := IsInvoice(s.rewards, s.lines, track);
    if l :| l in s.lines && OfTrack(s.rewards, track, l.reward) {
      assert InvoicesTrack(s.rewards, s.lines, track, l.invoice);
      SelectSome(|s.invoices|, p, l.invoice);
    } else {
      SelectNothing(|s.invoices|, p);
    }
  }

  /** An invoice repair that is offered always brings invoice evidence. */
  lemma InvoiceRepairPerforms(w: World, s: Books, track: Track, filter: Option<Tenant>)
    requires Grounded(s) && Completed(w, track, filter)
    requires R.Offered(Reported(w, s, track), R.CreateEvidence(R.InvoiceLine))
    ensures var t := CreateInvoice(w, s, track, filter); var count := Reported(w, t, track).invoices;
            Performs(w, s, t, track, R.CreateEvidence(R.InvoiceLine), count) && count > 0
  {
    R.OfferedMeans(Reported(w, s, track), R.CreateEvidence(R.InvoiceLine));
    var t := CreateInvoice(w, s, track, filter);
    InvoiceLinesAreFiled(s.rewards, |s.invoices|, ToInvoice(s, track));
    InvoiceRows(s, track);
    var k := SomeReward(s.rewards, track);
    AfterInvoicing(s, track, |s.invoices|, k);
    Unbilled(s, track, k);
    InvoiceRows(t, track);
  }

  lemma SomeReward(rewards: seq<Reward>, track: Track) returns (k: RewardId)
    requires |Select(|rewards|, IsReward(rewards, track))| > 0
    ensures OfTrack(rewards, track, k)
  {
    SelectMeans(|rewards|, IsReward(rewards, track));
    k := Select(|rewards|, IsReward(rewards, track))[0];
    assert k in Select(|rewards|, IsReward(rewards, track));
  }

  lemma Unbilled(s: Books, track: Track, k: RewardId)
    requires OfTrack(s.rewards, track, k)
    requires !exists l | l in s.lines :: OfTrack(s.rewards, track, l.reward)
    ensures ToInvoice(s, track) != []
  {
    SelectMeans(|s.rewards|, Uninvoiced(s, track));
    assert k in ToInvoice(s, track);
  }

  // ----- settlements -----

  lemma SettledRows(rewards: seq<Reward>, settlements: seq<Settlement>, track: Track)
    ensures |Select(|settlements|, IsSettled(rewards, settlements, track))| > 0
       <==> TrackSettled(rewards, settlements, track)
  {
    var p := IsSettled(rewards, settlements, track);
    if x :| x in settlements && x.status == Settled && OfTrack(rewards, track, x.reward) {
      var k: nat :| k < |settlements| && settlements[k] == x;
      SelectSome(|settlements|, p, k);
    } else {
      forall k: nat | k < |settlements| ensures !p(k) { assert settlements[k] in settlements; }
      SelectNothing(|settlements|, p);
    }
  }

  /** Settling leaves the exceptions on older settlements as they were. */
  lemma ExceptionsStay(s: Books, added: seq<Settlement>, track: Track)
    requires Grounded(s)
    ensures Select(|s.exceptions|, IsOpen(s.rewards, s.settlements + added, s.exceptions, track))
         == Select(|s.exceptions|, IsOpen(s.rewards, s.settlements, s.exceptions, track))
  {
    assert forall k: nat | k < |s.exceptions| :: s.exceptions[k] in s.exceptions;
    SelectSame(|s.exceptions|, IsOpen(s.rewards, s.settlements + added, s.exceptions, track),
               IsOpen(s.rewards, s.settlements, s.exceptions, track));
  }

  /** A reward of the referral that can be settled: it is billed and its repair audit is its own. */
  predicate CanSettle(s: Books, track: Track, filter: Option<Tenant>, k: RewardId) {
    OfTrack(s.rewards, track, k) && Matches(filter, s.rewards[k].tenant) && HasLine(s.lines, k)
      && Correlated(s.audits, k)
  }

  /** A settlement repair brings evidence exactly if some billed reward can be settled. */
  lemma SettlementRepairPerforms(w: World, s: Books, track: Track, filter: Option<Tenant>)
    requires Grounded(s) && track in w.instances && w.instances[track].complete
    requires R.Offered(Reported(w, s, track), R.CreateEvidence(R.SettlementSettled))
    ensures var t := CreateSettlement(w, s, track, filter); var count := Reported(w, t, track).settled;
            && Performs(w, s, t, track, R.CreateEvidence(R.SettlementSettled), count)
            && (count > 0 <==> exists k :: CanSettle(s, track, filter, k))
  {
    R.OfferedMeans(Reported(w, s, track), R.CreateEvidence(R.SettlementSettled));
    var t := CreateSettlement(w, s, track, filter);
    ExceptionsStay(s, Settlements(s, ToSettle(w, s, track, filter)), track);
    SettledRows(s.rewards, s.settlements, track);
    SettledRows(s.rewards, t.settlements, track);
    SettledAfter(w, s, track, filter);
  }

  predicate TrackSettled(rewards: seq<Reward>, settlements: seq<Settlement>, track: Track) {
    exists x | x in settlements :: x.status == Settled && OfTrack(rewards, track, x.reward)
  }

  lemma SettledAfter(w: World, s: Books, track: Track, filter: Option<Tenant>)
    requires track in w.instances && w.instances[track].complete && !TrackSettled(s.rewards, s.settlements, track)
    ensures TrackSettled(s.rewards, CreateSettlement(w, s, track, filter).settlements, track)
       <==> exists k :: CanSettle(s, track, filter, k)
  {
    var t := CreateSettlement(w, s, track, filter);
    forall k ensures OfTrack(s.rewards, track, k) && HasSettled(t.settlements, k) <==> CanSettle(s, track, filter, k) {
      RewardSettledAfter(w, s, track, filter, k);
    }
    SettledByReward(s.rewards, t.settlements, track);
    if k :| OfTrack(s.rewards, track, k) && HasSettled(t.settlements, k) { assert CanSettle(s, track, filter, k); }
    if k :| CanSettle(s, track, filter, k) { assert HasSettled(t.settlements, k); }
  }

  lemma RewardSettledAfter(w: World, s: Books, track: Track, filter: Option<Tenant>, k: RewardId)
    requires track in w.instances && w.instances[track].complete && !TrackSettled(s.rewards, s.settlements, track)
    ensures OfTrack(s.rewards, track, k) && HasSettled(CreateSettlement(w, s, track, filter).settlements, k)
       <==> CanSettle(s, track, filter, k)
  {
    var ids := ToSettle(w, s, track, filter);
    SelectMeans(|s.rewards|, Unsettled(w, s, track, filter));
    HasSettledConcat(s.settlements, Settlements(s, ids), k);
    SettlementsCover(s, ids, k);
  }

  lemma SettledByReward(rewards: seq<Reward>, settlements: seq<Settlement>, track: Track)
    ensures TrackSettled(rewards, settlements, track) <==>
              exists k :: OfTrack(rewards, track, k) && HasSettled(settlements, k)
  {
    if x :| x in settlements && x.status == Settled && OfTrack(rewards, track, x.reward) {
      assert HasSettled(settlements, x.reward);
    }
  }

  // ----- exceptions -----

  /** The open exceptions of a referral that a filter leaves alone: those on rewards of other tenants. */
  function IsOpenElsewhere(s: Books, track: Track, filter: Option<Tenant>): nat -> bool {
    (k: nat) => && IsOpen(s.rewards, s.settlements, s.exceptions, track)(k)
                && !ConcernsTrack(s, s.exceptions[k], track, filter)
  }

  function OpenElsewhere(s: Books, track: Track, filter: Option<Tenant>): nat {
    |Select(|s.exceptions|, IsOpenElsewhere(s, track, filter))|
  }

  /** Resolving leaves the map as it was but for the open exceptions; those on rewards of other tenants
      remain. */
  lemma ResolvingPerforms(w: World, s: Books, track: Track, filter: Option<Tenant>)
    requires track in w.instances
    ensures Reported(w, ResolveExceptions(s, track, filter), track)
         == Reported(w, s, track).(exceptions := OpenElsewhere(s, track, filter))
    ensures Performs(w, s, ResolveExceptions(s, track, filter), track, R.ResolveExceptions, 0) <==>
              OpenElsewhere(s, track, filter) == 0
  {
    var t := ResolveExceptions(s, track, filter);
    var p, q := IsOpen(t.rewards, t.settlements, t.exceptions, track), IsOpenElsewhere(s, track, filter);
    forall k: nat | k < |s.exceptions| ensures p(k) <==> q(k) {
      assert t.exceptions[k] == Resolved(s, s.exceptions[k], track, filter);
      assert IsOpen(s.rewards, s.settlements, s.exceptions, track)(k) <==>
             s.exceptions[k].open && s.exceptions[k].settlement < |s.settlements|
               && OfTrack(s.rewards, track, s.settlements[s.exceptions[k].settlement].reward);
    }
    SelectSame(|s.exceptions|, p, q);
  }

  /** Without a filter none remain. */
  lemma ResolvingAllClears(s: Books, track: Track)
    ensures OpenElsewhere(s, track, None) == 0
  {
    forall k: nat | k < |s.exceptions| ensures !IsOpenElsewhere(s, track, None)(k) {
      if IsOpen(s.rewards, s.settlements, s.exceptions, track)(k) {
        assert ConcernsTrack(s, s.exceptions[k], track, None);
      }
    }
    SelectNothing(|s.exceptions|, IsOpenElsewhere(s, track, None));
  }

  // ----- runs of commands on one outcome -----

  /** A command on this referral whose repair is offered and finds what it needs. */
  ghost predicate Effective(w: World, s: Books, track: Track, c: Command)
    requires track in w.instances
  {
    && c.track == track && Completed(w, track, c.filter) && Possible(w, s, c)
    && R.Offered(Reported(w, s, track), KindOf(c))
    && match c
       case RepairReward(_, _) => PolicyPays(w, track)
       case RepairCommission(_, _, pick) => pick.Some?
       case RepairWallet(_, _, chosen) => PaysTenant(s.commissions, chosen, w.instances[track].tenant, track)
       case RepairInvoice(_, _) => true
       case RepairSettlement(_, filter) => exists k :: CanSettle(s, track, filter, k)
       case ResolveAll(_, filter) => OpenElsewhere(s, track, filter) == 0
  }

  function KindOf(c: Command): R.Kind {
    match c
    case RepairReward(_, _) => R.CreateEvidence(R.RewardRecorded)
    case RepairCommission(_, _, _) => R.CreateEvidence(R.CommissionCalculated)
    case RepairWallet(_, _, _) => R.CreateEvidence(R.WalletMovement)
    case RepairInvoice(_, _) => R.CreateEvidence(R.InvoiceLine)
    case RepairSettlement(_, _) => R.CreateEvidence(R.SettlementSettled)
    case ResolveAll(_, _) => R.ResolveExceptions
  }

  /** An effective command is a successful repair of its kind, as the planner sees it. */
  lemma EffectiveCommandRepairs(w: World, s: Books, track: Track, c: Command) returns (r: R.Repair)
    requires track in w.instances && Grounded(s) && Effective(w, s, track, c)
    ensures r.kind == KindOf(c) && r.count > 0
    ensures Reported(w, Perform(w, s, c), track) == R.Repaired(Reported(w, s, track), r)
  {
    var after := Reported(w, Perform(w, s, c), track);
    match c
    case RepairReward(_, filter) =>
      RewardRepairPerforms(w, s, track, filter);
      r := R.Repair(KindOf(c), after.rewards);
    case RepairCommission(_, filter, pick) =>
      CommissionRepairPerforms(w, s, track, filter, pick);
      r := R.Repair(KindOf(c), after.commissions);
    case RepairWallet(_, filter, chosen) =>
      WalletRepairPerforms(w, s, track, filter, chosen);
      r := R.Repair(KindOf(c), after.walletMovements);
    case RepairInvoice(_, filter) =>
      InvoiceRepairPerforms(w, s, track, filter);
      r := R.Repair(KindOf(c), after.invoices);
    case RepairSettlement(_, filter) =>
      SettlementRepairPerforms(w, s, track, filter);
      r := R.Repair(KindOf(c), after.settled);
    case ResolveAll(_, filter) =>
      ResolvingPerforms(w, s, track, filter);
      r := R.Repair(KindOf(c), 1);
  }

  lemma {:induction false} LinesNameRewards(rewards: seq<Reward>, invoice: nat, ids: seq<RewardId>)
    ensures forall l | l in InvoiceLines(rewards, invoice, ids) :: l.invoice == invoice && l.reward in ids
  {
    if ids != [] {
      LinesNameRewards(rewards, invoice, ids[..|ids| - 1]);
      assert ids == ids[..|ids| - 1] + [ids[|ids| - 1]];
    }
  }

  lemma {:induction false} SettlementsNameRewards(s: Books, ids: seq<RewardId>)
    ensures forall x | x in Settlements(s, ids) :: x.reward in ids
  {
    if ids != [] {
      SettlementsNameRewards(s, ids[..|ids| - 1]);
      assert ids == ids[..|ids| - 1] + [ids[|ids| - 1]];
    }
  }

  lemma InvoiceKeepsGrounded(w: World, s: Books, track: Track, filter: Option<Tenant>)
    requires Grounded(s)
    ensures Grounded(CreateInvoice(w, s, track, filter))
  {
    var ids := ToInvoice(s, track);
    SelectMeans(|s.rewards|, Uninvoiced(s, track));
    LinesNameRewards(s.rewards, |s.invoices|, ids);
  }

  lemma SettlementKeepsGrounded(w: World, s: Books, track: Track, filter: Option<Tenant>)
    requires Grounded(s)
    ensures Grounded(CreateSettlement(w, s, track, filter))
  {
    var ids := ToSettle(w, s, track, filter);
    SelectMeans(|s.rewards|, Unsettled(w, s, track, filter));
    SettlementsNameRewards(s, ids);
  }

  lemma CommandKeepsGrounded(w: World, s: Books, c: Command)
    requires Grounded(s) && Possible(w, s, c)
    ensures Grounded(Perform(w, s, c))
  {
    match c
    case RepairReward(_, _) =>
    case RepairCommission(_, _, _) =>
    case RepairWallet(_, _, chosen) => CreditFrame(s, chosen);
    case RepairInvoice(track, filter) => InvoiceKeepsGrounded(w, s, track, filter);
    case RepairSettlement(track, filter) => SettlementKeepsGrounded(w, s, track, filter);
    case ResolveAll(track, filter) => ResolvingKeepsGrounded(s, track, filter);
  }

  lemma ResolvingKeepsGrounded(s: Books, track: Track, filter: Option<Tenant>)
    requires Grounded(s)
    ensures Grounded(ResolveExceptions(s, track, filter))
  {
    var t := ResolveExceptions(s, track, filter);
    forall x | x in t.exceptions ensures x.settlement < |t.settlements| {
      var k :| 0 <= k < |t.exceptions| && t.exceptions[k] == x;
      assert s.exceptions[k] in s.exceptions;
    }
  }

  /** Effective commands bring the outcome closer to READY, one step each. */
  lemma {:induction false} EffectiveRunMakesProgress(w: World, states: seq<Books>, commands: seq<Command>, track: Track)
    requires track in w.instances && IsRun(w, states, commands) && Grounded(states[0])
    requires forall k | 0 <= k < |commands| :: Effective(w, states[k], track, commands[k])
    ensures Grounded(states[|commands|])
    ensures R.Work(Reported(w, states[|commands|], track)) == R.Work(Reported(w, states[0], track)) - |commands|
    ensures R.Repairable(Reported(w, states[|commands|], track)) <==> R.Repairable(Reported(w, states[0], track))
  {
    if commands != [] {
      var n := |commands| - 1;
      EffectiveRunMakesProgress(w, states[..n + 1], commands[..n], track);
      CommandKeepsGrounded(w, states[n], commands[n]);
      var r := EffectiveCommandRepairs(w, states[n], track, commands[n]);
      R.RepairMakesProgress(Reported(w, states[n], track), r);
    }
  }

  /** On the tables themselves: at most six effective commands are possible, whatever their order, and
      the outcome is READY exactly when all the missing evidence has been repaired. */
  lemma EffectiveRunEndsReady(w: World, states: seq<Books>, commands: seq<Command>, track: Track)
    requires track in w.instances && IsRun(w, states, commands) && Grounded(states[0])
    requires forall k | 0 <= k < |commands| :: Effective(w, states[k], track, commands[k])
    ensures |commands| <= 6
    ensures R.Ready(Reported(w, states[|commands|], track)) <==> |commands| == R.Work(Reported(w, states[0], track))
    ensures R.Ready(Reported(w, states[|commands|], track)) ==> R.Repairable(Reported(w, states[0], track))
  {
    EffectiveRunMakesProgress(w, states, commands, track);
    var end := Reported(w, states[|commands|], track);
    R.WorkDoneMeansReady(end);
    R.ReadyMeans(end);
  }
}
