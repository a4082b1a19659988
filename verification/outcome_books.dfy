/** Runs of evidence repairs: what every sequence of commands keeps, and when an invoice equals its lines. */
module OutcomeBooks {
  import opened Prelude
  import opened OutcomeEvidence
  import opened OutcomeWallets

  // ----- invoices and their lines -----

  /** What the lines of an invoice amount to. */
  function LineSum(lines: seq<Line>, invoice: nat): int {
    if lines == [] then 0
    else
      LineSum(lines[..|lines| - 1], invoice)
      + if lines[|lines| - 1].invoice == invoice then lines[|lines| - 1].cents else 0
  }

  function RoundedAmounts(rewards: seq<Reward>, ids: seq<RewardId>): int {
    if ids == [] then 0 else RoundedAmounts(rewards, ids[..|ids| - 1]) + Round(AmountAt(rewards, ids[|ids| - 1]))
  }

  lemma {:induction false} LineSumConcat(a: seq<Line>, b: seq<Line>, invoice: nat)
    ensures LineSum(a + b, invoice) == LineSum(a, invoice) + LineSum(b, invoice)
  {
    if b == [] {
      assert a + b == a;
    } else {
      LineSumConcat(a, b[..|b| - 1], invoice);
      assert (a + b)[..|a + b| - 1] == a + b[..|b| - 1];
    }
  }

  lemma {:induction false} InvoiceLinesSum(rewards: seq<Reward>, invoice: nat, ids: seq<RewardId>, other: nat)
    ensures LineSum(InvoiceLines(rewards, invoice, ids), other) == if other == invoice
            then RoundedAmounts(rewards, ids) else 0
  {
    if ids != [] {
      var init := InvoiceLines(rewards, invoice, ids[..|ids| - 1]);
      InvoiceLinesSum(rewards, invoice, ids[..|ids| - 1], other);
      assert InvoiceLines(rewards, invoice, ids)[..|init|] == init;
    }
  }

  /** Every line belongs to an invoice on file. */
  ghost predicate Filed(s: Books) { forall l | l in s.lines :: l.invoice < |s.invoices| }

  lemma {:induction false} NoLinesYet(lines: seq<Line>, invoice: nat)
    requires forall l | l in lines :: l.invoice < invoice
    ensures LineSum(lines, invoice) == 0
  {
    if lines != [] {
      assert lines[|lines| - 1] in lines;
      NoLinesYet(lines[..|lines| - 1], invoice);
    }
  }

  /** An invoice repair that bills something opens one invoice over the referral's unbilled rewards. */
  predicate Bills(w: World, s: Books, track: Track, filter: Option<Tenant>) {
    Completed(w, track, filter) && Linked(w, track) && ToInvoice(s, track) != []
  }

  lemma NewInvoiceLineSum(w: World, s: Books, track: Track, filter: Option<Tenant>)
    requires Filed(s) && Bills(w, s, track, filter)
    ensures LineSum(CreateInvoice(w, s, track, filter).lines, |s.invoices|)
            == RoundedAmounts(s.rewards, ToInvoice(s, track))
  {
    var ids := ToInvoice(s, track);
    LineSumConcat(s.lines, InvoiceLines(s.rewards, |s.invoices|, ids), |s.invoices|);
    NoLinesYet(s.lines, |s.invoices|);
    InvoiceLinesSum(s.rewards, |s.invoices|, ids, |s.invoices|);
  }

  lemma RoundIsNearest(x: real, n: int)
    ensures Round(x) == n <==> SmallLeftover(x, x - n as real)
  {
  }

  /** The subtotal rounds the sum of the rewards, each line rounds its own reward. What rounding the
      lines leaves over, in cents: */
  function Leftover(rewards: seq<Reward>, ids: seq<RewardId>): real {
    Amounts(rewards, ids) - RoundedAmounts(rewards, ids) as real
  }

  /** At most half a cent; a half counts as small when rounding away from zero comes back to it. */
  predicate SmallLeftover(total: real, left: real) {
    if total >= 0.0 then -0.5 <= left < 0.5 else -0.5 < left <= 0.5
  }

  ghost predicate EqualsItsLines(s: Books, invoice: nat) {
    invoice < |s.invoices| && s.invoices[invoice].subtotal == LineSum(s.lines, invoice)
  }

  /** A new invoice's subtotal is the sum of its lines exactly when the leftovers amount to no more than
      half a cent. */
  lemma SubtotalIsLineSumExactlyWhen(w: World, s: Books, track: Track, filter: Option<Tenant>)
    requires Filed(s) && Bills(w, s, track, filter)
    ensures EqualsItsLines(CreateInvoice(w, s, track, filter), |s.invoices|)
       <==> SmallLeftover(Amounts(s.rewards, ToInvoice(s, track)), Leftover(s.rewards, ToInvoice(s, track)))
  {
    NewInvoiceLineSum(w, s, track, filter);
    RoundIsNearest(Amounts(s.rewards, ToInvoice(s, track)), RoundedAmounts(s.rewards, ToInvoice(s, track)));
  }

  predicate WholeCents(r: Reward) { r.amount == r.amount.Floor as real }

  lemma RoundWhole(x: real)
    requires x == x.Floor as real
    ensures Round(x) as real == x
  {
    RoundIsNearest(x, x.Floor);
  }

  lemma WholeAmount(rewards: seq<Reward>, k: RewardId)
    requires forall r | r in rewards :: WholeCents(r)
    ensures Round(AmountAt(rewards, k)) as real == AmountAt(rewards, k)
  {
    if k < |rewards| { assert rewards[k] in rewards; }
    RoundWhole(AmountAt(rewards, k));
  }

  lemma {:induction false} WholeCentsLeaveNothing(rewards: seq<Reward>, ids: seq<RewardId>)
    requires forall r | r in rewards :: WholeCents(r)
    ensures Leftover(rewards, ids) == 0.0
  {
    if ids != [] {
      WholeCentsLeaveNothing(rewards, ids[..|ids| - 1]);
      WholeAmount(rewards, ids[|ids| - 1]);
    }
  }

  /** Reward amounts are not limited to whole cents: an invoice over two unbilled rewards of 0.4 cents
      asks for one cent over two lines of nothing. */
  lemma FractionsNeedNotAddUp(w: World, s: Books, track: Track, filter: Option<Tenant>)
    requires Completed(w, track, filter) && Linked(w, track)
    requires |s.rewards| == 2 && s.lines == []
    requires s.rewards[0].track == track == s.rewards[1].track && s.rewards[0].amount == 0.4 == s.rewards[1].amount
    ensures Bills(w, s, track, filter)
    ensures !EqualsItsLines(CreateInvoice(w, s, track, filter), |s.invoices|)
  {
    var p := Uninvoiced(s, track);
    assert p(0) && p(1);
    assert Select(0, p) == [];
    assert Select(1, p) == [0];
    assert Select(2, p) == [0] + [1] == [0, 1];
    TwoFractions(s.rewards);
    SubtotalIsLineSumExactlyWhen(w, s, track, filter);
  }

  lemma TwoFractions(rewards: seq<Reward>)
    requires |rewards| == 2 && rewards[0].amount == 0.4 == rewards[1].amount
    ensures Amounts(rewards, [0, 1]) == 0.8 && RoundedAmounts(rewards, [0, 1]) == 0
  {
    assert [0, 1][..1] == [0];
    assert [0][..0] == [];
    RoundIsNearest(0.4, 0);
    assert AmountAt(rewards, 0) == 0.4 == AmountAt(rewards, 1);
    assert Amounts(rewards, [0]) == 0.4 && RoundedAmounts(rewards, [0]) == 0;
  }

  // ----- at most one line and one settlement per reward -----

  function LineCount(lines: seq<Line>, k: RewardId): nat {
    if lines == [] then 0 else LineCount(lines[..|lines| - 1], k) + if lines[|lines| - 1].reward == k then 1 else 0
  }

  function SettledCount(settlements: seq<Settlement>, k: RewardId): nat {
    if settlements == [] then 0
    else
      var last := settlements[|settlements| - 1];
      SettledCount(settlements[..|settlements| - 1], k) + if last.reward == k && last.status == Settled then 1 else 0
  }

  lemma {:induction false} LineCountConcat(a: seq<Line>, b: seq<Line>, k: RewardId)
    ensures LineCount(a + b, k) == LineCount(a, k) + LineCount(b, k)
  {
    if b == [] {
      assert a + b == a;
    } else {
      LineCountConcat(a, b[..|b| - 1], k);
      assert (a + b)[..|a + b| - 1] == a + b[..|b| - 1];
    }
  }

  lemma {:induction false} NoLineNoCount(lines: seq<Line>, k: RewardId)
    ensures LineCount(lines, k) == 0 <==> !HasLine(lines, k)
  {
    if lines != [] {
      var init, last := lines[..|lines| - 1], lines[|lines| - 1];
      NoLineNoCount(init, k);
      HasLineConcat(init, [last], k);
      assert lines == init + [last];
      assert last in [last];
    }
  }

  lemma {:induction false} OneNewLine(rewards: seq<Reward>, invoice: nat, ids: seq<RewardId>, k: RewardId)
    requires NoDuplicates(ids)
    ensures LineCount(InvoiceLines(rewards, invoice, ids), k) == if k in ids then 1 else 0
  {
    if ids != [] {
      var init, last := ids[..|ids| - 1], ids[|ids| - 1];
      OneNewLine(rewards, invoice, init, k);
      var lines := InvoiceLines(rewards, invoice, init);
      assert InvoiceLines(rewards, invoice, ids)[..|lines|] == lines;
      assert ids == init + [last];
      assert last !in init;
    }
  }

  /** Billing gives a reward its first line or none; it never adds to a reward that has one. */
  lemma NoSecondLine(w: World, s: Books, track: Track, filter: Option<Tenant>, k: RewardId)
    ensures var before, after := LineCount(s.lines, k), LineCount(CreateInvoice(w, s, track, filter).lines, k);
            after == before || (before == 0 && after == 1)
  {
    var ids := ToInvoice(s, track);
    SelectMeans(|s.rewards|, Uninvoiced(s, track));
    LineCountConcat(s.lines, InvoiceLines(s.rewards, |s.invoices|, ids), k);
    OneNewLine(s.rewards, |s.invoices|, ids, k);
    NoLineNoCount(s.lines, k);
  }

  lemma {:induction false} SettledCountConcat(a: seq<Settlement>, b: seq<Settlement>, k: RewardId)
    ensures SettledCount(a + b, k) == SettledCount(a, k) + SettledCount(b, k)
  {
    if b == [] {
      assert a + b == a;
    } else {
      SettledCountConcat(a, b[..|b| - 1], k);
      assert (a + b)[..|a + b| - 1] == a + b[..|b| - 1];
    }
  }

  lemma {:induction false} NoneSettledNoCount(settlements: seq<Settlement>, k: RewardId)
    ensures SettledCount(settlements, k) == 0 <==> !HasSettled(settlements, k)
  {
    if settlements != [] {
      var init, last := settlements[..|settlements| - 1], settlements[|settlements| - 1];
      NoneSettledNoCount(init, k);
      HasSettledConcat(init, [last], k);
      assert settlements == init + [last];
      assert last in [last];
    }
  }

  lemma SettledCountSnoc(settlements: seq<Settlement>, row: Settlement, k: RewardId)
    ensures SettledCount(settlements + [row], k)
         == SettledCount(settlements, k) + if row.reward == k && row.status == Settled then 1 else 0
  {
    assert (settlements + [row])[..|settlements|] == settlements;
  }

  lemma {:induction false} OneNewSettlement(s: Books, ids: seq<RewardId>, k: RewardId)
    requires NoDuplicates(ids)
    ensures SettledCount(Settlements(s, ids), k) == if k in ids && Correlated(s.audits, k) then 1 else 0
  {
    if ids != [] {
      var init, last := ids[..|ids| - 1], ids[|ids| - 1];
      OneNewSettlement(s, init, k);
      SettledCountSnoc(Settlements(s, init), Settlement(last, Settled, Round(AmountAt(s.rewards, last))), k);
      assert ids == init + [last];
      assert last !in init;
    }
  }

  /** Settling gives a reward its first SETTLED row or none, and only once it is billed. */
  lemma NoSecondSettlement(w: World, s: Books, track: Track, filter: Option<Tenant>, k: RewardId)
    ensures var before, after := SettledCount(s.settlements, k),
            SettledCount(CreateSettlement(w, s, track, filter).settlements, k);
            after == before || (before == 0 && after == 1 && HasLine(s.lines, k))
  {
    var ids := ToSettle(w, s, track, filter);
    SelectMeans(|s.rewards|, Unsettled(w, s, track, filter));
    SettledCountConcat(s.settlements, Settlements(s, ids), k);
    OneNewSettlement(s, ids, k);
    NoneSettledNoCount(s.settlements, k);
  }

  // ----- runs -----

  datatype Command =
    | RepairReward(track: Track, filter: Option<Tenant>)
    | RepairCommission(track: Track, filter: Option<Tenant>, pick: Option<RewardId>)
    | RepairWallet(track: Track, filter: Option<Tenant>, chosen: seq<nat>)
    | RepairInvoice(track: Track, filter: Option<Tenant>)
    | RepairSettlement(track: Track, filter: Option<Tenant>)
    | ResolveAll(track: Track, filter: Option<Tenant>)

  /** What the database may decide on the way. */
  ghost predicate Possible(w: World, s: Books, c: Command) {
    match c
    case RepairCommission(track, _, pick) => ValidPick(w, s, track, pick)
    case RepairWallet(track, filter, chosen) => ValidChoice(s, track, filter, chosen)
    case _ => true
  }

  ghost function Perform(w: World, s: Books, c: Command): Books
    requires Possible(w, s, c)
  {
    match c
    case RepairReward(track, filter) => CreateReward(w, s, track, filter)
    case RepairCommission(track, filter, pick) => CreateCommission(w, s, track, filter, pick)
    case RepairWallet(_, _, chosen) => Credit(s, chosen)
    case RepairInvoice(track, filter) => CreateInvoice(w, s, track, filter)
    case RepairSettlement(track, filter) => CreateSettlement(w, s, track, filter)
    case ResolveAll(track, filter) => ResolveExceptions(s, track, filter)
  }

  /** `states[k + 1]` is what the k-th command makes of `states[k]`. */
  ghost predicate IsRun(w: World, states: seq<Books>, commands: seq<Command>) {
    && |states| == |commands| + 1
    && forall k | 0 <= k < |commands| ::
         Possible(w, states[k], commands[k]) && states[k + 1] == Perform(w, states[k], commands[k])
  }

  /** A referral has at most one reward of a kind. */
  ghost predicate UniqueRewards(rewards: seq<Reward>) {
    forall i, j | 0 <= i < j < |rewards| :: rewards[i].track != rewards[j].track || rewards[i].kind != rewards[j].kind
  }

  ghost predicate OneLineEach(s: Books) { forall k: RewardId :: LineCount(s.lines, k) <= 1 }

  ghost predicate OneSettledEach(s: Books) { forall k: RewardId :: SettledCount(s.settlements, k) <= 1 }

  ghost predicate InWholeCents(s: Books) { forall r | r in s.rewards :: WholeCents(r) }

  ghost predicate Itemised(s: Books) {
    forall j: nat | j < |s.invoices| :: s.invoices[j].subtotal == LineSum(s.lines, j)
  }

  /** What repairs keep, whatever their order. */
  ghost predicate InOrder(s: Books) {
    && UniqueRewards(s.rewards) && UniqueSources(s.commissions)
    && Filed(s) && OneLineEach(s) && OneSettledEach(s)
    && InWholeCents(s) && Itemised(s)
  }

  lemma RewardKeepsOrder(w: World, s: Books, track: Track, filter: Option<Tenant>)
    requires InOrder(s)
    ensures InOrder(CreateReward(w, s, track, filter))
  {
    var t := CreateReward(w, s, track, filter);
    if t != s {
      var r := t.rewards[|s.rewards|];
      assert forall q | q in s.rewards :: q.track != r.track || q.kind != r.kind;
      assert forall i | 0 <= i < |s.rewards| :: s.rewards[i] in s.rewards;
    }
  }

  lemma CommissionKeepsOrder(w: World, s: Books, track: Track, filter: Option<Tenant>, pick: Option<RewardId>)
    requires InOrder(s) && ValidPick(w, s, track, pick)
    ensures InOrder(CreateCommission(w, s, track, filter, pick))
  {
    var t := CreateCommission(w, s, track, filter, pick);
    if t != s {
      forall i | 0 <= i < |s.commissions|
        ensures s.commissions[i].source != Some(track) || s.commissions[i].tenant != w.instances[track].tenant
      {
        assert s.commissions[i] in s.commissions;
      }
    }
  }

  lemma CreditKeepsOrder(s: Books, chosen: seq<nat>)
    requires InOrder(s)
    ensures InOrder(Credit(s, chosen))
  {
    var t := Credit(s, chosen);
    CreditFrame(s, chosen);
    SourcesStayUnique(s.commissions, t.commissions);
  }

  lemma SourcesStayUnique(a: seq<Commission>, b: seq<Commission>)
    requires UniqueSources(a) && SameCommissions(a, b)
    ensures UniqueSources(b)
  {
    forall i, j | 0 <= i < j < |b| && b[i].source.Some?
      ensures b[i].source != b[j].source || b[i].tenant != b[j].tenant
    {
      assert SameCommission(a[i], b[i]) && SameCommission(a[j], b[j]);
    }
  }

  lemma InvoiceKeepsItemised(w: World, s: Books, track: Track, filter: Option<Tenant>, j: nat)
    requires Filed(s) && InWholeCents(s) && Itemised(s)
    requires j < |CreateInvoice(w, s, track, filter).invoices|
    ensures var t := CreateInvoice(w, s, track, filter); t.invoices[j].subtotal == LineSum(t.lines, j)
  {
    if Bills(w, s, track, filter) {
      var ids := ToInvoice(s, track);
      if j < |s.invoices| {
        LineSumConcat(s.lines, InvoiceLines(s.rewards, |s.invoices|, ids), j);
        InvoiceLinesSum(s.rewards, |s.invoices|, ids, j);
      } else {
        SubtotalIsLineSumExactlyWhen(w, s, track, filter);
        WholeCentsLeaveNothing(s.rewards, ids);
      }
    }
  }

  lemma {:induction false} InvoiceLinesAreFiled(rewards: seq<Reward>, invoice: nat, ids: seq<RewardId>)
    ensures forall l | l in InvoiceLines(rewards, invoice, ids) :: l.invoice == invoice
  {
    if ids != [] { InvoiceLinesAreFiled(rewards, invoice, ids[..|ids| - 1]); }
  }

  lemma InvoiceKeepsOrder(w: World, s: Books, track: Track, filter: Option<Tenant>)
    requires InOrder(s)
    ensures InOrder(CreateInvoice(w, s, track, filter))
  {
    var t := CreateInvoice(w, s, track, filter);
    InvoiceLinesAreFiled(s.rewards, |s.invoices|, ToInvoice(s, track));
    forall k: RewardId ensures LineCount(t.lines, k) <= 1 { NoSecondLine(w, s, track, filter, k); }
    forall j: nat | j < |t.invoices| ensures t.invoices[j].subtotal == LineSum(t.lines, j) {
      InvoiceKeepsItemised(w, s, track, filter, j);
    }
  }

  lemma SettlementKeepsOrder(w: World, s: Books, track: Track, filter: Option<Tenant>)
    requires InOrder(s)
    ensures InOrder(CreateSettlement(w, s, track, filter))
  {
    var t := CreateSettlement(w, s, track, filter);
    forall k: RewardId ensures SettledCount(t.settlements, k) <= 1 { NoSecondSettlement(w, s, track, filter, k); }
  }

  lemma CommandKeepsOrder(w: World, s: Books, c: Command)
    requires InOrder(s) && Possible(w, s, c)
    ensures InOrder(Perform(w, s, c))
  {
    match c
    case RepairReward(track, filter) => RewardKeepsOrder(w, s, track, filter);
    case RepairCommission(track, filter, pick) => CommissionKeepsOrder(w, s, track, filter, pick);
    case RepairWallet(_, _, chosen) => CreditKeepsOrder(s, chosen);
    case RepairInvoice(track, filter) => InvoiceKeepsOrder(w, s, track, filter);
    case RepairSettlement(track, filter) => SettlementKeepsOrder(w, s, track, filter);
    case ResolveAll(_, _) =>
  }

  lemma CommandIsExplained(w: World, s: Books, t: Books, c: Command)
    requires LedgerExplains(s, t) && Possible(w, t, c)
    ensures LedgerExplains(s, Perform(w, t, c))
  {
    match c
    case RepairWallet(_, _, chosen) => CreditIsExplained(s, t, chosen);
    case _ => SameLedger(s, t, Perform(w, t, c));
  }

  lemma SameLedger(s: Books, t: Books, u: Books)
    requires LedgerExplains(s, t) && u.movements == t.movements && u.wallets == t.wallets
    ensures LedgerExplains(s, u)
  {
  }

  /** Any run of repairs over any referrals keeps the books in order: rewards and commissions stay
      unique, no reward is billed or settled twice, every invoice equals its lines, and wallets have
      grown by exactly the credits entered meanwhile. */
  lemma {:induction false} RunsKeepOrder(w: World, states: seq<Books>, commands: seq<Command>)
    requires IsRun(w, states, commands) && InOrder(states[0])
    ensures InOrder(states[|commands|])
    ensures LedgerExplains(states[0], states[|commands|])
  {
    if commands == [] {
      NothingToExplain(states[0]);
    } else {
      var n := |commands| - 1;
      RunsKeepOrder(w, states[..n + 1], commands[..n]);
      CommandKeepsOrder(w, states[n], commands[n]);
      CommandIsExplained(w, states[0], states[n], commands[n]);
    }
  }
}
