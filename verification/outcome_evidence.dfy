/** The tables behind outcome money, and the six commands that repair missing evidence in them.
    Rows are identified by their position; amounts are counted in cents. */
module OutcomeEvidence {
  import opened Prelude

  type Track = nat
  type Tenant = nat
  type RewardId = nat
  type Sponsor = nat

  // ----- what repairs read -----

  datatype Instance = Instance(tenant: Tenant, complete: bool, product: bool, referrer: bool)

  /** The reward policy in force for a referral's product. */
  datatype Policy = Policy(kind: nat, referrerCents: int, refereeCents: int, allowsReferee: bool)

  datatype CommissionType = Percentage | Fixed | Hybrid | Estimated

  /** The commission rule that applies to a referral's opportunity. */
  datatype Rule = Rule(
    kind: CommissionType, rate: Option<real>, fixed: Option<int>, least: Option<int>, most: Option<int>, currency: nat)

  /** A referral has at most one link to an opportunity and its distributor. */
  datatype Link = Link(active: bool, sponsor: Sponsor, distributor: nat, rule: Option<Rule>, estimate: Option<int>)

  datatype World = World(instances: map<Track, Instance>, policies: map<Track, Policy>, links: map<Track, Link>)

  // ----- what repairs write -----

  datatype Reward = Reward(track: Track, kind: nat, tenant: Tenant, amount: real)

  /** A distributor has at most one wallet in a currency. */
  datatype Account = Account(distributor: nat, currency: nat)

  datatype Commission = Commission(
    tenant: Tenant, source: Option<Track>, correlation: Option<Track>, account: Account, cents: int, credited: bool)

  datatype Wallet = Wallet(active: bool, current: int, available: int)

  datatype Movement = Movement(
    tenant: Tenant, account: Account, credit: bool, cents: int, before: int, after: int,
    correlation: Option<Track>, source: Option<Track>)

  datatype Invoice = Invoice(tenant: Tenant, sponsor: Sponsor, subtotal: int)

  datatype Line = Line(invoice: nat, reward: RewardId, cents: int)

  datatype SettlementStatus = Pending | Processing | Settled | Failed | Reversed | Disputed

  datatype Settlement = Settlement(reward: RewardId, status: SettlementStatus, cents: int)

  datatype SettlementException = SettlementException(settlement: nat, open: bool)

  datatype Books = Books(
    rewards: seq<Reward>, commissions: seq<Commission>, wallets: map<Account, Wallet>, movements: seq<Movement>,
    invoices: seq<Invoice>, lines: seq<Line>,
    audits: map<RewardId, RewardId>, settlements: seq<Settlement>, exceptions: seq<SettlementException>)

  predicate Matches(filter: Option<Tenant>, tenant: Tenant) { filter == None || filter == Some(tenant) }

  predicate Completed(w: World, track: Track, filter: Option<Tenant>) {
    track in w.instances && w.instances[track].complete && Matches(filter, w.instances[track].tenant)
  }

  predicate Linked(w: World, track: Track) { track in w.links && w.links[track].active }

  /** Rounds to whole cents, ties away from zero. */
  function Round(x: real): int {
    if x >= 0.0 then (x + 0.5).Floor else -((0.5 - x).Floor)
  }

  /** The positions below `n` that meet a condition, in order. */
  function Select(n: nat, p: nat -> bool): seq<nat> {
    if n == 0 then [] else if p(n - 1) then Select(n - 1, p) + [n - 1] else Select(n - 1, p)
  }

  lemma {:induction false} SelectMeans(n: nat, p: nat -> bool)
    ensures forall k: nat :: k in Select(n, p) <==> k < n && p(k)
    ensures NoDuplicates(Select(n, p))
  {
    if n > 0 {
      SelectMeans(n - 1, p);
      var rest := Select(n - 1, p);
      forall i | 0 <= i < |rest| ensures rest[i] != n - 1 { assert rest[i] in rest; }
    }
  }

  lemma SelectNothing(n: nat, p: nat -> bool)
    requires forall k: nat | k < n :: !p(k)
    ensures Select(n, p) == []
  {
    SelectMeans(n, p);
    if Select(n, p) != [] { assert Select(n, p)[0] in Select(n, p); }
  }

  // ----- rewards -----

  function PolicyCents(p: Policy): int {
    if p.referrerCents > 0 then p.referrerCents else if p.allowsReferee then p.refereeCents else 0
  }

  predicate HasReward(rewards: seq<Reward>, track: Track, kind: nat) {
    exists r | r in rewards :: r.track == track && r.kind == kind
  }

  function CreateReward(w: World, s: Books, track: Track, filter: Option<Tenant>): Books {
    if !Completed(w, track, filter) || track !in w.policies then s
    else
      var p := w.policies[track];
      if PolicyCents(p) <= 0 || HasReward(s.rewards, track, p.kind) then s
      else s.(rewards := s.rewards + [Reward(track, p.kind, w.instances[track].tenant, PolicyCents(p) as real)])
  }

  // ----- commissions -----

  function OrElse<T>(x: Option<T>, y: T): T { if x.Some? then x.value else y }

  function ShareOf(reward: real, rate: real): real { reward * rate }

  function RawCommission(rule: Rule, estimate: Option<int>, reward: real): int {
    match rule.kind
    case Percentage => Round(ShareOf(reward, OrElse(rule.rate, 0.0)))
    case Fixed => OrElse(rule.fixed, 0)
    case Hybrid => Round(OrElse(rule.fixed, 0) as real + ShareOf(reward, OrElse(rule.rate, 0.0)))
    case Estimated => OrElse(estimate, 0)
  }

  /** The lower bound is applied first; a missing bound stands for the amount itself. */
  function BoundedCommission(rule: Rule, raw: int): int {
    Min(OrElse(rule.most, raw), Max(OrElse(rule.least, raw), raw))
  }

  /** An upper bound always holds. A lower bound is honoured if there is an upper bound not below it;
      without an upper bound it has no effect at all. */
  lemma CommissionBounds(rule: Rule, raw: int)
    ensures var c := BoundedCommission(rule, raw);
            && (rule.most.Some? ==> c <= rule.most.value)
            && (rule.most == None ==> c == raw)
            && (rule.least.Some? && rule.most.Some?
                ==> (c >= rule.least.value <==> rule.most.value >= rule.least.value))
            && ((rule.most == None || raw <= rule.most.value) && (rule.least == None || rule.least.value <= raw)
                ==> c == raw)
  {
  }

  function CommissionFor(link: Link, reward: Reward): int {
    if link.rule == None then 0 else BoundedCommission(link.rule.value,
                                                       RawCommission(link.rule.value, link.estimate, reward.amount))
  }

  predicate Recorded(commissions: seq<Commission>, tenant: Tenant, track: Track) {
    exists c | c in commissions :: c.tenant == tenant && (c.source == Some(track) || c.correlation == Some(track))
  }

  /** A reward of the referral that earns the linked distributor a commission. */
  predicate Earns(w: World, s: Books, track: Track, k: RewardId) {
    && k < |s.rewards| && s.rewards[k].track == track
    && Linked(w, track) && CommissionFor(w.links[track], s.rewards[k]) > 0
  }

  /** When several rewards earn a commission, the database records the one it comes to first; which one
      that is belongs to the step. */
  ghost predicate ValidPick(w: World, s: Books, track: Track, pick: Option<RewardId>) {
    if pick.Some? then Earns(w, s, track, pick.value) else forall k: nat :: !Earns(w, s, track, k)
  }

  function CreateCommission(w: World, s: Books, track: Track, filter: Option<Tenant>, pick: Option<RewardId>): Books
    requires pick.Some? ==> Earns(w, s, track, pick.value)
  {
    if pick == None || !Completed(w, track, filter) || Recorded(s.commissions, w.instances[track].tenant, track) then s
    else
      var link := w.links[track];
      var earned := Commission(w.instances[track].tenant, Some(track), Some(track),
                               Account(link.distributor, link.rule.value.currency),
                               CommissionFor(link, s.rewards[pick.value]), false);
      s.(commissions := s.commissions + [earned])
  }

  // ----- wallets -----

  predicate Moved(movements: seq<Movement>, tenant: Tenant, track: Track) {
    exists m | m in movements :: m.tenant == tenant && (m.correlation == Some(track) || m.source == Some(track))
  }

  predicate Creditable(s: Books, track: Track, filter: Option<Tenant>, e: nat) {
    && e < |s.commissions|
    && var c := s.commissions[e];
       && c.source == Some(track) && Matches(filter, c.tenant)
       && c.account in s.wallets && s.wallets[c.account].active
       && !Moved(s.movements, c.tenant, track)
  }

  /** One update touches each wallet once: of the commissions due on a wallet, one is credited. Which
      one belongs to the step. */
  ghost predicate ValidChoice(s: Books, track: Track, filter: Option<Tenant>, chosen: seq<nat>) {
    && (forall k | 0 <= k < |chosen| :: Creditable(s, track, filter, chosen[k]))
    && (forall j, k | 0 <= j < k < |chosen| :: s.commissions[chosen[j]].account != s.commissions[chosen[k]].account)
    && (forall e: nat {:trigger Covered(s, chosen, e)} | Creditable(s, track, filter, e) :: Covered(s, chosen, e))
  }

  predicate Covered(s: Books, chosen: seq<nat>, e: nat) {
    && e < |s.commissions|
    && exists k | 0 <= k < |chosen| ::
         chosen[k] < |s.commissions| && s.commissions[chosen[k]].account == s.commissions[e].account
  }

  function CreditMovement(c: Commission, w: Wallet): Movement {
    Movement(c.tenant, c.account, true, c.cents, w.available, w.available + c.cents, c.source, c.source)
  }

  function CreditOne(s: Books, e: nat): Books {
    if e >= |s.commissions| || s.commissions[e].account !in s.wallets then s
    else
      var c := s.commissions[e];
      var w := s.wallets[c.account];
      s.(wallets := s.wallets[c.account := w.(current := w.current + c.cents, available := w.available + c.cents)],
         movements := s.movements + [CreditMovement(c, w)],
         commissions := s.commissions[e := c.(credited := true)])
  }

  function Credit(s: Books, chosen: seq<nat>): Books {
    if chosen == [] then s else CreditOne(Credit(s, chosen[..|chosen| - 1]), chosen[|chosen| - 1])
  }

  // ----- invoices -----

  predicate HasLine(lines: seq<Line>, k: RewardId) { exists l | l in lines :: l.reward == k }

  function Uninvoiced(s: Books, track: Track): nat -> bool {
    (k: nat) => k < |s.rewards| && s.rewards[k].track == track && !HasLine(s.lines, k)
  }

  function ToInvoice(s: Books, track: Track): seq<RewardId> { Select(|s.rewards|, Uninvoiced(s, track)) }

  function AmountAt(rewards: seq<Reward>, k: RewardId): real { if k < |rewards| then rewards[k].amount else 0.0 }

  function Amounts(rewards: seq<Reward>, ids: seq<RewardId>): real {
    if ids == [] then 0.0 else Amounts(rewards, ids[..|ids| - 1]) + AmountAt(rewards, ids[|ids| - 1])
  }

  function InvoiceLines(rewards: seq<Reward>, invoice: nat, ids: seq<RewardId>): seq<Line> {
    if ids == [] then []
    else
      InvoiceLines(rewards, invoice, ids[..|ids| - 1])
      + [Line(invoice, ids[|ids| - 1], Round(AmountAt(rewards, ids[|ids| - 1])))]
  }

  function CreateInvoice(w: World, s: Books, track: Track, filter: Option<Tenant>): Books {
    var ids := ToInvoice(s, track);
    if !Completed(w, track, filter) || !Linked(w, track) || ids == [] then s
    else
      s.(invoices := s.invoices + [Invoice(w.instances[track].tenant, w.links[track].sponsor,
                                           Round(Amounts(s.rewards, ids)))],
         lines := s.lines + InvoiceLines(s.rewards, |s.invoices|, ids))
  }

  // ----- settlements -----

  predicate HasSettled(settlements: seq<Settlement>, k: RewardId) {
    exists t | t in settlements :: t.reward == k && t.status == Settled
  }

  function Unsettled(w: World, s: Books, track: Track, filter: Option<Tenant>): nat -> bool {
    (k: nat) => && k < |s.rewards| && s.rewards[k].track == track && Matches(filter, s.rewards[k].tenant)
                && track in w.instances && w.instances[track].complete
                && HasLine(s.lines, k) && !HasSettled(s.settlements, k)
  }

  function ToSettle(w: World, s: Books, track: Track, filter: Option<Tenant>): seq<RewardId> {
    Select(|s.rewards|, Unsettled(w, s, track, filter))
  }

  /** The repair audit of a reward is written once; it keeps the correlation it was written with. */
  function Audited(audits: map<RewardId, RewardId>, ids: seq<RewardId>): map<RewardId, RewardId> {
    if ids == [] then audits
    else
      var before, k := Audited(audits, ids[..|ids| - 1]), ids[|ids| - 1];
      if k in before then before else before[k := k]
  }

  /** A settlement needs the audit that correlates with its reward. */
  predicate Correlated(audits: map<RewardId, RewardId>, k: RewardId) { k !in audits || audits[k] == k }

  function Settlements(s: Books, ids: seq<RewardId>): seq<Settlement> {
    if ids == [] then []
    else
      var before, k := Settlements(s, ids[..|ids| - 1]), ids[|ids| - 1];
      if Correlated(s.audits, k) then before + [Settlement(k, Settled, Round(AmountAt(s.rewards, k)))] else before
  }

  function CreateSettlement(w: World, s: Books, track: Track, filter: Option<Tenant>): Books {
    var ids := ToSettle(w, s, track, filter);
    s.(audits := Audited(s.audits, ids), settlements := s.settlements + Settlements(s, ids))
  }

  // ----- exceptions -----

  predicate ConcernsTrack(s: Books, x: SettlementException, track: Track, filter: Option<Tenant>) {
    && x.settlement < |s.settlements|
    && var k := s.settlements[x.settlement].reward;
       k < |s.rewards| && s.rewards[k].track == track && Matches(filter, s.rewards[k].tenant)
  }

  function Resolved(s: Books, x: SettlementException, track: Track, filter: Option<Tenant>): SettlementException {
    if ConcernsTrack(s, x, track, filter) then x.(open := false) else x
  }

  function ResolveExceptions(s: Books, track: Track, filter: Option<Tenant>): Books {
    s.(exceptions := seq(|s.exceptions|, k requires 0 <= k < |s.exceptions| =>
                         Resolved(s, s.exceptions[k], track, filter)))
  }

  /** The open exceptions of a referral. */
  function OpenFor(s: Books, track: Track, filter: Option<Tenant>): nat -> bool {
    (k: nat) => k < |s.exceptions| && s.exceptions[k].open && ConcernsTrack(s, s.exceptions[k], track, filter)
  }

  // ----- twice is once -----

  lemma RewardRepairIsIdempotent(w: World, s: Books, track: Track, filter: Option<Tenant>)
    ensures var t := CreateReward(w, s, track, filter); CreateReward(w, t, track, filter) == t
  {
    var t := CreateReward(w, s, track, filter);
    if t != s { assert t.rewards[|s.rewards|] in t.rewards; }
  }

  /** Whichever rewards the two runs pick, the second records nothing. */
  lemma CommissionRepairIsIdempotent(w: World, s: Books, track: Track, filter: Option<Tenant>, pick: Option<RewardId>,
                                     again: Option<RewardId>)
    requires ValidPick(w, s, track, pick)
    requires ValidPick(w, CreateCommission(w, s, track, filter, pick), track, again)
    ensures var t := CreateCommission(w, s, track, filter, pick); CreateCommission(w, t, track, filter, again) == t
  {
    var t := CreateCommission(w, s, track, filter, pick);
    if t != s {
      assert t.commissions[|s.commissions|] in t.commissions;
    } else if again.Some? {
      assert Earns(w, s, track, again.value);
    }
  }

  lemma {:induction false} LinesCover(rewards: seq<Reward>, invoice: nat, ids: seq<RewardId>, k: RewardId)
    ensures HasLine(InvoiceLines(rewards, invoice, ids), k) <==> k in ids
  {
    if ids != [] {
      var init, last := ids[..|ids| - 1], ids[|ids| - 1];
      LinesCover(rewards, invoice, init, k);
      assert ids == init + [last];
      HasLineConcat(InvoiceLines(rewards, invoice, init), [Line(invoice, last, Round(AmountAt(rewards, last)))], k);
      var line := Line(invoice, last, Round(AmountAt(rewards, last)));
      assert line in [line];
    }
  }

  lemma HasLineConcat(a: seq<Line>, b: seq<Line>, k: RewardId)
    ensures HasLine(a + b, k) <==> HasLine(a, k) || HasLine(b, k)
  {
    if HasLine(a, k) {
      var l :| l in a && l.reward == k;
      assert l in a + b;
    }
    if HasLine(b, k) {
      var l :| l in b && l.reward == k;
      assert l in a + b;
    }
  }

  lemma InvoiceRepairIsIdempotent(w: World, s: Books, track: Track, filter: Option<Tenant>)
    ensures var t := CreateInvoice(w, s, track, filter); CreateInvoice(w, t, track, filter) == t
  {
    var t := CreateInvoice(w, s, track, filter);
    if t != s {
      forall k: nat | k < |t.rewards| ensures !Uninvoiced(t, track)(k) {
        if s.rewards[k].track == track { AfterInvoicing(s, track, |s.invoices|, k); }
      }
      SelectNothing(|t.rewards|, Uninvoiced(t, track));
    }
  }

  /** After an invoice run, every reward of the referral has a line. */
  lemma AfterInvoicing(s: Books, track: Track, invoice: nat, k: RewardId)
    requires k < |s.rewards| && s.rewards[k].track == track
    ensures HasLine(s.lines + InvoiceLines(s.rewards, invoice, ToInvoice(s, track)), k)
  {
    var ids := ToInvoice(s, track);
    SelectMeans(|s.rewards|, Uninvoiced(s, track));
    LinesCover(s.rewards, invoice, ids, k);
    HasLineConcat(s.lines, InvoiceLines(s.rewards, invoice, ids), k);
  }

  lemma HasSettledConcat(a: seq<Settlement>, b: seq<Settlement>, k: RewardId)
    ensures HasSettled(a + b, k) <==> HasSettled(a, k) || HasSettled(b, k)
  {
    if HasSettled(a, k) {
      var t :| t in a && t.reward == k && t.status == Settled;
      assert t in a + b;
    }
    if HasSettled(b, k) {
      var t :| t in b && t.reward == k && t.status == Settled;
      assert t in a + b;
    }
  }

  lemma {:induction false} SettlementsCover(s: Books, ids: seq<RewardId>, k: RewardId)
    ensures HasSettled(Settlements(s, ids), k) <==> k in ids && Correlated(s.audits, k)
  {
    if ids != [] {
      var init, last := ids[..|ids| - 1], ids[|ids| - 1];
      SettlementsCover(s, init, k);
      assert ids == init + [last];
      var row := Settlement(last, Settled, Round(AmountAt(s.rewards, last)));
      HasSettledConcat(Settlements(s, init), [row], k);
      assert row in [row];
    }
  }

  lemma {:induction false} AuditedMeans(audits: map<RewardId, RewardId>, ids: seq<RewardId>, k: RewardId)
    ensures k in Audited(audits, ids) <==> k in audits || k in ids
    ensures k in audits ==> Audited(audits, ids)[k] == audits[k]
    ensures k in ids && k !in audits ==> Audited(audits, ids)[k] == k
  {
    if ids != [] {
      var init, last := ids[..|ids| - 1], ids[|ids| - 1];
      AuditedMeans(audits, init, k);
      assert ids == init + [last];
    }
  }

  lemma {:induction false} AuditedAlready(audits: map<RewardId, RewardId>, ids: seq<RewardId>)
    requires forall k | k in ids :: k in audits
    ensures Audited(audits, ids) == audits
  {
    if ids != [] { AuditedAlready(audits, ids[..|ids| - 1]); }
  }

  lemma {:induction false} NothingCorrelated(s: Books, ids: seq<RewardId>)
    requires forall k | k in ids :: !Correlated(s.audits, k)
    ensures Settlements(s, ids) == []
  {
    if ids != [] { NothingCorrelated(s, ids[..|ids| - 1]); }
  }

  /** What is still to settle after a settlement run: the rewards whose audit belongs elsewhere. */
  lemma AfterSettling(w: World, s: Books, track: Track, filter: Option<Tenant>, k: RewardId)
    requires k in ToSettle(w, CreateSettlement(w, s, track, filter), track, filter)
    ensures k in s.audits && !Correlated(s.audits, k)
  {
    var t, ids := CreateSettlement(w, s, track, filter), ToSettle(w, s, track, filter);
    SelectMeans(|s.rewards|, Unsettled(w, s, track, filter));
    SelectMeans(|t.rewards|, Unsettled(w, t, track, filter));
    HasSettledConcat(s.settlements, Settlements(s, ids), k);
    SettlementsCover(s, ids, k);
  }

  lemma SettlementRepairIsIdempotent(w: World, s: Books, track: Track, filter: Option<Tenant>)
    ensures var t := CreateSettlement(w, s, track, filter); CreateSettlement(w, t, track, filter) == t
  {
    var t := CreateSettlement(w, s, track, filter);
    var ids, again := ToSettle(w, s, track, filter), ToSettle(w, t, track, filter);
    forall k | k in again ensures k in t.audits && !Correlated(t.audits, k) {
      AfterSettling(w, s, track, filter, k);
      AuditedMeans(s.audits, ids, k);
    }
    AuditedAlready(t.audits, again);
    NothingCorrelated(t, again);
    assert t.settlements + [] == t.settlements;
  }

  lemma ResolvingIsIdempotent(s: Books, track: Track, filter: Option<Tenant>)
    ensures var t := ResolveExceptions(s, track, filter); ResolveExceptions(t, track, filter) == t
  {
    var t := ResolveExceptions(s, track, filter);
    assert ResolveExceptions(t, track, filter).exceptions == t.exceptions;
  }
}
