/** Funding accounts: three balances and a transaction log, five guarded operations under a row
    lock, and the table constraints behind them. Money is counted in cents. */
module FundingLedger {
  import opened Prelude

  type AccountId = nat

  datatype Account = Account(current: int, reserved: int, available: int)

  datatype Kind = Credit | Debit | Reserve | Release | Settlement

  datatype Transaction = Transaction(account: AccountId, kind: Kind, amount: int)

  datatype State = State(accounts: map<AccountId, Account>, ledger: seq<Transaction>)

  datatype Result =
    | Done
    | InvalidAmount
    | AmountOutOfRange
    | AccountNotFound
    | Insufficient
    | NumericOverflow
    | BalanceConstraint
    | AmountConstraint

  /** Balances are NUMERIC(18,2): below 10^16 units. Decimals carry 28 significant digits. */
  const CENTS_LIMIT: int := 1_000_000_000_000_000_000
  const DECIMAL_LIMIT: int := 10_000_000_000_000_000_000_000_000_000

  // ----- amounts -----

  /** Rounds a decimal to whole cents, ties to even. */
  function ToCents(value: real): (cents: int) {
    var scaled := value * 100.0;
    var below := scaled.Floor;
    var rest := scaled - below as real;
    if rest < 0.5 then below
    else if rest > 0.5 then below + 1
    else if below % 2 == 0 then below
    else below + 1
  }

  lemma ToCentsIsNearest(value: real, other: int)
    ensures var error := value * 100.0 - ToCents(value) as real; -0.5 <= error <= 0.5
    ensures var distance := value * 100.0 - other as real;
            -0.5 < distance < 0.5 ==> ToCents(value) == other
  {
  }

  /** The sign is checked before rounding, so an accepted amount may round to nothing. */
  function CheckAmount(value: real): (Result, int) {
    if value <= 0.0 then (InvalidAmount, 0)
    else if ToCents(value) >= DECIMAL_LIMIT then (AmountOutOfRange, 0)
    else (Done, ToCents(value))
  }

  lemma AcceptedAmounts(value: real)
    ensures CheckAmount(value).0 == Done ==> CheckAmount(value).1 >= 0
    ensures CheckAmount(value).0 == Done && CheckAmount(value).1 == 0 <==> 0.0 < value <= 0.005
  {
  }

  // ----- one operation -----

  /** The balance an operation draws on must cover the amount; credits need no cover. */
  predicate Covered(a: Account, kind: Kind, cents: int) {
    match kind
    case Credit => true
    case Debit | Reserve => a.available >= cents
    case Release | Settlement => a.reserved >= cents
  }

  function Moved(a: Account, kind: Kind, cents: int): Account {
    match kind
    case Credit => a.(current := a.current + cents, available := a.available + cents)
    case Debit => a.(current := a.current - cents, available := a.available - cents)
    case Reserve => a.(reserved := a.reserved + cents, available := a.available - cents)
    case Release => a.(reserved := a.reserved - cents, available := a.available + cents)
    case Settlement => a.(current := a.current - cents, reserved := a.reserved - cents)
  }

  predicate InRange(a: Account) {
    a.current < CENTS_LIMIT && a.reserved < CENTS_LIMIT && a.available < CENTS_LIMIT
  }

  /** The row constraints of the accounts table. */
  predicate Balanced(a: Account) {
    a.current >= 0 && a.reserved >= 0 && a.available >= 0 && a.available == a.current - a.reserved
  }

  /** What an operation on a checked amount answers, in the order the service and then the database
      decide it. */
  function Decide(s: State, kind: Kind, id: AccountId, cents: int): Result {
    if id !in s.accounts then AccountNotFound
    else if !Covered(s.accounts[id], kind, cents) then Insufficient
    else
      var moved := Moved(s.accounts[id], kind, cents);
      if !InRange(moved) then NumericOverflow
      else if !Balanced(moved) then BalanceConstraint
      else if cents <= 0 then AmountConstraint
      else Done
  }

  /** An operation moves the balances and logs the movement in one transaction, or does nothing. */
  function Enter(s: State, kind: Kind, id: AccountId, cents: int): State {
    if Decide(s, kind, id, cents) != Done then s
    else State(s.accounts[id := Moved(s.accounts[id], kind, cents)], s.ledger + [Transaction(id, kind, cents)])
  }

  function Answer(s: State, kind: Kind, id: AccountId, value: real): Result {
    var (checked, cents) := CheckAmount(value);
    if checked != Done then checked else Decide(s, kind, id, cents)
  }

  function Perform(s: State, kind: Kind, id: AccountId, value: real): State {
    var (checked, cents) := CheckAmount(value);
    if checked != Done then s else Enter(s, kind, id, cents)
  }

  function Opened(opening: real): (Result, Account) {
    var balance := ToCents(opening);
    if balance >= DECIMAL_LIMIT || balance <= -DECIMAL_LIMIT then (AmountOutOfRange, Account(0, 0, 0))
    else if balance < 0 then (InvalidAmount, Account(0, 0, 0))
    else if balance >= CENTS_LIMIT then (NumericOverflow, Account(0, 0, 0))
    else (Done, Account(balance, 0, balance))
  }

  // ----- the service object -----

  class FundingService {
    var accounts: map<AccountId, Account>
    var ledger: seq<Transaction>

    ghost function View(): State
      reads this
    {
      State(accounts, ledger)
    }

    constructor ()
      ensures View() == State(map[], [])
    {
      accounts, ledger := map[], [];
    }

    method CreateAccount(id: AccountId, opening: real) returns (result: Result)
      requires id !in accounts
      modifies this
      ensures result == Opened(opening).0
      ensures View() == Apply(old(View()), Open(id, opening))
    {
      var balance := ToCents(opening);
      if balance >= DECIMAL_LIMIT || balance <= -DECIMAL_LIMIT { return AmountOutOfRange; }
      if balance < 0 { return InvalidAmount; }
      if balance >= CENTS_LIMIT { return NumericOverflow; }
      accounts := accounts[id := Account(balance, 0, balance)];
      return Done;
    }

    /** Writes the moved balances and the log entry, unless a table constraint refuses either. */
    method Commit(id: AccountId, moved: Account, kind: Kind, cents: int) returns (result: Result)
      requires id in accounts
      modifies this
      ensures result == if !InRange(moved) then NumericOverflow
                        else if !Balanced(moved) then BalanceConstraint
                        else if cents <= 0 then AmountConstraint
                        else Done
      ensures View() == if result == Done
                        then State(old(accounts)[id := moved], old(ledger) + [Transaction(id, kind, cents)])
                        else old(View())
    {
      if !InRange(moved) { return NumericOverflow; }
      if !Balanced(moved) { return BalanceConstraint; }
      if cents <= 0 { return AmountConstraint; }
      accounts, ledger := accounts[id := moved], ledger + [Transaction(id, kind, cents)];
      return Done;
    }

    method CreditLocked(id: AccountId, cents: int) returns (result: Result)
      modifies this
      ensures result == Decide(old(View()), Credit, id, cents)
      ensures View() == Enter(old(View()), Credit, id, cents)
    {
      if id !in accounts { return AccountNotFound; }
      var a := accounts[id];
      result := Commit(id, a.(current := a.current + cents, available := a.available + cents), Credit, cents);
    }

    method CreditAccount(id: AccountId, value: real) returns (result: Result)
      modifies this
      ensures result == Answer(old(View()), Credit, id, value)
      ensures View() == Perform(old(View()), Credit, id, value)
    {
      var (checked, cents) := CheckAmount(value);
      if checked != Done { return checked; }
      result := CreditLocked(id, cents);
    }

    method DebitLocked(id: AccountId, cents: int) returns (result: Result)
      modifies this
      ensures result == Decide(old(View()), Debit, id, cents)
      ensures View() == Enter(old(View()), Debit, id, cents)
    {
      if id !in accounts { return AccountNotFound; }
      var a := accounts[id];
      if a.available < cents { return Insufficient; }
      result := Commit(id, a.(current := a.current - cents, available := a.available - cents), Debit, cents);
    }

    method DebitAccount(id: AccountId, value: real) returns (result: Result)
      modifies this
      ensures result == Answer(old(View()), Debit, id, value)
      ensures View() == Perform(old(View()), Debit, id, value)
    {
      var (checked, cents) := CheckAmount(value);
      if checked != Done { return checked; }
      result := DebitLocked(id, cents);
    }

    method ReserveLocked(id: AccountId, cents: int) returns (result: Result)
      modifies this
      ensures result == Decide(old(View()), Reserve, id, cents)
      ensures View() == Enter(old(View()), Reserve, id, cents)
    {
      if id !in accounts { return AccountNotFound; }
      var a := accounts[id];
      if a.available < cents { return Insufficient; }
      result := Commit(id, a.(reserved := a.reserved + cents, available := a.available - cents), Reserve, cents);
    }

    method ReserveFunds(id: AccountId, value: real) returns (result: Result)
      modifies this
      ensures result == Answer(old(View()), Reserve, id, value)
      ensures View() == Perform(old(View()), Reserve, id, value)
    {
      var (checked, cents) := CheckAmount(value);
      if checked != Done { return checked; }
      result := ReserveLocked(id, cents);
    }

    method ReleaseLocked(id: AccountId, cents: int) returns (result: Result)
      modifies this
      ensures result == Decide(old(View()), Release, id, cents)
      ensures View() == Enter(old(View()), Release, id, cents)
    {
      if id !in accounts { return AccountNotFound; }
      var a := accounts[id];
      if a.reserved < cents { return Insufficient; }
      result := Commit(id, a.(reserved := a.reserved - cents, available := a.available + cents), Release, cents);
    }

    method ReleaseReservedFunds(id: AccountId, value: real) returns (result: Result)
      modifies this
      ensures result == Answer(old(View()), Release, id, value)
      ensures View() == Perform(old(View()), Release, id, value)
    {
      var (checked, cents) := CheckAmount(value);
      if checked != Done { return checked; }
      result := ReleaseLocked(id, cents);
    }

    method SettleLocked(id: AccountId, cents: int) returns (result: Result)
      modifies this
      ensures result == Decide(old(View()), Settlement, id, cents)
      ensures View() == Enter(old(View()), Settlement, id, cents)
    {
      if id !in accounts { return AccountNotFound; }
      var a := accounts[id];
      if a.reserved < cents { return Insufficient; }
      result := Commit(id, a.(current := a.current - cents, reserved := a.reserved - cents), Settlement, cents);
    }

    method SettleReservedFunds(id: AccountId, value: real) returns (result: Result)
      modifies this
      ensures result == Answer(old(View()), Settlement, id, value)
      ensures View() == Perform(old(View()), Settlement, id, value)
    {
      var (checked, cents) := CheckAmount(value);
      if checked != Done { return checked; }
      result := SettleLocked(id, cents);
    }
  }

  // ----- runs over many accounts -----

  datatype Operation =
    | Open(id: AccountId, opening: real)
    | Move(kind: Kind, id: AccountId, value: real)

  function Apply(s: State, op: Operation): State {
    match op
    case Open(id, opening) =>
      if id !in s.accounts && Opened(opening).0 == Done then s.(accounts := s.accounts[id := Opened(opening).1]) else s
    case Move(kind, id, value) => Perform(s, kind, id, value)
  }

  function Run(s: State, ops: seq<Operation>): State
    decreases |ops|
  {
    if ops == [] then s else Run(Apply(s, ops[0]), ops[1..])
  }

  ghost predicate AllBalanced(s: State) {
    && (forall id | id in s.accounts :: Balanced(s.accounts[id]) && InRange(s.accounts[id]))
    && (forall k | 0 <= k < |s.ledger| :: s.ledger[k].amount > 0 && s.ledger[k].account in s.accounts)
  }

  lemma ApplyKeepsBalanced(s: State, op: Operation)
    requires AllBalanced(s)
    ensures AllBalanced(Apply(s, op))
  {
  }

  /** On sound balances the row constraints never fire: an operation fails exactly for a bad amount,
      a missing account, missing cover, an overflowing credit, or an amount that rounds to nothing. */
  lemma SucceedsExactlyWhen(s: State, kind: Kind, id: AccountId, value: real)
    requires AllBalanced(s)
    ensures Answer(s, kind, id, value) != BalanceConstraint
    ensures Answer(s, kind, id, value) == Done <==>
              && value > 0.005
              && ToCents(value) < DECIMAL_LIMIT
              && id in s.accounts
              && Covered(s.accounts[id], kind, ToCents(value))
              && (kind == Credit ==> s.accounts[id].current + ToCents(value) < CENTS_LIMIT)
  {
    AcceptedAmounts(value);
  }

  /** The balances an account reaches from `a` by the log entries that name it. */
  function Replayed(a: Account, id: AccountId, entries: seq<Transaction>): Account {
    if entries == [] then a
    else
      var before, last := Replayed(a, id, entries[..|entries| - 1]), entries[|entries| - 1];
      if last.account == id then Moved(before, last.kind, last.amount) else before
  }

  /** Total amount logged for an account under one kind. */
  function Total(id: AccountId, kind: Kind, entries: seq<Transaction>): int {
    if entries == [] then 0
    else
      var last := entries[|entries| - 1];
      Total(id, kind, entries[..|entries| - 1]) + if last.account == id && last.kind == kind then last.amount else 0
  }

  lemma {:induction false} ReplayedInTotals(a: Account, id: AccountId, entries: seq<Transaction>)
    ensures var b := Replayed(a, id, entries);
            && b.current == a.current + Total(id, Credit, entries) - Total(id, Debit, entries)
              - Total(id, Settlement, entries)
            && b.reserved == a.reserved + Total(id, Reserve, entries) - Total(id, Release, entries)
              - Total(id, Settlement, entries)
            && b.available == a.available + Total(id, Credit, entries) - Total(id, Debit, entries)
                              - Total(id, Reserve, entries) + Total(id, Release, entries)
  {
    if entries != [] { ReplayedInTotals(a, id, entries[..|entries| - 1]); }
  }

  /** `t` continues `s`: the log has grown by `entries`, and every account of `s` is where those
      entries take it. */
  ghost predicate Explained(s: State, t: State, entries: seq<Transaction>) {
    && t.ledger == s.ledger + entries
    && s.accounts.Keys <= t.accounts.Keys
    && forall id | id in s.accounts :: t.accounts[id] == Replayed(s.accounts[id], id, entries)
  }

  lemma ApplyExplains(s: State, t: State, entries: seq<Transaction>, op: Operation) returns (more: seq<Transaction>)
    requires Explained(s, t, entries)
    ensures Explained(s, Apply(t, op), more)
  {
    more := entries;
    if op.Move? && Answer(t, op.kind, op.id, op.value) == Done {
      var last := Transaction(op.id, op.kind, ToCents(op.value));
      more := entries + [last];
      assert more[..|more| - 1] == entries;
    }
  }

  lemma {:induction false} RunExplains(s: State, t: State, entries: seq<Transaction>, ops: seq<Operation>)
    returns (more: seq<Transaction>)
    requires Explained(s, t, entries)
    ensures Explained(s, Run(t, ops), more)
    decreases |ops|
  {
    if ops == [] {
      more := entries;
    } else {
      more := ApplyExplains(s, t, entries, ops[0]);
      more := RunExplains(s, Apply(t, ops[0]), more, ops[1..]);
    }
  }

  lemma {:induction false} RunKeepsBalanced(s: State, ops: seq<Operation>)
    requires AllBalanced(s)
    ensures AllBalanced(Run(s, ops))
    decreases |ops|
  {
    if ops != [] {
      ApplyKeepsBalanced(s, ops[0]);
      RunKeepsBalanced(Apply(s, ops[0]), ops[1..]);
    }
  }

  /** Over every run on any number of accounts: current is reserved plus available, nothing is
      negative, and each account stands where its own log entries since the start take it. */
  lemma LedgerExplainsBalances(s: State, ops: seq<Operation>, id: AccountId)
    requires AllBalanced(s) && id in s.accounts
    ensures var t := Run(s, ops);
            && s.ledger <= t.ledger && id in t.accounts
            && t.accounts[id] == Replayed(s.accounts[id], id, t.ledger[|s.ledger|..])
            && t.accounts[id].current == t.accounts[id].reserved + t.accounts[id].available
            && t.accounts[id].current >= 0 && t.accounts[id].reserved >= 0 && t.accounts[id].available >= 0
  {
    RunKeepsBalanced(s, ops);
    var entries := RunExplains(s, s, [], ops);
    assert Run(s, ops).ledger[|s.ledger|..] == entries;
  }

  /** The balances an account was opened with in a run, if it was. */
  function OpenedIn(s: State, ops: seq<Operation>, id: AccountId): Option<Account>
    decreases |ops|
  {
    if ops == [] then None
    else if id !in s.accounts && id in Apply(s, ops[0]).accounts then Some(Apply(s, ops[0]).accounts[id])
    else OpenedIn(Apply(s, ops[0]), ops[1..], id)
  }

  /** No entry of the log names an account that does not exist. */
  lemma {:induction false} OthersReplayNothing(a: Account, id: AccountId, entries: seq<Transaction>)
    requires forall e | e in entries :: e.account != id
    ensures Replayed(a, id, entries) == a
  {
    if entries != [] {
      assert entries[|entries| - 1] in entries;
      OthersReplayNothing(a, id, entries[..|entries| - 1]);
    }
  }

  lemma {:induction false} ReplayedConcat(a: Account, id: AccountId, s: seq<Transaction>, t: seq<Transaction>)
    ensures Replayed(a, id, s + t) == Replayed(Replayed(a, id, s), id, t)
  {
    if t == [] {
      assert s + t == s;
    } else {
      ReplayedConcat(a, id, s, t[..|t| - 1]);
      assert (s + t)[..|s + t| - 1] == s + t[..|t| - 1];
    }
  }

  /** One operation adds entries for accounts that exist only, and opens at most one. */
  lemma ApplyOpens(s: State, op: Operation, id: AccountId)
    requires id !in s.accounts
    ensures var t := Apply(s, op);
            && s.ledger <= t.ledger && (forall e | e in t.ledger[|s.ledger|..] :: e.account != id)
            && (id in t.accounts ==> op == Open(id, op.opening) && t.accounts[id] == Opened(op.opening).1)
  {
  }

  lemma {:induction false} RunOpens(s: State, ops: seq<Operation>, id: AccountId)
    requires AllBalanced(s) && id !in s.accounts && id in Run(s, ops).accounts
    ensures var t := Run(s, ops);
            && OpenedIn(s, ops, id).Some? && s.ledger <= t.ledger
            && t.accounts[id] == Replayed(OpenedIn(s, ops, id).value, id, t.ledger[|s.ledger|..])
    decreases |ops|
  {
    var next, t := Apply(s, ops[0]), Run(s, ops);
    ApplyOpens(s, ops[0], id);
    ApplyKeepsBalanced(s, ops[0]);
    if id in next.accounts {
      LedgerExplainsBalances(next, ops[1..], id);
    } else {
      RunOpens(next, ops[1..], id);
    }
    var early, late := next.ledger[|s.ledger|..], t.ledger[|next.ledger|..];
    assert t.ledger[|s.ledger|..] == early + late;
    ReplayedConcat(OpenedIn(s, ops, id).value, id, early, late);
    OthersReplayNothing(OpenedIn(s, ops, id).value, id, early);
  }

  /** Every account of the final state, whether it was there at the start or was opened on the way,
      stands where its log entries take it from its balances at the start or at its opening. */
  lemma EveryBalanceIsExplained(s: State, ops: seq<Operation>, id: AccountId)
    requires AllBalanced(s) && id in Run(s, ops).accounts
    ensures var t := Run(s, ops);
            && s.ledger <= t.ledger && Balanced(t.accounts[id])
            && if id in s.accounts then t.accounts[id] == Replayed(s.accounts[id], id, t.ledger[|s.ledger|..])
               else OpenedIn(s, ops, id).Some?
                    && t.accounts[id] == Replayed(OpenedIn(s, ops, id).value, id, t.ledger[|s.ledger|..])
  {
    RunKeepsBalanced(s, ops);
    if id in s.accounts { LedgerExplainsBalances(s, ops, id); } else { RunOpens(s, ops, id); }
  }

  /** A rejected operation changes nothing; a successful one changes only its own account. */
  lemma OnlyOwnAccountMoves(s: State, kind: Kind, id: AccountId, value: real, other: AccountId)
    requires other in s.accounts && (other != id || Answer(s, kind, id, value) != Done)
    ensures other in Perform(s, kind, id, value).accounts
    ensures Perform(s, kind, id, value).accounts[other] == s.accounts[other]
    ensures Answer(s, kind, id, value) != Done ==> Perform(s, kind, id, value) == s
  {
  }

  lemma ReserveMovesAvailable(s: State, id: AccountId, cents: int)
    requires AllBalanced(s) && Decide(s, Reserve, id, cents) == Done
    ensures var held := Enter(s, Reserve, id, cents);
            && held.accounts == s.accounts[id := Moved(s.accounts[id], Reserve, cents)]
            && Decide(held, Release, id, cents) == Done && Decide(held, Settlement, id, cents) == Done
            && Decide(s, Debit, id, cents) == Done
  {
  }

  lemma EnterReserveThen(s: State, id: AccountId, cents: int)
    requires AllBalanced(s) && Decide(s, Reserve, id, cents) == Done
    ensures var held := Enter(s, Reserve, id, cents);
            && Enter(held, Release, id, cents).accounts == s.accounts
            && Enter(held, Settlement, id, cents).accounts == Enter(s, Debit, id, cents).accounts
  {
    ReserveMovesAvailable(s, id, cents);
    var a := s.accounts[id];
    assert Moved(Moved(a, Reserve, cents), Release, cents) == a;
    assert Moved(Moved(a, Reserve, cents), Settlement, cents) == Moved(a, Debit, cents);
  }

  /** Reserving and releasing the same amount restores the balances; reserving and settling has the
      effect of a debit. */
  lemma ReserveThen(s: State, id: AccountId, value: real)
    requires AllBalanced(s) && Answer(s, Reserve, id, value) == Done
    ensures var held := Perform(s, Reserve, id, value);
            && Perform(held, Release, id, value).accounts == s.accounts
            && Perform(held, Settlement, id, value).accounts == Perform(s, Debit, id, value).accounts
  {
    EnterReserveThen(s, id, CheckAmount(value).1);
  }
}
