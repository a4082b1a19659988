/** What funding operations answer and move, told on amounts and balances. */
module FundingFields {
  import opened FundingLedger

  /** An amount halfway between two cents goes to the even one. */
  lemma TiesGoToEven(value: real, below: int)
    requires value * 100.0 == below as real + 0.5
    ensures ToCents(value) % 2 == 0 && (ToCents(value) == below || ToCents(value) == below + 1)
  {
  }

  // ----- what each kind moves -----

  function CurrentBy(kind: Kind, cents: int): int {
    match kind
    case Credit => cents
    case Debit | Settlement => -cents
    case Reserve | Release => 0
  }

  function ReservedBy(kind: Kind, cents: int): int {
    match kind
    case Credit | Debit => 0
    case Reserve => cents
    case Release | Settlement => -cents
  }

  /** Available is what is current and not reserved. */
  function AvailableBy(kind: Kind, cents: int): int { CurrentBy(kind, cents) - ReservedBy(kind, cents) }

  predicate SomeNegative(a: Account, kind: Kind, cents: int) {
    || a.current + CurrentBy(kind, cents) < 0 || a.reserved + ReservedBy(kind, cents) < 0
    || a.available + AvailableBy(kind, cents) < 0
  }

  predicate SomeTooLarge(a: Account, kind: Kind, cents: int) {
    || a.current + CurrentBy(kind, cents) >= 1_000_000_000_000_000_000
    || a.reserved + ReservedBy(kind, cents) >= 1_000_000_000_000_000_000
    || a.available + AvailableBy(kind, cents) >= 1_000_000_000_000_000_000
  }

  lemma NegativeExactlyWhenUncovered(a: Account, kind: Kind, cents: int)
    requires Balanced(a) && cents >= 0
    ensures Covered(a, kind, cents) <==> !SomeNegative(a, kind, cents)
    ensures Moved(a, kind, cents)
         == Account(a.current + CurrentBy(kind, cents), a.reserved + ReservedBy(kind, cents),
                    a.available + AvailableBy(kind, cents))
  {
  }

  predicate Accepted(value: real) { value > 0.0 && ToCents(value) < 10_000_000_000_000_000_000_000_000_000 }

  lemma AmountAnswers(value: real)
    ensures CheckAmount(value).0 == InvalidAmount <==> value <= 0.0
    ensures CheckAmount(value).0 == AmountOutOfRange <==> value > 0.0 && !Accepted(value)
    ensures CheckAmount(value).0 == Done <==> Accepted(value)
    ensures CheckAmount(value).0 == Done ==> CheckAmount(value).1 == ToCents(value) >= 0
  {
  }

  lemma RoundsToNothing(value: real)
    requires value > 0.0
    ensures ToCents(value) >= 0 && (ToCents(value) == 0 <==> value <= 0.005)
  {
  }

  /** On sound balances, for every operation: it is done exactly when the amount is above half a cent and in
      range, the account exists, and every moved balance stays non-negative and in range. Every refusal has
      the first of its reasons; the row constraints never fire. */
  lemma AnswersOnBalances(s: State, kind: Kind, id: AccountId, value: real)
    requires AllBalanced(s)
    ensures var answer, cents := Answer(s, kind, id, value), ToCents(value);
            && (answer == InvalidAmount <==> value <= 0.0)
            && (answer == AmountOutOfRange <==> value > 0.0 && !Accepted(value))
            && (answer == AccountNotFound <==> Accepted(value) && id !in s.accounts)
            && (answer == Insufficient <==>
                  Accepted(value) && id in s.accounts && SomeNegative(s.accounts[id], kind, cents))
            && (answer == NumericOverflow <==>
                  && Accepted(value) && id in s.accounts && !SomeNegative(s.accounts[id], kind, cents)
                  && SomeTooLarge(s.accounts[id], kind, cents))
            && (answer == Done <==>
                  && value > 0.005 && Accepted(value) && id in s.accounts
                  && !SomeNegative(s.accounts[id], kind, cents) && !SomeTooLarge(s.accounts[id], kind, cents))
            && answer != BalanceConstraint
  {
    AmountAnswers(value);
    if Accepted(value) {
      RoundsToNothing(value);
      if id in s.accounts { NegativeExactlyWhenUncovered(s.accounts[id], kind, ToCents(value)); }
    }
  }

  /** What an operation leaves behind: moved balances and one log entry, or everything as it was. */
  lemma EffectOnBalances(s: State, kind: Kind, id: AccountId, value: real)
    requires AllBalanced(s)
    ensures var t, cents := Perform(s, kind, id, value), ToCents(value);
            if Answer(s, kind, id, value) != Done then t == s
            else
              && id in s.accounts && t.accounts.Keys == s.accounts.Keys
              && t.accounts[id].current == s.accounts[id].current + CurrentBy(kind, cents)
              && t.accounts[id].reserved == s.accounts[id].reserved + ReservedBy(kind, cents)
              && t.accounts[id].available == s.accounts[id].available + AvailableBy(kind, cents)
              && (forall other | other in s.accounts && other != id :: t.accounts[other] == s.accounts[other])
              && t.ledger == s.ledger + [Transaction(id, kind, cents)]
  {
    AmountAnswers(value);
    if Answer(s, kind, id, value) == Done { NegativeExactlyWhenUncovered(s.accounts[id], kind, ToCents(value)); }
  }

  /** An account opens exactly with a rounded balance that is non-negative and in range, all of it
      available. */
  lemma Openings(opening: real)
    ensures var result, cents := Opened(opening).0, ToCents(opening);
            && (result == Done <==> 0 <= cents < 1_000_000_000_000_000_000)
            && (result == AmountOutOfRange <==>
                  cents >= 10_000_000_000_000_000_000_000_000_000 || cents <= -10_000_000_000_000_000_000_000_000_000)
            && (result == InvalidAmount <==> -10_000_000_000_000_000_000_000_000_000 < cents < 0)
            && (result == NumericOverflow <==>
                  1_000_000_000_000_000_000 <= cents < 10_000_000_000_000_000_000_000_000_000)
  {
  }

  /** And then the account is there with its balance; else everything is as it was. */
  lemma OpenedAccount(s: State, id: AccountId, opening: real)
    requires id !in s.accounts
    ensures var t, cents := Apply(s, Open(id, opening)), ToCents(opening);
            if 0 <= cents < 1_000_000_000_000_000_000
            then
              && t.accounts.Keys == s.accounts.Keys + {id} && t.accounts[id] == Account(cents, 0, cents)
              && (forall other | other in s.accounts :: t.accounts[other] == s.accounts[other])
              && t.ledger == s.ledger
            else t == s
  {
  }
}
