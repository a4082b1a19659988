/** When providers are asked, told on failures and times. */
module BreakerFields {
  import opened Prelude
  import opened CircuitBreaker
  import opened ProviderRouting

  /** On every history: a call is admitted with fewer than five failures since the last success or reset, or
      five minutes after the last failure, or once a check has found the circuit cooled down. */
  lemma AdmittedExactlyWhen(history: seq<Call>, key: ProviderKey, now: Time)
    ensures Admits(CircuitOf(After(history), key), now) <==>
              || FailuresSince(history, key) < 5
              || (LastFailure(history, key).Some? && now >= LastFailure(history, key).value + 300)
              || Probed(history, key)
  {
    CircuitReflectsHistory(history, key);
  }

  /** Failures of one provider at some times, and nothing else. */
  function FailuresAt(key: ProviderKey, times: seq<Time>): seq<Call> {
    seq(|times|, k requires 0 <= k < |times| => Failure(key, times[k]))
  }

  lemma {:induction false} OnlyFailures(key: ProviderKey, times: seq<Time>)
    ensures var h := FailuresAt(key, times);
            && FailuresSince(h, key) == |times| && !Probed(h, key)
            && LastFailure(h, key) == (if times == [] then None else Some(times[|times| - 1]))
  {
    if times != [] {
      OnlyFailures(key, times[..|times| - 1]);
      assert FailuresAt(key, times)[..|times| - 1] == FailuresAt(key, times[..|times| - 1]);
    }
  }

  /** After failures at some times a call is admitted exactly if there were fewer than five or the last is
      five minutes ago; after a success or a reset always. */
  lemma AfterFailures(key: ProviderKey, times: seq<Time>, now: Time)
    ensures Admits(CircuitOf(After(FailuresAt(key, times)), key), now) <==>
              |times| < 5 || now >= times[|times| - 1] + 300
  {
    OnlyFailures(key, times);
    AdmittedExactlyWhen(FailuresAt(key, times), key, now);
  }

  lemma AfterRelief(history: seq<Call>, key: ProviderKey, now: Time)
    ensures Admits(CircuitOf(After(history + [Success(key)]), key), now)
    ensures Admits(CircuitOf(After(history + [Reset(key)]), key), now)
  {
    assert (history + [Success(key)])[..|history|] == history && (history + [Reset(key)])[..|history|] == history;
  }

  /** A call admitted on probation that fails closes the door for another five minutes. */
  lemma FailedProbe(history: seq<Call>, key: ProviderKey, at: Time, now: Time)
    requires FailuresSince(history, key) >= 5
    ensures Admits(CircuitOf(After(history + [Failure(key, at)]), key), now) <==> now >= at + 300
  {
    assert (history + [Failure(key, at)])[..|history|] == history;
    AdmittedExactlyWhen(history + [Failure(key, at)], key, now);
  }

  /** Calls on one provider leave the circuits of others alone. */
  lemma OthersStay(cs: Circuits, call: Call, other: ProviderKey)
    requires call.key != other
    ensures CircuitOf(Apply(cs, call), other) == CircuitOf(cs, other)
  {
  }

  /** The fallbacks: cash, voucher and eBucks providers have their secondary, nothing else has one. */
  lemma Fallbacks(key: ProviderKey)
    ensures FallbackOf(CashProvider) == Some(CashProviderSecondary)
    ensures FallbackOf(VoucherProvider) == Some(VoucherProviderSecondary)
    ensures FallbackOf(EbucksProvider) == Some(EbucksProviderSecondary)
    ensures key !in {CashProvider, VoucherProvider, EbucksProvider} ==> FallbackOf(key) == None
  {
  }

  /** Routing a cash payment: the primary while admitted, else the secondary while admitted, else the primary
      as a last resort; the same for vouchers and eBucks, and other providers have no second choice. */
  lemma Routes(cs: Circuits, first: Time, second: Time, id: nat)
    ensures Route(cs, CashProvider, first, second) ==
              if Admits(CircuitOf(cs, CashProvider), first)
              then Routing(CashProvider, CashProvider, PrimaryAvailable, false)
              else if Admits(CircuitOf(cs, CashProviderSecondary), second)
              then Routing(CashProvider, CashProviderSecondary, FallbackAvailable, true)
              else Routing(CashProvider, CashProvider, NoAvailableProvider, false)
    ensures Route(cs, VoucherProvider, first, second).selected ==
              if !Admits(CircuitOf(cs, VoucherProvider), first)
                 && Admits(CircuitOf(cs, VoucherProviderSecondary), second)
              then VoucherProviderSecondary else VoucherProvider
    ensures Route(cs, EbucksProvider, first, second).selected ==
              if !Admits(CircuitOf(cs, EbucksProvider), first) && Admits(CircuitOf(cs, EbucksProviderSecondary), second)
              then EbucksProviderSecondary else EbucksProvider
    ensures Route(cs, OtherProvider(id), first, second).selected == OtherProvider(id)
  {
  }
}
