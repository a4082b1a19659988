/** Choosing between a provider and its fallback by asking their circuits. */
module ProviderRouting {
  import opened Prelude
  import opened CircuitBreaker

  datatype Reason = PrimaryAvailable | FallbackAvailable | NoAvailableProvider

  datatype Routing = Routing(requested: ProviderKey, selected: ProviderKey, reason: Reason, fallbackUsed: bool)

  function FallbackOf(key: ProviderKey): Option<ProviderKey> {
    match key
    case CashProvider => Some(CashProviderSecondary)
    case VoucherProvider => Some(VoucherProviderSecondary)
    case EbucksProvider => Some(EbucksProviderSecondary)
    case _ => None
  }

  /** What the routing rule says about a history: the primary if admissible at `first`, else the
      fallback if admissible at `second`, else the primary as a last resort. */
  function RouteByHistory(history: seq<Call>, key: ProviderKey, first: Time, second: Time): Routing {
    if Admissible(history, key, first) then Routing(key, key, PrimaryAvailable, false)
    else
      match FallbackOf(key)
      case Some(fallback) =>
        if Admissible(history, fallback, second) then Routing(key, fallback, FallbackAvailable, true)
        else Routing(key, key, NoAvailableProvider, false)
      case None => Routing(key, key, NoAvailableProvider, false)
  }

  /** What routing makes of the circuits as they are. */
  function Route(cs: Circuits, key: ProviderKey, first: Time, second: Time): Routing {
    if Admits(CircuitOf(cs, key), first) then Routing(key, key, PrimaryAvailable, false)
    else
      match FallbackOf(key)
      case Some(fallback) =>
        if Admits(CircuitOf(cs, fallback), second) then Routing(key, fallback, FallbackAvailable, true)
        else Routing(key, key, NoAvailableProvider, false)
      case None => Routing(key, key, NoAvailableProvider, false)
  }

  /** Routing asks the primary and, only if refused, the fallback. */
  predicate AsksFallback(routing: Routing) { routing.reason != PrimaryAvailable && FallbackOf(routing.requested).Some? }

  /** A call comes before the end of a cooldown that an earlier check has already seen end. */
  predicate Overtaken(history: seq<Call>, key: ProviderKey, now: Time) {
    Probed(history, key) && !CooledDown(history, key, now)
  }

  /** An overtaken call is admitted although the rule refuses it. */
  lemma OvertakenIsAdmitted(history: seq<Call>, key: ProviderKey, now: Time)
    ensures Overtaken(history, key, now) ==> !Admissible(history, key, now)
    ensures Admits(CircuitOf(After(history), key), now) <==>
              Admissible(history, key, now) || Overtaken(history, key, now)
  {
    CircuitReflectsHistory(history, key);
  }

  /** Under any clock, routing follows the rule exactly when the call on the primary is not overtaken and,
      if the fallback is asked, neither is that on the fallback. */
  lemma RoutingFollowsRuleExactlyWhen(history: seq<Call>, key: ProviderKey, first: Time, second: Time)
    ensures Route(After(history), key, first, second) == RouteByHistory(history, key, first, second) <==>
              && !Overtaken(history, key, first)
              && (Admissible(history, key, first) || FallbackOf(key) == None ||
                  !Overtaken(history, FallbackOf(key).value, second))
  {
    OvertakenIsAdmitted(history, key, first);
    if FallbackOf(key).Some? { OvertakenIsAdmitted(history, FallbackOf(key).value, second); }
  }

  lemma {:induction false} LaterIsMonotone(history: seq<Call>, first: Time, second: Time)
    requires Monotone(history, first) && first <= second
    ensures Monotone(history, second)
  {
    if history != [] && TimeOf(history[|history| - 1]) == None {
      LaterIsMonotone(history[..|history| - 1], first, second);
    }
  }

  /** With a clock that does not run backwards it always does. */
  lemma RoutingRefinesHistory(history: seq<Call>, key: ProviderKey, first: Time, second: Time)
    requires Monotone(history, first) && first <= second
    ensures Route(After(history), key, first, second) == RouteByHistory(history, key, first, second)
  {
    RoutingFollowsRuleExactlyWhen(history, key, first, second);
    MonotoneKeepsCool(history, key, first);
    if FallbackOf(key).Some? {
      LaterIsMonotone(history, first, second);
      MonotoneKeepsCool(history, FallbackOf(key).value, second);
    }
  }

  /** Resolves a provider; each check reads the clock itself and may half-open a circuit. */
  method ResolveProvider(breaker: Breaker, key: ProviderKey, first: Time, second: Time) returns (routing: Routing)
    requires breaker.Valid()
    modifies breaker, breaker.circuits.Values
    ensures breaker.Valid()
    ensures routing == Route(old(breaker.View()), key, first, second)
    ensures var checked := Apply(old(breaker.View()), Check(key, first));
            breaker.View() == if AsksFallback(routing) then Apply(checked, Check(FallbackOf(key).value, second))
                              else checked
  {
    var admitted := breaker.CanExecuteProvider(key, first);
    if admitted { return Routing(key, key, PrimaryAvailable, false); }
    var fallback := FallbackOf(key);
    if fallback != None {
      admitted := breaker.CanExecuteProvider(fallback.value, second);
      if admitted { return Routing(key, fallback.value, FallbackAvailable, true); }
    }
    return Routing(key, key, NoAvailableProvider, false);
  }
}
