/** Per-provider circuit breakers held as mutable objects, refining a predicate over history. */
module CircuitBreaker {
  import opened Prelude

  datatype ProviderKey =
    | CashProvider | CashProviderSecondary
    | VoucherProvider | VoucherProviderSecondary
    | EbucksProvider | EbucksProviderSecondary
    | OtherProvider(id: nat)

  datatype CircuitState = Closed | Open | HalfOpen

  /** The value of a circuit object. */
  datatype Circuit = Circuit(state: CircuitState, failures: nat, openedAt: Option<Time>)

  const FAILURE_THRESHOLD: nat := 5
  const COOLDOWN_SECONDS: nat := 300
  const FRESH: Circuit := Circuit(Closed, 0, None)

  type Circuits = map<ProviderKey, Circuit>

  function CircuitOf(cs: Circuits, key: ProviderKey): Circuit {
    if key in cs then cs[key] else FRESH
  }

  // ----- what one call does to one circuit -----

  function Admits(c: Circuit, now: Time): bool {
    match c.state
    case Closed | HalfOpen => true
    case Open => c.openedAt.Some? && now >= c.openedAt.value + COOLDOWN_SECONDS
  }

  /** Asking an open circuit after its cooldown half-opens it. */
  function Checked(c: Circuit, now: Time): Circuit {
    if c.state == Open && Admits(c, now) then c.(state := HalfOpen) else c
  }

  function Failed(c: Circuit, now: Time): Circuit {
    if c.failures + 1 >= FAILURE_THRESHOLD then Circuit(Open, c.failures + 1, Some(now))
    else c.(failures := c.failures + 1)
  }

  class CircuitObject {
    var state: CircuitState
    var failures: nat
    var openedAt: Option<Time>

    ghost function Value(): Circuit
      reads this
    {
      Circuit(state, failures, openedAt)
    }

    constructor ()
      ensures Value() == FRESH
    {
      state, failures, openedAt := Closed, 0, None;
    }
  }

  class Breaker {
    var circuits: map<ProviderKey, CircuitObject>

    /** No two providers share a circuit object. */
    ghost predicate Valid()
      reads this
    {
      forall j, k | j in circuits && k in circuits && j != k :: circuits[j] != circuits[k]
    }

    ghost function View(): Circuits
      reads this, circuits.Values
    {
      map k | k in circuits :: circuits[k].Value()
    }

    constructor ()
      ensures Valid() && View() == map[] && circuits == map[]
    {
      circuits := map[];
    }

    /** Finds a provider's circuit, creating a closed one on first use. */
    method GetCircuit(key: ProviderKey) returns (c: CircuitObject)
      requires Valid()
      modifies this
      ensures Valid() && key in circuits && circuits[key] == c
      ensures View() == old(View())[key := CircuitOf(old(View()), key)]
      ensures fresh(circuits.Values - old(circuits.Values))
    {
      if key !in circuits {
        var made := new CircuitObject();
        circuits := circuits[key := made];
      }
      c := circuits[key];
    }

    method ResetCircuit(key: ProviderKey)
      requires Valid()
      modifies this
      ensures Valid() && View() == old(View())[key := FRESH]
      ensures fresh(circuits.Values - old(circuits.Values))
    {
      var made := new CircuitObject();
      circuits := circuits[key := made];
    }

    method CanExecuteProvider(key: ProviderKey, now: Time) returns (admitted: bool)
      requires Valid()
      modifies this, circuits.Values
      ensures Valid() && View() == old(View())[key := Checked(CircuitOf(old(View()), key), now)]
      ensures admitted == Admits(CircuitOf(old(View()), key), now)
      ensures fresh(circuits.Values - old(circuits.Values))
    {
      var c := GetCircuit(key);
      assert View()[key] == c.Value();
      if c.state == Closed || c.state == HalfOpen { return true; }
      if c.openedAt == None { return false; }
      if now - c.openedAt.value >= COOLDOWN_SECONDS {
        c.state := HalfOpen;
        return true;
      }
      return false;
    }

    method RecordProviderSuccess(key: ProviderKey)
      requires Valid()
      modifies this, circuits.Values
      ensures Valid() && View() == old(View())[key := FRESH]
      ensures fresh(circuits.Values - old(circuits.Values))
    {
      var c := GetCircuit(key);
      c.state, c.failures, c.openedAt := Closed, 0, None;
    }

    method RecordProviderFailure(key: ProviderKey, now: Time)
      requires Valid()
      modifies this, circuits.Values
      ensures Valid() && View() == old(View())[key := Failed(CircuitOf(old(View()), key), now)]
      ensures fresh(circuits.Values - old(circuits.Values))
    {
      var c := GetCircuit(key);
      c.failures := c.failures + 1;
      if c.failures >= FAILURE_THRESHOLD {
        c.state, c.openedAt := Open, Some(now);
      }
    }
  }

  // ----- history -----

  datatype Call =
    | Check(key: ProviderKey, at: Time)
    | Success(key: ProviderKey)
    | Failure(key: ProviderKey, at: Time)
    | Reset(key: ProviderKey)

  function Apply(cs: Circuits, call: Call): Circuits {
    match call
    case Check(key, at) => cs[key := Checked(CircuitOf(cs, key), at)]
    case Success(key) => cs[key := FRESH]
    case Failure(key, at) => cs[key := Failed(CircuitOf(cs, key), at)]
    case Reset(key) => cs[key := FRESH]
  }

  /** The circuits after a history, most recent call last. */
  function After(history: seq<Call>): Circuits {
    if history == [] then map[] else Apply(After(history[..|history| - 1]), history[|history| - 1])
  }

  /** Failures of a provider since its last success or reset. */
  function FailuresSince(history: seq<Call>, key: ProviderKey): nat {
    if history == [] then 0
    else
      var before := FailuresSince(history[..|history| - 1], key);
      match history[|history| - 1]
      case Success(k) => if k == key then 0 else before
      case Reset(k) => if k == key then 0 else before
      case Failure(k, _) => if k == key then before + 1 else before
      case Check(_, _) => before
  }

  function LastFailure(history: seq<Call>, key: ProviderKey): Option<Time> {
    if history == [] then None
    else
      match history[|history| - 1]
      case Failure(k, at) => if k == key then Some(at) else LastFailure(history[..|history| - 1], key)
      case _ => LastFailure(history[..|history| - 1], key)
  }

  function TimeOf(call: Call): Option<Time> {
    match call
    case Check(_, at) => Some(at)
    case Failure(_, at) => Some(at)
    case _ => None
  }

  /** All times in a history are at most `now`, and earlier calls are not later than later ones. */
  ghost predicate Monotone(history: seq<Call>, now: Time) {
    if history == [] then true
    else
      match TimeOf(history[|history| - 1])
      case None => Monotone(history[..|history| - 1], now)
      case Some(at) => at <= now && Monotone(history[..|history| - 1], at)
  }

  /** Whether a call may pass for having waited: five minutes since the last failure. */
  predicate CooledDown(history: seq<Call>, key: ProviderKey, now: Time) {
    LastFailure(history, key).Some? && now >= LastFailure(history, key).value + COOLDOWN_SECONDS
  }

  /** The stateless rule: fewer than five failures since the last success or reset, or at least five
      minutes since the last failure. */
  predicate Admissible(history: seq<Call>, key: ProviderKey, now: Time) {
    FailuresSince(history, key) < FAILURE_THRESHOLD || CooledDown(history, key, now)
  }

  /** Some check of the provider since its last failure, success or reset found an open circuit cooled
      down. */
  predicate Probed(history: seq<Call>, key: ProviderKey) {
    if history == [] then false
    else
      var before := history[..|history| - 1];
      match history[|history| - 1]
      case Check(k, at) =>
        Probed(before, key) || (k == key && FailuresSince(before, key) >= FAILURE_THRESHOLD
                                && CooledDown(before, key, at))
      case Failure(k, _) => k != key && Probed(before, key)
      case Success(k) => k != key && Probed(before, key)
      case Reset(k) => k != key && Probed(before, key)
  }

  /** What a circuit knows about its provider's history. */
  ghost predicate Reflects(c: Circuit, history: seq<Call>, key: ProviderKey) {
    && c.failures == FailuresSince(history, key)
    && (c.failures < FAILURE_THRESHOLD ==> c.state == Closed && !Probed(history, key))
    && (c.failures >= FAILURE_THRESHOLD ==>
          && c.state == (if Probed(history, key) then HalfOpen else Open)
          && c.openedAt.Some? && c.openedAt == LastFailure(history, key))
  }

  lemma {:induction false} CircuitReflectsHistory(history: seq<Call>, key: ProviderKey)
    ensures Reflects(CircuitOf(After(history), key), history, key)
  {
    if history != [] { CircuitReflectsHistory(history[..|history| - 1], key); }
  }

  /** For every history, whatever its clock did: a call is admitted exactly as the stateless rule says
      if and only if, once a check has probed the circuit, the call's own time lies after the cooldown
      too. */
  lemma BreakerFollowsRuleExactlyWhen(history: seq<Call>, key: ProviderKey, now: Time)
    ensures (Admits(CircuitOf(After(history), key), now) <==> Admissible(history, key, now))
       <==> (Probed(history, key) ==> CooledDown(history, key, now))
  {
    CircuitReflectsHistory(history, key);
  }

  /** A clock that does not run backwards never comes before a probe's cooldown. */
  lemma {:induction false} MonotoneKeepsCool(history: seq<Call>, key: ProviderKey, now: Time)
    requires Monotone(history, now)
    ensures Probed(history, key) ==> CooledDown(history, key, now)
  {
    if history != [] {
      var before := history[..|history| - 1];
      match TimeOf(history[|history| - 1])
      case None => MonotoneKeepsCool(before, key, now);
      case Some(at) => MonotoneKeepsCool(before, key, at);
    }
  }

  /** Under a clock that does not run backwards, a call is admitted exactly when the stateless rule
      over the history says so, whatever state earlier checks have left behind. */
  lemma BreakerRefinesHistory(history: seq<Call>, key: ProviderKey, now: Time)
    requires Monotone(history, now)
    ensures Admits(CircuitOf(After(history), key), now) <==> Admissible(history, key, now)
  {
    BreakerFollowsRuleExactlyWhen(history, key, now);
    MonotoneKeepsCool(history, key, now);
  }

  /** Checks leave no trace in the rule. */
  lemma ChecksAreInvisible(history: seq<Call>, key: ProviderKey, at: Time, other: ProviderKey, now: Time)
    ensures Admissible(history + [Check(key, at)], other, now) == Admissible(history, other, now)
  {
    assert (history + [Check(key, at)])[..|history|] == history;
  }

  function Repeated(call: Call, n: nat): seq<Call> {
    if n == 0 then [] else Repeated(call, n - 1) + [call]
  }

  lemma {:induction false} RepeatedFailures(key: ProviderKey, n: nat)
    ensures var h := Repeated(Failure(key, 0), n);
            && Monotone(h, 0) && FailuresSince(h, key) == n && (n > 0 ==> LastFailure(h, key) == Some(0))
  {
    if n > 0 {
      RepeatedFailures(key, n - 1);
      AppendFailure(Repeated(Failure(key, 0), n - 1), key);
    }
  }

  lemma AppendFailure(history: seq<Call>, key: ProviderKey)
    requires Monotone(history, 0)
    ensures var h := history + [Failure(key, 0)];
            Monotone(h, 0) && FailuresSince(h, key) == FailuresSince(history, key) + 1 && LastFailure(h, key) == Some(0)
  {
    assert (history + [Failure(key, 0)])[..|history|] == history;
  }

  lemma OpenAfterFailures(key: ProviderKey, n: nat)
    requires n >= FAILURE_THRESHOLD
    ensures CircuitOf(After(Repeated(Failure(key, 0), n)), key) == Circuit(Open, n, Some(0))
  {
    var before, h := Repeated(Failure(key, 0), n - 1), Repeated(Failure(key, 0), n);
    RepeatedFailures(key, n);
    CircuitReflectsHistory(h, key);
    assert h[..|h| - 1] == before;
    assert CircuitOf(After(h), key) == Failed(CircuitOf(After(before), key), 0);
  }

  /** The clock matters: once half-open, a circuit admits calls whose time lies before the end of the
      cooldown, which the rule refuses. */
  lemma BackwardClockBreaksRefinement(key: ProviderKey)
    ensures exists history: seq<Call>, now: Time ::
              !Monotone(history, now) && Admits(CircuitOf(After(history), key), now) && !Admissible(history, key, now)
  {
    var failures := Repeated(Failure(key, 0), FAILURE_THRESHOLD);
    var h := failures + [Check(key, COOLDOWN_SECONDS)];
    RepeatedFailures(key, FAILURE_THRESHOLD);
    OpenAfterFailures(key, FAILURE_THRESHOLD);
    assert h[..|h| - 1] == failures;
    assert !Monotone(h, 0) && CircuitOf(After(h), key).state == HalfOpen;
    assert !Admissible(h, key, 0);
  }
}
