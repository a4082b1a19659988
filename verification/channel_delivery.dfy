/** Channel deliveries: dispatch, retry and provider callbacks, with an append-only audit log. */
module ChannelDelivery {
  import opened Prelude

  type Id = nat

  datatype Status = Queued | Sent | Delivered | Failed | DeadLettered

  datatype Reason = NonRetryableProviderStatus | MaxAttemptsExhausted

  datatype Delivery = Delivery(
    status: Status,
    providerStatus: Option<int>,
    attempts: nat,
    retryable: bool,
    nextRetryAt: Option<Time>,
    deadLetterReason: Option<Reason>,
    updatedAt: Time)

  /** Audit records name either a status reached or the request for a retry. */
  datatype EventType = Reached(status: Status) | RetryQueued

  datatype AuditRecord = AuditRecord(id: Id, event: EventType, status: Status, providerStatus: Option<int>)

  const MAX_ATTEMPTS: nat := 3

  function Pow2(n: nat): (p: nat)
    ensures p >= 1
  {
    if n == 0 then 1 else 2 * Pow2(n - 1)
  }

  function RetryDelay(attempts: nat): (seconds: nat) {
    Min(60 * Pow2(Max(attempts - 1, 0)), 900)
  }

  predicate IsRetryable(providerStatus: Option<int>) {
    providerStatus == None || providerStatus.value == 0 || providerStatus.value == 429 || providerStatus.value >= 500
  }

  /** The status a failed attempt ends in. */
  function Settle(reported: Status, retryable: bool, attempts: nat): (Status, Option<Reason>) {
    if reported != Failed then (reported, None)
    else if !retryable then (DeadLettered, Some(NonRetryableProviderStatus))
    else if attempts >= MAX_ATTEMPTS then (DeadLettered, Some(MaxAttemptsExhausted))
    else (Failed, None)
  }

  function Updated(d: Delivery, reported: Status, providerStatus: Option<int>, now: Time): Delivery {
    var attempts, retryable := d.attempts + 1, IsRetryable(providerStatus);
    var (status, reason) := Settle(reported, retryable, attempts);
    var again := retryable && status == Failed;
    Delivery(status, providerStatus, attempts, again,
             if again then Some(now + RetryDelay(attempts)) else None, reason, now)
  }

  function UpdateRecords(id: Id, reported: Status, d: Delivery): seq<AuditRecord> {
    (if reported == Failed && d.status == DeadLettered
     then [AuditRecord(id, Reached(Failed), d.status, d.providerStatus)] else [])
    + [AuditRecord(id, Reached(d.status), d.status, d.providerStatus)]
  }

  /** Statuses as providers spell them. */
  datatype RawStatus =
    | RawDelivered | RawRead
    | RawSent | RawAccepted | RawQueued
    | RawFailed | RawBounced | RawRejected | RawUndeliverable
    | RawDeadLettered
    | RawOther

  function NormalizeStatus(raw: RawStatus): Status {
    match raw
    case RawDelivered | RawRead => Delivered
    case RawSent | RawAccepted | RawQueued => Sent
    case RawFailed | RawBounced | RawRejected | RawUndeliverable => Failed
    case RawDeadLettered => DeadLettered
    case RawOther => Sent
  }

  // ----- state and steps -----

  /** Deliveries and audit log, with the provider's side of it: how often each delivery has been
      posted, and the posts still unanswered. */
  datatype State = State(
    deliveries: map<Id, Delivery>,
    audit: seq<AuditRecord>,
    posts: map<Id, nat>,
    inFlight: multiset<Id>)

  datatype RetryResult = NotFound | NotFailed | NotRetryable | Exhausted | NotConfigured | Retried

  function QueueDelivery(s: State, id: Id, now: Time): State {
    State(s.deliveries[id := Delivery(Queued, None, 0, false, None, None, now)],
          s.audit + [AuditRecord(id, Reached(Queued), Queued, None)],
          s.posts[id := 1],
          s.inFlight + multiset{id})
  }

  function UpdateDelivery(s: State, id: Id, reported: Status, providerStatus: Option<int>, now: Time): State {
    if id !in s.deliveries then s
    else
      var d := Updated(s.deliveries[id], reported, providerStatus, now);
      s.(deliveries := s.deliveries[id := d], audit := s.audit + UpdateRecords(id, reported, d))
  }

  function RetryCheck(s: State, id: Id, configured: bool): RetryResult {
    if id !in s.deliveries then NotFound
    else
      var d := s.deliveries[id];
      if d.status != Failed && d.status != DeadLettered then NotFailed
      else if !d.retryable then NotRetryable
      else if d.attempts >= MAX_ATTEMPTS then Exhausted
      else if !configured then NotConfigured
      else Retried
  }

  function RetryDelivery(s: State, id: Id, configured: bool, now: Time): State {
    if RetryCheck(s, id, configured) != Retried then s
    else
      var d := s.deliveries[id].(status := Queued, updatedAt := now);
      State(s.deliveries[id := d],
            s.audit + [AuditRecord(id, RetryQueued, Queued, d.providerStatus)],
            s.posts[id := (if id in s.posts then s.posts[id] else 0) + 1],
            s.inFlight + multiset{id})
  }

  datatype Action =
    | Dispatch(id: Id, now: Time)
    | Answer(id: Id, response: int, now: Time)
    | Lose(id: Id)
    | Callback(id: Id, raw: RawStatus, providerStatus: Option<int>, now: Time)
    | Retry(id: Id, configured: bool, now: Time)

  function ResponseStatus(response: int): Status {
    if 200 <= response < 300 then Sent else Failed
  }

  /** One step of the service. The wait for the provider's answer is the gap between a dispatch or
      retry and its answer, in which anything may happen; identifiers of new deliveries are fresh. */
  function Apply(s: State, a: Action): State {
    match a
    case Dispatch(id, now) => if id in s.deliveries then s else QueueDelivery(s, id, now)
    case Answer(id, response, now) =>
      if id !in s.inFlight then s
      else UpdateDelivery(s.(inFlight := s.inFlight - multiset{id}), id, ResponseStatus(response), Some(response), now)
    case Lose(id) => s.(inFlight := s.inFlight - multiset{id})
    case Callback(id, raw, providerStatus, now) => UpdateDelivery(s, id, NormalizeStatus(raw), providerStatus, now)
    case Retry(id, configured, now) => RetryDelivery(s, id, configured, now)
  }

  function Run(s: State, actions: seq<Action>): State
    decreases |actions|
  {
    if actions == [] then s else Run(Apply(s, actions[0]), actions[1..])
  }

  // ----- the service object -----

  class ChannelService {
    var deliveries: map<Id, Delivery>
    var audit: seq<AuditRecord>
    var posts: map<Id, nat>
    var inFlight: multiset<Id>

    ghost function View(): State
      reads this
    {
      State(deliveries, audit, posts, inFlight)
    }

    constructor ()
      ensures View() == State(map[], [], map[], multiset{})
    {
      deliveries, audit, posts, inFlight := map[], [], map[], multiset{};
    }

    method RecordAudit(id: Id, event: EventType)
      requires id in deliveries
      modifies this`audit
      ensures audit == old(audit) + [AuditRecord(id, event, deliveries[id].status, deliveries[id].providerStatus)]
    {
      audit := audit + [AuditRecord(id, event, deliveries[id].status, deliveries[id].providerStatus)];
    }

    /** Queues a new delivery and posts it. */
    method DispatchMessage(id: Id, now: Time)
      requires id !in deliveries
      modifies this
      ensures View() == QueueDelivery(old(View()), id, now)
    {
      deliveries := deliveries[id := Delivery(Queued, None, 0, false, None, None, now)];
      RecordAudit(id, Reached(Queued));
      posts := posts[id := 1];
      inFlight := inFlight + multiset{id};
    }

    method UpdateChannelDelivery(id: Id, reported: Status, providerStatus: Option<int>, now: Time) returns (found: bool)
      modifies this`deliveries, this`audit
      ensures found == (id in old(deliveries))
      ensures View() == UpdateDelivery(old(View()), id, reported, providerStatus, now)
    {
      if id !in deliveries { return false; }
      var attempts := deliveries[id].attempts + 1;
      var retryable := IsRetryable(providerStatus);
      var status, reason := reported, None;
      if status == Failed {
        if !retryable {
          status, reason := DeadLettered, Some(NonRetryableProviderStatus);
        } else if attempts >= MAX_ATTEMPTS {
          status, reason := DeadLettered, Some(MaxAttemptsExhausted);
        }
      }
      var again := retryable && status == Failed;
      deliveries := deliveries[id := Delivery(status, providerStatus, attempts, again,
                                              if again then Some(now + RetryDelay(attempts)) else None, reason, now)];
      if reported == Failed && status == DeadLettered { RecordAudit(id, Reached(Failed)); }
      RecordAudit(id, Reached(status));
      assert old(audit) + [] == old(audit);
      return true;
    }

    /** The provider answered a post. */
    method AnswerPost(id: Id, response: int, now: Time)
      requires id in inFlight
      modifies this
      ensures View() == Apply(old(View()), Answer(id, response, now))
    {
      inFlight := inFlight - multiset{id};
      var _ := UpdateChannelDelivery(id, if 200 <= response < 300 then Sent else Failed, Some(response), now);
    }

    /** Puts a failed delivery back in the queue and posts it again, or says why not. */
    method RetryChannelDelivery(id: Id, configured: bool, now: Time) returns (result: RetryResult)
      modifies this
      ensures result == RetryCheck(old(View()), id, configured)
      ensures View() == RetryDelivery(old(View()), id, configured, now)
    {
      if id !in deliveries { return NotFound; }
      var d := deliveries[id];
      if d.status != Failed && d.status != DeadLettered { return NotFailed; }
      if !d.retryable { return NotRetryable; }
      if d.attempts >= MAX_ATTEMPTS { return Exhausted; }
      if !configured { return NotConfigured; }
      deliveries := deliveries[id := d.(status := Queued, updatedAt := now)];
      RecordAudit(id, RetryQueued);
      posts := posts[id := (if id in posts then posts[id] else 0) + 1];
      inFlight := inFlight + multiset{id};
      return Retried;
    }
  }

  // ----- what every interleaving keeps -----

  function LastRecord(audit: seq<AuditRecord>, id: Id): Option<AuditRecord> {
    if audit == [] then None
    else if audit[|audit| - 1].id == id then Some(audit[|audit| - 1])
    else LastRecord(audit[..|audit| - 1], id)
  }

  /** Records of a delivery whose event is the status they carry. */
  function Settled(audit: seq<AuditRecord>, id: Id): nat {
    if audit == [] then 0
    else
      var r := audit[|audit| - 1];
      Settled(audit[..|audit| - 1], id) + if r.id == id && r.event == Reached(r.status) then 1 else 0
  }

  function Retries(audit: seq<AuditRecord>, id: Id): nat {
    if audit == [] then 0
    else
      var r := audit[|audit| - 1];
      Retries(audit[..|audit| - 1], id) + if r.id == id && r.event == RetryQueued then 1 else 0
  }

  lemma AppendRecord(audit: seq<AuditRecord>, r: AuditRecord, id: Id)
    ensures LastRecord(audit + [r], id) == if r.id == id then Some(r) else LastRecord(audit, id)
    ensures Settled(audit + [r], id) == Settled(audit, id) + if r.id == id && r.event == Reached(r.status) then 1 else 0
    ensures Retries(audit + [r], id) == Retries(audit, id) + if r.id == id && r.event == RetryQueued then 1 else 0
  {
    assert (audit + [r])[..|audit|] == audit;
  }

  /** The counters and flags of a delivery bound how often it has been posted. */
  ghost predicate PostsBounded(d: Delivery, posts: nat) {
    && 1 <= posts <= MAX_ATTEMPTS
    && posts <= d.attempts + (if d.status == Queued then 1 else 0)
    && (d.status == Failed ==> d.retryable && 1 <= d.attempts < MAX_ATTEMPTS && d.nextRetryAt.Some?)
    && (d.retryable ==> d.status == Failed || d.status == Queued)
  }

  /** The audit log tells the state of a delivery. */
  ghost predicate AuditTells(audit: seq<AuditRecord>, id: Id, d: Delivery, posts: nat) {
    && LastRecord(audit, id).Some?
    && LastRecord(audit, id).value.status == d.status
    && Settled(audit, id) == d.attempts + 1
    && Retries(audit, id) == posts - 1
  }

  ghost predicate Sound(s: State) {
    && s.posts.Keys == s.deliveries.Keys
    && (forall id | id in s.deliveries :: PostsBounded(s.deliveries[id], s.posts[id]))
    && (forall id | id in s.deliveries :: AuditTells(s.audit, id, s.deliveries[id], s.posts[id]))
    && (forall id | id !in s.deliveries :: Settled(s.audit, id) == 0 && Retries(s.audit, id) == 0)
  }

  lemma UpdateBounds(d: Delivery, posts: nat, reported: Status, providerStatus: Option<int>, now: Time)
    requires PostsBounded(d, posts) && reported != Queued
    ensures PostsBounded(Updated(d, reported, providerStatus, now), posts)
  {
  }

  lemma UpdateAudited(audit: seq<AuditRecord>, id: Id, other: Id, reported: Status, d: Delivery)
    requires d.status == reported || (reported == Failed && d.status == DeadLettered)
    ensures var later := audit + UpdateRecords(id, reported, d);
            && LastRecord(later, other) == (if id == other
                                            then Some(AuditRecord(id, Reached(d.status), d.status, d.providerStatus))
                                              else LastRecord(audit, other))
            && Settled(later, other) == Settled(audit, other) + (if id == other then 1 else 0)
            && Retries(later, other) == Retries(audit, other)
  {
    var last := AuditRecord(id, Reached(d.status), d.status, d.providerStatus);
    if reported == Failed && d.status == DeadLettered {
      var first := AuditRecord(id, Reached(Failed), d.status, d.providerStatus);
      assert audit + UpdateRecords(id, reported, d) == audit + [first] + [last];
      AppendRecord(audit, first, other);
      AppendRecord(audit + [first], last, other);
    } else {
      assert UpdateRecords(id, reported, d) == [last];
      AppendRecord(audit, last, other);
    }
  }

  lemma UpdateKeepsSound(s: State, id: Id, reported: Status, providerStatus: Option<int>, now: Time)
    requires Sound(s) && reported != Queued
    ensures Sound(UpdateDelivery(s, id, reported, providerStatus, now))
  {
    if id in s.deliveries {
      UpdateBounds(s.deliveries[id], s.posts[id], reported, providerStatus, now);
      var d := Updated(s.deliveries[id], reported, providerStatus, now);
      forall other {
        UpdateAudited(s.audit, id, other, reported, d);
      }
    }
  }

  lemma QueueKeepsSound(s: State, id: Id, now: Time)
    requires Sound(s) && id !in s.deliveries
    ensures Sound(QueueDelivery(s, id, now))
  {
    forall other {
      AppendRecord(s.audit, AuditRecord(id, Reached(Queued), Queued, None), other);
    }
  }

  lemma RetryKeepsSound(s: State, id: Id, configured: bool, now: Time)
    requires Sound(s)
    ensures Sound(RetryDelivery(s, id, configured, now))
  {
    if RetryCheck(s, id, configured) == Retried {
      forall other {
        AppendRecord(s.audit, AuditRecord(id, RetryQueued, Queued, s.deliveries[id].providerStatus), other);
      }
    }
  }

  lemma ApplyKeepsSound(s: State, a: Action)
    requires Sound(s)
    ensures Sound(Apply(s, a))
  {
    match a
    case Dispatch(id, now) => if id !in s.deliveries { QueueKeepsSound(s, id, now); }
    case Answer(id, response, now) =>
      UpdateKeepsSound(s.(inFlight := s.inFlight - multiset{id}), id, ResponseStatus(response), Some(response), now);
    case Lose(id) =>
    case Callback(id, raw, providerStatus, now) => UpdateKeepsSound(s, id, NormalizeStatus(raw), providerStatus, now);
    case Retry(id, configured, now) => RetryKeepsSound(s, id, configured, now);
  }

  lemma {:induction false} RunsAreSound(s: State, actions: seq<Action>)
    requires Sound(s)
    ensures Sound(Run(s, actions))
    decreases |actions|
  {
    if actions != [] {
      ApplyKeepsSound(s, actions[0]);
      RunsAreSound(Apply(s, actions[0]), actions[1..]);
    }
  }

  const EMPTY: State := State(map[], [], map[], multiset{})

  /** Under any interleaving of dispatches, answers, lost posts, callbacks and retries no delivery is
      posted more than three times, and retries are accounted for by attempts. */
  lemma AtMostThreePosts(actions: seq<Action>, id: Id)
    ensures var s := Run(EMPTY, actions);
            id in s.deliveries ==>
              && id in s.posts && s.posts[id] <= 3
              && s.posts[id] <= s.deliveries[id].attempts + (if s.deliveries[id].status == Queued then 1 else 0)
  {
    RunsAreSound(EMPTY, actions);
  }

  /** FAILED always means that a retry is due and still allowed; DEAD_LETTERED never does. */
  lemma FailedIsRetryable(actions: seq<Action>, id: Id)
    ensures var s := Run(EMPTY, actions);
            id in s.deliveries ==>
              var d := s.deliveries[id];
              && (d.status == Failed ==> RetryCheck(s, id, true) == Retried && (d.attempts == 1 || d.attempts == 2))
              && (d.status == DeadLettered ==> RetryCheck(s, id, true) == NotRetryable)
              && (RetryCheck(s, id, true) == Retried ==> d.status == Failed)
  {
    RunsAreSound(EMPTY, actions);
  }

  /** The log alone tells each delivery's status, attempt count and number of posts, and holds at
      most two retry requests for it. */
  lemma AuditDeterminesDeliveries(actions: seq<Action>, id: Id)
    ensures var s := Run(EMPTY, actions);
            && (id in s.deliveries <==> Settled(s.audit, id) > 0)
            && Retries(s.audit, id) <= 2
            && (id in s.deliveries ==>
                  && LastRecord(s.audit, id).Some?
                  && s.deliveries[id].status == LastRecord(s.audit, id).value.status
                  && s.deliveries[id].attempts == Settled(s.audit, id) - 1
                  && id in s.posts && s.posts[id] == Retries(s.audit, id) + 1)
  {
    RunsAreSound(EMPTY, actions);
  }

  /** Records are only ever appended, and attempts only ever counted up. */
  ghost predicate Grows(s: State, t: State) {
    && s.audit <= t.audit
    && s.deliveries.Keys <= t.deliveries.Keys
    && forall id | id in s.deliveries :: s.deliveries[id].attempts <= t.deliveries[id].attempts
  }

  lemma ApplyGrows(s: State, a: Action)
    ensures Grows(s, Apply(s, a))
  {
  }

  lemma {:induction false} RunGrows(s: State, actions: seq<Action>)
    ensures Grows(s, Run(s, actions))
    decreases |actions|
  {
    if actions != [] {
      ApplyGrows(s, actions[0]);
      RunGrows(Apply(s, actions[0]), actions[1..]);
    }
  }

  /** Once a delivery has used up its attempts no later retry goes through, whatever else happens. */
  lemma ExhaustedStaysExhausted(actions: seq<Action>, more: seq<Action>, id: Id, configured: bool)
    ensures var s, t := Run(EMPTY, actions), Run(Run(EMPTY, actions), more);
            id in s.deliveries && s.deliveries[id].attempts >= MAX_ATTEMPTS ==> RetryCheck(t, id, configured) != Retried
  {
    RunGrows(Run(EMPTY, actions), more);
  }

  lemma {:induction false} RetryDelayBounds(attempts: nat)
    ensures 60 <= RetryDelay(attempts) <= 900
    ensures RetryDelay(attempts) <= RetryDelay(attempts + 1)
    ensures RetryDelay(1) == 60 && RetryDelay(2) == 120
  {
    assert Pow2(0) == 1 && Pow2(1) == 2;
    if attempts > 0 { assert Pow2(attempts) == 2 * Pow2(attempts - 1); }
  }
}
