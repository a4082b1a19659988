/** What becomes of channel deliveries, told on provider answers, attempts and times. */
module ChannelFields {
  import opened Prelude
  import opened ChannelDelivery

  /** Answers after which another attempt may help: none, throttling, and server errors. */
  predicate MayRecover(providerStatus: Option<int>) {
    match providerStatus
    case None => true
    case Some(code) => code == 0 || code == 429 || code >= 500
  }

  /** Seconds before attempt n is retried: one minute, doubled each time, at most fifteen. */
  lemma RetryDelays(n: nat)
    ensures RetryDelay(0) == 60 && RetryDelay(1) == 60
    ensures n >= 1 ==> RetryDelay(n + 1) == Min(2 * RetryDelay(n), 900)
  {
    if n >= 1 { assert Pow2(n) == 2 * Pow2(n - 1); }
  }

  // ----- updates -----

  /** A failed attempt: below the third it may be retried exactly if the answer may recover; otherwise it
      is dead-lettered, with the reason. */
  lemma FailedUpdate(s: State, id: Id, providerStatus: Option<int>, now: Time)
    requires id in s.deliveries
    ensures var before := s.deliveries[id];
            var t := UpdateDelivery(s, id, Failed, providerStatus, now);
            var after := t.deliveries[id];
            && after.attempts == before.attempts + 1 && after.providerStatus == providerStatus
            && after.updatedAt == now
            && (after.status == Failed || after.status == DeadLettered)
            && (after.status == Failed <==> MayRecover(providerStatus) && before.attempts + 1 < 3)
            && (after.retryable <==> after.status == Failed)
            && after.nextRetryAt == (if after.status == Failed
                                     then Some(now + RetryDelay(before.attempts + 1)) else None)
            && after.deadLetterReason == (if after.status == Failed then None
                                          else if !MayRecover(providerStatus) then Some(NonRetryableProviderStatus)
                                          else Some(MaxAttemptsExhausted))
            && t.audit == s.audit
                 + (if after.status == DeadLettered
                    then [AuditRecord(id, Reached(Failed), DeadLettered, providerStatus)] else [])
                 + [AuditRecord(id, Reached(after.status), after.status, providerStatus)]
  {
  }

  /** An attempt that did not fail: the reported status, and nothing more to retry. */
  lemma OtherUpdate(s: State, id: Id, reported: Status, providerStatus: Option<int>, now: Time)
    requires id in s.deliveries && reported != Failed
    ensures var t := UpdateDelivery(s, id, reported, providerStatus, now);
            && t.deliveries[id]
            == Delivery(reported, providerStatus, s.deliveries[id].attempts + 1, false, None, None, now)
            && t.audit == s.audit + [AuditRecord(id, Reached(reported), reported, providerStatus)]
  {
  }

  /** An update touches its own delivery and the log, and nothing of an unknown delivery. */
  lemma UpdateTouches(s: State, id: Id, reported: Status, providerStatus: Option<int>, now: Time, other: Id)
    ensures var t := UpdateDelivery(s, id, reported, providerStatus, now);
            && t.posts == s.posts && t.inFlight == s.inFlight && t.deliveries.Keys == s.deliveries.Keys
            && (id !in s.deliveries ==> t == s)
            && (other != id && other in s.deliveries ==> t.deliveries[other] == s.deliveries[other])
  {
  }

  // ----- steps -----

  /** An answered post settles as Sent exactly for the 2xx codes, else as a failed attempt with the code. */
  lemma AnsweredPost(s: State, id: Id, response: int, now: Time)
    ensures var t := Apply(s, Answer(id, response, now));
            && (id !in s.inFlight ==> t == s)
            && (id in s.inFlight ==>
                  t == UpdateDelivery(s.(inFlight := s.inFlight - multiset{id}), id,
                                      if 200 <= response <= 299 then Sent else Failed, Some(response), now))
  {
  }

  /** A lost answer is one fewer to come, and nothing else. */
  lemma LostAnswer(s: State, id: Id)
    ensures var t := Apply(s, Lose(id));
            && t == s.(inFlight := t.inFlight)
            && t.inFlight[id] == (if s.inFlight[id] == 0 then 0 else s.inFlight[id] - 1)
            && (forall other | other != id :: t.inFlight[other] == s.inFlight[other])
  {
  }

  /** What a callback's word for the status stands for. */
  lemma CallbackWords(s: State, id: Id, raw: RawStatus, providerStatus: Option<int>, now: Time)
    ensures var t := Apply(s, Callback(id, raw, providerStatus, now));
            t == UpdateDelivery(s, id,
                                if raw in {RawDelivered, RawRead} then Delivered
                                else if raw in {RawFailed, RawBounced, RawRejected, RawUndeliverable} then Failed
                                else if raw == RawDeadLettered then DeadLettered
                                else Sent,
                                providerStatus, now)
  {
  }

  /** A new delivery starts queued, posted once, and logged. */
  lemma Dispatched(s: State, id: Id, now: Time)
    requires id !in s.deliveries
    ensures var t := Apply(s, Dispatch(id, now));
            && t.deliveries == s.deliveries[id := Delivery(Queued, None, 0, false, None, None, now)]
            && t.audit == s.audit + [AuditRecord(id, Reached(Queued), Queued, None)]
            && t.posts == s.posts[id := 1] && t.inFlight == s.inFlight + multiset{id}
  {
  }

  /** A retry goes through exactly for a configured, retryable delivery that failed or was dead-lettered
      with fewer than three attempts; each refusal has its first reason. */
  lemma RetryAnswers(s: State, id: Id, configured: bool)
    ensures var result := RetryCheck(s, id, configured);
            && (result == NotFound <==> id !in s.deliveries)
            && (id in s.deliveries ==>
                  var d := s.deliveries[id];
                  var failed := d.status == Failed || d.status == DeadLettered;
                  && (result == NotFailed <==> !failed)
                  && (result == NotRetryable <==> failed && !d.retryable)
                  && (result == Exhausted <==> failed && d.retryable && d.attempts >= 3)
                  && (result == NotConfigured <==> failed && d.retryable && d.attempts < 3 && !configured)
                  && (result == Retried <==> failed && d.retryable && d.attempts < 3 && configured))
  {
  }

  /** A retry that goes through queues the delivery again, logs it and posts once more. */
  lemma RetriedDelivery(s: State, id: Id, configured: bool, now: Time)
    ensures var t := Apply(s, Retry(id, configured, now));
            if RetryCheck(s, id, configured) != Retried then t == s
            else
              && t.deliveries == s.deliveries[id := s.deliveries[id].(status := Queued, updatedAt := now)]
              && t.audit == s.audit + [AuditRecord(id, RetryQueued, Queued, s.deliveries[id].providerStatus)]
              && t.posts == s.posts[id := (if id in s.posts then s.posts[id] else 0) + 1]
              && t.inFlight == s.inFlight + multiset{id}
  {
  }

  // ----- a whole delivery -----

  lemma RunThree(s: State, a: Action, b: Action, c: Action)
    ensures Run(s, [a, b, c]) == Apply(Apply(Apply(s, a), b), c)
  {
    assert [a, b, c][1..] == [b, c] && [b, c][1..] == [c] && [c][1..] == [];
    assert Run(Apply(Apply(s, a), b), [c]) == Run(Apply(Apply(Apply(s, a), b), c), []);
  }

  /** A delivery waiting for the answer to its n-th post. */
  ghost predicate Awaits(s: State, id: Id, n: nat) {
    && id in s.deliveries && s.deliveries[id].status == Queued && s.deliveries[id].attempts + 1 == n
    && id in s.posts && s.posts[id] == n && id in s.inFlight
  }

  /** An answer that may recover, then a retry: the next post is out, up to the third. */
  lemma AnswerThenRetry(s: State, id: Id, n: nat, response: int, at: Time, now: Time)
    requires Awaits(s, id, n) && n < 3 && (response == 0 || response == 429 || response >= 500)
    ensures var failed := Apply(s, Answer(id, response, at));
            && id in failed.deliveries && failed.deliveries[id].status == Failed
            && failed.deliveries[id].nextRetryAt == Some(at + RetryDelay(n))
            && Awaits(Apply(failed, Retry(id, true, now)), id, n + 1)
  {
    var open := s.(inFlight := s.inFlight - multiset{id});
    AnsweredPost(s, id, response, at);
    FailedUpdate(open, id, Some(response), at);
    UpdateTouches(open, id, Failed, Some(response), at, id);
    RetryAnswers(Apply(s, Answer(id, response, at)), id, true);
    RetriedDelivery(Apply(s, Answer(id, response, at)), id, true, now);
  }

  /** Dispatch, an answer that may recover, 503 among them, and a retry: the message is posted a second
      time. */
  lemma SecondPost(s: State, id: Id, response: int, at: Time, answered: Time, now: Time)
    requires id !in s.deliveries && (response == 0 || response == 429 || response >= 500)
    ensures Awaits(Run(s, [Dispatch(id, at), Answer(id, response, answered), Retry(id, true, now)]), id, 2)
  {
    Dispatched(s, id, at);
    RunThree(s, Dispatch(id, at), Answer(id, response, answered), Retry(id, true, now));
    AnswerThenRetry(Apply(s, Dispatch(id, at)), id, 1, response, answered, now);
  }

  /** The third failed attempt is the last, however well it may recover. */
  lemma ThirdFailureIsFinal(s: State, id: Id, response: int, at: Time)
    requires Awaits(s, id, 3) && !(200 <= response <= 299)
    ensures var t := Apply(s, Answer(id, response, at));
            && id in t.deliveries && t.deliveries[id].status == DeadLettered && t.deliveries[id].attempts == 3
            && (t.deliveries[id].deadLetterReason == Some(MaxAttemptsExhausted) <==> MayRecover(Some(response)))
            && RetryCheck(t, id, true) == NotRetryable
  {
    var open := s.(inFlight := s.inFlight - multiset{id});
    AnsweredPost(s, id, response, at);
    FailedUpdate(open, id, Some(response), at);
    UpdateTouches(open, id, Failed, Some(response), at, id);
  }

  /** An answer that may not recover, 404 among them, ends the delivery at the first attempt. */
  lemma ClientErrorIsFinal(s: State, id: Id, response: int, at: Time)
    requires Awaits(s, id, 1) && 300 <= response < 500 && response != 429
    ensures var t := Apply(s, Answer(id, response, at));
            && id in t.deliveries && t.deliveries[id].status == DeadLettered
            && t.deliveries[id].deadLetterReason == Some(NonRetryableProviderStatus)
            && RetryCheck(t, id, true) == NotRetryable
  {
    var open := s.(inFlight := s.inFlight - multiset{id});
    AnsweredPost(s, id, response, at);
    FailedUpdate(open, id, Some(response), at);
    UpdateTouches(open, id, Failed, Some(response), at, id);
  }
}
