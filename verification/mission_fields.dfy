/** What events do to missions, told on event types, goals and amounts. */
module MissionFields {
  import opened Prelude
  import opened Missions

  // ----- which missions an event is for -----

  /** An event is for the missions of its own type that are not milestone missions, in the order of the list. */
  lemma MatchingOneByOne(defs: seq<Definition>, d: Definition, event: EventType)
    ensures Matching([], event) == []
    ensures Matching(defs + [d], event)
         == Matching(defs, event) + if d.event == event && !d.category.Milestone? then [d] else []
  {
    assert (defs + [d])[..|defs|] == defs;
  }

  /** Arrivals of one event type. */
  function EventCount(arrivals: seq<Arrival>, event: EventType): nat {
    if arrivals == [] then 0
    else EventCount(arrivals[1..], event) + if arrivals[0].event == event then 1 else 0
  }

  lemma {:induction false} EventCountLast(arrivals: seq<Arrival>, a: Arrival, event: EventType)
    ensures EventCount(arrivals + [a], event) == EventCount(arrivals, event) + if a.event == event then 1 else 0
  {
    if arrivals == [] {
      assert ([] + [a])[1..] == [];
    } else {
      assert (arrivals + [a])[1..] == arrivals[1..] + [a];
      EventCountLast(arrivals[1..], a, event);
    }
  }

  lemma {:induction false} SeenOnFields(d: Definition, arrivals: seq<Arrival>)
    ensures SeenBy(d, arrivals) == if d.category.Milestone? then 0 else EventCount(arrivals, d.event)
  {
    if arrivals != [] {
      var init, last := arrivals[..|arrivals| - 1], arrivals[|arrivals| - 1];
      assert arrivals == init + [last];
      SeenOnFields(d, init);
      EventCountLast(init, last, d.event);
    }
  }

  /** Where the tables accept the inserts and nothing crashes: each mission that is not a milestone mission
      stands at the smaller of its goal and the number of arrivals of its own event type, a milestone mission
      at nothing; complete exactly at the goal, with one bonus exactly if complete and worth one. */
  lemma CountsOwnEvents(r: Referral, defs: seq<Definition>, arrivals: seq<Arrival>, d: Definition)
    requires DistinctCodes(defs) && d in defs && d.goal >= 1 && NoCrashes(arrivals)
    ensures var s, key := Run(State(map[], []), r, defs, arrivals, ACCEPTING), Key(r.track, d.code, r.referrer);
            var own := if d.category.Milestone? then 0 else EventCount(arrivals, d.event);
            && (own > 0 ==> key in s.rows)
            && (key in s.rows ==>
                  && s.rows[key].count == (if own < d.goal then own else d.goal)
                  && (s.rows[key].complete <==> own >= d.goal))
            && RewardCount(s.rewards, key) == (if own >= d.goal && d.bonus > 0 then 1 else 0)
  {
    MissionsCountEvents(r, defs, arrivals, d);
    SeenOnFields(d, arrivals);
  }

  /** An event of another type, or for a milestone mission, leaves a mission's row and rewards as they were,
      whatever the tables refuse and wherever a crash comes. */
  lemma OtherEventsLeaveMission(s: State, r: Referral, defs: seq<Definition>, d: Definition, event: EventType,
                                now: Time, schema: Schema, cut: Option<Cut>)
    requires DistinctCodes(defs) && d in defs && (event != d.event || d.category.Milestone?)
    ensures var t, key := TakeTurns(s, r, Matching(defs, event), now, schema, cut).state,
                          Key(r.track, d.code, r.referrer);
            && (key in t.rows <==> key in s.rows) && (key in s.rows ==> t.rows[key] == s.rows[key])
            && RewardCount(t.rewards, key) == RewardCount(s.rewards, key)
  {
    NoNamesake(defs, d, event);
    TurnsLeaveOthers(s, r, Matching(defs, event), now, schema, cut, KeyOf(r, d));
  }

  // ----- what is paid -----

  /** A bonus as one of the missions promises it to the referrer. */
  ghost predicate Promised(x: Reward, r: Referral, defs: seq<Definition>) {
    exists d :: d in defs && d.bonus > 0 && x == Reward(Key(r.track, d.code, r.referrer), d.bonus)
  }

  ghost predicate AllPromised(rewards: seq<Reward>, r: Referral, defs: seq<Definition>) {
    forall x | x in rewards :: Promised(x, r, defs)
  }

  lemma TurnPaysPromised(s: State, r: Referral, defs: seq<Definition>, d: Definition, now: Time, schema: Schema,
                         cut: Option<Point>)
    requires AllPromised(s.rewards, r, defs) && d in defs
    ensures AllPromised(TakeTurn(s, r, d, now, schema, cut).state.rewards, r, defs)
  {
    var t := TakeTurn(s, r, d, now, schema, cut).state;
    forall x | x in t.rewards ensures Promised(x, r, defs) {
      if x !in s.rewards { assert x == Reward(Key(r.track, d.code, r.referrer), d.bonus); }
    }
  }

  lemma {:induction false} TurnsPayPromised(s: State, r: Referral, defs: seq<Definition>, due: seq<Definition>,
                                            now: Time, schema: Schema, cut: Option<Cut>)
    requires AllPromised(s.rewards, r, defs) && forall d | d in due :: d in defs
    ensures AllPromised(TakeTurns(s, r, due, now, schema, cut).state.rewards, r, defs)
  {
    if due != [] {
      var init, last := due[..|due| - 1], due[|due| - 1];
      assert due == init + [last];
      TurnsPayPromised(s, r, defs, init, now, schema, cut);
      TurnPaysPromised(TakeTurns(s, r, init, now, schema, cut).state, r, defs, last, now, schema, PointAt(cut, |init|));
    }
  }

  /** Over any run, every bonus paid is one of the missions' own, to the referrer, in the promised amount. */
  lemma {:induction false} RunsPayPromised(r: Referral, defs: seq<Definition>, arrivals: seq<Arrival>, schema: Schema)
    requires DistinctCodes(defs)
    ensures AllPromised(Run(State(map[], []), r, defs, arrivals, schema).rewards, r, defs)
  {
    if arrivals != [] {
      var init, last := arrivals[..|arrivals| - 1], arrivals[|arrivals| - 1];
      RunsPayPromised(r, defs, init, schema);
      MatchingSelects(defs, last.event);
      var before := Run(State(map[], []), r, defs, init, schema);
      TurnsPayPromised(before, r, defs, Matching(defs, last.event), last.now, schema, last.cut);
    }
  }

  // ----- rows -----

  /** What an event does to a mission's row: one more up to the goal, complete at the goal, with the time of
      the completing event; a complete row is left alone. */
  lemma AdvancedRow(s: State, r: Referral, d: Definition, now: Time, schema: Schema, cut: Option<Point>)
    requires schema.rowsAccepted && (cut == None || cut == Some(BeforeBonus))
    ensures var t, key := TakeTurn(s, r, d, now, schema, cut).state, Key(r.track, d.code, r.referrer);
            var before := if key in s.rows then s.rows[key] else Progress(0, d.goal, false, None, false);
            && key in t.rows
            && var after := t.rows[key];
               && after.goal == before.goal
               && (before.complete ==> after == before)
               && (!before.complete ==>
                     && after.count == (if before.count + 1 <= before.goal then before.count + 1 else before.goal)
                     && (after.complete <==> after.count >= before.goal)
                     && after.completedAt == (if before.completedAt.Some? then before.completedAt
                                              else if after.complete then Some(now) else None))
  {
  }

  /** What an event does to rewards: the bonus is inserted exactly on the completion that is not cut off, of a
      mission worth one, where neither the row's mark nor a reward says it was paid; and then the row is marked. */
  lemma BonusOnFields(s: State, r: Referral, d: Definition, now: Time, schema: Schema, cut: Option<Point>)
    requires schema.rowsAccepted && (cut == None || cut == Some(BeforeBonus))
    ensures var t, key := TakeTurn(s, r, d, now, schema, cut).state, Key(r.track, d.code, r.referrer);
            var before := if key in s.rows then s.rows[key] else Progress(0, d.goal, false, None, false);
            var paid := && !before.complete && before.count + 1 >= before.goal && !before.bonusApplied
                        && d.bonus > 0 && cut == None && schema.bonusesAccepted
                        && forall k | 0 <= k < |s.rewards| :: s.rewards[k].key != key;
            && t.rewards == s.rewards + (if paid then [Reward(key, d.bonus)] else [])
            && key in t.rows && (t.rows[key].bonusApplied <==> before.bonusApplied || paid)
            && (forall other | other != key :: other in t.rows <==> other in s.rows)
            && (forall other | other != key && other in s.rows :: t.rows[other] == s.rows[other])
  {
  }

  /** The displayed status: available before the first event, in progress below the goal, completed at it. */
  lemma DisplayedStatus(count: int, goal: int, complete: bool)
    ensures DeriveStatus(count, goal, complete) == Completed <==> complete || (count > 0 && count >= goal)
    ensures DeriveStatus(count, goal, complete) == Available <==> !complete && count <= 0
    ensures DeriveStatus(count, goal, complete) == InProgress <==> !complete && 0 < count < goal
  {
  }
}
