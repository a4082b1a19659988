/** Mission progress and the bonus paid when a mission completes. */
module Missions {
  import opened Prelude

  type TrackId = nat
  type MissionCode = nat
  type EventType = nat
  type Ucn = nat

  datatype Category = Core | Boost | Milestone

  datatype Definition = Definition(code: MissionCode, event: EventType, goal: int, bonus: int, category: Category)

  /** Progress rows and bonus rewards are unique per referral, mission and beneficiary. */
  datatype Key = Key(track: TrackId, mission: MissionCode, beneficiary: Ucn)

  datatype Progress = Progress(count: int, goal: int, complete: bool, completedAt: Option<Time>, bonusApplied: bool)

  datatype Reward = Reward(key: Key, amount: int)

  datatype State = State(rows: map<Key, Progress>, rewards: seq<Reward>)

  /** A referral as missions see it. */
  datatype Referral = Referral(track: TrackId, referrer: Ucn)

  function KeyOf(r: Referral, d: Definition): Key { Key(r.track, d.code, r.referrer) }

  function HasReward(rewards: seq<Reward>, key: Key): bool {
    exists k | 0 <= k < |rewards| :: rewards[k].key == key
  }

  // ----- one mission -----

  /** Creates the progress row on first sight. */
  function UpsertRow(s: State, key: Key, goal: int): State {
    if key in s.rows then s else s.(rows := s.rows[key := Progress(0, goal, false, None, false)])
  }

  function Advanced(row: Progress, now: Time): Progress {
    var count := Min(row.count + 1, row.goal);
    var complete := count >= row.goal;
    row.(count := count, complete := complete,
         completedAt := if row.completedAt == None && complete then Some(now) else row.completedAt)
  }

  /** Commits the progress of one mission; a complete row is left alone. */
  function CommitProgress(s: State, key: Key, now: Time): State
    requires key in s.rows
  {
    if s.rows[key].complete then s else s.(rows := s.rows[key := Advanced(s.rows[key], now)])
  }

  predicate BonusDue(before: Progress, after: Progress, d: Definition) {
    !before.complete && after.complete && !before.bonusApplied && d.bonus > 0
  }

  /** Inserts the bonus unless one exists, and marks the row when it did. */
  function PayBonus(s: State, key: Key, amount: int): State
    requires key in s.rows
  {
    if HasReward(s.rewards, key) then s
    else State(s.rows[key := s.rows[key].(bonusApplied := true)], s.rewards + [Reward(key, amount)])
  }

  // ----- one mission's turn in an event -----

  /** Which inserts the tables accept. Where migration 005 created the progress table, a row needs a
      referrer hash that the insert does not give; since migration 034 a reward needs a tenant that the
      bonus insert does not give. */
  datatype Schema = Schema(rowsAccepted: bool, bonusesAccepted: bool)

  const ACCEPTING: Schema := Schema(true, true)

  /** Where a crash cuts a mission's turn off: before its row exists, before its progress is committed,
      or before its bonus is. */
  datatype Point = BeforeRow | BeforeProgress | BeforeBonus

  /** The state after a turn, and whether the event goes on to the next mission. */
  datatype Turn = Turn(state: State, goesOn: bool)

  /** A refused insert raises and ends the event like a crash at that point. */
  function TakeTurn(s: State, r: Referral, d: Definition, now: Time, schema: Schema, cut: Option<Point>): Turn {
    var key := KeyOf(r, d);
    if cut == Some(BeforeRow) || !schema.rowsAccepted then Turn(s, false)
    else
      var created := UpsertRow(s, key, d.goal);
      if cut == Some(BeforeProgress) then Turn(created, false)
      else
        var committed := CommitProgress(created, key, now);
        if cut == Some(BeforeBonus) then Turn(committed, false)
        else if !BonusDue(created.rows[key], committed.rows[key], d) then Turn(committed, true)
        else if !schema.bonusesAccepted then Turn(committed, false)
        else Turn(PayBonus(committed, key, d.bonus), true)
  }

  // ----- one event -----

  predicate Matches(d: Definition, event: EventType) {
    d.event == event && d.category != Milestone
  }

  function Matching(defs: seq<Definition>, event: EventType): seq<Definition> {
    if defs == [] then []
    else
      var rest, last := Matching(defs[..|defs| - 1], event), defs[|defs| - 1];
      if Matches(last, event) then rest + [last] else rest
  }

  /** A crash during the turn of one of the matching missions. */
  datatype Cut = Cut(index: nat, point: Point)

  function PointAt(cut: Option<Cut>, k: nat): Option<Point> {
    if cut.Some? && cut.value.index == k then Some(cut.value.point) else None
  }

  /** The matching missions take their turns until one does not go on. */
  function TakeTurns(s: State, r: Referral, defs: seq<Definition>, now: Time, schema: Schema, cut: Option<Cut>): Turn {
    if defs == [] then Turn(s, true)
    else
      var before := TakeTurns(s, r, defs[..|defs| - 1], now, schema, cut);
      if !before.goesOn then before
      else TakeTurn(before.state, r, defs[|defs| - 1], now, schema, PointAt(cut, |defs| - 1))
  }

  class MissionService {
    var rows: map<Key, Progress>
    var rewards: seq<Reward>

    ghost function View(): State
      reads this
    {
      State(rows, rewards)
    }

    constructor ()
      ensures View() == State(map[], [])
    {
      rows, rewards := map[], [];
    }

    method UpsertProgressRow(key: Key, goal: int)
      modifies this`rows
      ensures View() == UpsertRow(old(View()), key, goal)
    {
      if key !in rows { rows := rows[key := Progress(0, goal, false, None, false)]; }
    }

    method InsertBonus(key: Key, amount: int) returns (inserted: bool)
      modifies this`rewards
      ensures inserted == !HasReward(old(rewards), key)
      ensures rewards == if inserted then old(rewards) + [Reward(key, amount)] else old(rewards)
    {
      if HasReward(rewards, key) { return false; }
      rewards := rewards + [Reward(key, amount)];
      return true;
    }

    method ApplyToMission(r: Referral, d: Definition, now: Time, schema: Schema, cut: Option<Point>)
      returns (goesOn: bool)
      modifies this
      ensures Turn(View(), goesOn) == TakeTurn(old(View()), r, d, now, schema, cut)
    {
      var key := KeyOf(r, d);
      if cut == Some(BeforeRow) || !schema.rowsAccepted { return false; }
      UpsertProgressRow(key, d.goal);
      if cut == Some(BeforeProgress) { return false; }
      var row := rows[key];
      if row.complete { return cut != Some(BeforeBonus); }
      var count := Min(row.count + 1, row.goal);
      var complete := count >= row.goal;
      var completedAt := if row.completedAt.Some? then row.completedAt else if complete then Some(now) else None;
      rows := rows[key := row.(count := count, complete := complete, completedAt := completedAt)];
      if cut == Some(BeforeBonus) { return false; }
      if complete && !row.bonusApplied && d.bonus > 0 {
        if !schema.bonusesAccepted { return false; }
        var inserted := InsertBonus(key, d.bonus);
        if inserted { rows := rows[key := rows[key].(bonusApplied := true)]; }
      }
      return true;
    }

    /** Applies an event of a referral to its matching missions in turn; unknown referrals and
        referrals without a referrer have none. Answers whether the event went through. */
    method ApplyEvent(referral: Option<Referral>, defs: seq<Definition>, event: EventType, now: Time, schema: Schema,
                      cut: Option<Cut>)
      returns (finished: bool)
      modifies this
      ensures Turn(View(), finished) == if referral.Some?
                                        then TakeTurns(old(View()), referral.value, Matching(defs, event), now,
                                                       schema, cut)
                                        else Turn(old(View()), true)
    {
      if referral == None { return true; }
      var matching := Matching(defs, event);
      finished := true;
      ghost var start := View();
      for i := 0 to |matching|
        invariant finished && Turn(View(), true) == TakeTurns(start, referral.value, matching[..i], now, schema, cut)
      {
        assert matching[..i + 1][..i] == matching[..i];
        finished := ApplyToMission(referral.value, matching[i], now, schema, PointAt(cut, i));
        if !finished {
          EndedTurnsStayEnded(start, referral.value, matching, i + 1, now, schema, cut);
          return false;
        }
      }
      assert matching[..|matching|] == matching;
    }
  }

  /** Once an event has ended, the missions left do not change that. */
  lemma {:induction false} EndedTurnsStayEnded(s: State, r: Referral, defs: seq<Definition>, n: nat, now: Time,
                                               schema: Schema, cut: Option<Cut>)
    requires n <= |defs| && !TakeTurns(s, r, defs[..n], now, schema, cut).goesOn
    ensures TakeTurns(s, r, defs, now, schema, cut) == TakeTurns(s, r, defs[..n], now, schema, cut)
    decreases |defs|
  {
    if n == |defs| {
      assert defs[..n] == defs;
    } else {
      var init := defs[..|defs| - 1];
      assert init[..n] == defs[..n];
      EndedTurnsStayEnded(s, r, init, n, now, schema, cut);
    }
  }

  // ----- what a mission has seen -----

  /** How many rewards carry a key. */
  function RewardCount(rewards: seq<Reward>, key: Key): nat {
    if rewards == [] then 0
    else RewardCount(rewards[..|rewards| - 1], key) + if rewards[|rewards| - 1].key == key then 1 else 0
  }

  lemma {:induction false} CountedIffPresent(rewards: seq<Reward>, key: Key)
    ensures RewardCount(rewards, key) > 0 <==> HasReward(rewards, key)
  {
    if rewards != [] {
      var init, last := rewards[..|rewards| - 1], rewards[|rewards| - 1];
      CountedIffPresent(init, key);
      assert rewards[|rewards| - 1] == last;
      if HasReward(init, key) {
        var k :| 0 <= k < |init| && init[k].key == key;
        assert rewards[k].key == key;
      }
      if HasReward(rewards, key) && last.key != key {
        var k :| 0 <= k < |rewards| && rewards[k].key == key;
        assert init[k].key == key;
      }
    }
  }

  lemma CountAppend(rewards: seq<Reward>, r: Reward, key: Key)
    ensures RewardCount(rewards + [r], key) == RewardCount(rewards, key) + if r.key == key then 1 else 0
  {
    assert (rewards + [r])[..|rewards|] == rewards;
  }

  /** How many events have advanced a mission, and whether the one that completed it went on to pay. */
  datatype Tally = Tally(seen: nat, paid: bool)

  const UNTOUCHED: Tally := Tally(0, false)

  predicate Done(d: Definition, seen: nat) { seen > 0 && seen >= d.goal }

  /** The state of one mission after the events in a tally. */
  ghost predicate Tracks(s: State, key: Key, d: Definition, t: Tally) {
    && (t.seen > 0 ==> key in s.rows)
    && (key in s.rows ==>
          var row := s.rows[key];
          && row.goal == d.goal
          && (t.seen == 0 ==> row == Progress(0, d.goal, false, None, false))
          && (t.seen > 0 ==>
                && row.count == Min(t.seen, d.goal)
                && row.complete == (t.seen >= d.goal)
                && row.bonusApplied == (row.complete && d.bonus > 0 && t.paid)
                && (row.completedAt.Some? <==> row.complete)))
    && RewardCount(s.rewards, key) == (if Done(d, t.seen) && d.bonus > 0 && t.paid then 1 else 0)
  }

  predicate Advances(schema: Schema, cut: Option<Point>) {
    schema.rowsAccepted && (cut == None || cut == Some(BeforeBonus))
  }

  function Tallied(t: Tally, d: Definition, schema: Schema, cut: Option<Point>): Tally {
    if !Advances(schema, cut) then t
    else Tally(t.seen + 1, if CompletedBy(d, t.seen) then schema.bonusesAccepted && cut == None else t.paid)
  }

  predicate CompletedBy(d: Definition, seen: nat) { !Done(d, seen) && Done(d, seen + 1) }

  lemma RowTracks(s: State, key: Key, d: Definition, t: Tally)
    requires Tracks(s, key, d, t)
    ensures Tracks(UpsertRow(s, key, d.goal), key, d, t)
  {
  }

  lemma ProgressTracks(s: State, key: Key, d: Definition, t: Tally, now: Time)
    requires Tracks(s, key, d, t) && key in s.rows
    ensures Tracks(CommitProgress(s, key, now), key, d, Tally(t.seen + 1, t.paid && !CompletedBy(d, t.seen)))
  {
  }

  /** The bonus is due on completion. */
  lemma DueOnCompletion(s: State, key: Key, d: Definition, t: Tally, now: Time)
    requires Tracks(s, key, d, t) && key in s.rows
    ensures BonusDue(s.rows[key], CommitProgress(s, key, now).rows[key], d) <==> CompletedBy(d, t.seen) && d.bonus > 0
  {
  }

  lemma BonusTracks(s: State, key: Key, d: Definition, seen: nat)
    requires Tracks(s, key, d, Tally(seen, false)) && key in s.rows && Done(d, seen) && d.bonus > 0
    ensures Tracks(PayBonus(s, key, d.bonus), key, d, Tally(seen, true))
  {
    CountedIffPresent(s.rewards, key);
    CountAppend(s.rewards, Reward(key, d.bonus), key);
  }

  /** Where no bonus is worth paying, it does not matter whether it is. */
  lemma WorthlessTracks(s: State, key: Key, d: Definition, seen: nat, paid: bool, other: bool)
    requires Tracks(s, key, d, Tally(seen, paid)) && d.bonus <= 0
    ensures Tracks(s, key, d, Tally(seen, other))
  {
  }

  lemma TurnTracks(s: State, r: Referral, d: Definition, now: Time, schema: Schema, cut: Option<Point>, t: Tally)
    requires Tracks(s, KeyOf(r, d), d, t)
    ensures Tracks(TakeTurn(s, r, d, now, schema, cut).state, KeyOf(r, d), d, Tallied(t, d, schema, cut))
  {
    assert cut.Some? ==> cut.value.BeforeRow? || cut.value.BeforeProgress? || cut.value.BeforeBonus?;
    var key := KeyOf(r, d);
    var created := UpsertRow(s, key, d.goal);
    RowTracks(s, key, d, t);
    if Advances(schema, cut) {
      var committed := CommitProgress(created, key, now);
      ProgressTracks(created, key, d, t, now);
      DueOnCompletion(created, key, d, t, now);
      if CompletedBy(d, t.seen) {
        if d.bonus > 0 {
          BonusTracks(committed, key, d, t.seen + 1);
        } else {
          WorthlessTracks(committed, key, d, t.seen + 1, false, schema.bonusesAccepted && cut == None);
        }
      }
    }
  }

  /** `s` and `t` hold the same of one mission. */
  ghost predicate SameFor(s: State, t: State, key: Key) {
    && (key in t.rows <==> key in s.rows)
    && (key in s.rows ==> t.rows[key] == s.rows[key])
    && RewardCount(t.rewards, key) == RewardCount(s.rewards, key)
  }

  lemma SameForChain(s: State, t: State, u: State, key: Key)
    requires SameFor(s, t, key) && SameFor(t, u, key)
    ensures SameFor(s, u, key)
  {
  }

  lemma ProgressLeavesOthers(s: State, key: Key, goal: int, now: Time, other: Key)
    requires other != key
    ensures var created := UpsertRow(s, key, goal);
            SameFor(s, created, other) && SameFor(s, CommitProgress(created, key, now), other)
  {
  }

  lemma PayLeavesOthers(s: State, key: Key, amount: int, other: Key)
    requires other != key && key in s.rows
    ensures SameFor(s, PayBonus(s, key, amount), other)
  {
    CountAppend(s.rewards, Reward(key, amount), other);
  }

  lemma TurnLeavesOthers(s: State, r: Referral, d: Definition, now: Time, schema: Schema, cut: Option<Point>,
                         other: Key)
    requires other != KeyOf(r, d)
    ensures SameFor(s, TakeTurn(s, r, d, now, schema, cut).state, other)
  {
    var key := KeyOf(r, d);
    var committed := CommitProgress(UpsertRow(s, key, d.goal), key, now);
    ProgressLeavesOthers(s, key, d.goal, now, other);
    PayLeavesOthers(committed, key, d.bonus, other);
    SameForChain(s, committed, PayBonus(committed, key, d.bonus), other);
  }

  /** Mission codes are unique. */
  ghost predicate DistinctCodes(defs: seq<Definition>) {
    forall i, j | 0 <= i < j < |defs| :: defs[i].code != defs[j].code
  }

  lemma {:induction false} MatchingSelects(defs: seq<Definition>, event: EventType)
    requires DistinctCodes(defs)
    ensures DistinctCodes(Matching(defs, event))
    ensures forall d :: d in Matching(defs, event) <==> d in defs && Matches(d, event)
  {
    if defs != [] {
      var init, last := defs[..|defs| - 1], defs[|defs| - 1];
      MatchingSelects(init, event);
      assert defs == init + [last];
      forall i | 0 <= i < |Matching(init, event)| ensures Matching(init, event)[i].code != last.code {
        assert Matching(init, event)[i] in init;
      }
    }
  }

  lemma {:induction false} TurnsLeaveOthers(s: State, r: Referral, defs: seq<Definition>, now: Time, schema: Schema,
                                            cut: Option<Cut>, other: Key)
    requires forall d | d in defs :: KeyOf(r, d) != other
    ensures SameFor(s, TakeTurns(s, r, defs, now, schema, cut).state, other)
  {
    if defs != [] {
      var init, last := defs[..|defs| - 1], defs[|defs| - 1];
      assert defs == init + [last];
      TurnsLeaveOthers(s, r, init, now, schema, cut, other);
      var before := TakeTurns(s, r, init, now, schema, cut);
      TurnLeavesOthers(before.state, r, last, now, schema, PointAt(cut, |init|), other);
    }
  }

  // ----- when an event goes on -----

  /** The event is about to complete a mission that is worth a bonus. */
  predicate DueAt(s: State, r: Referral, d: Definition, now: Time) {
    var key := KeyOf(r, d);
    var created := UpsertRow(s, key, d.goal);
    BonusDue(created.rows[key], CommitProgress(created, key, now).rows[key], d)
  }

  /** An event gets past its first `k` matching missions: rows are accepted, no crash comes there, and no
      refused bonus is due there. */
  ghost predicate Passes(s: State, r: Referral, defs: seq<Definition>, k: nat, now: Time, schema: Schema,
                         cut: Option<Cut>)
    requires k <= |defs|
  {
    && (k > 0 ==> schema.rowsAccepted)
    && !(cut.Some? && cut.value.index < k)
    && (schema.bonusesAccepted || forall j | 0 <= j < k :: !DueAt(s, r, defs[j], now))
  }

  lemma TurnGoesOnExactlyWhen(s: State, r: Referral, d: Definition, now: Time, schema: Schema, cut: Option<Point>)
    ensures TakeTurn(s, r, d, now, schema, cut).goesOn <==>
              schema.rowsAccepted && cut == None && (schema.bonusesAccepted || !DueAt(s, r, d, now))
  {
    assert cut.Some? ==> cut.value.BeforeRow? || cut.value.BeforeProgress? || cut.value.BeforeBonus?;
  }

  lemma DueStaysDue(s: State, t: State, r: Referral, d: Definition, now: Time)
    requires SameFor(s, t, KeyOf(r, d))
    ensures DueAt(t, r, d, now) <==> DueAt(s, r, d, now)
  {
  }

  lemma DistinctKeys(r: Referral, defs: seq<Definition>, k: nat)
    requires DistinctCodes(defs) && k < |defs|
    ensures forall d | d in defs[..k] :: KeyOf(r, d) != KeyOf(r, defs[k])
  {
  }

  /** An event goes on to a mission exactly when, as things stood when it arrived, it passes all earlier
      ones. */
  lemma {:induction false} GoesOnExactlyWhen(s: State, r: Referral, defs: seq<Definition>, k: nat, now: Time,
                                             schema: Schema, cut: Option<Cut>)
    requires DistinctCodes(defs) && k <= |defs|
    ensures TakeTurns(s, r, defs[..k], now, schema, cut).goesOn <==> Passes(s, r, defs, k, now, schema, cut)
    decreases k
  {
    if k > 0 {
      var n := k - 1;
      GoesOnExactlyWhen(s, r, defs, n, now, schema, cut);
      assert defs[..k][..n] == defs[..n] && defs[..k][n] == defs[n];
      var before := TakeTurns(s, r, defs[..n], now, schema, cut);
      TurnGoesOnExactlyWhen(before.state, r, defs[n], now, schema, PointAt(cut, n));
      DistinctKeys(r, defs, n);
      TurnsLeaveOthers(s, r, defs[..n], now, schema, cut, KeyOf(r, defs[n]));
      DueStaysDue(s, before.state, r, defs[n], now);
    }
  }

  /** The tally of the k-th mission after an event. */
  ghost function EventTally(s: State, t: Tally, r: Referral, defs: seq<Definition>, k: nat, now: Time, schema: Schema,
                            cut: Option<Cut>): Tally
    requires k < |defs|
  {
    if Passes(s, r, defs, k, now, schema, cut) then Tallied(t, defs[k], schema, PointAt(cut, k)) else t
  }

  lemma SameForTracks(s: State, u: State, key: Key, d: Definition, t: Tally)
    requires SameFor(s, u, key) && Tracks(s, key, d, t)
    ensures Tracks(u, key, d, t)
  {
  }

  /** After its turn a mission is left alone by the rest of the event. */
  lemma {:induction false} LaterTurnsLeaveAlone(s: State, r: Referral, defs: seq<Definition>, k: nat, n: nat, now: Time,
                                                schema: Schema, cut: Option<Cut>)
    requires DistinctCodes(defs) && k < n <= |defs|
    ensures SameFor(TakeTurns(s, r, defs[..k + 1], now, schema, cut).state,
                    TakeTurns(s, r, defs[..n], now, schema, cut).state, KeyOf(r, defs[k]))
    decreases n
  {
    if n > k + 1 {
      LaterTurnsLeaveAlone(s, r, defs, k, n - 1, now, schema, cut);
      assert defs[..n][..n - 1] == defs[..n - 1] && defs[..n][n - 1] == defs[n - 1];
      var before := TakeTurns(s, r, defs[..n - 1], now, schema, cut);
      TurnLeavesOthers(before.state, r, defs[n - 1], now, schema, PointAt(cut, n - 1), KeyOf(r, defs[k]));
    }
  }

  /** One event on one of its matching missions: it advances the mission if it passes all earlier ones,
      and pays a bonus then due if neither a crash nor the table prevents it. */
  lemma EventTracks(s: State, r: Referral, defs: seq<Definition>, k: nat, now: Time, schema: Schema, cut: Option<Cut>,
                    t: Tally)
    requires DistinctCodes(defs) && k < |defs| && Tracks(s, KeyOf(r, defs[k]), defs[k], t)
    ensures Tracks(TakeTurns(s, r, defs, now, schema, cut).state, KeyOf(r, defs[k]), defs[k],
                   EventTally(s, t, r, defs, k, now, schema, cut))
  {
    var key, before := KeyOf(r, defs[k]), TakeTurns(s, r, defs[..k], now, schema, cut);
    GoesOnExactlyWhen(s, r, defs, k, now, schema, cut);
    DistinctKeys(r, defs, k);
    TurnsLeaveOthers(s, r, defs[..k], now, schema, cut, key);
    SameForTracks(s, before.state, key, defs[k], t);
    TurnTracks(before.state, r, defs[k], now, schema, PointAt(cut, k), t);
    assert defs[..k + 1][..k] == defs[..k] && defs[..k + 1][k] == defs[k];
    LaterTurnsLeaveAlone(s, r, defs, k, |defs|, now, schema, cut);
    assert defs[..|defs|] == defs;
    SameForTracks(TakeTurns(s, r, defs[..k + 1], now, schema, cut).state, TakeTurns(s, r, defs, now, schema, cut).state,
                  key, defs[k], EventTally(s, t, r, defs, k, now, schema, cut));
  }

  /** An event pays a mission's bonus exactly when the bonus is due, no earlier mission and no crash up to
      it stops the event, and the table accepts it. */
  lemma EventPaysExactlyWhen(s: State, r: Referral, defs: seq<Definition>, k: nat, now: Time, schema: Schema,
                             cut: Option<Cut>, t: Tally)
    requires DistinctCodes(defs) && k < |defs| && Tracks(s, KeyOf(r, defs[k]), defs[k], t)
    ensures var key, after := KeyOf(r, defs[k]), TakeTurns(s, r, defs, now, schema, cut).state;
            RewardCount(after.rewards, key) > RewardCount(s.rewards, key) <==>
              && DueAt(s, r, defs[k], now) && schema.bonusesAccepted
              && Passes(s, r, defs, k, now, schema, cut) && schema.rowsAccepted && PointAt(cut, k) == None
  {
    EventTracks(s, r, defs, k, now, schema, cut, t);
  }

  /** A refused bonus ends the event: a mission later in the list misses it altogether. */
  lemma RefusedBonusEndsTheEvent(r: Referral, a: Definition, b: Definition, now: Time)
    requires a.code != b.code && a.goal == 1 && a.bonus > 0
    ensures var end := TakeTurns(State(map[], []), r, [a, b], now, Schema(true, false), None);
            && !end.goesOn && KeyOf(r, b) !in end.state.rows
            && KeyOf(r, a) in end.state.rows && end.state.rows[KeyOf(r, a)].complete && end.state.rewards == []
  {
    assert [a, b][..1] == [a] && [a][..0] == [];
    var start, schema := State(map[], []), Schema(true, false);
    assert TakeTurns(start, r, [a], now, schema, None) == TakeTurn(start, r, a, now, schema, None);
  }

  // ----- runs -----

  /** An event as it arrives, and where a crash cuts its handling off, if one does. */
  datatype Arrival = Arrival(event: EventType, now: Time, cut: Option<Cut>)

  function Run(s: State, r: Referral, defs: seq<Definition>, arrivals: seq<Arrival>, schema: Schema): State {
    if arrivals == [] then s
    else
      var last := arrivals[|arrivals| - 1];
      TakeTurns(Run(s, r, defs, arrivals[..|arrivals| - 1], schema), r, Matching(defs, last.event), last.now, schema,
                last.cut).state
  }

  /** The turn of a mission among those matching an event, if it matches. */
  function TurnOf(defs: seq<Definition>, d: Definition, event: EventType): int { IndexOf(Matching(defs, event), d) }

  /** The tally of a mission after a run. */
  ghost function RunTally(s: State, r: Referral, defs: seq<Definition>, arrivals: seq<Arrival>, schema: Schema,
                          d: Definition): Tally
  {
    if arrivals == [] then UNTOUCHED
    else
      var init, last := arrivals[..|arrivals| - 1], arrivals[|arrivals| - 1];
      var t, k := RunTally(s, r, defs, init, schema, d), TurnOf(defs, d, last.event);
      if k < 0 then t
      else EventTally(Run(s, r, defs, init, schema), t, r, Matching(defs, last.event), k, last.now, schema, last.cut)
  }

  /** A mission nothing has happened to. */
  ghost predicate NotStarted(s: State, r: Referral, d: Definition) { Tracks(s, KeyOf(r, d), d, UNTOUCHED) }

  lemma OthersEvent(s: State, r: Referral, defs: seq<Definition>, d: Definition, event: EventType, now: Time,
                    schema: Schema, cut: Option<Cut>, t: Tally)
    requires DistinctCodes(defs) && d in defs && !Matches(d, event) && Tracks(s, KeyOf(r, d), d, t)
    ensures Tracks(TakeTurns(s, r, Matching(defs, event), now, schema, cut).state, KeyOf(r, d), d, t)
  {
    NoNamesake(defs, d, event);
    TurnsLeaveOthers(s, r, Matching(defs, event), now, schema, cut, KeyOf(r, d));
    SameForTracks(s, TakeTurns(s, r, Matching(defs, event), now, schema, cut).state, KeyOf(r, d), d, t);
  }

  /** Whatever the tables refuse and wherever crashes come, a mission stands where the events that
      reached it take it. */
  lemma {:induction false} RunTracks(s: State, r: Referral, defs: seq<Definition>, arrivals: seq<Arrival>,
                                     schema: Schema, d: Definition)
    requires DistinctCodes(defs) && d in defs && NotStarted(s, r, d)
    ensures Tracks(Run(s, r, defs, arrivals, schema), KeyOf(r, d), d, RunTally(s, r, defs, arrivals, schema, d))
  {
    if arrivals != [] {
      var init, last := arrivals[..|arrivals| - 1], arrivals[|arrivals| - 1];
      var before, t := Run(s, r, defs, init, schema), RunTally(s, r, defs, init, schema, d);
      RunTracks(s, r, defs, init, schema, d);
      MatchingSelects(defs, last.event);
      if Matches(d, last.event) {
        EventTracks(before, r, Matching(defs, last.event), TurnOf(defs, d, last.event), last.now, schema, last.cut, t);
      } else {
        OthersEvent(before, r, defs, d, last.event, last.now, schema, last.cut, t);
      }
    }
  }

  lemma NoNamesake(defs: seq<Definition>, d: Definition, event: EventType)
    requires DistinctCodes(defs) && d in defs && !Matches(d, event)
    ensures forall e | e in Matching(defs, event) :: e.code != d.code
  {
    MatchingSelects(defs, event);
  }

  // ----- accepted inserts -----

  /** An arrival of the mission's event whose handling gets as far as committing the mission's progress. */
  predicate Reaches(defs: seq<Definition>, d: Definition, a: Arrival) {
    var k := TurnOf(defs, d, a.event);
    && k >= 0
    && (a.cut.Some? ==> a.cut.value.index > k || (a.cut.value.index == k && a.cut.value.point == BeforeBonus))
  }

  /** A crash between the mission's progress and its bonus. */
  predicate CutsBonus(defs: seq<Definition>, d: Definition, a: Arrival) {
    a.cut.Some? && a.cut.value.index == TurnOf(defs, d, a.event) && a.cut.value.point == BeforeBonus
  }

  function ReachedBy(defs: seq<Definition>, d: Definition, arrivals: seq<Arrival>): nat {
    if arrivals == [] then 0
    else ReachedBy(defs, d, arrivals[..|arrivals| - 1]) + if Reaches(defs, d, arrivals[|arrivals| - 1]) then 1 else 0
  }

  /** The arrival that completes the mission, `goal` reaching arrivals in, is not cut off before the bonus. */
  predicate CompletedUncut(defs: seq<Definition>, d: Definition, arrivals: seq<Arrival>) {
    exists n :: 0 <= n < |arrivals| && CompletesUncut(defs, d, arrivals, n)
  }

  predicate CompletesUncut(defs: seq<Definition>, d: Definition, arrivals: seq<Arrival>, n: nat)
    requires n < |arrivals|
  {
    Reaches(defs, d, arrivals[n]) && ReachedBy(defs, d, arrivals[..n]) == d.goal - 1 && !CutsBonus(defs, d, arrivals[n])
  }

  lemma {:induction false} CompletedUncutLast(defs: seq<Definition>, d: Definition, arrivals: seq<Arrival>)
    requires arrivals != []
    ensures CompletedUncut(defs, d, arrivals) <==>
              CompletedUncut(defs, d, arrivals[..|arrivals| - 1]) || CompletesUncut(defs, d, arrivals, |arrivals| - 1)
  {
    var init := arrivals[..|arrivals| - 1];
    forall n | 0 <= n < |init| ensures CompletesUncut(defs, d, init, n) <==> CompletesUncut(defs, d, arrivals, n) {
      assert init[..n] == arrivals[..n] && init[n] == arrivals[n];
    }
  }

  lemma {:induction false} CompletedMeansDone(defs: seq<Definition>, d: Definition, arrivals: seq<Arrival>)
    requires CompletedUncut(defs, d, arrivals)
    ensures ReachedBy(defs, d, arrivals) >= d.goal
  {
    CompletedUncutLast(defs, d, arrivals);
    if CompletedUncut(defs, d, arrivals[..|arrivals| - 1]) { CompletedMeansDone(defs, d, arrivals[..|arrivals| - 1]); }
  }

  /** Where the tables accept everything, only crashes keep events from a mission. */
  lemma {:induction false} AcceptedTally(s: State, r: Referral, defs: seq<Definition>, arrivals: seq<Arrival>,
                                         d: Definition)
    requires DistinctCodes(defs) && d in defs && d.goal >= 1
    ensures RunTally(s, r, defs, arrivals, ACCEPTING, d)
         == Tally(ReachedBy(defs, d, arrivals), CompletedUncut(defs, d, arrivals))
  {
    if arrivals != [] {
      var init, last := arrivals[..|arrivals| - 1], arrivals[|arrivals| - 1];
      AcceptedTally(s, r, defs, init, d);
      CompletedUncutLast(defs, d, arrivals);
      if CompletedUncut(defs, d, init) { CompletedMeansDone(defs, d, init); }
      var k := TurnOf(defs, d, last.event);
      assert k >= 0 ==> Matching(defs, last.event)[k] == d;
    }
  }

  /** With crashes anywhere, and inserts accepted: a mission's progress counts the events that reached it
      up to its goal, and its bonus is paid exactly when the one that completed it was not cut off between
      progress and bonus. */
  lemma BonusPaidExactlyWhen(r: Referral, defs: seq<Definition>, arrivals: seq<Arrival>, d: Definition)
    requires DistinctCodes(defs) && d in defs && d.goal >= 1 && d.bonus > 0
    ensures var s, key, seen := Run(State(map[], []), r, defs, arrivals, ACCEPTING), KeyOf(r, d),
            ReachedBy(defs, d, arrivals);
            && (key in s.rows ==> s.rows[key].count == Min(d.goal, seen) && (s.rows[key].complete <==> seen >= d.goal))
            && RewardCount(s.rewards, key) == (if CompletedUncut(defs, d, arrivals) then 1 else 0)
  {
    RunTracks(State(map[], []), r, defs, arrivals, ACCEPTING, d);
    AcceptedTally(State(map[], []), r, defs, arrivals, d);
    if CompletedUncut(defs, d, arrivals) { CompletedMeansDone(defs, d, arrivals); }
  }

  function SeenBy(d: Definition, arrivals: seq<Arrival>): nat {
    if arrivals == [] then 0
    else SeenBy(d, arrivals[..|arrivals| - 1]) + if Matches(d, arrivals[|arrivals| - 1].event) then 1 else 0
  }

  ghost predicate NoCrashes(arrivals: seq<Arrival>) { forall a | a in arrivals :: a.cut == None }

  lemma {:induction false} AllReachWithoutCrashes(defs: seq<Definition>, d: Definition, arrivals: seq<Arrival>)
    requires DistinctCodes(defs) && d in defs && d.goal >= 1 && NoCrashes(arrivals)
    ensures ReachedBy(defs, d, arrivals) == SeenBy(d, arrivals)
    ensures CompletedUncut(defs, d, arrivals) <==> SeenBy(d, arrivals) >= d.goal
  {
    if arrivals != [] {
      var init, last := arrivals[..|arrivals| - 1], arrivals[|arrivals| - 1];
      assert last in arrivals && forall a | a in init :: a in arrivals;
      AllReachWithoutCrashes(defs, d, init);
      CompletedUncutLast(defs, d, arrivals);
      MatchingSelects(defs, last.event);
    }
  }

  /** Where the tables accept the inserts and nothing crashes: after any list of events on a referral, each
      mission with a goal of at least one stands at the smaller of its goal and the number of matching
      events, is complete exactly at the goal, and has exactly one bonus if complete and worth one, else
      none. */
  lemma MissionsCountEvents(r: Referral, defs: seq<Definition>, arrivals: seq<Arrival>, d: Definition)
    requires DistinctCodes(defs) && d in defs && d.goal >= 1 && NoCrashes(arrivals)
    ensures var s, key, seen := Run(State(map[], []), r, defs, arrivals, ACCEPTING), KeyOf(r, d), SeenBy(d, arrivals);
            && (seen > 0 ==> key in s.rows)
            && (key in s.rows ==>
                  && s.rows[key].count == Min(d.goal, seen)
                  && (s.rows[key].complete <==> s.rows[key].count == d.goal))
            && RewardCount(s.rewards, key) == (if key in s.rows && s.rows[key].complete && d.bonus > 0 then 1 else 0)
  {
    RunTracks(State(map[], []), r, defs, arrivals, ACCEPTING, d);
    AcceptedTally(State(map[], []), r, defs, arrivals, d);
    AllReachWithoutCrashes(defs, d, arrivals);
  }

  // ----- refused inserts -----

  /** Where bonuses are refused none is ever paid. */
  lemma {:induction false} RefusedBonusesAreNeverPaid(s: State, r: Referral, defs: seq<Definition>,
                                                      arrivals: seq<Arrival>, schema: Schema)
    requires !schema.bonusesAccepted
    ensures Run(s, r, defs, arrivals, schema).rewards == s.rewards
  {
    if arrivals != [] {
      var init, last := arrivals[..|arrivals| - 1], arrivals[|arrivals| - 1];
      RefusedBonusesAreNeverPaid(s, r, defs, init, schema);
      TurnsPayNothing(Run(s, r, defs, init, schema), r, Matching(defs, last.event), last.now, schema, last.cut);
    }
  }

  lemma {:induction false} TurnsPayNothing(s: State, r: Referral, defs: seq<Definition>, now: Time, schema: Schema,
                                           cut: Option<Cut>)
    requires !schema.bonusesAccepted
    ensures TakeTurns(s, r, defs, now, schema, cut).state.rewards == s.rewards
  {
    if defs != [] { TurnsPayNothing(s, r, defs[..|defs| - 1], now, schema, cut); }
  }

  /** Where rows are refused nothing ever happens. */
  lemma {:induction false} RefusedRowsChangeNothing(s: State, r: Referral, defs: seq<Definition>,
                                                    arrivals: seq<Arrival>, schema: Schema)
    requires !schema.rowsAccepted
    ensures Run(s, r, defs, arrivals, schema) == s
  {
    if arrivals != [] {
      var init, last := arrivals[..|arrivals| - 1], arrivals[|arrivals| - 1];
      RefusedRowsChangeNothing(s, r, defs, init, schema);
      TurnsChangeNothing(s, r, Matching(defs, last.event), last.now, schema, last.cut);
    }
  }

  lemma {:induction false} TurnsChangeNothing(s: State, r: Referral, defs: seq<Definition>, now: Time, schema: Schema,
                                              cut: Option<Cut>)
    requires !schema.rowsAccepted
    ensures TakeTurns(s, r, defs, now, schema, cut).state == s
  {
    if defs != [] { TurnsChangeNothing(s, r, defs[..|defs| - 1], now, schema, cut); }
  }

  // ----- what holds whatever happens -----

  /** The bonus insert never meets an existing bonus: it is attempted on the completing step only. */
  lemma BonusNeverConflicts(s: State, r: Referral, d: Definition, now: Time, t: Tally)
    requires Tracks(s, KeyOf(r, d), d, t)
    ensures DueAt(s, r, d, now) ==> !HasReward(s.rewards, KeyOf(r, d))
  {
    CountedIffPresent(s.rewards, KeyOf(r, d));
  }

  /** Never more than one bonus, and only for complete missions. */
  ghost predicate BonusSafe(s: State, key: Key) {
    && RewardCount(s.rewards, key) <= 1
    && (RewardCount(s.rewards, key) == 1 ==> key in s.rows && s.rows[key].complete)
  }

  lemma TurnIsBonusSafe(s: State, r: Referral, d: Definition, now: Time, schema: Schema, cut: Option<Point>, key: Key)
    requires BonusSafe(s, key)
    ensures BonusSafe(TakeTurn(s, r, d, now, schema, cut).state, key)
  {
    CountedIffPresent(s.rewards, key);
    CountAppend(s.rewards, Reward(KeyOf(r, d), d.bonus), key);
  }

  lemma {:induction false} TurnsAreBonusSafe(s: State, r: Referral, defs: seq<Definition>, now: Time, schema: Schema,
                                             cut: Option<Cut>, key: Key)
    requires BonusSafe(s, key)
    ensures BonusSafe(TakeTurns(s, r, defs, now, schema, cut).state, key)
  {
    if defs != [] {
      var before := TakeTurns(s, r, defs[..|defs| - 1], now, schema, cut);
      TurnsAreBonusSafe(s, r, defs[..|defs| - 1], now, schema, cut, key);
      TurnIsBonusSafe(before.state, r, defs[|defs| - 1], now, schema, PointAt(cut, |defs| - 1), key);
    }
  }

  /** Over any run, whatever is refused and wherever crashes come, no mission has more than one bonus, and
      none without being complete. */
  lemma {:induction false} RunsAreBonusSafe(s: State, r: Referral, defs: seq<Definition>, arrivals: seq<Arrival>,
                                            schema: Schema, key: Key)
    requires BonusSafe(s, key)
    ensures BonusSafe(Run(s, r, defs, arrivals, schema), key)
  {
    if arrivals != [] {
      var init, last := arrivals[..|arrivals| - 1], arrivals[|arrivals| - 1];
      RunsAreBonusSafe(s, r, defs, init, schema, key);
      TurnsAreBonusSafe(Run(s, r, defs, init, schema), r, Matching(defs, last.event), last.now, schema, last.cut, key);
    }
  }

  /** A complete mission is never touched again, so a bonus not paid on completion is lost for good. */
  lemma {:induction false} LostBonusStaysLost(s: State, r: Referral, defs: seq<Definition>, arrivals: seq<Arrival>,
                                              schema: Schema, key: Key)
    requires key in s.rows && s.rows[key].complete
    ensures SameFor(s, Run(s, r, defs, arrivals, schema), key)
  {
    if arrivals != [] {
      var init, last := arrivals[..|arrivals| - 1], arrivals[|arrivals| - 1];
      LostBonusStaysLost(s, r, defs, init, schema, key);
      CompleteIsLeftAlone(Run(s, r, defs, init, schema), r, Matching(defs, last.event), last.now, schema, last.cut,
                          key);
    }
  }

  lemma {:induction false} CompleteIsLeftAlone(s: State, r: Referral, defs: seq<Definition>, now: Time, schema: Schema,
                                               cut: Option<Cut>, key: Key)
    requires key in s.rows && s.rows[key].complete
    ensures SameFor(s, TakeTurns(s, r, defs, now, schema, cut).state, key)
  {
    if defs != [] {
      var before, last := TakeTurns(s, r, defs[..|defs| - 1], now, schema, cut), defs[|defs| - 1];
      CompleteIsLeftAlone(s, r, defs[..|defs| - 1], now, schema, cut, key);
      if KeyOf(r, last) != key {
        TurnLeavesOthers(before.state, r, last, now, schema, PointAt(cut, |defs| - 1), key);
      }
    }
  }

  // ----- displayed status -----

  datatype MissionStatus = Available | InProgress | Completed

  function DeriveStatus(count: int, goal: int, complete: bool): MissionStatus {
    if complete then Completed
    else if count <= 0 then Available
    else if count < goal then InProgress
    else Completed
  }

  lemma StatusMatchesEvents(s: State, key: Key, d: Definition, t: Tally)
    requires Tracks(s, key, d, t) && key in s.rows && d.goal >= 1
    ensures var status := DeriveStatus(s.rows[key].count, s.rows[key].goal, s.rows[key].complete);
            && (status == Completed <==> t.seen >= d.goal)
            && (status == Available <==> t.seen == 0)
  {
  }
}
