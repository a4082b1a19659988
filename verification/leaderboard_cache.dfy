/** Cached leaderboard pages while rebuilds, reads and expiries interleave. */
module LeaderboardCache {
  import opened Prelude
  import opened JourneyStore
  import opened LeaderboardScoring
  import opened LeaderboardRanking
  import opened LeaderboardService

  // ----- pages -----

  /** `a` may not be listed after `b` on a page: by rank with missing ranks last, then by score. */
  predicate PageBefore(a: Entry, b: Entry) {
    if a.rank != b.rank then a.rank.Some? && (b.rank == None || a.rank.value < b.rank.value)
    else a.score.total > b.score.total
  }

  /** `rows` is one order the page query may return for a tenant's entries. */
  ghost predicate PageOrder(entries: Entries, tenant: Tenant, rows: seq<Ucn>) {
    && NoDuplicates(rows)
    && (forall u :: u in rows <==> u in Scope(entries, Some(tenant)))
    && (forall i, j | 0 <= i < j < |rows| && rows[i] in entries && rows[j] in entries ::
          !PageBefore(entries[rows[j]], entries[rows[i]]))
  }

  function Slice(rows: seq<Ucn>, limit: nat, offset: nat): seq<Ucn> {
    if offset >= |rows| then [] else rows[offset..Min(offset + limit, |rows|)]
  }

  /** `page` is a possible answer of the page query. */
  ghost predicate IsPage(entries: Entries, key: PageKey, page: seq<Entry>) {
    exists rows :: PageOrder(entries, key.tenant, rows) && ShowsSlice(entries, Slice(rows, key.limit, key.offset), page)
  }

  ghost predicate ShowsSlice(entries: Entries, slice: seq<Ucn>, page: seq<Entry>) {
    |page| == |slice| && forall i | 0 <= i < |slice| :: slice[i] in entries && page[i] == entries[slice[i]]
  }

  /** On a ranked board the row at position i is the one with rank i + 1. */
  lemma {:induction false} RankedRowsAtLeast(entries: Entries, tenant: Tenant, rows: seq<Ucn>, i: nat)
    requires RanksInOrder(entries, Some(tenant)) && PageOrder(entries, tenant, rows) && i < |rows|
    ensures rows[i] in entries && entries[rows[i]].rank.Some? && entries[rows[i]].rank.value >= i + 1
  {
    assert rows[i] in Scope(entries, Some(tenant));
    if i > 0 {
      RankedRowsAtLeast(entries, tenant, rows, i - 1);
      RanksRise(entries, tenant, rows, i - 1, i);
    }
  }

  lemma RanksRise(entries: Entries, tenant: Tenant, rows: seq<Ucn>, i: nat, j: nat)
    requires RanksInOrder(entries, Some(tenant)) && PageOrder(entries, tenant, rows) && i < j < |rows|
    ensures rows[i] in entries && rows[j] in entries && entries[rows[i]].rank.Some? && entries[rows[j]].rank.Some?
    ensures entries[rows[i]].rank.value < entries[rows[j]].rank.value
  {
    assert rows[i] in Scope(entries, Some(tenant)) && rows[j] in Scope(entries, Some(tenant));
  }

  lemma {:induction false} RankedRowsAtMost(entries: Entries, tenant: Tenant, rows: seq<Ucn>, i: nat)
    requires RanksInOrder(entries, Some(tenant)) && PageOrder(entries, tenant, rows) && i < |rows|
    ensures rows[i] in entries && entries[rows[i]].rank.Some? && entries[rows[i]].rank.value <= i + 1
    decreases |rows| - i
  {
    assert rows[i] in Scope(entries, Some(tenant));
    if i < |rows| - 1 {
      RankedRowsAtMost(entries, tenant, rows, i + 1);
      RanksRise(entries, tenant, rows, i, i + 1);
    } else {
      DistinctSize(rows);
      assert SetOf(rows) == Scope(entries, Some(tenant));
    }
  }

  /** A ranked board has one page order, so a page is determined by the table. */
  lemma RankedPageOrderIsUnique(entries: Entries, tenant: Tenant, rows: seq<Ucn>, other: seq<Ucn>)
    requires RanksInOrder(entries, Some(tenant)) && PageOrder(entries, tenant, rows)
             && PageOrder(entries, tenant, other)
    ensures rows == other
  {
    DistinctSize(rows);
    DistinctSize(other);
    assert SetOf(rows) == Scope(entries, Some(tenant)) == SetOf(other);
    forall i | 0 <= i < |rows| ensures rows[i] == other[i] {
      RankedRowsAtLeast(entries, tenant, rows, i);
      RankedRowsAtMost(entries, tenant, rows, i);
      RankedRowsAtLeast(entries, tenant, other, i);
      RankedRowsAtMost(entries, tenant, other, i);
      assert rows[i] in Scope(entries, Some(tenant)) && other[i] in Scope(entries, Some(tenant));
    }
  }

  lemma RankedPageIsUnique(entries: Entries, key: PageKey, page: seq<Entry>, other: seq<Entry>)
    requires RanksInOrder(entries, Some(key.tenant)) && IsPage(entries, key, page) && IsPage(entries, key, other)
    ensures page == other
  {
    var r :| PageOrder(entries, key.tenant, r) && ShowsSlice(entries, Slice(r, key.limit, key.offset), page);
    var s :| PageOrder(entries, key.tenant, s) && ShowsSlice(entries, Slice(s, key.limit, key.offset), other);
    RankedPageOrderIsUnique(entries, key.tenant, r, s);
  }

  // ----- pages exist -----

  predicate PageSorted(rows: seq<Ucn>, entries: Entries) {
    && (forall i | 0 <= i < |rows| :: rows[i] in entries)
    && (forall i, j | 0 <= i < j < |rows| :: !PageBefore(entries[rows[j]], entries[rows[i]]))
  }

  lemma PageBeforeIsOrder(a: Entry, b: Entry, c: Entry)
    ensures PageBefore(a, b) ==> !PageBefore(b, a)
    ensures PageBefore(a, b) && PageBefore(b, c) ==> PageBefore(a, c)
  {
  }

  lemma PageSortedFrom(u: Ucn, rows: seq<Ucn>, entries: Entries)
    requires PageSorted(rows, entries) && NoDuplicates(rows) && u in entries && u !in rows
    requires forall v | v in rows :: !PageBefore(entries[v], entries[u])
    ensures PageSorted([u] + rows, entries) && NoDuplicates([u] + rows)
  {
  }

  lemma {:induction false} PlacedOnPage(rows: seq<Ucn>, u: Ucn, entries: Entries) returns (placed: seq<Ucn>)
    requires PageSorted(rows, entries) && NoDuplicates(rows) && u in entries && u !in rows
    ensures PageSorted(placed, entries) && NoDuplicates(placed)
    ensures forall v :: v in placed <==> v == u || v in rows
  {
    if rows != [] && !PageBefore(entries[u], entries[rows[0]]) {
      assert rows[0] !in rows[1..];
      var rest := PlacedOnPage(rows[1..], u, entries);
      PageSortedFrom(rows[0], rest, entries);
      placed := [rows[0]] + rest;
    } else {
      forall v | v in rows ensures !PageBefore(entries[v], entries[u]) {
        PageBeforeIsOrder(entries[v], entries[u], entries[rows[0]]);
        PageBeforeIsOrder(entries[u], entries[rows[0]], entries[v]);
      }
      PageSortedFrom(u, rows, entries);
      placed := [u] + rows;
    }
  }

  lemma {:induction false} RowsOnPage(todo: set<Ucn>, entries: Entries) returns (rows: seq<Ucn>)
    requires todo <= entries.Keys
    ensures PageSorted(rows, entries) && NoDuplicates(rows) && forall v :: v in rows <==> v in todo
    decreases |todo|
  {
    if todo == {} {
      rows := [];
    } else {
      var u :| u in todo;
      rows := RowsOnPage(todo - {u}, entries);
      rows := PlacedOnPage(rows, u, entries);
    }
  }

  /** The page query has an answer, ranked or not. */
  lemma EveryPageExists(entries: Entries, key: PageKey) returns (page: seq<Entry>)
    ensures IsPage(entries, key, page)
  {
    var rows := RowsOnPage(Scope(entries, Some(key.tenant)), entries);
    assert PageOrder(entries, key.tenant, rows);
    var slice := Slice(rows, key.limit, key.offset);
    page := seq(|slice|, i requires 0 <= i < |slice| => entries[slice[i]]);
    assert ShowsSlice(entries, slice, page);
  }

  /** Pages depend on the tenant's entries only. */
  lemma PagesSeeTheirTenant(x: Entries, y: Entries, key: PageKey, page: seq<Entry>)
    requires Scope(x, Some(key.tenant)) == {} && Scope(y, Some(key.tenant)) == {} && IsPage(x, key, page)
    ensures IsPage(y, key, page)
  {
    var rows: seq<Ucn> :| PageOrder(x, key.tenant, rows) && ShowsSlice(x, Slice(rows, key.limit, key.offset), page);
    DistinctSize(rows);
    assert SetOf(rows) == {};
    assert PageOrder(y, key.tenant, []);
    assert ShowsSlice(y, Slice([], key.limit, key.offset), page);
  }

  // ----- interleavings -----

  /** The table, the cache, and for every rebuild under way the tenants whose pages it will still
      drop before it finishes. */
  datatype State = State(table: Table, cache: Cache, running: map<nat, set<Option<Tenant>>>)

  datatype Action =
    | Start(id: nat, tenants: set<Option<Tenant>>)
    | Write(id: nat, code: BoardCode, entries: Entries)
    | Drop(id: nat, tenant: Option<Tenant>)
    | Finish(id: nat)
    | Read(key: PageKey, page: seq<Entry>)
    | Expire(key: PageKey)

  /** Which tenant each board belongs to. */
  type Owner = BoardCode -> Option<Tenant>

  ghost predicate OwnedBy(entries: Entries, tenant: Option<Tenant>) {
    forall u | u in entries :: entries[u].tenant == tenant
  }

  /** One step: rebuilds write whole boards of tenants they have announced and drop pages after their
      writes; a read takes the cached page or fetches one and caches it; pages may expire. */
  ghost predicate Next(owner: Owner, s: State, a: Action, t: State) {
    match a
    case Start(id, tenants) => id !in s.running && t == s.(running := s.running[id := tenants])
    case Write(id, code, entries) =>
      && id in s.running && owner(code) in s.running[id] && OwnedBy(entries, owner(code))
      && t == s.(table := s.table[code := entries])
    case Drop(id, tenant) =>
      && id in s.running
      && t == s.(cache := WithoutTenants(s.cache, {tenant}), running := s.running[id := s.running[id] - {tenant}])
    case Finish(id) => id in s.running && s.running[id] == {} && t == s.(running := s.running - {id})
    case Read(key, page) =>
      if key in s.cache then page == s.cache[key] && t == s
      else IsPage(EntriesOf(s.table, key.code), key, page) && t == s.(cache := s.cache[key := page])
    case Expire(key) => t == s.(cache := s.cache - {key})
  }

  /** A cached page is current, or a rebuild under way is going to drop it. */
  ghost predicate PageOk(s: State, key: PageKey) {
    && key in s.cache
    && (IsPage(EntriesOf(s.table, key.code), key, s.cache[key])
        || exists id :: id in s.running && Some(key.tenant) in s.running[id])
  }

  ghost predicate Honest(owner: Owner, s: State) {
    && (forall code :: OwnedBy(EntriesOf(s.table, code), owner(code)))
    && (forall key | key in s.cache :: PageOk(s, key))
  }

  lemma WriteKeepsPage(owner: Owner, s: State, id: nat, code: BoardCode, entries: Entries, key: PageKey)
    requires Honest(owner, s) && id in s.running && owner(code) in s.running[id] && OwnedBy(entries, owner(code))
    requires key in s.cache
    ensures PageOk(s.(table := s.table[code := entries]), key)
  {
    assert PageOk(s, key);
    var t := s.(table := s.table[code := entries]);
    if key.code == code && Some(key.tenant) != owner(code) && IsPage(EntriesOf(s.table, code), key, s.cache[key]) {
      assert OwnedBy(EntriesOf(s.table, code), owner(code));
      PagesSeeTheirTenant(EntriesOf(s.table, code), entries, key, s.cache[key]);
    }
  }

  lemma OtherStepsKeepPage(owner: Owner, s: State, a: Action, t: State, key: PageKey)
    requires Honest(owner, s) && Next(owner, s, a, t) && !a.Write? && key in s.cache && key in t.cache
    ensures PageOk(t, key)
  {
    assert PageOk(s, key);
    if !IsPage(EntriesOf(s.table, key.code), key, s.cache[key]) {
      var id :| id in s.running && Some(key.tenant) in s.running[id];
      assert id in t.running && Some(key.tenant) in t.running[id];
    }
  }

  lemma NextKeepsHonest(owner: Owner, s: State, a: Action, t: State)
    requires Honest(owner, s) && Next(owner, s, a, t)
    ensures Honest(owner, t)
  {
    forall key | key in t.cache ensures PageOk(t, key) {
      if a.Write? {
        WriteKeepsPage(owner, s, a.id, a.code, a.entries, key);
      } else if key in s.cache {
        OtherStepsKeepPage(owner, s, a, t, key);
      }
    }
    forall code ensures OwnedBy(EntriesOf(t.table, code), owner(code)) {
      assert OwnedBy(EntriesOf(s.table, code), owner(code));
    }
  }

  ghost predicate IsRun(owner: Owner, states: seq<State>, actions: seq<Action>) {
    |states| == |actions| + 1 && forall i | 0 <= i < |actions| :: Next(owner, states[i], actions[i], states[i + 1])
  }

  lemma {:induction false} RunsAreHonest(owner: Owner, states: seq<State>, actions: seq<Action>, i: nat)
    requires IsRun(owner, states, actions) && Honest(owner, states[0]) && i < |states|
    ensures Honest(owner, states[i])
  {
    if i > 0 {
      RunsAreHonest(owner, states, actions, i - 1);
      NextKeepsHonest(owner, states[i - 1], actions[i - 1], states[i]);
    }
  }

  /** Whenever no rebuild is under way, every cached page is a page of the table as it is, and so is
      every page a read then returns. */
  lemma QuietCacheIsCurrent(owner: Owner, states: seq<State>, actions: seq<Action>, i: nat)
    requires IsRun(owner, states, actions) && Honest(owner, states[0]) && i < |states|
    requires states[i].running == map[]
    ensures forall key | key in states[i].cache ::
              IsPage(EntriesOf(states[i].table, key.code), key, states[i].cache[key])
    ensures i < |actions| && actions[i].Read? ==>
              IsPage(EntriesOf(states[i].table, actions[i].key.code), actions[i].key, actions[i].page)
  {
    RunsAreHonest(owner, states, actions, i);
    forall key | key in states[i].cache
      ensures IsPage(EntriesOf(states[i].table, key.code), key, states[i].cache[key])
    {
      assert PageOk(states[i], key);
    }
    if i < |actions| { assert Next(owner, states[i], actions[i], states[i + 1]); }
  }
}
