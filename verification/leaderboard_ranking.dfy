/** Ranking a board's entries by score, completions, earliest last event and hash. */
module LeaderboardRanking {
  import opened Prelude
  import opened JourneyStore
  import opened LeaderboardScoring

  datatype Entry = Entry(
    hash: nat,
    name: nat,
    score: Score,
    rank: Option<nat>,
    tier: Tier,
    tenant: Option<Tenant>,
    product: Option<Product>,
    subProduct: Option<Product>)

  /** The entries of one board, by referrer. */
  type Entries = map<Ucn, Entry>

  /** Ascending, with missing values last. */
  predicate EarlierNullsLast(a: Option<Time>, b: Option<Time>) {
    a.Some? && (b == None || a.value < b.value)
  }

  /** `a` is listed before `b` by the ranking query. */
  predicate Before(a: Entry, b: Entry) {
    if a.score.total != b.score.total then a.score.total > b.score.total
    else if a.score.completed != b.score.completed then a.score.completed > b.score.completed
    else if a.score.lastEvent != b.score.lastEvent then EarlierNullsLast(a.score.lastEvent, b.score.lastEvent)
    else a.hash < b.hash
  }

  /** Hashing separates referrers. */
  ghost predicate DistinctHashes(entries: Entries) {
    forall u, v | u in entries && v in entries && u != v :: entries[u].hash != entries[v].hash
  }

  /** The referrers a tenant filter selects; no filter selects all. */
  function Scope(entries: Entries, tenant: Option<Tenant>): set<Ucn> {
    set u | u in entries && Admits(tenant, entries[u].tenant)
  }

  function Ahead(entries: Entries, tenant: Option<Tenant>, u: Ucn): set<Ucn>
    requires u in entries
  {
    set v | v in Scope(entries, tenant) && Before(entries[v], entries[u])
  }

  /** What ranking means: every selected entry is numbered by how many entries are ahead of it. */
  function Ranked(entries: Entries, tenant: Option<Tenant>): Entries {
    map u | u in entries ::
      if u in Scope(entries, tenant) then entries[u].(rank := Some(|Ahead(entries, tenant, u)| + 1)) else entries[u]
  }

  // ----- the ordered query -----

  predicate Listed(rows: seq<Ucn>, entries: Entries) {
    && (forall i | 0 <= i < |rows| :: rows[i] in entries)
    && (forall i, j | 0 <= i < j < |rows| :: Before(entries[rows[i]], entries[rows[j]]))
  }

  lemma BeforeIsTotalOrder(a: Entry, b: Entry, c: Entry)
    ensures !Before(a, a)
    ensures Before(a, b) ==> !Before(b, a)
    ensures a.hash != b.hash ==> Before(a, b) || Before(b, a)
    ensures Before(a, b) && Before(b, c) ==> Before(a, c)
  {
  }

  /** Inserts a referrer at its place in an ordered list. */
  function Place(rows: seq<Ucn>, u: Ucn, entries: Entries): (r: seq<Ucn>)
    requires u in entries && forall v | v in rows :: v in entries
    ensures forall v :: v in r <==> v == u || v in rows
    ensures |r| == |rows| + 1
  {
    if rows == [] then [u]
    else if Before(entries[u], entries[rows[0]]) then [u] + rows
    else [rows[0]] + Place(rows[1..], u, entries)
  }

  lemma ListedFrom(u: Ucn, rows: seq<Ucn>, entries: Entries)
    requires Listed(rows, entries) && u in entries
    requires forall v | v in rows :: Before(entries[u], entries[v])
    ensures Listed([u] + rows, entries)
  {
  }

  lemma {:induction false} PlaceKeepsOrder(rows: seq<Ucn>, u: Ucn, entries: Entries)
    requires Listed(rows, entries) && u in entries && u !in rows && DistinctHashes(entries)
    ensures Listed(Place(rows, u, entries), entries)
  {
    if rows != [] {
      var first := entries[rows[0]];
      BeforeIsTotalOrder(entries[u], first, first);
      if Before(entries[u], first) {
        forall v | v in rows ensures Before(entries[u], entries[v]) {
          BeforeIsTotalOrder(entries[u], first, entries[v]);
        }
        ListedFrom(u, rows, entries);
      } else {
        PlaceKeepsOrder(rows[1..], u, entries);
        ListedFrom(rows[0], Place(rows[1..], u, entries), entries);
      }
    }
  }

  predicate InScope(e: Entry, tenant: Option<Tenant>) { tenant == None || e.tenant == tenant }

  predicate SameStanding(a: Entry, b: Entry) {
    && a.score.total == b.score.total && a.score.completed == b.score.completed
    && a.score.lastEvent == b.score.lastEvent
  }

  /** One entry comes no later than another: more points; for equal points more completed referrals; for
      equal counts the earlier last event, a missing one last; else the smaller hash. */
  ghost predicate NoLater(a: Entry, b: Entry) {
    && a.score.total >= b.score.total
    && (a.score.total == b.score.total ==> a.score.completed >= b.score.completed)
    && (a.score.total == b.score.total && a.score.completed == b.score.completed && b.score.lastEvent.Some? ==>
          a.score.lastEvent.Some? && a.score.lastEvent.value <= b.score.lastEvent.value)
    && (SameStanding(a, b) ==> a.hash <= b.hash)
  }

  /** The rows of the ranking query, in order. */
  method FetchOrdered(entries: Entries, tenant: Option<Tenant>) returns (rows: seq<Ucn>)
    requires DistinctHashes(entries)
    ensures Listed(rows, entries)
    ensures forall u :: u in rows <==> u in Scope(entries, tenant)
    ensures forall u :: u in rows <==> u in entries && InScope(entries[u], tenant)
    ensures forall i, j | 0 <= i < j < |rows| :: NoLater(entries[rows[i]], entries[rows[j]])
  {
    rows := [];
    var todo := Scope(entries, tenant);
    while todo != {}
      invariant todo <= Scope(entries, tenant)
      invariant Listed(rows, entries)
      invariant forall u :: u in rows <==> u in Scope(entries, tenant) - todo
      decreases todo
    {
      var u :| u in todo;
      PlaceKeepsOrder(rows, u, entries);
      rows := Place(rows, u, entries);
      todo := todo - {u};
    }
  }

  lemma {:induction false} OrderedRowsExist(todo: set<Ucn>, entries: Entries) returns (rows: seq<Ucn>)
    requires todo <= entries.Keys && DistinctHashes(entries)
    ensures Listed(rows, entries) && forall u :: u in rows <==> u in todo
    decreases |todo|
  {
    if todo == {} {
      rows := [];
    } else {
      var u :| u in todo;
      rows := OrderedRowsExist(todo - {u}, entries);
      PlaceKeepsOrder(rows, u, entries);
      rows := Place(rows, u, entries);
    }
  }

  lemma ListedOnce(rows: seq<Ucn>, entries: Entries)
    requires Listed(rows, entries)
    ensures NoDuplicates(rows)
  {
    forall i, j | 0 <= i < j < |rows| ensures rows[i] != rows[j] {
      assert Before(entries[rows[i]], entries[rows[j]]);
    }
  }

  /** The position in the ordered list is the number of entries ahead. */
  lemma PositionIsRank(rows: seq<Ucn>, entries: Entries, tenant: Option<Tenant>, i: nat)
    requires Listed(rows, entries) && i < |rows|
    requires forall u :: u in rows <==> u in Scope(entries, tenant)
    ensures |Ahead(entries, tenant, rows[i])| == i
  {
    ListedOnce(rows, entries);
    DistinctSize(rows[..i]);
    assert Ahead(entries, tenant, rows[i]) == SetOf(rows[..i]) by {
      forall v | v in Ahead(entries, tenant, rows[i]) ensures v in rows[..i] {
        var k :| 0 <= k < |rows| && rows[k] == v;
        BeforeIsTotalOrder(entries[v], entries[rows[i]], entries[v]);
      }
    }
  }

  lemma RankOfRow(rows: seq<Ucn>, entries: Entries, tenant: Option<Tenant>, k: nat)
    requires Listed(rows, entries) && k < |rows| && (forall u :: u in rows <==> u in Scope(entries, tenant))
    ensures Ranked(entries, tenant)[rows[k]] == entries[rows[k]].(rank := Some(k + 1))
  {
    assert rows[k] in rows;
    PositionIsRank(rows, entries, tenant, k);
  }

  /** Numbering the ordered rows from one up is ranking. */
  lemma NumberedIsRanked(entries: Entries, tenant: Option<Tenant>, rows: seq<Ucn>, ranked: Entries)
    requires Listed(rows, entries) && (forall u :: u in rows <==> u in Scope(entries, tenant))
    requires ranked.Keys == entries.Keys
    requires forall u | u in entries && u !in rows :: ranked[u] == entries[u]
    requires forall k | 0 <= k < |rows| :: ranked[rows[k]] == entries[rows[k]].(rank := Some(k + 1))
    ensures ranked == Ranked(entries, tenant)
  {
    var expected := Ranked(entries, tenant);
    forall u | u in entries ensures ranked[u] == expected[u] {
      if u in rows {
        var k :| 0 <= k < |rows| && rows[k] == u;
        RankOfRow(rows, entries, tenant, k);
      }
    }
  }

  /** What ranking changes and in which order it numbers, told on the fields of the entries. */
  ghost predicate RanksByFields(entries: Entries, tenant: Option<Tenant>, ranked: Entries) {
    && ranked.Keys == entries.Keys
    && (forall u | u in entries && !InScope(entries[u], tenant) :: ranked[u] == entries[u])
    && (forall u | u in entries && InScope(entries[u], tenant) ::
          ranked[u].rank.Some? && ranked[u] == entries[u].(rank := ranked[u].rank))
    && (forall u, v | u in entries && v in entries && InScope(entries[u], tenant) && InScope(entries[v], tenant) ::
          RanksBelow(entries[u], entries[v], ranked[u], ranked[v]))
  }

  predicate Earlier(a: Option<Time>, b: Option<Time>) { a.Some? && b.Some? && a.value < b.value }

  /** The ranks of two entries, by points, completed referrals, last event and hash. */
  ghost predicate RanksBelow(a: Entry, b: Entry, x: Entry, y: Entry) {
    var sameTotal := a.score.total == b.score.total;
    var sameCount := sameTotal && a.score.completed == b.score.completed;
    && x.rank.Some? && y.rank.Some?
    && (a.score.total > b.score.total ==> x.rank.value < y.rank.value)
    && (sameTotal && a.score.completed > b.score.completed ==> x.rank.value < y.rank.value)
    && (sameCount && a.score.lastEvent.Some? && b.score.lastEvent == None ==> x.rank.value < y.rank.value)
    && (sameCount && Earlier(a.score.lastEvent, b.score.lastEvent) ==> x.rank.value < y.rank.value)
    && (SameStanding(a, b) && a.hash < b.hash ==> x.rank.value < y.rank.value)
  }

  lemma RankedEntry(entries: Entries, tenant: Option<Tenant>, u: Ucn)
    requires u in entries
    ensures var ranked := Ranked(entries, tenant);
            if InScope(entries[u], tenant)
            then ranked[u].rank.Some? && ranked[u] == entries[u].(rank := ranked[u].rank)
            else ranked[u] == entries[u]
  {
  }

  lemma RanksOfTwo(entries: Entries, tenant: Option<Tenant>, u: Ucn, v: Ucn)
    requires DistinctHashes(entries) && u in Scope(entries, tenant) && v in Scope(entries, tenant)
    ensures var x, y := Ranked(entries, tenant)[u], Ranked(entries, tenant)[v];
            x.rank.Some? && y.rank.Some? && (Before(x, y) ==> x.rank.value < y.rank.value)
  {
    RanksAreBijection(entries, tenant);
    RankedKeepsScope(entries, tenant);
  }

  lemma RankedPair(entries: Entries, tenant: Option<Tenant>, u: Ucn, v: Ucn)
    requires DistinctHashes(entries) && u in entries && v in entries
    requires InScope(entries[u], tenant) && InScope(entries[v], tenant)
    ensures RanksBelow(entries[u], entries[v], Ranked(entries, tenant)[u], Ranked(entries, tenant)[v])
  {
    RankedEntry(entries, tenant, u);
    RankedEntry(entries, tenant, v);
    RanksOfTwo(entries, tenant, u, v);
    BeforeDecides(Ranked(entries, tenant)[u], Ranked(entries, tenant)[v]);
  }

  lemma BeforeDecides(x: Entry, y: Entry)
    requires x.rank.Some? && y.rank.Some? && (Before(x, y) ==> x.rank.value < y.rank.value)
    ensures RanksBelow(x, y, x, y)
  {
  }

  lemma RankedByFields(entries: Entries, tenant: Option<Tenant>)
    requires DistinctHashes(entries)
    ensures RanksByFields(entries, tenant, Ranked(entries, tenant))
  {
    forall u | u in entries
      ensures var ranked := Ranked(entries, tenant);
              if InScope(entries[u], tenant)
              then ranked[u].rank.Some? && ranked[u] == entries[u].(rank := ranked[u].rank)
              else ranked[u] == entries[u]
    {
      RankedEntry(entries, tenant, u);
    }
    forall u, v | u in entries && v in entries && InScope(entries[u], tenant) && InScope(entries[v], tenant)
      ensures RanksBelow(entries[u], entries[v], Ranked(entries, tenant)[u], Ranked(entries, tenant)[v])
    {
      RankedPair(entries, tenant, u, v);
    }
  }

  /** Numbers the ordered rows from one up, row by row. */
  method RecalculateRankings(entries: Entries, tenant: Option<Tenant>) returns (ranked: Entries)
    requires DistinctHashes(entries)
    ensures ranked == Ranked(entries, tenant)
    ensures RanksByFields(entries, tenant, ranked)
  {
    var rows := FetchOrdered(entries, tenant);
    ListedOnce(rows, entries);
    ranked := entries;
    for i := 0 to |rows|
      invariant ranked.Keys == entries.Keys
      invariant forall u | u in entries && u !in rows :: ranked[u] == entries[u]
      invariant forall k | i <= k < |rows| :: ranked[rows[k]] == entries[rows[k]]
      invariant forall k | 0 <= k < i :: ranked[rows[k]] == entries[rows[k]].(rank := Some(k + 1))
    {
      ranked := ranked[rows[i] := ranked[rows[i]].(rank := Some(i + 1))];
    }
    NumberedIsRanked(entries, tenant, rows, ranked);
    RankedByFields(entries, tenant);
  }

  // ----- what ranks say -----

  /** Ranks run from one to the number of entries, each used once, in ranking order. */
  ghost predicate RanksInOrder(entries: Entries, tenant: Option<Tenant>) {
    var scope := Scope(entries, tenant);
    && (forall u | u in scope :: entries[u].rank.Some? && 1 <= entries[u].rank.value <= |scope|)
    && (forall u, v | u in scope && v in scope ::
          Before(entries[u], entries[v]) <==> entries[u].rank.value < entries[v].rank.value)
    && (forall u, v | u in scope && v in scope && u != v :: entries[u].rank != entries[v].rank)
    && (forall n | 1 <= n <= |scope| :: exists u :: u in scope && entries[u].rank == Some(n))
  }

  lemma RankedKeepsScope(entries: Entries, tenant: Option<Tenant>)
    ensures Scope(Ranked(entries, tenant), tenant) == Scope(entries, tenant)
    ensures DistinctHashes(entries) ==> DistinctHashes(Ranked(entries, tenant))
  {
  }

  lemma RanksAreBijection(entries: Entries, tenant: Option<Tenant>)
    requires DistinctHashes(entries)
    ensures RanksInOrder(Ranked(entries, tenant), tenant)
  {
    var rows := OrderedRowsExist(Scope(entries, tenant), entries);
    forall k | 0 <= k < |rows| ensures Ranked(entries, tenant)[rows[k]] == entries[rows[k]].(rank := Some(k + 1)) {
      RankOfRow(rows, entries, tenant, k);
    }
    RankedKeepsScope(entries, tenant);
    NumberedRanksInOrder(rows, entries, Ranked(entries, tenant), tenant);
  }

  lemma NumberedRanksInOrder(rows: seq<Ucn>, entries: Entries, ranked: Entries, tenant: Option<Tenant>)
    requires Listed(rows, entries) && ranked.Keys == entries.Keys
    requires Scope(ranked, tenant) == Scope(entries, tenant) && (forall u :: u in rows <==> u in Scope(entries, tenant))
    requires forall k | 0 <= k < |rows| :: ranked[rows[k]] == entries[rows[k]].(rank := Some(k + 1))
    ensures RanksInOrder(ranked, tenant)
  {
    var scope := Scope(ranked, tenant);
    ListedOnce(rows, entries);
    DistinctSize(rows);
    assert SetOf(rows) == scope;
    OrderedPositions(rows, entries, ranked, scope);
    forall n | 1 <= n <= |scope| ensures exists u :: u in scope && ranked[u].rank == Some(n) {
      assert rows[n - 1] in rows;
    }
  }

  lemma OrderedPositions(rows: seq<Ucn>, entries: Entries, ranked: Entries, scope: set<Ucn>)
    requires Listed(rows, entries) && ranked.Keys == entries.Keys && (forall u :: u in rows <==> u in scope)
    requires forall k | 0 <= k < |rows| :: ranked[rows[k]] == entries[rows[k]].(rank := Some(k + 1))
    ensures forall u | u in scope :: ranked[u].rank.Some? && 1 <= ranked[u].rank.value <= |rows|
    ensures forall u, v | u in scope && v in scope ::
              Before(ranked[u], ranked[v]) <==> ranked[u].rank.value < ranked[v].rank.value
    ensures forall u, v | u in scope && v in scope && u != v :: ranked[u].rank != ranked[v].rank
  {
    forall u, v | u in scope && v in scope
      ensures Before(ranked[u], ranked[v]) <==> ranked[u].rank.value < ranked[v].rank.value
      ensures u != v ==> ranked[u].rank != ranked[v].rank
    {
      var i :| 0 <= i < |rows| && rows[i] == u;
      var j :| 0 <= j < |rows| && rows[j] == v;
      BeforeIsTotalOrder(entries[v], entries[u], entries[v]);
    }
  }

  datatype NextRank = NextRank(position: nat, score: int, points: nat)

  /** The entry one place up, and the points to reach it; nothing for unknown, unranked or leading
      referrers. */
  method GetNextRankInfo(entries: Entries, u: Ucn, tenant: Tenant) returns (next: Option<NextRank>)
    ensures next.Some? ==> u in Scope(entries, Some(tenant)) && entries[u].rank.Some?
    ensures next.Some? ==>
              exists v ::
                && v in Scope(entries, Some(tenant)) && IsNextAbove(entries, Some(tenant), u, v)
                && next.value == NextRank(entries[v].rank.value, entries[v].score.total,
                                          Max(0, entries[v].score.total - entries[u].score.total))
    ensures next == None && u in Scope(entries, Some(tenant)) && entries[u].rank.Some? ==>
              forall v | v in Scope(entries, Some(tenant)) && entries[v].rank.Some? ::
                entries[v].rank.value >= entries[u].rank.value
  {
    var scope := Scope(entries, Some(tenant));
    if u !in scope || entries[u].rank == None { return None; }
    var mine := entries[u].rank.value;
    var above := set v | v in scope && entries[v].rank.Some? && entries[v].rank.value < mine;
    if above == {} {
      assert forall v | v in scope && entries[v].rank.Some? && entries[v].rank.value < mine :: v in above;
      return None;
    }
    var best :| best in above;
    var todo := above - {best};
    while todo != {}
      invariant todo <= above && best in above
      invariant forall v | v in above - todo :: entries[v].rank.value <= entries[best].rank.value
      decreases todo
    {
      var v :| v in todo;
      if entries[v].rank.value > entries[best].rank.value { best := v; }
      todo := todo - {v};
    }
    next := Some(NextRank(entries[best].rank.value, entries[best].score.total,
                          Max(0, entries[best].score.total - entries[u].score.total)));
    assert forall v | v in scope && entries[v].rank.Some? && entries[v].rank.value < mine :: v in above - todo;
  }

  /** `v` has the highest rank number below that of `u`. */
  ghost predicate IsNextAbove(entries: Entries, tenant: Option<Tenant>, u: Ucn, v: Ucn) {
    && u in entries && v in entries && entries[u].rank.Some? && entries[v].rank.Some?
    && entries[v].rank.value < entries[u].rank.value
    && forall w | w in Scope(entries, tenant) && entries[w].rank.Some?
      && entries[w].rank.value < entries[u].rank.value ::
         entries[w].rank.value <= entries[v].rank.value
  }

  /** On a ranked board the entry above is exactly one place up and never behind on points, so the
      points to the next rank are a plain difference. */
  lemma NextRankIsOneUp(entries: Entries, tenant: Option<Tenant>, u: Ucn, v: Ucn)
    requires RanksInOrder(entries, tenant) && u in Scope(entries, tenant) && v in Scope(entries, tenant)
    requires IsNextAbove(entries, tenant, u, v)
    ensures entries[v].rank.value == entries[u].rank.value - 1
    ensures Max(0, entries[v].score.total - entries[u].score.total) == entries[v].score.total - entries[u].score.total
  {
    var n := entries[u].rank.value;
    var w :| w in Scope(entries, tenant) && entries[w].rank == Some(n - 1);
    assert Before(entries[v], entries[u]);
  }
}
