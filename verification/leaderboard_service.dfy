/** The leaderboard tables and page cache as the rebuild functions update them. */
module LeaderboardService {
  import opened Prelude
  import opened JourneyStore
  import opened LeaderboardScoring
  import opened LeaderboardRanking
  import opened LeaderboardRebuild

  datatype PageKey = PageKey(code: BoardCode, tenant: Tenant, limit: nat, offset: nat)

  type Table = map<BoardCode, Entries>

  type Cache = map<PageKey, seq<Entry>>

  function EntriesOf(table: Table, code: BoardCode): Entries {
    if code in table then table[code] else map[]
  }

  /** The cache after the pages of some tenants have been dropped. */
  function WithoutTenants(cache: Cache, tenants: set<Option<Tenant>>): Cache {
    map k | k in cache && Some(k.tenant) !in tenants :: cache[k]
  }

  /** Hashing separates referrers. */
  ghost predicate Injective(hash: Ucn -> nat) {
    forall u, v :: hash(u) == hash(v) ==> u == v
  }

  /** Board codes are primary keys. */
  ghost predicate DistinctCodes(boards: seq<Board>) {
    forall i, j | 0 <= i < j < |boards| :: boards[i].code != boards[j].code
  }

  /** The active definitions a tenant filter returns. */
  function Definitions(boards: seq<Board>, tenant: Option<Tenant>): seq<Board> {
    if boards == [] then []
    else
      var rest, last := Definitions(boards[..|boards| - 1], tenant), boards[|boards| - 1];
      if Admits(tenant, last.tenant) then rest + [last] else rest
  }

  lemma {:induction false} DefinitionsSelect(boards: seq<Board>, tenant: Option<Tenant>)
    requires DistinctCodes(boards)
    ensures DistinctCodes(Definitions(boards, tenant))
    ensures forall b :: b in Definitions(boards, tenant) <==> b in boards && Admits(tenant, b.tenant)
  {
    if boards != [] {
      var init, last := boards[..|boards| - 1], boards[|boards| - 1];
      DefinitionsSelect(init, tenant);
      assert boards == init + [last];
      forall i | 0 <= i < |Definitions(init, tenant)| ensures Definitions(init, tenant)[i].code != last.code {
        assert Definitions(init, tenant)[i] in init;
      }
    }
  }

  /** Stored hashes are the hashes of the referrers they stand for. */
  ghost predicate Hashed(entries: Entries, hash: Ucn -> nat) {
    forall u | u in entries :: entries[u].hash == hash(u)
  }

  lemma HashedIsDistinct(entries: Entries, hash: Ucn -> nat)
    requires Injective(hash) && Hashed(entries, hash)
    ensures DistinctHashes(entries)
  {
  }

  lemma RankedKeepsHashes(entries: Entries, tenant: Option<Tenant>, hash: Ucn -> nat)
    requires Hashed(entries, hash)
    ensures Hashed(Ranked(entries, tenant), hash)
  {
  }

  lemma ReferrerUpdateKeepsHashes(db: Db, b: Board, entries: Entries, u: Ucn)
    requires Hashed(entries, db.hash)
    ensures Hashed(UpdatedForReferrer(db, b, entries, u), db.hash)
  {
  }

  lemma ScratchKeepsHashes(db: Db, b: Board, entries: Entries)
    requires Hashed(entries, db.hash)
    ensures Hashed(DeleteAll(entries, b.tenant) + Scratch(db, b), db.hash)
  {
  }

  /** Scores one referrer on one board and writes the entry. */
  method ScoreAndUpsert(db: Db, b: Board, entries: Entries, u: Ucn) returns (updated: Entries)
    ensures updated == Upsert(entries, u, FreshEntry(db, b, u))
  {
    var score := CalculateReferrerScore(RulesOf(db, b.code), Select(b, Some(u), db.referrals),
                                        MissionsFor(b, u, db.missions));
    var e := Entry(db.hash(u), db.name(u), score, None, RankTier(score.total), b.tenant, b.product, b.subProduct);
    updated := Upsert(entries, u, e);
  }

  /** One referrer refreshed on one board, and the board ranked again. */
  method RebuildReferrerOnBoard(db: Db, b: Board, entries: Entries, u: Ucn) returns (rebuilt: Entries)
    requires Injective(db.hash) && Hashed(entries, db.hash)
    ensures rebuilt == RebuiltForReferrer(db, b, entries, u)
    ensures Hashed(rebuilt, db.hash)
  {
    if Select(b, Some(u), db.referrals) == [] {
      rebuilt := Delete(entries, u, b.tenant);
    } else {
      rebuilt := ScoreAndUpsert(db, b, entries, u);
    }
    ReferrerUpdateKeepsHashes(db, b, entries, u);
    HashedIsDistinct(rebuilt, db.hash);
    RankedKeepsHashes(rebuilt, b.tenant, db.hash);
    rebuilt := RecalculateRankings(rebuilt, b.tenant);
  }

  lemma UpsertKeepsSameness(x: Entries, y: Entries, tenant: Option<Tenant>, u: Ucn, e: Entry)
    requires SameButRanks(x, y, tenant) && Admits(tenant, e.tenant) && e.rank == None
    ensures SameButRanks(Upsert(x, u, e), y[u := e], tenant)
  {
  }

  /** The entries of some referrers. */
  ghost function EntriesFor(entry: Ucn -> Entry, done: set<Ucn>): Entries {
    map u | u in done :: entry(u)
  }

  ghost function EntryOn(db: Db, b: Board): Ucn -> Entry { (u: Ucn) => FreshEntry(db, b, u) }

  lemma EntryOnBoard(db: Db, b: Board, u: Ucn)
    ensures EntryOn(db, b)(u) == FreshEntry(db, b, u)
    ensures Admits(b.tenant, FreshEntry(db, b, u).tenant) && FreshEntry(db, b, u).rank == None
  {
  }

  lemma AllEntriesAreScratch(db: Db, b: Board)
    ensures EntriesFor(EntryOn(db, b), Referrers(b, db.referrals)) == Scratch(db, b)
  {
  }

  lemma OneMoreEntry(rows: Entries, kept: Entries, entry: Ucn -> Entry, done: set<Ucn>, tenant: Option<Tenant>, u: Ucn)
    requires SameButRanks(rows, kept + EntriesFor(entry, done), tenant)
    requires Admits(tenant, entry(u).tenant) && entry(u).rank == None
    ensures SameButRanks(Upsert(rows, u, entry(u)), kept + EntriesFor(entry, done + {u}), tenant)
  {
    UpsertKeepsSameness(rows, kept + EntriesFor(entry, done), tenant, u, entry(u));
    assert kept + EntriesFor(entry, done + {u}) == (kept + EntriesFor(entry, done))[u := entry(u)];
  }

  /** Writes an entry for every referrer of a board on top of what was kept. */
  method UpsertAll(db: Db, b: Board, kept: Entries) returns (rows: Entries)
    ensures SameButRanks(rows, kept + Scratch(db, b), b.tenant)
  {
    rows := kept;
    ghost var entry := EntryOn(db, b);
    ghost var done: set<Ucn> := {};
    var todo := Referrers(b, db.referrals);
    assert kept + EntriesFor(entry, {}) == kept;
    while todo != {}
      invariant done + todo == Referrers(b, db.referrals)
      invariant SameButRanks(rows, kept + EntriesFor(entry, done), b.tenant)
      decreases todo
    {
      var u :| u in todo;
      EntryOnBoard(db, b, u);
      OneMoreEntry(rows, kept, entry, done, b.tenant, u);
      rows := ScoreAndUpsert(db, b, rows, u);
      done, todo := done + {u}, todo - {u};
    }
    assert done == Referrers(b, db.referrals);
    AllEntriesAreScratch(db, b);
  }

  /** A board cleared, every referrer on it scored, and the result ranked. */
  method RebuildBoard(db: Db, b: Board, entries: Entries) returns (rebuilt: Entries)
    requires Injective(db.hash) && Hashed(entries, db.hash)
    ensures rebuilt == RebuiltForBoard(db, b, entries)
    ensures Hashed(rebuilt, db.hash)
  {
    var kept := DeleteAll(entries, b.tenant);
    rebuilt := UpsertAll(db, b, kept);
    RankedIgnoresRanks(rebuilt, kept + Scratch(db, b), b.tenant);
    ScratchKeepsHashes(db, b, entries);
    SameButRanksKeepHashes(rebuilt, kept + Scratch(db, b), b.tenant, db.hash);
    HashedIsDistinct(rebuilt, db.hash);
    RankedKeepsHashes(rebuilt, b.tenant, db.hash);
    rebuilt := RecalculateRankings(rebuilt, b.tenant);
  }

  lemma SameButRanksKeepHashes(x: Entries, y: Entries, tenant: Option<Tenant>, hash: Ucn -> nat)
    requires SameButRanks(x, y, tenant) && Hashed(y, hash)
    ensures Hashed(x, hash)
  {
    forall u | u in x ensures x[u].hash == hash(u) {
      assert x[u].(rank := None).hash == y[u].(rank := None).hash;
    }
  }

  /** The table after rebuilding a list of boards one after the other, each from its own entries. */
  function RebuildEach(rebuild: (Board, Entries) -> Entries, boards: seq<Board>, table: Table): Table {
    if boards == [] then table
    else
      var before, b := RebuildEach(rebuild, boards[..|boards| - 1], table), boards[|boards| - 1];
      before[b.code := rebuild(b, EntriesOf(before, b.code))]
  }

  /** Every listed board is rebuilt from its own old entries, and no other board is touched. */
  lemma {:induction false} EachBoardOnItsOwn(rebuild: (Board, Entries) -> Entries, boards: seq<Board>, table: Table)
    requires DistinctCodes(boards)
    ensures forall b | b in boards ::
              EntriesOf(RebuildEach(rebuild, boards, table), b.code) == rebuild(b, EntriesOf(table, b.code))
    ensures forall code | (forall b | b in boards :: b.code != code) ::
              EntriesOf(RebuildEach(rebuild, boards, table), code) == EntriesOf(table, code)
  {
    if boards != [] {
      var init, last := boards[..|boards| - 1], boards[|boards| - 1];
      EachBoardOnItsOwn(rebuild, init, table);
      assert boards == init + [last];
      assert last in boards;
      forall b | b in init ensures b.code != last.code {}
    }
  }

  /** The incremental rebuild of one referrer, as a function of the board. */
  function ReferrerRebuild(db: Db, u: Ucn): (Board, Entries) -> Entries {
    (b, entries) => RebuiltForReferrer(db, b, entries, u)
  }

  ghost predicate AllHashed(table: Table, hash: Ucn -> nat) {
    forall code | code in table :: Hashed(table[code], hash)
  }

  function TenantsOf(boards: seq<Board>): set<Option<Tenant>> {
    set b | b in boards :: b.tenant
  }

  lemma TenantsOfPrefix(boards: seq<Board>, i: nat)
    requires i < |boards|
    ensures TenantsOf(boards[..i + 1]) == TenantsOf(boards[..i]) + {boards[i].tenant}
  {
    assert boards[..i + 1] == boards[..i] + [boards[i]];
    assert boards[i] in boards[..i + 1];
  }

  lemma RebuildEachPrefix(rebuild: (Board, Entries) -> Entries, boards: seq<Board>, table: Table, i: nat)
    requires i < |boards|
    ensures var before, b := RebuildEach(rebuild, boards[..i], table), boards[i];
            RebuildEach(rebuild, boards[..i + 1], table) == before[b.code := rebuild(b, EntriesOf(before, b.code))]
  {
    assert boards[..i + 1][..i] == boards[..i];
  }

  class Leaderboards {
    var table: Table
    var cache: Cache

    constructor ()
      ensures table == map[] && cache == map[]
    {
      table, cache := map[], map[];
    }

    /** Refreshes one referrer on every active board of a tenant, then drops the affected pages. */
    method RebuildForReferrer(db: Db, boards: seq<Board>, u: Ucn, tenant: Option<Tenant>)
      requires Injective(db.hash) && AllHashed(table, db.hash)
      modifies this
      ensures AllHashed(table, db.hash)
      ensures table == RebuildEach(ReferrerRebuild(db, u), Definitions(boards, tenant), old(table))
      ensures cache == WithoutTenants(old(cache), TenantsOf(Definitions(boards, tenant)))
    {
      var active := Definitions(boards, tenant);
      var affected: set<Option<Tenant>> := {};
      ghost var rebuild := ReferrerRebuild(db, u);
      for i := 0 to |active|
        invariant AllHashed(table, db.hash) && cache == old(cache)
        invariant affected == TenantsOf(active[..i])
        invariant table == RebuildEach(rebuild, active[..i], old(table))
      {
        var b := active[i];
        affected := affected + {b.tenant};
        TenantsOfPrefix(active, i);
        RebuildEachPrefix(rebuild, active, old(table), i);
        var rebuilt := RebuildReferrerOnBoard(db, b, EntriesOf(table, b.code), u);
        assert rebuilt == rebuild(b, EntriesOf(table, b.code));
        table := table[b.code := rebuilt];
      }
      assert active[..|active|] == active;
      cache := WithoutTenants(cache, affected);
    }

    /** Rebuilds one board from scratch and drops its pages. */
    method RebuildForBoard(db: Db, b: Board)
      requires Injective(db.hash) && AllHashed(table, db.hash)
      modifies this
      ensures AllHashed(table, db.hash)
      ensures table == old(table)[b.code := RebuiltForBoard(db, b, EntriesOf(old(table), b.code))]
      ensures cache == WithoutTenants(old(cache), {b.tenant})
    {
      var rebuilt := RebuildBoard(db, b, EntriesOf(table, b.code));
      table := table[b.code := rebuilt];
      cache := WithoutTenants(cache, {b.tenant});
    }
  }

  /** Every board of the tenant that was in sync is in sync again after one referrer changed and was
      refreshed everywhere. */
  lemma RefreshRestoresSync(db: Db, later: Db, boards: seq<Board>, table: Table, u: Ucn, tenant: Option<Tenant>,
                            b: Board)
    requires DistinctCodes(boards) && b in boards && Admits(tenant, b.tenant)
    requires InSync(db, b, EntriesOf(table, b.code)) && OnlyChanged(db, later, u)
    ensures var after := RebuildEach(ReferrerRebuild(later, u), Definitions(boards, tenant), table);
            && InSync(later, b, EntriesOf(after, b.code))
            && EntriesOf(after, b.code) == RebuiltForBoard(later, b, EntriesOf(table, b.code))
  {
    DefinitionsSelect(boards, tenant);
    EachBoardOnItsOwn(ReferrerRebuild(later, u), Definitions(boards, tenant), table);
    IncrementalMatchesScratch(db, later, b, EntriesOf(table, b.code), u);
  }
}
