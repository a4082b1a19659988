/** Rebuilding leaderboards: per referrer after an event, and per board from scratch. */
module LeaderboardRebuild {
  import opened Prelude
  import opened JourneyStore
  import opened LeaderboardScoring
  import opened LeaderboardRanking

  /** What the rebuilds read. Hash and display name are functions of the referrer. */
  datatype Db = Db(
    referrals: seq<Referral>,
    missions: seq<CompletedMission>,
    rules: map<BoardCode, seq<Rule>>,
    hash: Ucn -> nat,
    name: Ucn -> nat)

  function RulesOf(db: Db, code: BoardCode): seq<Rule> {
    if code in db.rules then db.rules[code] else []
  }

  /** The completed missions of a referrer that count on a board. */
  function MissionsFor(b: Board, u: Ucn, all: seq<CompletedMission>): seq<CompletedMission> {
    if all == [] then []
    else
      var rest, last := MissionsFor(b, u, all[..|all| - 1]), all[|all| - 1];
      if last.beneficiary == u
         && (last.product == None || Admits(b.product, last.product))
         && (last.subProduct == None || Admits(b.subProduct, last.subProduct))
      then rest + [last] else rest
  }

  function FreshEntry(db: Db, b: Board, u: Ucn): Entry {
    var score := ScoreOf(RulesOf(db, b.code), Select(b, Some(u), db.referrals), MissionsFor(b, u, db.missions));
    Entry(db.hash(u), db.name(u), score, None, RankTier(score.total), b.tenant, b.product, b.subProduct)
  }

  function Referrers(b: Board, referrals: seq<Referral>): set<Ucn> {
    set r | r in Select(b, None, referrals) && r.row.referrer.Some? :: r.row.referrer.value
  }

  /** A board computed from nothing but the source tables, before ranking. */
  function Scratch(db: Db, b: Board): Entries {
    map u | u in Referrers(b, db.referrals) :: FreshEntry(db, b, u)
  }

  /** The table of a board says what the source tables say. */
  ghost predicate InSync(db: Db, b: Board, entries: Entries) {
    entries == Ranked(Scratch(db, b), b.tenant)
  }

  function Delete(entries: Entries, u: Ucn, tenant: Option<Tenant>): Entries {
    if u in Scope(entries, tenant) then entries - {u} else entries
  }

  function DeleteAll(entries: Entries, tenant: Option<Tenant>): Entries {
    entries - Scope(entries, tenant)
  }

  /** Insert, or update everything but the rank. */
  function Upsert(entries: Entries, u: Ucn, e: Entry): Entries {
    entries[u := e.(rank := if u in entries then entries[u].rank else None)]
  }

  /** The board with one referrer's entry refreshed or removed, before ranking. */
  function UpdatedForReferrer(db: Db, b: Board, entries: Entries, u: Ucn): Entries {
    if Select(b, Some(u), db.referrals) == [] then Delete(entries, u, b.tenant)
    else Upsert(entries, u, FreshEntry(db, b, u))
  }

  function RebuiltForReferrer(db: Db, b: Board, entries: Entries, u: Ucn): Entries {
    Ranked(UpdatedForReferrer(db, b, entries, u), b.tenant)
  }

  function RebuiltForBoard(db: Db, b: Board, entries: Entries): Entries {
    Ranked(DeleteAll(entries, b.tenant) + Scratch(db, b), b.tenant)
  }

  // ----- ranks do not feed back -----

  /** Two versions of a board that differ at most in ranks about to be overwritten. */
  ghost predicate SameButRanks(x: Entries, y: Entries, tenant: Option<Tenant>) {
    && x.Keys == y.Keys
    && forall u | u in x :: x[u].(rank := None) == y[u].(rank := None) && (Admits(tenant, x[u].tenant) || x[u] == y[u])
  }

  lemma BeforeIgnoresRank(a: Entry, b: Entry, c: Entry, d: Entry)
    requires a.(rank := None) == c.(rank := None) && b.(rank := None) == d.(rank := None)
    ensures Before(a, b) == Before(c, d)
  {
    assert a.score == a.(rank := None).score && b.score == b.(rank := None).score;
    assert a.hash == a.(rank := None).hash && b.hash == b.(rank := None).hash;
  }

  lemma ScopeIgnoresRanks(x: Entries, y: Entries, tenant: Option<Tenant>)
    requires SameButRanks(x, y, tenant)
    ensures Scope(x, tenant) == Scope(y, tenant)
    ensures forall u | u in x :: Ahead(x, tenant, u) == Ahead(y, tenant, u)
  {
    forall u | u in x ensures x[u].tenant == y[u].tenant {
      assert x[u].(rank := None).tenant == x[u].tenant;
    }
    forall u, v | u in x && v in x ensures Before(x[v], x[u]) == Before(y[v], y[u]) {
      BeforeIgnoresRank(x[v], x[u], y[v], y[u]);
    }
  }

  lemma RankedIgnoresRanks(x: Entries, y: Entries, tenant: Option<Tenant>)
    requires SameButRanks(x, y, tenant)
    ensures Ranked(x, tenant) == Ranked(y, tenant)
  {
    ScopeIgnoresRanks(x, y, tenant);
    forall u | u in x ensures Ranked(x, tenant)[u] == Ranked(y, tenant)[u] {
      assert x[u].(rank := None).(rank := Some(0)) == y[u].(rank := None).(rank := Some(0));
    }
  }

  // ----- one referrer's change -----

  /** The referrals that do not belong to `u`. */
  function OthersReferrals(all: seq<Referral>, u: Ucn): seq<Referral> {
    if all == [] then []
    else
      var rest, last := OthersReferrals(all[..|all| - 1], u), all[|all| - 1];
      if last.row.referrer == Some(u) then rest else rest + [last]
  }

  function OthersMissions(all: seq<CompletedMission>, u: Ucn): seq<CompletedMission> {
    if all == [] then []
    else
      var rest, last := OthersMissions(all[..|all| - 1], u), all[|all| - 1];
      if last.beneficiary == u then rest else rest + [last]
  }

  /** Between `db` and `later` only referrals and missions of `u` may have come, gone or changed. */
  ghost predicate OnlyChanged(db: Db, later: Db, u: Ucn) {
    && OthersReferrals(db.referrals, u) == OthersReferrals(later.referrals, u)
    && OthersMissions(db.missions, u) == OthersMissions(later.missions, u)
    && db.rules == later.rules
    && (forall v :: db.hash(v) == later.hash(v) && db.name(v) == later.name(v))
  }

  lemma {:induction false} SelectOfOthers(b: Board, v: Ucn, u: Ucn, all: seq<Referral>)
    requires u != v
    ensures Select(b, Some(v), OthersReferrals(all, u)) == Select(b, Some(v), all)
  {
    if all != [] {
      var rest, last := OthersReferrals(all[..|all| - 1], u), all[|all| - 1];
      SelectOfOthers(b, v, u, all[..|all| - 1]);
      assert (rest + [last])[..|rest|] == rest;
    }
  }

  lemma {:induction false} MissionsOfOthers(b: Board, v: Ucn, u: Ucn, all: seq<CompletedMission>)
    requires u != v
    ensures MissionsFor(b, v, OthersMissions(all, u)) == MissionsFor(b, v, all)
  {
    if all != [] {
      var rest, last := OthersMissions(all[..|all| - 1], u), all[|all| - 1];
      MissionsOfOthers(b, v, u, all[..|all| - 1]);
      assert (rest + [last])[..|rest|] == rest;
    }
  }

  /** Somebody is a referrer on a board exactly if the query for them returns something. */
  lemma {:induction false} ReferrerHasRows(b: Board, u: Ucn, all: seq<Referral>)
    ensures u in Referrers(b, all) <==> Select(b, Some(u), all) != []
  {
    if all != [] {
      ReferrerHasRows(b, u, all[..|all| - 1]);
      var last := all[|all| - 1];
      if OnBoard(b, last) {
        assert Select(b, None, all) == Select(b, None, all[..|all| - 1]) + [last];
        if last.row.referrer == Some(u) { assert last in Select(b, None, all); }
      }
    }
  }

  lemma OthersKeepTheirEntries(db: Db, later: Db, b: Board, u: Ucn, v: Ucn)
    requires OnlyChanged(db, later, u) && u != v
    ensures FreshEntry(db, b, v) == FreshEntry(later, b, v)
    ensures v in Referrers(b, db.referrals) <==> v in Referrers(b, later.referrals)
  {
    SelectOfOthers(b, v, u, db.referrals);
    SelectOfOthers(b, v, u, later.referrals);
    MissionsOfOthers(b, v, u, db.missions);
    MissionsOfOthers(b, v, u, later.missions);
    ReferrerHasRows(b, v, db.referrals);
    ReferrerHasRows(b, v, later.referrals);
  }

  /** What a table that is current except for ranks says about one referrer. */
  ghost predicate CurrentAt(db: Db, b: Board, x: Entries, v: Ucn) {
    && (v in x <==> v in Referrers(b, db.referrals))
    && (v in x ==> x[v].(rank := None) == FreshEntry(db, b, v) && x[v].tenant == b.tenant)
  }

  lemma SyncedEntry(db: Db, b: Board, v: Ucn)
    ensures CurrentAt(db, b, Ranked(Scratch(db, b), b.tenant), v)
  {
  }

  lemma UpdatedOwnEntry(later: Db, b: Board, entries: Entries, u: Ucn)
    requires u in entries ==> Admits(b.tenant, entries[u].tenant)
    ensures CurrentAt(later, b, UpdatedForReferrer(later, b, entries, u), u)
  {
    ReferrerHasRows(b, u, later.referrals);
  }

  lemma UpdatedOtherEntry(later: Db, b: Board, entries: Entries, u: Ucn, v: Ucn)
    requires v != u
    ensures var x := UpdatedForReferrer(later, b, entries, u);
            (v in x <==> v in entries) && (v in entries ==> x[v] == entries[v])
  {
  }

  lemma UpdatedEntry(db: Db, later: Db, b: Board, u: Ucn, v: Ucn)
    requires OnlyChanged(db, later, u)
    ensures CurrentAt(later, b, UpdatedForReferrer(later, b, Ranked(Scratch(db, b), b.tenant), u), v)
  {
    var entries := Ranked(Scratch(db, b), b.tenant);
    SyncedEntry(db, b, v);
    if v == u {
      UpdatedOwnEntry(later, b, entries, u);
    } else {
      UpdatedOtherEntry(later, b, entries, u, v);
      OthersKeepTheirEntries(db, later, b, u, v);
    }
  }

  /** The rows the incremental rebuild ranks are the rows a fresh computation yields. */
  lemma UpdatedRowsMatchScratch(db: Db, later: Db, b: Board, u: Ucn)
    requires OnlyChanged(db, later, u)
    ensures SameButRanks(UpdatedForReferrer(later, b, Ranked(Scratch(db, b), b.tenant), u), Scratch(later, b), b.tenant)
  {
    var x := UpdatedForReferrer(later, b, Ranked(Scratch(db, b), b.tenant), u);
    forall v
      ensures v in x <==> v in Referrers(b, later.referrals)
      ensures v in x ==> x[v].(rank := None) == FreshEntry(later, b, v) && x[v].tenant == b.tenant
    {
      UpdatedEntry(db, later, b, u, v);
      assert CurrentAt(later, b, x, v);
    }
  }

  /** From-scratch rebuilds forget the old table when all of it belongs to the board's tenant. */
  lemma BoardRebuildIsInSync(db: Db, b: Board, entries: Entries)
    requires forall u | u in entries :: Admits(b.tenant, entries[u].tenant)
    ensures InSync(db, b, RebuiltForBoard(db, b, entries))
  {
    assert DeleteAll(entries, b.tenant) == map[];
    assert DeleteAll(entries, b.tenant) + Scratch(db, b) == Scratch(db, b);
  }

  /** If a board is in sync and then only one referrer's referrals or missions change, rebuilding for
      that referrer gives exactly the table a rebuild from scratch gives, also when the referrer is
      left without referrals. */
  lemma IncrementalMatchesScratch(db: Db, later: Db, b: Board, entries: Entries, u: Ucn)
    requires InSync(db, b, entries) && OnlyChanged(db, later, u)
    ensures RebuiltForReferrer(later, b, entries, u) == RebuiltForBoard(later, b, entries)
    ensures InSync(later, b, RebuiltForReferrer(later, b, entries, u))
  {
    UpdatedRowsMatchScratch(db, later, b, u);
    RankedIgnoresRanks(UpdatedForReferrer(later, b, entries, u), Scratch(later, b), b.tenant);
    BoardRebuildIsInSync(later, b, entries);
  }
}
