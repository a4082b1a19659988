/** What scores, entries and pages are, told on the fields of rules, referrals and missions. */
module LeaderboardFields {
  import opened Prelude
  import opened JourneyDefinitions
  import opened JourneyStore
  import opened JourneyRows
  import opened LeaderboardScoring
  import opened LeaderboardRanking
  import opened LeaderboardRebuild
  import opened LeaderboardService
  import opened LeaderboardCache

  // ----- milestones -----

  predicate InOrderAt(core: seq<Event>, low: Event, high: Event, j: nat, k: nat) {
    j <= k < |core| && core[j] == low && core[k] == high
  }

  /** One milestone comes at or before another. */
  ghost predicate InOrderIn(core: seq<Event>, low: Event, high: Event) {
    exists j, k :: InOrderAt(core, low, high, j, k)
  }

  lemma OrderFromIndex(core: seq<Event>, low: Event, high: Event)
    requires low in core && high in core && IndexOf(core, high) >= IndexOf(core, low)
    ensures InOrderIn(core, low, high)
  {
    assert InOrderAt(core, low, high, IndexOf(core, low), IndexOf(core, high));
  }

  lemma IndexFromOrder(core: seq<Event>, low: Event, high: Event)
    requires NoDuplicates(core) && InOrderIn(core, low, high)
    ensures low in core && high in core && IndexOf(core, high) >= IndexOf(core, low)
  {
    var j: nat, k: nat :| InOrderAt(core, low, high, j, k);
    RanksOfDistinct(core);
    assert IndexOf(core, core[j]) == j && IndexOf(core, core[k]) == k;
  }

  predicate HeldByTimestamp(row: Row, e: Event, d: JourneyDefinition) {
    && e in d.timestampField && d.timestampField[e] in row.stamps
    && d.timestampField[e] in {AccountOpenedAt, AccountActivatedAt, FundedAt, DebitOrderSwitchedAt, SalarySwitchedAt,
                               FirstTransactionCompletedAt}
  }

  lemma SelectedColumns(f: Field)
    ensures f in SELECTED <==> f in {AccountOpenedAt, AccountActivatedAt, FundedAt, DebitOrderSwitchedAt,
                                     SalarySwitchedAt, FirstTransactionCompletedAt}
  {
  }

  lemma HeldByIndex(row: Row, e: Event, d: JourneyDefinition)
    ensures HeldIn(row, e, d) <==>
              || HeldByTimestamp(row, e, d)
              || (e in d.coreSequence && row.status.Some? && row.status.value in d.coreSequence
                  && IndexOf(d.coreSequence, row.status.value) >= IndexOf(d.coreSequence, e))
  {
    if e in d.timestampField { SelectedColumns(d.timestampField[e]); }
  }

  /** A milestone is held by status, by one of the six timestamps the query selects, or by standing at or
      above it. */
  lemma MilestoneHeldExactlyWhen(row: Row, e: Event, d: JourneyDefinition)
    requires GetJourneyDefinition(FirstOf(row.journeyCode, None, BankingTransactional),
                                  FirstOf(row.journeyVersion, None, V1)) == Some(d)
    requires NoDuplicates(d.coreSequence)
    ensures HasMilestone(row, Some(Milestone(e))) <==>
              || row.status == Some(e)
              || HeldByTimestamp(row, e, d)
              || (row.status.Some? && InOrderIn(d.coreSequence, e, row.status.value))
  {
    HeldByIndex(row, e, d);
    if row.status.Some? { OrderMeansIndex(d.coreSequence, e, row.status.value); }
  }

  lemma OrderMeansIndex(core: seq<Event>, low: Event, high: Event)
    requires NoDuplicates(core)
    ensures InOrderIn(core, low, high) <==> low in core && high in core && IndexOf(core, high) >= IndexOf(core, low)
  {
    if InOrderIn(core, low, high) { IndexFromOrder(core, low, high); }
    if low in core && high in core && IndexOf(core, high) >= IndexOf(core, low) { OrderFromIndex(core, low, high); }
  }

  /** The completion bonus is for complete referrals, a rule without a milestone for none; in an unknown
      journey only the status counts. */
  lemma OtherMilestones(row: Row, e: Event)
    ensures HasMilestone(row, Some(CompletionBonus)) <==> row.isComplete
    ensures !HasMilestone(row, None)
    ensures GetJourneyDefinition(FirstOf(row.journeyCode, None, BankingTransactional),
                                 FirstOf(row.journeyVersion, None, V1)) == None ==>
              (HasMilestone(row, Some(Milestone(e))) <==> row.status == Some(e))
  {
  }

  // ----- points of rules -----

  predicate Unset<T(==)>(filter: Option<T>, value: Option<T>) { filter == None || (filter.Some? && filter == value) }

  /** A rule rewards a referral if journey, version, product and sub-product are each open or the same, and
      the milestone is held; bonus rules go to the bonus score, others to the milestone score. */
  predicate Rewards(rule: Rule, row: Row, bonus: bool) {
    && rule.isBonus == bonus
    && Unset(rule.journeyCode, row.journeyCode) && Unset(rule.journeyVersion, row.journeyVersion)
    && Unset(rule.product, row.product) && Unset(rule.subProduct, row.subProduct)
    && HasMilestone(row, rule.milestone)
  }

  lemma AwardExactlyWhen(rule: Rule, row: Row, bonus: bool)
    ensures Award(rule, row, bonus) == if Rewards(rule, row, bonus) then rule.value else 0
  {
  }

  /** Points awarded by rule i to referral j, for all pairs up to some positions. */
  function PairPoints(rules: seq<Rule>, referrals: seq<Referral>, bonus: bool): int {
    if referrals == [] then 0
    else
      PairPoints(rules, referrals[1..], bonus) + RowPairs(rules, referrals[0].row, bonus)
  }

  function RowPairs(rules: seq<Rule>, row: Row, bonus: bool): int {
    if rules == [] then 0
    else RowPairs(rules[1..], row, bonus) + if Rewards(rules[0], row, bonus) then rules[0].value else 0
  }

  lemma {:induction false} RowPairsLast(rules: seq<Rule>, last: Rule, row: Row, bonus: bool)
    ensures RowPairs(rules + [last], row, bonus)
         == RowPairs(rules, row, bonus) + if Rewards(last, row, bonus) then last.value else 0
  {
    if rules == [] {
      assert ([] + [last])[1..] == [];
    } else {
      assert (rules + [last])[1..] == rules[1..] + [last];
      RowPairsLast(rules[1..], last, row, bonus);
    }
  }

  lemma {:induction false} RowPointsArePairs(rules: seq<Rule>, row: Row, bonus: bool)
    ensures RowPoints(rules, row, bonus) == RowPairs(rules, row, bonus)
  {
    if rules != [] {
      var init, last := rules[..|rules| - 1], rules[|rules| - 1];
      assert rules == init + [last];
      RowPointsArePairs(init, row, bonus);
      AwardExactlyWhen(last, row, bonus);
      RowPairsLast(init, last, row, bonus);
    }
  }

  lemma {:induction false} PairPointsLast(rules: seq<Rule>, referrals: seq<Referral>, last: Referral, bonus: bool)
    ensures PairPoints(rules, referrals + [last], bonus)
         == PairPoints(rules, referrals, bonus) + RowPairs(rules, last.row, bonus)
  {
    if referrals == [] {
      assert ([] + [last])[1..] == [];
    } else {
      assert (referrals + [last])[1..] == referrals[1..] + [last];
      PairPointsLast(rules, referrals[1..], last, bonus);
    }
  }

  /** The configured points are those of all pairs of a referral and a rule that rewards it. */
  lemma {:induction false} ConfiguredPointsArePairs(rules: seq<Rule>, referrals: seq<Referral>, bonus: bool)
    ensures RulePoints(rules, referrals, bonus) == PairPoints(rules, referrals, bonus)
  {
    if referrals != [] {
      var init, last := referrals[..|referrals| - 1], referrals[|referrals| - 1];
      assert referrals == init + [last];
      ConfiguredPointsArePairs(rules, init, bonus);
      RowPointsArePairs(rules, last.row, bonus);
      PairPointsLast(rules, init, last, bonus);
    }
  }

  // ----- scores -----

  /** What one more completed mission adds to each part of a score. */
  lemma OneMoreMission(rules: seq<Rule>, referrals: seq<Referral>, missions: seq<CompletedMission>, m: CompletedMission)
    ensures var a, b := ScoreOf(rules, referrals, missions), ScoreOf(rules, referrals, missions + [m]);
            var points := b.total - a.total;
            && points == (match m.code
                          case AccountOpenedCore => 20
                          case AccountActivatedCore => 30
                          case AccountFundedCore => 50
                          case FirstDebitOrderSwitch => 20
                          case FirstSalarySwitch => 25
                          case FirstTransaction => 15
                          case Complete1Referral => 25
                          case Complete3Referrals => 75
                          case Complete5Referrals => 150
                          case OtherMission(_) => 0)
            && b.referral - a.referral == (if m.category == Core then points else 0)
            && b.milestone - a.milestone == (if m.category == MilestoneMission then points else 0)
            && b.bonus - a.bonus == (if m.category == Boost || m.category == MilestoneMission then points else 0)
            && b.referrals == a.referrals && b.completed == a.completed && b.lastEvent == a.lastEvent
  {
    assert (missions + [m])[..|missions|] == missions;
    assert m.category.Core? || m.category.Boost? || m.category.MilestoneMission? || m.category.OtherCategory?;
  }

  /** What one more referral adds. */
  lemma OneMoreReferral(rules: seq<Rule>, referrals: seq<Referral>, r: Referral, missions: seq<CompletedMission>)
    ensures var a, b := ScoreOf(rules, referrals, missions), ScoreOf(rules, referrals + [r], missions);
            && b.milestone - a.milestone == RowPairs(rules, r.row, false)
            && b.bonus - a.bonus == RowPairs(rules, r.row, true)
            && b.total - a.total == RowPairs(rules, r.row, false) + RowPairs(rules, r.row, true)
            && b.referral == a.referral
            && b.referrals == a.referrals + 1
            && b.completed == a.completed + (if r.row.isComplete then 1 else 0)
            && (b.lastEvent == None <==> a.lastEvent == None && r.row.updatedAt == None)
            && (b.lastEvent == a.lastEvent || b.lastEvent == r.row.updatedAt)
            && (a.lastEvent.Some? ==> a.lastEvent.value <= b.lastEvent.value)
            && (r.row.updatedAt.Some? ==> r.row.updatedAt.value <= b.lastEvent.value)
  {
    assert (referrals + [r])[..|referrals|] == referrals;
    RowPointsArePairs(rules, r.row, false);
    RowPointsArePairs(rules, r.row, true);
  }

  /** Nothing scores nothing. */
  lemma EmptyScore(rules: seq<Rule>)
    ensures ScoreOf(rules, [], []) == Score(0, 0, 0, 0, 0, 0, None)
  {
  }

  /** The tiers begin at 1, 50, 100 and 200 points. */
  lemma TierBounds(total: int)
    ensures RankTier(total) == Newbie <==> total <= 0
    ensures RankTier(total) == Bronze <==> 1 <= total <= 49
    ensures RankTier(total) == Silver <==> 50 <= total <= 99
    ensures RankTier(total) == Gold <==> 100 <= total <= 199
    ensures RankTier(total) == Platinum <==> 200 <= total
  {
  }

  // ----- who and what is on a board -----

  predicate BelongsTo(b: Board, r: Referral) {
    && (b.tenant == None || b.tenant == Some(r.tenant))
    && Unset(b.product, r.row.product) && Unset(b.subProduct, r.row.subProduct)
    && Unset(b.journeyCode, r.row.journeyCode) && Unset(b.journeyVersion, r.row.journeyVersion)
  }

  /** A referrer's referrals on a board, each once and in their order. */
  lemma SelectedOneByOne(b: Board, u: Option<Ucn>, all: seq<Referral>, r: Referral)
    ensures Select(b, u, []) == []
    ensures Select(b, u, all + [r])
         == Select(b, u, all) + if (u == None || r.row.referrer == u) && BelongsTo(b, r) then [r] else []
  {
    assert (all + [r])[..|all|] == all;
  }

  lemma {:induction false} SelectedOnFields(b: Board, u: Option<Ucn>, all: seq<Referral>)
    ensures forall r :: r in Select(b, u, all) <==> r in all && (u == None || r.row.referrer == u) && BelongsTo(b, r)
  {
    if all != [] {
      assert all == all[..|all| - 1] + [all[|all| - 1]];
      SelectedOnFields(b, u, all[..|all| - 1]);
    }
  }

  /** The completed missions that count on a board, each once and in their order: the referrer's own, of
      open or the board's product and sub-product. */
  lemma MissionsOneByOne(b: Board, u: Ucn, all: seq<CompletedMission>, m: CompletedMission)
    ensures MissionsFor(b, u, []) == []
    ensures MissionsFor(b, u, all + [m])
         == MissionsFor(b, u, all) + if && m.beneficiary == u
                                        && (b.product == None || m.product == None || m.product == b.product)
                                        && (b.subProduct == None || m.subProduct == None
                                            || m.subProduct == b.subProduct)
                                     then [m] else []
  {
    assert (all + [m])[..|all|] == all;
  }

  /** On a board in sync: who has an entry, and what it shows besides score and rank. */
  lemma SyncedBoardOnFields(db: Db, b: Board, entries: Entries, u: Ucn)
    requires InSync(db, b, entries)
    ensures u in entries <==> exists r :: r in db.referrals && r.row.referrer == Some(u) && BelongsTo(b, r)
    ensures u in entries ==>
              var e := entries[u];
              && e.hash == db.hash(u) && e.name == db.name(u)
              && e.tenant == b.tenant && e.product == b.product && e.subProduct == b.subProduct
              && e.tier == RankTier(e.score.total)
              && e.score == ScoreOf(if b.code in db.rules then db.rules[b.code] else [],
                                    Select(b, Some(u), db.referrals), MissionsFor(b, u, db.missions))
  {
    SelectedOnFields(b, None, db.referrals);
    if r :| r in db.referrals && r.row.referrer == Some(u) && BelongsTo(b, r) {
      assert r in Select(b, None, db.referrals);
    }
  }

  /** Rebuilding one referrer on any board: the others keep all but their rank; the referrer's entry is
      computed afresh while there are referrals on the board, and else gone, unless another tenant's. */
  lemma RefreshedEntry(db: Db, b: Board, entries: Entries, u: Ucn, v: Ucn)
    ensures var later := RebuiltForReferrer(db, b, entries, u);
            if u == v && (exists r :: r in db.referrals && r.row.referrer == Some(u) && BelongsTo(b, r))
            then v in later && later[v] == FreshEntry(db, b, u).(rank := later[v].rank)
            else
              && (v in later <==> v in entries && (u == v ==> !InScope(entries[v], b.tenant)))
              && (v in later ==> later[v] == entries[v].(rank := later[v].rank))
              && (v in later && !InScope(entries[v], b.tenant) ==> later[v] == entries[v])
  {
    SelectedOnFields(b, Some(u), db.referrals);
    if r :| r in db.referrals && r.row.referrer == Some(u) && BelongsTo(b, r) {
      assert r in Select(b, Some(u), db.referrals);
    }
    RefreshedRows(db, b, entries, u, v);
    if v in UpdatedForReferrer(db, b, entries, u) {
      RankedEntry(UpdatedForReferrer(db, b, entries, u), b.tenant, v);
    }
  }

  lemma RefreshedRows(db: Db, b: Board, entries: Entries, u: Ucn, v: Ucn)
    ensures var rows, none := UpdatedForReferrer(db, b, entries, u), Select(b, Some(u), db.referrals) == [];
            && (u == v && !none ==> v in rows && rows[v] == FreshEntry(db, b, u).(rank := rows[v].rank))
            && (u != v || none ==>
                  && (v in rows <==> v in entries && (u == v ==> !InScope(entries[v], b.tenant)))
                  && (v in rows ==> rows[v] == entries[v]))
  {
  }

  // ----- boards and pages -----

  /** A refresh visits the tenant's boards, or all of them where no tenant is given. */
  lemma {:induction false} VisitedBoards(boards: seq<Board>, tenant: Option<Tenant>)
    ensures forall b :: b in Definitions(boards, tenant) <==> b in boards && (tenant == None || b.tenant == tenant)
  {
    if boards != [] {
      assert boards == boards[..|boards| - 1] + [boards[|boards| - 1]];
      VisitedBoards(boards[..|boards| - 1], tenant);
    }
  }

  /** Dropping pages of some tenants drops exactly theirs. */
  lemma DroppedPages(cache: Cache, tenants: set<Option<Tenant>>, key: PageKey)
    ensures key in WithoutTenants(cache, tenants) <==> key in cache && Some(key.tenant) !in tenants
    ensures key in WithoutTenants(cache, tenants) ==> WithoutTenants(cache, tenants)[key] == cache[key]
  {
  }

  /** Any page lists entries of its tenant, ranked ones first and by rank, and by points where ranks are
      the same or missing. */
  lemma PagesOnFields(entries: Entries, key: PageKey, page: seq<Entry>, i: nat, j: nat)
    requires IsPage(entries, key, page) && i < j < |page|
    ensures page[i].tenant == Some(key.tenant) && |page| <= key.limit
    ensures page[j].rank.Some? ==> page[i].rank.Some? && page[i].rank.value <= page[j].rank.value
    ensures page[i].rank == page[j].rank ==> page[i].score.total >= page[j].score.total
  {
    var rows: seq<Ucn> :| PageOrder(entries, key.tenant, rows)
                          && ShowsSlice(entries, Slice(rows, key.limit, key.offset), page);
    var slice := Slice(rows, key.limit, key.offset);
    assert slice[i] == rows[key.offset + i] && slice[j] == rows[key.offset + j];
    assert rows[key.offset + i] in Scope(entries, Some(key.tenant));
    assert !PageBefore(entries[rows[key.offset + j]], entries[rows[key.offset + i]]);
  }

  predicate NumberedFromOne(entries: Entries, rows: seq<Ucn>) {
    forall k | 0 <= k < |rows| :: rows[k] in entries && entries[rows[k]].rank == Some(k + 1)
  }

  lemma RankedRowsAreNumbered(entries: Entries, tenant: Tenant, rows: seq<Ucn>)
    requires RanksInOrder(entries, Some(tenant)) && PageOrder(entries, tenant, rows)
    ensures NumberedFromOne(entries, rows)
  {
    forall k | 0 <= k < |rows| ensures rows[k] in entries && entries[rows[k]].rank == Some(k + 1) {
      RankedRowsAtLeast(entries, tenant, rows, k);
      RankedRowsAtMost(entries, tenant, rows, k);
    }
  }

  lemma RowsAreScope(entries: Entries, tenant: Tenant, rows: seq<Ucn>)
    requires PageOrder(entries, tenant, rows)
    ensures |rows| == |Scope(entries, Some(tenant))|
  {
    DistinctSize(rows);
    assert SetOf(rows) == Scope(entries, Some(tenant));
  }

  lemma SliceSize(rows: seq<Ucn>, limit: nat, offset: nat)
    ensures |Slice(rows, limit, offset)| == Max(0, Min(limit, |rows| - offset))
    ensures forall i | 0 <= i < |Slice(rows, limit, offset)| ::
              offset + i < |rows| && Slice(rows, limit, offset)[i] == rows[offset + i]
  {
  }

  lemma ShownSlice(entries: Entries, rows: seq<Ucn>, limit: nat, offset: nat, page: seq<Entry>)
    requires ShowsSlice(entries, Slice(rows, limit, offset), page)
    ensures |page| == Max(0, Min(limit, |rows| - offset))
    ensures forall i | 0 <= i < |page| :: offset + i < |rows| && ShowsRow(entries, rows, offset + i, page[i])
  {
    SliceSize(rows, limit, offset);
  }

  predicate ShowsRow(entries: Entries, rows: seq<Ucn>, k: nat, e: Entry) {
    k < |rows| && rows[k] in entries && e == entries[rows[k]]
  }

  /** A page cut out of numbered rows. */
  ghost predicate CutFrom(entries: Entries, rows: seq<Ucn>, key: PageKey, page: seq<Entry>) {
    && |page| == Max(0, Min(key.limit, |rows| - key.offset))
    && forall i | 0 <= i < |page| :: ShowsRow(entries, rows, key.offset + i, page[i])
  }

  lemma CutFromNumbered(entries: Entries, rows: seq<Ucn>, key: PageKey, page: seq<Entry>)
    requires NumberedFromOne(entries, rows) && CutFrom(entries, rows, key, page)
    ensures forall i | 0 <= i < |page| :: page[i].rank == Some(key.offset + i + 1)
  {
    forall i | 0 <= i < |page| ensures page[i].rank == Some(key.offset + i + 1) {
      assert ShowsRow(entries, rows, key.offset + i, page[i]);
    }
  }

  lemma PageFromRows(entries: Entries, key: PageKey, page: seq<Entry>) returns (rows: seq<Ucn>)
    requires IsPage(entries, key, page)
    ensures PageOrder(entries, key.tenant, rows) && CutFrom(entries, rows, key, page)
  {
    rows :| PageOrder(entries, key.tenant, rows) && ShowsSlice(entries, Slice(rows, key.limit, key.offset), page);
    ShownSlice(entries, rows, key.limit, key.offset, page);
  }

  /** A page is as long as its limit and the board allow. */
  lemma PageSize(entries: Entries, key: PageKey, page: seq<Entry>)
    requires IsPage(entries, key, page)
    ensures |page| == Max(0, Min(key.limit, |Scope(entries, Some(key.tenant))| - key.offset))
  {
    var rows := PageFromRows(entries, key, page);
    RowsAreScope(entries, key.tenant, rows);
  }

  /** On a ranked board a page shows the ranks after its offset. */
  lemma RankedPageOnFields(entries: Entries, key: PageKey, page: seq<Entry>)
    requires RanksInOrder(entries, Some(key.tenant)) && IsPage(entries, key, page)
    ensures forall i | 0 <= i < |page| :: page[i].rank == Some(key.offset + i + 1)
  {
    var rows := PageFromRows(entries, key, page);
    RankedRowsAreNumbered(entries, key.tenant, rows);
    CutFromNumbered(entries, rows, key, page);
  }
}
