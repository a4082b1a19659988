/** How a referrer's score on a board is computed from referrals, scoring rules and missions. */
module LeaderboardScoring {
  import opened Prelude
  import opened JourneyDefinitions
  import opened JourneyStore

  type BoardCode = nat

  datatype MilestoneCode = CompletionBonus | Milestone(event: Event)

  datatype Rule = Rule(
    journeyCode: Option<JourneyCode>,
    journeyVersion: Option<JourneyVersion>,
    product: Option<Product>,
    subProduct: Option<Product>,
    milestone: Option<MilestoneCode>,
    isBonus: bool,
    value: int)

  datatype Board = Board(
    code: BoardCode,
    tenant: Option<Tenant>,
    product: Option<Product>,
    subProduct: Option<Product>,
    journeyCode: Option<JourneyCode>,
    journeyVersion: Option<JourneyVersion>)

  datatype Referral = Referral(tenant: Tenant, row: Row)

  datatype MissionCode =
    | AccountOpenedCore
    | AccountActivatedCore
    | AccountFundedCore
    | FirstDebitOrderSwitch
    | FirstSalarySwitch
    | FirstTransaction
    | Complete1Referral
    | Complete3Referrals
    | Complete5Referrals
    | OtherMission(id: nat)

  datatype MissionCategory = Core | Boost | MilestoneMission | OtherCategory

  datatype CompletedMission = CompletedMission(
    beneficiary: Ucn,
    code: MissionCode,
    category: MissionCategory,
    product: Option<Product>,
    subProduct: Option<Product>)

  datatype Tier = Platinum | Gold | Silver | Bronze | Newbie

  datatype Score = Score(
    total: int,
    referral: int,
    milestone: int,
    bonus: int,
    referrals: nat,
    completed: nat,
    lastEvent: Option<Time>)

  /** The timestamp columns the board query selects; the UCN timestamp is not among them. */
  const SELECTED: set<Field> :=
    {AccountOpenedAt, AccountActivatedAt, FundedAt, DebitOrderSwitchedAt, SalarySwitchedAt, FirstTransactionCompletedAt}

  predicate Admits<T(==)>(filter: Option<T>, value: Option<T>) {
    filter == None || filter == value
  }

  predicate OnBoard(b: Board, r: Referral) {
    && Admits(b.tenant, Some(r.tenant))
    && Admits(b.product, r.row.product)
    && Admits(b.subProduct, r.row.subProduct)
    && Admits(b.journeyCode, r.row.journeyCode)
    && Admits(b.journeyVersion, r.row.journeyVersion)
  }

  predicate RuleMatches(rule: Rule, row: Row) {
    && Admits(rule.journeyCode, row.journeyCode)
    && Admits(rule.journeyVersion, row.journeyVersion)
    && Admits(rule.product, row.product)
    && Admits(rule.subProduct, row.subProduct)
  }

  /** By a selected timestamp, or by standing at or above it in the core sequence. */
  predicate HeldIn(row: Row, e: Event, d: JourneyDefinition) {
    || (e in d.timestampField && d.timestampField[e] in SELECTED && d.timestampField[e] in row.stamps)
    || (e in d.coreSequence && row.status.Some? && row.status.value in d.coreSequence &&
        IndexOf(d.coreSequence, row.status.value) >= IndexOf(d.coreSequence, e))
  }

  /** A milestone is held by completion, by the status itself, by a selected timestamp, or by lying
      at or below the status in the core sequence. */
  predicate HasMilestone(row: Row, code: Option<MilestoneCode>) {
    match code
    case None => false
    case Some(CompletionBonus) => row.isComplete
    case Some(Milestone(e)) =>
      if row.status == Some(e) then true
      else
        var journey := if row.journeyCode.Some? then row.journeyCode.value else DEFAULT_JOURNEY_CODE;
        var version := if row.journeyVersion.Some? then row.journeyVersion.value else DEFAULT_JOURNEY_VERSION;
        match GetJourneyDefinition(journey, version)
        case None => false
        case Some(d) => HeldIn(row, e, d)
  }

  /** The referrals a board query returns, for one referrer or for all. */
  function Select(b: Board, referrer: Option<Ucn>, all: seq<Referral>): seq<Referral> {
    if all == [] then []
    else
      var rest, last := Select(b, referrer, all[..|all| - 1]), all[|all| - 1];
      if Admits(referrer, last.row.referrer) && OnBoard(b, last) then rest + [last] else rest
  }

  // ----- configured score -----

  function Award(rule: Rule, row: Row, bonus: bool): int {
    if rule.isBonus == bonus && RuleMatches(rule, row) && HasMilestone(row, rule.milestone) then rule.value else 0
  }

  /** Points one referral earns from rules of one kind. */
  function RowPoints(rules: seq<Rule>, row: Row, bonus: bool): int {
    if rules == [] then 0
    else RowPoints(rules[..|rules| - 1], row, bonus) + Award(rules[|rules| - 1], row, bonus)
  }

  /** Points a list of referrals earns from rules of one kind. */
  function RulePoints(rules: seq<Rule>, referrals: seq<Referral>, bonus: bool): int {
    if referrals == [] then 0
    else
      RulePoints(rules, referrals[..|referrals| - 1], bonus)
      + RowPoints(rules, referrals[|referrals| - 1].row, bonus)
  }

  method CalculateConfiguredScore(rules: seq<Rule>, referrals: seq<Referral>)
    returns (total: int, milestoneScore: int, bonusScore: int)
    ensures milestoneScore == RulePoints(rules, referrals, false)
    ensures bonusScore == RulePoints(rules, referrals, true)
    ensures total == milestoneScore + bonusScore
  {
    milestoneScore, bonusScore := 0, 0;
    for i := 0 to |referrals|
      invariant milestoneScore == RulePoints(rules, referrals[..i], false)
      invariant bonusScore == RulePoints(rules, referrals[..i], true)
    {
      var row := referrals[i].row;
      var m0, b0 := milestoneScore, bonusScore;
      for k := 0 to |rules|
        invariant milestoneScore == m0 + RowPoints(rules[..k], row, false)
        invariant bonusScore == b0 + RowPoints(rules[..k], row, true)
      {
        assert rules[..k + 1][..k] == rules[..k];
        if RuleMatches(rules[k], row) && HasMilestone(row, rules[k].milestone) {
          if rules[k].isBonus {
            bonusScore := bonusScore + rules[k].value;
          } else {
            milestoneScore := milestoneScore + rules[k].value;
          }
        }
      }
      assert rules[..|rules|] == rules;
      assert referrals[..i + 1][..i] == referrals[..i];
    }
    assert referrals[..|referrals|] == referrals;
    total := milestoneScore + bonusScore;
  }

  // ----- mission score -----

  function MissionPoints(code: MissionCode): nat {
    match code
    case AccountOpenedCore => 20
    case AccountActivatedCore => 30
    case AccountFundedCore => 50
    case FirstDebitOrderSwitch => 20
    case FirstSalarySwitch => 25
    case FirstTransaction => 15
    case Complete1Referral => 25
    case Complete3Referrals => 75
    case Complete5Referrals => 150
    case OtherMission(_) => 0
  }

  /** Points of the missions whose category is among `categories`. */
  function CategoryPoints(missions: seq<CompletedMission>, categories: set<MissionCategory>): int {
    if missions == [] then 0
    else
      var last := missions[|missions| - 1];
      CategoryPoints(missions[..|missions| - 1], categories)
      + if last.category in categories then MissionPoints(last.code) else 0
  }

  const ALL_CATEGORIES: set<MissionCategory> := {Core, Boost, MilestoneMission, OtherCategory}

  method CalculateMissionScore(missions: seq<CompletedMission>)
    returns (total: int, referralScore: int, milestoneScore: int, bonusScore: int)
    ensures total == CategoryPoints(missions, ALL_CATEGORIES)
    ensures referralScore == CategoryPoints(missions, {Core})
    ensures milestoneScore == CategoryPoints(missions, {MilestoneMission})
    ensures bonusScore == CategoryPoints(missions, {Boost, MilestoneMission})
  {
    total, referralScore, milestoneScore, bonusScore := 0, 0, 0, 0;
    for i := 0 to |missions|
      invariant total == CategoryPoints(missions[..i], ALL_CATEGORIES)
      invariant referralScore == CategoryPoints(missions[..i], {Core})
      invariant milestoneScore == CategoryPoints(missions[..i], {MilestoneMission})
      invariant bonusScore == CategoryPoints(missions[..i], {Boost, MilestoneMission})
    {
      assert missions[..i + 1][..i] == missions[..i];
      var points := MissionPoints(missions[i].code);
      total := total + points;
      match missions[i].category
      case Core => referralScore := referralScore + points;
      case Boost => bonusScore := bonusScore + points;
      case MilestoneMission =>
        milestoneScore := milestoneScore + points;
        bonusScore := bonusScore + points;
      case OtherCategory =>
    }
    assert missions[..|missions|] == missions;
  }

  // ----- whole score -----

  function CompletedCount(referrals: seq<Referral>): nat {
    if referrals == [] then 0
    else CompletedCount(referrals[..|referrals| - 1]) + if referrals[|referrals| - 1].row.isComplete then 1 else 0
  }

  function Later(a: Option<Time>, b: Option<Time>): Option<Time> {
    if b.Some? && (a == None || b.value > a.value) then b else a
  }

  function LatestUpdate(referrals: seq<Referral>): Option<Time> {
    if referrals == [] then None
    else Later(LatestUpdate(referrals[..|referrals| - 1]), referrals[|referrals| - 1].row.updatedAt)
  }

  function ScoreOf(rules: seq<Rule>, referrals: seq<Referral>, missions: seq<CompletedMission>): Score {
    var milestone, bonus := RulePoints(rules, referrals, false), RulePoints(rules, referrals, true);
    Score(CategoryPoints(missions, ALL_CATEGORIES) + milestone + bonus,
          CategoryPoints(missions, {Core}),
          CategoryPoints(missions, {MilestoneMission}) + milestone,
          CategoryPoints(missions, {Boost, MilestoneMission}) + bonus,
          |referrals|, CompletedCount(referrals), LatestUpdate(referrals))
  }

  method CalculateReferrerScore(rules: seq<Rule>, referrals: seq<Referral>, missions: seq<CompletedMission>)
    returns (score: Score)
    ensures score == ScoreOf(rules, referrals, missions)
  {
    var missionTotal, missionReferral, missionMilestone, missionBonus := CalculateMissionScore(missions);
    var configuredTotal, configuredMilestone, configuredBonus := CalculateConfiguredScore(rules, referrals);
    var completed: nat, last: Option<Time> := 0, None;
    for i := 0 to |referrals|
      invariant completed == CompletedCount(referrals[..i])
      invariant last == LatestUpdate(referrals[..i])
    {
      assert referrals[..i + 1][..i] == referrals[..i];
      var row := referrals[i].row;
      if row.isComplete { completed := completed + 1; }
      if row.updatedAt.Some? && (last == None || row.updatedAt.value > last.value) { last := row.updatedAt; }
    }
    assert referrals[..|referrals|] == referrals;
    score := Score(missionTotal + configuredTotal, missionReferral, missionMilestone + configuredMilestone,
                   missionBonus + configuredBonus, |referrals|, completed, last);
  }

  function RankTier(total: int): Tier {
    if total >= 200 then Platinum
    else if total >= 100 then Gold
    else if total >= 50 then Silver
    else if total > 0 then Bronze
    else Newbie
  }
}
