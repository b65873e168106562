/** Totals and categories of a list of scores (internal/leaderboard/score_calculator.go, lines 200 to 238). */
module Totals {
  import opened U256
  import opened Sequences
  import opened Events
  import opened Boosts
  import opened Calculators
  import opened Bonuses

  function PointsOf(): Score -> nat {
    (s: Score) => s.points
  }

  /** The sum of all points, on unbounded integers. */
  function ExactTotal(scores: seq<Score>): nat {
    SumBy(PointsOf(), scores)
  }

  /** The total shown to users: the wrapped sum, scaled back by 10^6. */
  function TotalScore(scores: seq<Score>): u256 {
    Div(Wrap(ExactTotal(scores)), MILLION)
  }

  datatype CategorisedScore = CategorisedScore(fund: u256, farming: u256, other: u256)

  predicate IsFundRule(rule: RuleName) {
    rule == AmountFunded || rule == NumberOfProjects || rule == EarlyAdopter
  }

  function InFund(): Score -> bool {
    (s: Score) => IsFundRule(s.rule)
  }

  function InFarming(): Score -> bool {
    (s: Score) => !IsFundRule(s.rule)
  }

  function Categories(scores: seq<Score>): CategorisedScore {
    CategorisedScore(TotalScore(Filter(InFund(), scores)), TotalScore(Filter(InFarming(), scores)), 0)
  }

  // ----- The loops of the source

  ghost function PointList(scores: seq<Score>): seq<u256> {
    seq(|scores|, i requires 0 <= i < |scores| => scores[i].points)
  }

  lemma {:induction false} PointListSum(scores: seq<Score>)
    ensures SumBy(Identity(), PointList(scores)) == ExactTotal(scores)
  {
    if scores != [] {
      var n := |scores| - 1;
      assert PointList(scores)[..n] == PointList(scores[..n]);
      PointListSum(scores[..n]);
    }
  }

  /** The nested chain of additions evaluates to the plain wrapped sum. */
  method ComputeTotalScore(scores: seq<Score>) returns (total: u256)
    ensures total == TotalScore(scores)
  {
    ghost var xs := PointList(scores);
    var chain := new Calculator.NewBase();
    assert xs[..0] == [];
    for i := 0 to |scores|
      invariant chain.Valid() && fresh(chain.Repr) && chain.Height == i
      invariant chain.Points() == WrappedSum(xs[..i])
    {
      chain := Calculator.Extend(chain, xs, i, scores[i].points);
    }
    assert xs[..|scores|] == xs;
    PointListSum(scores);
    var sum := chain.GetPoints();
    total := Div(sum, MILLION);
  }

  const FUND := "fund"
  const FARMING := "farming"
  const OTHER := "other"

  const CATEGORY_OF: map<RuleName, string> := map[
    AmountFunded := FUND, NumberOfProjects := FUND, EarlyAdopter := FUND,
    Offseter := FARMING, Resaler := FARMING]

  lemma CategoryKnown(rule: RuleName)
    ensures rule in CATEGORY_OF && CATEGORY_OF[rule] == if IsFundRule(rule) then FUND else FARMING
  {
  }

  lemma CategoryNamesDiffer()
    ensures FUND != FARMING && FUND != OTHER && FARMING != OTHER
  {
    assert |FUND| == 4 && |FARMING| == 7 && |OTHER| == 5;
  }

  /** The map after one more score: only its own category grows. */
  function Categorise(categorised: map<string, seq<Score>>, s: Score): map<string, seq<Score>> {
    var category := if s.rule in CATEGORY_OF then CATEGORY_OF[s.rule] else "";
    categorised[category := (if category in categorised then categorised[category] else []) + [s]]
  }

  ghost predicate Sorted(categorised: map<string, seq<Score>>, scores: seq<Score>) {
    && categorised.Keys == {FUND, FARMING, OTHER}
    && categorised[FUND] == Filter(InFund(), scores)
    && categorised[FARMING] == Filter(InFarming(), scores)
    && categorised[OTHER] == []
  }

  lemma CategoriseSorted(categorised: map<string, seq<Score>>, scores: seq<Score>, s: Score)
    requires Sorted(categorised, scores)
    ensures Sorted(Categorise(categorised, s), scores + [s])
  {
    CategoryKnown(s.rule);
    CategoryNamesDiffer();
    FilterSnoc(InFund(), scores, s);
    FilterSnoc(InFarming(), scores, s);
  }

  // ----- Totals by rule

  function HasRule(rule: RuleName): Score -> bool {
    (s: Score) => s.rule == rule
  }

  /** The points of all scores of one rule, on unbounded integers. */
  function RuleTotal(rule: RuleName, scores: seq<Score>): nat {
    ExactTotal(Filter(HasRule(rule), scores))
  }

  /** One more score adds its points to the total of its rule alone. */
  lemma RuleTotalSnoc(rule: RuleName, scores: seq<Score>, s: Score)
    ensures RuleTotal(rule, scores + [s]) == RuleTotal(rule, scores) + if s.rule == rule then s.points else 0
  {
    assert (scores + [s])[..|scores|] == scores;
    FilteredTotal(HasRule(rule), scores + [s]);
  }

  lemma {:induction false} CategoriesByRule(scores: seq<Score>)
    ensures ExactTotal(Filter(InFund(), scores)) ==
            RuleTotal(AmountFunded, scores) + RuleTotal(NumberOfProjects, scores) + RuleTotal(EarlyAdopter, scores)
    ensures ExactTotal(Filter(InFarming(), scores)) == RuleTotal(Resaler, scores) + RuleTotal(Offseter, scores)
  {
    if scores != [] {
      var front, last := scores[..|scores| - 1], scores[|scores| - 1];
      CategoriesByRule(front);
      assert scores == front + [last];
      FilteredTotal(InFund(), scores);
      FilteredTotal(InFarming(), scores);
      RuleTotalSnoc(AmountFunded, front, last);
      RuleTotalSnoc(NumberOfProjects, front, last);
      RuleTotalSnoc(EarlyAdopter, front, last);
      RuleTotalSnoc(Resaler, front, last);
      RuleTotalSnoc(Offseter, front, last);
    }
  }

  lemma {:induction false} RuleAbsent(rule: RuleName, scores: seq<Score>)
    requires forall s <- scores :: s.rule != rule
    ensures RuleTotal(rule, scores) == 0
  {
    if scores != [] {
      RuleAbsent(rule, scores[..|scores| - 1]);
    }
  }

  lemma CategoriesAreRules(scores: seq<Score>)
    ensures var c := Categories(scores);
            && c.fund == (RuleTotal(AmountFunded, scores) + RuleTotal(NumberOfProjects, scores) +
                          RuleTotal(EarlyAdopter, scores)) % TWO_256 / 1_000_000
            && c.farming == (RuleTotal(Resaler, scores) + RuleTotal(Offseter, scores)) % TWO_256 / 1_000_000
  {
    CategoriesByRule(scores);
  }

  lemma OneSided(scores: seq<Score>)
    ensures (forall s <- scores :: s.rule == AmountFunded || s.rule == NumberOfProjects || s.rule == EarlyAdopter) ==>
              RuleTotal(Resaler, scores) == RuleTotal(Offseter, scores) == 0
    ensures (forall s <- scores :: s.rule == Resaler || s.rule == Offseter) ==>
              RuleTotal(AmountFunded, scores) == RuleTotal(NumberOfProjects, scores) == RuleTotal(EarlyAdopter, scores) == 0
  {
    if forall s <- scores :: s.rule == AmountFunded || s.rule == NumberOfProjects || s.rule == EarlyAdopter {
      RuleAbsent(Resaler, scores);
      RuleAbsent(Offseter, scores);
    }
    if forall s <- scores :: s.rule == Resaler || s.rule == Offseter {
      RuleAbsent(AmountFunded, scores);
      RuleAbsent(NumberOfProjects, scores);
      RuleAbsent(EarlyAdopter, scores);
    }
  }

  /**
   * Funded amounts and both bonuses count as funding, resales and offsets as farming; scores of one side
   * leave the other at zero.
   */
  method AggregateCategories(scores: seq<Score>) returns (c: CategorisedScore)
    ensures c == Categories(scores)
    ensures c.fund == (RuleTotal(AmountFunded, scores) + RuleTotal(NumberOfProjects, scores) +
                       RuleTotal(EarlyAdopter, scores)) % TWO_256 / 1_000_000
    ensures c.farming == (RuleTotal(Resaler, scores) + RuleTotal(Offseter, scores)) % TWO_256 / 1_000_000
    ensures c.other == 0
    ensures (forall s <- scores :: s.rule == AmountFunded || s.rule == NumberOfProjects || s.rule == EarlyAdopter) ==> c.farming == 0
    ensures (forall s <- scores :: s.rule == Resaler || s.rule == Offseter) ==> c.fund == 0
  {
    var categorised := SortByCategory(scores);
    assert TotalScore([]) == 0;
    var fund := ComputeTotalScore(categorised[FUND]);
    var farming := ComputeTotalScore(categorised[FARMING]);
    var other := ComputeTotalScore(categorised[OTHER]);
    c := CategorisedScore(fund, farming, other);
    CategoriesAreRules(scores);
    OneSided(scores);
  }

  method SortByCategory(scores: seq<Score>) returns (categorised: map<string, seq<Score>>)
    ensures Sorted(categorised, scores)
  {
    CategoryNamesDiffer();
    categorised := map[FUND := [], FARMING := [], OTHER := []];
    for i := 0 to |scores|
      invariant Sorted(categorised, scores[..i])
    {
      CategoriseSorted(categorised, scores[..i], scores[i]);
      assert scores[..i + 1] == scores[..i] + [scores[i]];
      categorised := Categorise(categorised, scores[i]);
    }
    assert scores[..|scores|] == scores;
  }

  // ----- Conservation

  lemma {:induction false} CategoriesPartition(scores: seq<Score>)
    ensures ExactTotal(Filter(InFund(), scores)) + ExactTotal(Filter(InFarming(), scores)) == ExactTotal(scores)
  {
    if scores != [] {
      var n := |scores| - 1;
      CategoriesPartition(scores[..n]);
      var rest := if IsFundRule(scores[n].rule) then Filter(InFund(), scores[..n]) else Filter(InFarming(), scores[..n]);
      assert (rest + [scores[n]])[..|rest|] == rest;
    }
  }

  /** Without overflow the categories add up to the total, up to one point lost by rounding twice. */
  lemma CategoriesConserveTotal(scores: seq<Score>)
    requires ExactTotal(scores) < TWO_256
    ensures var c := Categories(scores);
            c.other == 0 && c.fund + c.farming <= TotalScore(scores) <= c.fund + c.farming + 1
  {
    CategoriesPartition(scores);
    RoundingTwice(ExactTotal(Filter(InFund(), scores)), ExactTotal(Filter(InFarming(), scores)));
  }

  lemma RoundingTwice(a: nat, b: nat)
    requires a + b < TWO_256
    ensures Div(Wrap(a), MILLION) + Div(Wrap(b), MILLION) <= Div(Wrap(a + b), MILLION)
    ensures Div(Wrap(a + b), MILLION) <= Div(Wrap(a), MILLION) + Div(Wrap(b), MILLION) + 1
  {
    assert Wrap(a) == a && Wrap(b) == b && Wrap(a + b) == a + b;
  }

  // ----- Totals read off the view of a log

  function FundSum(v: View): nat {
    v.funded + v.projectPoints + v.earlyPoints
  }

  function FarmingSum(v: View): nat {
    v.resold + v.offset
  }

  lemma ExtendSums(v: View, s: Score)
    ensures FundSum(Extend(v, s)) == FundSum(v) + if IsFundRule(s.rule) then s.points else 0
    ensures FarmingSum(Extend(v, s)) == FarmingSum(v) + if IsFundRule(s.rule) then 0 else s.points
  {
  }

  lemma FilteredTotal(p: Score -> bool, scores: seq<Score>)
    requires scores != []
    ensures ExactTotal(Filter(p, scores)) ==
            ExactTotal(Filter(p, scores[..|scores| - 1])) +
            if p(scores[|scores| - 1]) then scores[|scores| - 1].points else 0
  {
    var rest := Filter(p, scores[..|scores| - 1]);
    assert (rest + [scores[|scores| - 1]])[..|rest|] == rest;
  }

  lemma {:induction false} ViewFundSum(scores: seq<Score>)
    ensures ExactTotal(Filter(InFund(), scores)) == FundSum(ViewOf(scores))
  {
    if scores != [] {
      var n := |scores| - 1;
      ViewFundSum(scores[..n]);
      FilteredTotal(InFund(), scores);
      ExtendSums(ViewOf(scores[..n]), scores[n]);
    }
  }

  lemma {:induction false} ViewFarmingSum(scores: seq<Score>)
    ensures ExactTotal(Filter(InFarming(), scores)) == FarmingSum(ViewOf(scores))
  {
    if scores != [] {
      var n := |scores| - 1;
      ViewFarmingSum(scores[..n]);
      FilteredTotal(InFarming(), scores);
      ExtendSums(ViewOf(scores[..n]), scores[n]);
    }
  }

  /** Equal sums by category give equal totals and categories. */
  lemma TotalsFromView(a: seq<Score>, b: seq<Score>)
    requires FundSum(ViewOf(a)) == FundSum(ViewOf(b))
    requires FarmingSum(ViewOf(a)) == FarmingSum(ViewOf(b))
    ensures TotalScore(a) == TotalScore(b) && Categories(a) == Categories(b)
  {
    ViewFundSum(a);
    ViewFundSum(b);
    ViewFarmingSum(a);
    ViewFarmingSum(b);
    TotalsFromSums(a, b);
  }

  lemma TotalsFromSums(a: seq<Score>, b: seq<Score>)
    requires ExactTotal(Filter(InFund(), a)) == ExactTotal(Filter(InFund(), b))
    requires ExactTotal(Filter(InFarming(), a)) == ExactTotal(Filter(InFarming(), b))
    ensures TotalScore(a) == TotalScore(b) && Categories(a) == Categories(b)
  {
    CategoriesPartition(a);
    CategoriesPartition(b);
    SameTotal(a, b);
    SameTotal(Filter(InFund(), a), Filter(InFund(), b));
    SameTotal(Filter(InFarming(), a), Filter(InFarming(), b));
  }

  lemma SameTotal(a: seq<Score>, b: seq<Score>)
    requires ExactTotal(a) == ExactTotal(b)
    ensures TotalScore(a) == TotalScore(b)
  {
  }

  // ----- Bonus points of a whole log

  /** The points of a bonus rule, as the view keeps them. */
  function BonusPoints(v: View, rule: RuleName): nat {
    if rule == EarlyAdopter then v.earlyPoints else v.projectPoints
  }

  lemma ExtendBonusPoints(v: View, s: Score, rule: RuleName)
    requires IsBonus(rule)
    ensures BonusPoints(Extend(v, s), rule) == BonusPoints(v, rule) + if s.rule == rule then s.points else 0
  {
  }

  lemma {:induction false} ViewBonusTotal(scores: seq<Score>, rule: RuleName)
    requires IsBonus(rule)
    ensures RuleTotal(rule, scores) == BonusPoints(ViewOf(scores), rule)
  {
    if scores != [] {
      var n := |scores| - 1;
      ViewBonusTotal(scores[..n], rule);
      FilteredTotal(HasRule(rule), scores);
      ExtendBonusPoints(ViewOf(scores[..n]), scores[n], rule);
    }
  }

  /**
   * However long the log, the early-adopter scores sum to at most 450 and the project scores to 200
   * for each of them (scaled by 10^6).
   */
  lemma BonusPointsCapped(env: Env, log: seq<DomainEvent>)
    requires AllReadable(env, log)
    ensures var scores := ScoreLogValue(env, log);
            && RuleTotal(EarlyAdopter, scores) <= 450_000_000
            && RuleTotal(NumberOfProjects, scores) == 200_000_000 * |Filter(HasRule(NumberOfProjects), scores)|
  {
    var scores := ScoreLogValue(env, log);
    LogScores(env, log);
    LogCounted(env, log);
    ViewBonusTotal(scores, EarlyAdopter);
    forall s | s in Filter(HasRule(NumberOfProjects), scores)
      ensures s.points == 200_000_000
    {
      FilterMember(HasRule(NumberOfProjects), scores, s);
    }
    EqualPoints(Filter(HasRule(NumberOfProjects), scores), 200_000_000);
  }

  lemma {:induction false} EqualPoints(scores: seq<Score>, points: nat)
    requires forall s <- scores :: s.points == points
    ensures ExactTotal(scores) == points * |scores|
  {
    if scores != [] {
      EqualPoints(scores[..|scores| - 1], points);
    }
  }
}
