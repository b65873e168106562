/** What a whole log earns under the full manager, in closed form. */
module Bonuses {
  import opened Wrappers
  import opened U256
  import opened Events
  import opened Boosts
  import opened BoostLaws
  import opened Scoring

  // ----- What one event contributes, whatever came before

  /** A funding event whose value cannot be parsed ends the process. */
  predicate Readable(env: Env, e: DomainEvent) {
    e.IsFunding() ==> env.parse(Lookup(e.data, "value")).Some?
  }

  function FundingScore(env: Env, e: DomainEvent): Score
    requires e.IsFunding() && Readable(env, e)
  {
    Boosted(env, FULL_BOOSTERS, e, Score(env.parse(Lookup(e.data, "value")).value, AmountFunded, [], e))
  }

  function ClaimScore(env: Env, e: DomainEvent): Option<Score> {
    match env.parse(Lookup(e.data, "amount"))
    case None => None
    case Some(p) =>
      if e.eventName == "yielder:claim" then Some(Score(p, Resaler, [], e))
      else if e.eventName == "offseter:claim" then Some(Score(Mul(p, 100), Offseter, [], e))
      else None
  }

  /** The event leaves a score by itself. */
  predicate ScoresAlone(env: Env, e: DomainEvent) {
    e.IsFunding() || ClaimScore(env, e).Some?
  }

  function ProjectScore(e: DomainEvent): Score {
    Score(PROJECT_POINTS, NumberOfProjects, [], e)
  }

  function EarlyScore(e: DomainEvent): Score {
    Score(EarlyPoints(e), EarlyAdopter, [], e)
  }

  // ----- All that later builders can see of the scores so far

  /**
   * `named`/`nameless`: some score has (lacks) a project name; `projects`/`early`: the names that
   * hold the project and the early-adopter bonus; the other fields: exact point sums by rule.
   */
  datatype View = View(
    named: bool, nameless: bool,
    projects: set<string>, early: set<string>,
    funded: nat, resold: nat, offset: nat, projectPoints: nat, earlyPoints: nat)

  const EMPTY_VIEW := View(false, false, {}, {}, 0, 0, 0, 0, 0)

  function Extend(v: View, s: Score): View {
    var name := s.event.ProjectName();
    var names := if name.Some? then {name.value} else {};
    var v' := v.(named := v.named || name.Some?, nameless := v.nameless || name.None?);
    match s.rule
    case AmountFunded => v'.(funded := v.funded + s.points)
    case Resaler => v'.(resold := v.resold + s.points)
    case Offseter => v'.(offset := v.offset + s.points)
    case NumberOfProjects => v'.(projectPoints := v.projectPoints + s.points, projects := v.projects + names)
    case EarlyAdopter => v'.(earlyPoints := v.earlyPoints + s.points, early := v.early + names)
  }

  function ViewOf(scores: seq<Score>): View {
    if scores == [] then EMPTY_VIEW
    else Extend(ViewOf(scores[..|scores| - 1]), scores[|scores| - 1])
  }

  lemma ViewOfAppend(scores: seq<Score>, s: Score)
    ensures ViewOf(scores + [s]) == Extend(ViewOf(scores), s)
  {
    assert (scores + [s])[..|scores|] == scores;
  }

  lemma {:induction false} ViewSeesNamed(scores: seq<Score>)
    ensures ViewOf(scores).named <==> exists s <- scores :: s.event.ProjectName().Some?
  {
    if scores != [] {
      var n := |scores| - 1;
      ViewSeesNamed(scores[..n]);
      assert scores == scores[..n] + [scores[n]];
    }
  }

  lemma {:induction false} ViewSeesNameless(scores: seq<Score>)
    ensures ViewOf(scores).nameless <==> exists s <- scores :: s.event.ProjectName().None?
  {
    if scores != [] {
      var n := |scores| - 1;
      ViewSeesNameless(scores[..n]);
      assert scores == scores[..n] + [scores[n]];
    }
  }

  lemma ViewSeesNames(scores: seq<Score>)
    ensures ViewOf(scores).named <==> exists s <- scores :: s.event.ProjectName().Some?
    ensures ViewOf(scores).nameless <==> exists s <- scores :: s.event.ProjectName().None?
  {
    ViewSeesNamed(scores);
    ViewSeesNameless(scores);
  }

  predicate IsBonus(rule: RuleName) {
    rule == NumberOfProjects || rule == EarlyAdopter
  }

  /** The names that hold the bonus of a rule, as the view keeps them. */
  function Holders(v: View, rule: RuleName): set<string> {
    if rule == NumberOfProjects then v.projects else if rule == EarlyAdopter then v.early else {}
  }

  lemma ExtendHolders(v: View, s: Score, rule: RuleName, p: string)
    requires IsBonus(rule)
    ensures p in Holders(Extend(v, s), rule) <==>
            p in Holders(v, rule) || (s.event.ProjectName() == Some(p) && s.rule == rule)
  {
  }

  lemma {:induction false} ViewSeesRule(scores: seq<Score>, rule: RuleName, p: string)
    requires IsBonus(rule)
    ensures p in Holders(ViewOf(scores), rule) <==> RuleApplied(rule, p, scores)
  {
    if scores != [] {
      var n := |scores| - 1;
      ViewSeesRule(scores[..n], rule, p);
      ExtendHolders(ViewOf(scores[..n]), scores[n], rule, p);
      AppliedAppend(rule, p, scores[..n], scores[n]);
      assert scores == scores[..n] + [scores[n]];
    }
  }

  lemma ViewSeesHolders(scores: seq<Score>, p: string)
    ensures p in ViewOf(scores).projects <==> RuleApplied(NumberOfProjects, p, scores)
    ensures p in ViewOf(scores).early <==> RuleApplied(EarlyAdopter, p, scores)
  {
    ViewSeesRule(scores, NumberOfProjects, p);
    ViewSeesRule(scores, EarlyAdopter, p);
  }

  lemma AppliedAppend(rule: RuleName, p: string, scores: seq<Score>, s: Score)
    ensures RuleApplied(rule, p, scores + [s]) <==>
            RuleApplied(rule, p, scores) || (s.event.ProjectName() == Some(p) && s.rule == rule)
  {
    if RuleApplied(rule, p, scores) {
      var t :| t in scores && t.event.ProjectName() == Some(p) && t.rule == rule;
      assert t in scores + [s];
    }
    assert s in scores + [s];
  }

  // ----- One event under the full manager

  /** The event earns the project bonus: some score, maybe its own, has a project name already. */
  predicate EarnsProject(v: View, e: DomainEvent) {
    e.ProjectName().Some? && e.ProjectName().value !in v.projects && v.named
  }

  predicate EarnsEarly(v: View, e: DomainEvent) {
    Listed(e) && !v.nameless && e.ProjectName().value !in v.early
  }

  function AfterFunding(env: Env, v: View, e: DomainEvent): View
    requires Readable(env, e)
  {
    if e.IsFunding() then Extend(v, FundingScore(env, e)) else v
  }

  function AfterProject(v: View, e: DomainEvent): View {
    if EarnsProject(v, e) then Extend(v, ProjectScore(e)) else v
  }

  function AfterClaim(env: Env, v: View, e: DomainEvent): View {
    if ClaimScore(env, e).Some? then Extend(v, ClaimScore(env, e).value) else v
  }

  function AfterEarly(v: View, e: DomainEvent): View {
    if EarnsEarly(v, e) then Extend(v, EarlyScore(e)) else v
  }

  function StepView(env: Env, v: View, e: DomainEvent): View
    requires Readable(env, e)
  {
    AfterEarly(AfterClaim(env, AfterProject(AfterFunding(env, v, e), e), e), e)
  }

  function AppendBuilt(scores: seq<Score>, b: Built): seq<Score> {
    if b.Added? then scores + [b.score] else scores
  }

  lemma RunOne(env: Env, m: Manager, builders: seq<Builder>, e: DomainEvent, scores: seq<Score>)
    requires builders != []
    ensures var p := Produce(env, m, builders[0], e, scores);
            RunBuilders(env, m, builders, e, scores) ==
            if p.Fatal? then None else RunBuilders(env, m, builders[1..], e, AppendBuilt(scores, p))
  {
  }

  lemma FundingBuilds(env: Env, e: DomainEvent, scores: seq<Score>)
    ensures Produce(env, FULL_MANAGER, AmountFundedBuilder, e, scores) ==
            if !e.IsFunding() then Nothing
            else if Readable(env, e) then Added(FundingScore(env, e))
            else Fatal
  {
  }

  /** The fallback for a buy without earlier scores is never reached: its own funding score comes first. */
  lemma ProjectBuilds(env: Env, e: DomainEvent, scores: seq<Score>)
    requires e.IsFunding() ==> exists s <- scores :: s.event == e
    ensures Produce(env, FULL_MANAGER, NumberOfProjectsBuilder, e, scores) ==
            if EarnsProject(ViewOf(scores), e) then Added(ProjectScore(e)) else Nothing
  {
    ViewSeesNames(scores);
    if e.ProjectName().Some? {
      ViewSeesHolders(scores, e.ProjectName().value);
      if !RuleApplied(NumberOfProjects, e.ProjectName().value, scores) {
        assert forall s <- scores :: s.event.ProjectName().Some? ==> Unlocks(s, e);
        assert EarnsProject(ViewOf(scores), e) <==> exists s <- scores :: Unlocks(s, e);
      }
    }
    OnlyFundingIsBoosted(env, FULL_BOOSTERS, e, ProjectScore(e));
  }

  lemma ResalerBuilds(env: Env, e: DomainEvent, scores: seq<Score>)
    ensures Produce(env, FULL_MANAGER, ResalerBuilder, e, scores) ==
            if e.eventName == "yielder:claim" && ClaimScore(env, e).Some? then Added(ClaimScore(env, e).value) else Nothing
  {
    if Compute(env, ResalerBuilder, e, scores).Added? {
      OnlyFundingIsBoosted(env, FULL_BOOSTERS, e, Compute(env, ResalerBuilder, e, scores).score);
    }
  }

  lemma OffseterBuilds(env: Env, e: DomainEvent, scores: seq<Score>)
    ensures Produce(env, FULL_MANAGER, OffseterBuilder, e, scores) ==
            if e.eventName == "offseter:claim" && ClaimScore(env, e).Some? then Added(ClaimScore(env, e).value) else Nothing
  {
    if Compute(env, OffseterBuilder, e, scores).Added? {
      OnlyFundingIsBoosted(env, FULL_BOOSTERS, e, Compute(env, OffseterBuilder, e, scores).score);
    }
  }

  lemma EarlyBuilds(env: Env, e: DomainEvent, scores: seq<Score>)
    ensures Produce(env, FULL_MANAGER, EarlyAdopterBuilder, e, scores) ==
            if EarnsEarly(ViewOf(scores), e) then Added(EarlyScore(e)) else Nothing
  {
    ViewSeesNames(scores);
    if Listed(e) {
      ViewSeesHolders(scores, e.ProjectName().value);
      BlockedMeans(e, scores);
    }
    OnlyFundingIsBoosted(env, FULL_BOOSTERS, e, EarlyScore(e));
  }

  lemma BlockedMeans(e: DomainEvent, scores: seq<Score>)
    requires e.ProjectName().Some?
    ensures (exists s <- scores :: Blocks(s, e)) <==>
            (exists s <- scores :: s.event.ProjectName().None?) || RuleApplied(EarlyAdopter, e.ProjectName().value, scores)
  {
    if s :| s in scores && s.event.ProjectName().None? {
      assert Blocks(s, e);
    }
    if RuleApplied(EarlyAdopter, e.ProjectName().value, scores) {
      var s :| s in scores && s.event.ProjectName() == Some(e.ProjectName().value) && s.rule == EarlyAdopter;
      assert Blocks(s, e);
    }
  }

  // ----- The five builders in a row

  function AddFunding(env: Env, scores: seq<Score>, e: DomainEvent): seq<Score>
    requires Readable(env, e)
  {
    if e.IsFunding() then scores + [FundingScore(env, e)] else scores
  }

  function AddProject(scores: seq<Score>, e: DomainEvent): seq<Score> {
    if EarnsProject(ViewOf(scores), e) then scores + [ProjectScore(e)] else scores
  }

  function AddClaim(env: Env, scores: seq<Score>, e: DomainEvent): seq<Score> {
    if ClaimScore(env, e).Some? then scores + [ClaimScore(env, e).value] else scores
  }

  function AddEarly(scores: seq<Score>, e: DomainEvent): seq<Score> {
    if EarnsEarly(ViewOf(scores), e) then scores + [EarlyScore(e)] else scores
  }

  function FullStep(env: Env, scores: seq<Score>, e: DomainEvent): seq<Score>
    requires Readable(env, e)
  {
    AddEarly(AddClaim(env, AddProject(AddFunding(env, scores, e), e), e), e)
  }

  lemma FundingIsNoted(env: Env, scores: seq<Score>, e: DomainEvent)
    requires Readable(env, e) && e.IsFunding()
    ensures FundingScore(env, e).event == e && FundingScore(env, e).rule == AmountFunded
    ensures exists s <- AddFunding(env, scores, e) :: s.event == e
  {
    OnlyFundingIsBoosted(env, FULL_BOOSTERS, e, Score(env.parse(Lookup(e.data, "value")).value, AmountFunded, [], e));
    assert FundingScore(env, e) in AddFunding(env, scores, e);
  }

  /** The manager's loop over the five builders is `FullStep`, or a fatal exit. */
  lemma EventIsFullStep(env: Env, e: DomainEvent, scores: seq<Score>)
    ensures ScoreEvent(env, FULL_MANAGER, e, scores) ==
            if Readable(env, e) then Some(FullStep(env, scores, e)) else None
  {
    FundingBuilds(env, e, scores);
    RunOne(env, FULL_MANAGER, FULL_BUILDERS, e, scores);
    if Readable(env, e) {
      var s1 := AddFunding(env, scores, e);
      if e.IsFunding() {
        FundingIsNoted(env, scores, e);
      }
      var rest := [NumberOfProjectsBuilder, ResalerBuilder, OffseterBuilder, EarlyAdopterBuilder];
      assert FULL_BUILDERS[1..] == rest;
      ProjectBuilds(env, e, s1);
      RunOne(env, FULL_MANAGER, rest, e, s1);
      assert rest[1..] == [ResalerBuilder, OffseterBuilder, EarlyAdopterBuilder];
      ClaimsAndEarly(env, e, AddProject(s1, e));
    }
  }

  lemma ClaimsAndEarly(env: Env, e: DomainEvent, scores: seq<Score>)
    ensures RunBuilders(env, FULL_MANAGER, [ResalerBuilder, OffseterBuilder, EarlyAdopterBuilder], e, scores) ==
            Some(AddEarly(AddClaim(env, scores, e), e))
  {
    var m := FULL_MANAGER;
    var rest := [ResalerBuilder, OffseterBuilder, EarlyAdopterBuilder];
    ResalerBuilds(env, e, scores);
    RunOne(env, m, rest, e, scores);
    var resold := AppendBuilt(scores, Produce(env, m, ResalerBuilder, e, scores));
    assert rest[1..] == [OffseterBuilder, EarlyAdopterBuilder];
    OffseterBuilds(env, e, resold);
    RunOne(env, m, rest[1..], e, resold);
    var claimed := AppendBuilt(resold, Produce(env, m, OffseterBuilder, e, resold));
    assert claimed == AddClaim(env, scores, e);
    EarlyBuilds(env, e, claimed);
    RunOne(env, m, [EarlyAdopterBuilder], e, claimed);
  }

  /** The place of a rule among the builders. */
  function Place(rule: RuleName): nat {
    match rule
    case AmountFunded => 0
    case NumberOfProjects => 1
    case Resaler => 2
    case Offseter => 3
    case EarlyAdopter => 4
  }

  /** The scores after the first ones come in the order of the builders, all of them before this place. */
  predicate Placed(scores: seq<Score>, after: seq<Score>, place: nat) {
    && scores <= after
    && (forall i :: |scores| <= i < |after| ==> Place(after[i].rule) < place)
    && forall i, j :: |scores| <= i < j < |after| ==> Place(after[i].rule) < Place(after[j].rule)
  }

  lemma AppendPlaced(scores: seq<Score>, after: seq<Score>, s: Score, place: nat)
    requires Placed(scores, after, place) && place <= Place(s.rule)
    ensures Placed(scores, after + [s], Place(s.rule) + 1)
  {
  }

  lemma AddBonusPlaced(scores: seq<Score>, after: seq<Score>, e: DomainEvent)
    ensures Placed(scores, after, 1) ==> Placed(scores, AddProject(after, e), 2)
    ensures Placed(scores, after, 4) ==> Placed(scores, AddEarly(after, e), 5)
  {
    if Placed(scores, after, 1) {
      AppendPlaced(scores, after, ProjectScore(e), 1);
    }
    if Placed(scores, after, 4) {
      AppendPlaced(scores, after, EarlyScore(e), 4);
    }
  }

  lemma AddClaimPlaced(env: Env, scores: seq<Score>, after: seq<Score>, e: DomainEvent)
    requires Placed(scores, after, 2)
    ensures Placed(scores, AddClaim(env, after, e), 4)
  {
    if ClaimScore(env, e).Some? {
      AppendPlaced(scores, after, ClaimScore(env, e).value, 2);
    }
  }

  lemma FullStepPlaced(env: Env, scores: seq<Score>, e: DomainEvent)
    requires Readable(env, e)
    ensures Placed(scores, FullStep(env, scores, e), 5)
  {
    if e.IsFunding() {
      FundingIsNoted(env, scores, e);
      AppendPlaced(scores, scores, FundingScore(env, e), 0);
    }
    var funded := AddFunding(env, scores, e);
    AddBonusPlaced(scores, funded, e);
    AddClaimPlaced(env, scores, AddProject(funded, e), e);
    AddBonusPlaced(scores, AddClaim(env, AddProject(funded, e), e), e);
  }

  /** One event leaves at most one score of each rule, in the order of the builders. */
  lemma RulesInOrder(env: Env, e: DomainEvent, scores: seq<Score>, i: nat, j: nat)
    requires ScoreEvent(env, FULL_MANAGER, e, scores).Some?
    requires |scores| <= i < j < |ScoreEvent(env, FULL_MANAGER, e, scores).value|
    ensures var after := ScoreEvent(env, FULL_MANAGER, e, scores).value;
            scores <= after && Place(after[i].rule) < Place(after[j].rule)
  {
    EventIsFullStep(env, e, scores);
    FullStepPlaced(env, scores, e);
  }

  lemma AddFundingView(env: Env, scores: seq<Score>, e: DomainEvent)
    requires Readable(env, e)
    ensures ViewOf(AddFunding(env, scores, e)) == AfterFunding(env, ViewOf(scores), e)
  {
    if e.IsFunding() {
      ViewOfAppend(scores, FundingScore(env, e));
    }
  }

  lemma AddClaimView(env: Env, scores: seq<Score>, e: DomainEvent)
    ensures ViewOf(AddClaim(env, scores, e)) == AfterClaim(env, ViewOf(scores), e)
  {
    if ClaimScore(env, e).Some? {
      ViewOfAppend(scores, ClaimScore(env, e).value);
    }
  }

  lemma AddBonusView(scores: seq<Score>, e: DomainEvent)
    ensures ViewOf(AddProject(scores, e)) == AfterProject(ViewOf(scores), e)
    ensures ViewOf(AddEarly(scores, e)) == AfterEarly(ViewOf(scores), e)
  {
    ViewOfAppend(scores, ProjectScore(e));
    ViewOfAppend(scores, EarlyScore(e));
  }

  /** One event does to the view of the scores exactly what `StepView` says. */
  lemma FullStepView(env: Env, scores: seq<Score>, e: DomainEvent)
    requires Readable(env, e)
    ensures ViewOf(FullStep(env, scores, e)) == StepView(env, ViewOf(scores), e)
  {
    var s1 := AddFunding(env, scores, e);
    AddFundingView(env, scores, e);
    AddBonusView(s1, e);
    var s2 := AddProject(s1, e);
    AddClaimView(env, s2, e);
    AddBonusView(AddClaim(env, s2, e), e);
  }

  // ----- Bonus scores are exact and unique

  /** Bonus scores carry their fixed points and no boost; no project holds the same bonus twice. */
  predicate Proper(scores: seq<Score>) {
    && (forall s <- scores :: s.rule == NumberOfProjects ==> s == ProjectScore(s.event) && s.event.ProjectName().Some?)
    && (forall s <- scores :: s.rule == EarlyAdopter ==> s == EarlyScore(s.event) && Listed(s.event))
    && (forall i, j :: 0 <= i < j < |scores| && IsBonus(scores[i].rule) && scores[i].rule == scores[j].rule ==>
          scores[i].event.ProjectName() != scores[j].event.ProjectName())
  }

  lemma ProperPlain(scores: seq<Score>, s: Score)
    requires Proper(scores) && !IsBonus(s.rule)
    ensures Proper(scores + [s])
  {
  }

  lemma ProperBonus(scores: seq<Score>, s: Score)
    requires Proper(scores) && IsBonus(s.rule)
    requires s.event.ProjectName().Some? && !RuleApplied(s.rule, s.event.ProjectName().value, scores)
    requires s.rule == NumberOfProjects ==> s == ProjectScore(s.event)
    requires s.rule == EarlyAdopter ==> s == EarlyScore(s.event) && Listed(s.event)
    ensures Proper(scores + [s])
  {
    forall i | 0 <= i < |scores| && scores[i].rule == s.rule
      ensures scores[i].event.ProjectName() != s.event.ProjectName()
    {
      assert scores[i] in scores;
    }
  }

  lemma FullStepProper(env: Env, scores: seq<Score>, e: DomainEvent)
    requires Proper(scores) && Readable(env, e)
    ensures Proper(FullStep(env, scores, e))
  {
    if e.IsFunding() {
      FundingIsNoted(env, scores, e);
      ProperPlain(scores, FundingScore(env, e));
    }
    var s1 := AddFunding(env, scores, e);
    AddProjectProper(s1, e);
    var s2 := AddProject(s1, e);
    if ClaimScore(env, e).Some? {
      ProperPlain(s2, ClaimScore(env, e).value);
    }
    AddEarlyProper(AddClaim(env, s2, e), e);
  }

  lemma AddProjectProper(scores: seq<Score>, e: DomainEvent)
    requires Proper(scores)
    ensures Proper(AddProject(scores, e))
  {
    if EarnsProject(ViewOf(scores), e) {
      ViewSeesHolders(scores, e.ProjectName().value);
      ProperBonus(scores, ProjectScore(e));
    }
  }

  lemma AddEarlyProper(scores: seq<Score>, e: DomainEvent)
    requires Proper(scores)
    ensures Proper(AddEarly(scores, e))
  {
    if EarnsEarly(ViewOf(scores), e) {
      ViewSeesHolders(scores, e.ProjectName().value);
      ProperBonus(scores, EarlyScore(e));
    }
  }

  // ----- A whole log

  predicate AllReadable(env: Env, log: seq<DomainEvent>) {
    forall e <- log :: Readable(env, e)
  }

  function LogView(env: Env, log: seq<DomainEvent>): View
    requires AllReadable(env, log)
  {
    if log == [] then EMPTY_VIEW
    else StepView(env, LogView(env, log[..|log| - 1]), log[|log| - 1])
  }

  lemma StepScores(env: Env, before: seq<Score>, e: DomainEvent)
    requires Proper(before) && Readable(env, e)
    ensures ScoreEvent(env, FULL_MANAGER, e, before) == Some(FullStep(env, before, e))
    ensures Proper(FullStep(env, before, e)) && ViewOf(FullStep(env, before, e)) == StepView(env, ViewOf(before), e)
  {
    EventIsFullStep(env, e, before);
    FullStepView(env, before, e);
    FullStepProper(env, before, e);
  }

  /**
   * A log is processed to the end exactly when every funding value parses; its scores then have the view
   * of the log.
   */
  lemma {:induction false} LogScores(env: Env, log: seq<DomainEvent>)
    ensures ScoreLog(env, FULL_MANAGER, log, []).Some? <==> AllReadable(env, log)
    ensures AllReadable(env, log) ==>
      var scores := ScoreLog(env, FULL_MANAGER, log, []).value;
      Proper(scores) && ViewOf(scores) == LogView(env, log)
  {
    if log != [] {
      var n := |log| - 1;
      assert log == log[..n] + [log[n]];
      LogScores(env, log[..n]);
      if AllReadable(env, log[..n]) {
        var before := ScoreLog(env, FULL_MANAGER, log[..n], []).value;
        if Readable(env, log[n]) {
          StepScores(env, before, log[n]);
        } else {
          EventIsFullStep(env, log[n], before);
        }
      }
    }
  }

  /** The scores of a log that is processed to the end. */
  function ScoreLogValue(env: Env, log: seq<DomainEvent>): seq<Score>
    requires AllReadable(env, log)
  {
    LogScores(env, log);
    ScoreLog(env, FULL_MANAGER, log, []).value
  }

  // ----- Which events earn which bonus

  /** The event leaves a score that has no project name. */
  predicate LeavesNameless(env: Env, e: DomainEvent) {
    e.ProjectName().None? && ScoresAlone(env, e)
  }

  /** No scored event before position `i` lacks a project name. */
  predicate EarlyOpen(env: Env, log: seq<DomainEvent>, i: nat)
    requires i <= |log|
  {
    forall j :: 0 <= j < i ==> !LeavesNameless(env, log[j])
  }

  /** The event at `i` leaves a score with a project name even if no score had one before. */
  predicate LeavesNamed(env: Env, log: seq<DomainEvent>, i: nat)
    requires i < |log|
  {
    log[i].ProjectName().Some? && (ScoresAlone(env, log[i]) || (Listed(log[i]) && EarlyOpen(env, log, i)))
  }

  ghost predicate NamedBefore(env: Env, log: seq<DomainEvent>, i: nat)
    requires i <= |log|
  {
    exists j :: 0 <= j < i && LeavesNamed(env, log, j)
  }

  lemma LogViewStep(env: Env, log: seq<DomainEvent>, n: nat)
    requires AllReadable(env, log) && n < |log|
    ensures AllReadable(env, log[..n]) && AllReadable(env, log[..n + 1])
    ensures LogView(env, log[..n + 1]) == StepView(env, LogView(env, log[..n]), log[n])
  {
    assert log[..n + 1][..n] == log[..n];
  }

  /** Names are only ever added, and a holder implies that some score is named. */
  predicate Sane(v: View) {
    (v.projects != {} || v.early != {}) ==> v.named
  }

  lemma StepNames(env: Env, v: View, e: DomainEvent)
    requires Readable(env, e) && Sane(v)
    ensures var v' := StepView(env, v, e);
            && Sane(v')
            && v'.nameless == (v.nameless || LeavesNameless(env, e))
            && v'.named == (v.named || (e.ProjectName().Some? && (ScoresAlone(env, e) || (Listed(e) && !v.nameless))))
  {
    if e.IsFunding() {
      FundingIsNoted(env, [], e);
    }
  }

  lemma StepHolders(env: Env, v: View, e: DomainEvent)
    requires Readable(env, e) && Sane(v)
    ensures var v' := StepView(env, v, e);
            var names := if e.ProjectName().Some? then {e.ProjectName().value} else {};
            && v'.projects == v.projects + (if e.IsFunding() || v.named then names else {})
            && v'.early == v.early + (if Listed(e) && !v.nameless then names else {})
  {
    if e.IsFunding() {
      FundingIsNoted(env, [], e);
    }
  }

  lemma {:induction false} NamesByPosition(env: Env, log: seq<DomainEvent>, n: nat)
    requires AllReadable(env, log) && n <= |log|
    ensures AllReadable(env, log[..n])
    ensures var v := LogView(env, log[..n]);
            && Sane(v)
            && (v.nameless <==> !EarlyOpen(env, log, n))
            && (v.named <==> NamedBefore(env, log, n))
  {
    if n > 0 {
      NamesByPosition(env, log, n - 1);
      LogViewStep(env, log, n - 1);
      StepNames(env, LogView(env, log[..n - 1]), log[n - 1]);
      NamedBeforeStep(env, log, n - 1);
    }
  }

  lemma NamedBeforeStep(env: Env, log: seq<DomainEvent>, n: nat)
    requires n < |log|
    ensures NamedBefore(env, log, n + 1) <==> NamedBefore(env, log, n) || LeavesNamed(env, log, n)
  {
  }

  ghost predicate EarnedProjectBefore(env: Env, log: seq<DomainEvent>, p: string, n: nat)
    requires n <= |log|
  {
    exists i :: 0 <= i < n && log[i].ProjectName() == Some(p) && (log[i].IsFunding() || NamedBefore(env, log, i))
  }

  ghost predicate EarnedEarlyBefore(env: Env, log: seq<DomainEvent>, p: string, n: nat)
    requires n <= |log|
  {
    exists i :: 0 <= i < n && log[i].ProjectName() == Some(p) && Listed(log[i]) && EarlyOpen(env, log, i)
  }

  lemma EarnedBeforeStep(env: Env, log: seq<DomainEvent>, p: string, n: nat)
    requires n < |log|
    ensures EarnedProjectBefore(env, log, p, n + 1) <==>
            || EarnedProjectBefore(env, log, p, n)
            || (log[n].ProjectName() == Some(p) && (log[n].IsFunding() || NamedBefore(env, log, n)))
    ensures EarnedEarlyBefore(env, log, p, n + 1) <==>
            || EarnedEarlyBefore(env, log, p, n)
            || (log[n].ProjectName() == Some(p) && Listed(log[n]) && EarlyOpen(env, log, n))
  {
  }

  lemma {:induction false} HoldersByPosition(env: Env, log: seq<DomainEvent>, p: string, n: nat)
    requires AllReadable(env, log) && n <= |log|
    ensures AllReadable(env, log[..n])
    ensures p in LogView(env, log[..n]).projects <==> EarnedProjectBefore(env, log, p, n)
    ensures p in LogView(env, log[..n]).early <==> EarnedEarlyBefore(env, log, p, n)
  {
    if n > 0 {
      HoldersByPosition(env, log, p, n - 1);
      NamesByPosition(env, log, n - 1);
      LogViewStep(env, log, n - 1);
      StepHolders(env, LogView(env, log[..n - 1]), log[n - 1]);
      EarnedBeforeStep(env, log, p, n - 1);
    }
  }

  // ----- Main results

  /** The event at `k` is the first of the log to leave a score with a project name. */
  ghost predicate FirstNamed(env: Env, log: seq<DomainEvent>, k: nat) {
    k < |log| && LeavesNamed(env, log, k) && !NamedBefore(env, log, k)
  }

  /** `FirstNamed` says what it means: the scores lack a name up to `k` and have one from then on. */
  lemma FirstNamedMeans(env: Env, log: seq<DomainEvent>, k: nat)
    requires AllReadable(env, log) && k < |log|
    ensures AllReadable(env, log[..k]) && AllReadable(env, log[..k + 1])
    ensures FirstNamed(env, log, k) <==>
            && (forall s <- ScoreLogValue(env, log[..k]) :: s.event.ProjectName().None?)
            && (exists s <- ScoreLogValue(env, log[..k + 1]) :: s.event.ProjectName().Some?)
  {
    NamesByPosition(env, log, k);
    NamesByPosition(env, log, k + 1);
    LogScores(env, log[..k]);
    LogScores(env, log[..k + 1]);
    ViewSeesNames(ScoreLogValue(env, log[..k]));
    ViewSeesNames(ScoreLogValue(env, log[..k + 1]));
  }

  lemma FullLog<T>(log: seq<T>)
    ensures log[..|log|] == log
  {
  }

  /**
   * Project bonuses: the holders are the projects of all events after the first named one, plus
   * the project of that event itself when it carries funding.
   */
  lemma ProjectBonusHolders(env: Env, log: seq<DomainEvent>, k: nat, p: string)
    requires AllReadable(env, log) && FirstNamed(env, log, k)
    ensures ScoreLog(env, FULL_MANAGER, log, []).Some?
    ensures RuleApplied(NumberOfProjects, p, ScoreLog(env, FULL_MANAGER, log, []).value) <==>
            exists i :: (k < i < |log| || (i == k && log[k].IsFunding())) && log[i].ProjectName() == Some(p)
  {
    LogScores(env, log);
    FullLog(log);
    HoldersByPosition(env, log, p, |log|);
    ViewSeesHolders(ScoreLog(env, FULL_MANAGER, log, []).value, p);
    forall i: nat | i < |log| && log[i].ProjectName() == Some(p)
      ensures log[i].IsFunding() || NamedBefore(env, log, i) <==> k < i || (i == k && log[k].IsFunding())
    {
      assert log[i].IsFunding() ==> LeavesNamed(env, log, i);
    }
  }

  /** Without any named score nobody holds a project bonus. */
  lemma NoProjectBonus(env: Env, log: seq<DomainEvent>, p: string)
    requires AllReadable(env, log) && !NamedBefore(env, log, |log|)
    ensures ScoreLog(env, FULL_MANAGER, log, []).Some?
    ensures !RuleApplied(NumberOfProjects, p, ScoreLog(env, FULL_MANAGER, log, []).value)
    ensures !RuleApplied(EarlyAdopter, p, ScoreLog(env, FULL_MANAGER, log, []).value)
  {
    LogScores(env, log);
    FullLog(log);
    NamesByPosition(env, log, |log|);
    ViewSeesHolders(ScoreLog(env, FULL_MANAGER, log, []).value, p);
  }

  /** Early-adopter bonuses: the listed projects seen before the first scored event without a project name. */
  lemma EarlyBonusHolders(env: Env, log: seq<DomainEvent>, p: string)
    requires AllReadable(env, log)
    ensures ScoreLog(env, FULL_MANAGER, log, []).Some?
    ensures RuleApplied(EarlyAdopter, p, ScoreLog(env, FULL_MANAGER, log, []).value) <==>
            p in POINTS_PER_PROJECT &&
            exists i :: 0 <= i < |log| && log[i].ProjectName() == Some(p) && EarlyOpen(env, log, i)
  {
    LogScores(env, log);
    FullLog(log);
    HoldersByPosition(env, log, p, |log|);
    ViewSeesHolders(ScoreLog(env, FULL_MANAGER, log, []).value, p);
  }

  lemma EarlyPointsByName(e: DomainEvent)
    requires Listed(e)
    ensures || (e.ProjectName() == Some("Banegas Farm") && EarlyPoints(e) == 200_000_000)
            || (e.ProjectName() == Some("Las Delicias") && EarlyPoints(e) == 150_000_000)
            || (e.ProjectName() == Some("Manjarisoa") && EarlyPoints(e) == 100_000_000)
  {
    ListedNames();
  }

  /** Every bonus score of every log carries its fixed points and is never boosted. */
  lemma BonusesAreExact(env: Env, log: seq<DomainEvent>, s: Score)
    requires AllReadable(env, log) && s in ScoreLogValue(env, log)
    ensures s.rule == NumberOfProjects ==> s.points == 200_000_000 && s.boosts == [] && s.event.ProjectName().Some?
    ensures s.rule == EarlyAdopter ==>
      && Listed(s.event) && s.boosts == []
      && (|| (s.event.ProjectName() == Some("Banegas Farm") && s.points == 200_000_000)
          || (s.event.ProjectName() == Some("Las Delicias") && s.points == 150_000_000)
          || (s.event.ProjectName() == Some("Manjarisoa") && s.points == 100_000_000))
  {
    LogScores(env, log);
    if s.rule == EarlyAdopter {
      EarlyPointsByName(s.event);
    }
  }

  /** No project is awarded the same bonus twice in one log. */
  lemma BonusesAreUnique(env: Env, log: seq<DomainEvent>, i: nat, j: nat)
    requires AllReadable(env, log) && i < j < |ScoreLogValue(env, log)|
    requires ScoreLogValue(env, log)[i].rule == ScoreLogValue(env, log)[j].rule
    requires IsBonus(ScoreLogValue(env, log)[i].rule)
    ensures ScoreLogValue(env, log)[i].event.ProjectName() != ScoreLogValue(env, log)[j].event.ProjectName()
  {
    LogScores(env, log);
  }

  // ----- Points by rule

  function EarlyWeight(names: set<string>): nat {
    (if "Banegas Farm" in names then 200 else 0) +
    (if "Las Delicias" in names then 150 else 0) +
    (if "Manjarisoa" in names then 100 else 0)
  }

  /** Bonus sums are determined by the holders. */
  predicate Counted(v: View) {
    v.projectPoints == 200_000_000 * |v.projects| && v.earlyPoints == 1_000_000 * EarlyWeight(v.early)
  }

  lemma AfterProjectCounted(v: View, e: DomainEvent)
    requires Counted(v)
    ensures Counted(AfterProject(v, e))
  {
    if EarnsProject(v, e) {
      assert |v.projects + {e.ProjectName().value}| == |v.projects| + 1;
    }
  }

  lemma ListedNames()
    ensures POINTS_PER_PROJECT.Keys == {"Banegas Farm", "Las Delicias", "Manjarisoa"}
    ensures "Banegas Farm" != "Las Delicias" && "Banegas Farm" != "Manjarisoa" && "Las Delicias" != "Manjarisoa"
  {
    assert "Banegas Farm"[0] == 'B' && "Las Delicias"[0] == 'L' && "Manjarisoa"[0] == 'M';
  }

  lemma EarlyWeightGrows(names: set<string>, p: string)
    requires p in POINTS_PER_PROJECT && p !in names
    ensures EarlyWeight(names + {p}) == EarlyWeight(names) + POINTS_PER_PROJECT[p]
  {
    ListedNames();
    assert p == "Banegas Farm" || p == "Las Delicias" || p == "Manjarisoa";
  }

  lemma AfterEarlyCounted(v: View, e: DomainEvent)
    requires Counted(v)
    ensures Counted(AfterEarly(v, e))
  {
    if EarnsEarly(v, e) {
      EarlyWeightGrows(v.early, e.ProjectName().value);
    }
  }

  lemma {:induction false} LogCounted(env: Env, log: seq<DomainEvent>)
    requires AllReadable(env, log)
    ensures Counted(LogView(env, log))
  {
    if log != [] {
      var n := |log| - 1;
      LogCounted(env, log[..n]);
      var v, e := LogView(env, log[..n]), log[n];
      if e.IsFunding() {
        FundingIsNoted(env, [], e);
      }
      var v1 := AfterFunding(env, v, e);
      AfterProjectCounted(v1, e);
      var v3 := AfterClaim(env, AfterProject(v1, e), e);
      AfterEarlyCounted(v3, e);
    }
  }
}
