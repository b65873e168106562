/** The score builders and their manager (internal/leaderboard/score_calculator.go). */
module Scoring {
  import opened Wrappers
  import opened U256
  import opened Events
  import opened Boosts
  import opened BoostLaws

  datatype Builder =
    | AmountFundedBuilder
    | NumberOfProjectsBuilder
    | ResalerBuilder
    | OffseterBuilder
    | EarlyAdopterBuilder

  datatype Manager = Manager(builders: seq<Builder>, boosters: seq<Booster>)

  const FULL_BUILDERS := [AmountFundedBuilder, NumberOfProjectsBuilder, ResalerBuilder, OffseterBuilder, EarlyAdopterBuilder]
  const FULL_MANAGER := Manager(FULL_BUILDERS, FULL_BOOSTERS)
  const MINT_PAGE_MANAGER := Manager([AmountFundedBuilder], [ProjectValue(PROJECT_STEPS)])

  /** A builder ends the process, adds nothing, or adds one score. */
  datatype Built = Fatal | Nothing | Added(score: Score)

  /** Points are scaled by 10^6 until the total is taken. */
  const PROJECT_POINTS: u256 := 200_000_000

  const POINTS_PER_PROJECT: map<string, nat> :=
    map["Banegas Farm" := 200, "Las Delicias" := 150, "Manjarisoa" := 100]

  predicate Listed(e: DomainEvent) {
    e.ProjectName().Some? && e.ProjectName().value in POINTS_PER_PROJECT
  }

  // ----- The builders, as functions of the event and of the scores so far

  predicate RuleApplied(rule: RuleName, project: string, scores: seq<Score>) {
    exists s <- scores :: s.event.ProjectName() == Some(project) && s.rule == rule
  }

  predicate Supports(b: Builder, e: DomainEvent, scores: seq<Score>) {
    match b
    case AmountFundedBuilder => e.IsFunding()
    case NumberOfProjectsBuilder =>
      e.ProjectName().Some? && !RuleApplied(NumberOfProjects, e.ProjectName().value, scores)
    case ResalerBuilder => e.eventName == "yielder:claim"
    case OffseterBuilder => e.eventName == "offseter:claim"
    case EarlyAdopterBuilder => Listed(e)
  }

  /** A score that has a project name and is not this project's own bonus unlocks the project bonus. */
  predicate Unlocks(s: Score, e: DomainEvent) {
    s.event.ProjectName().Some? && !(s.event.ProjectName() == e.ProjectName() && s.rule == NumberOfProjects)
  }

  /** A score without a project name, or this project's own early-adopter score, blocks a new one. */
  predicate Blocks(s: Score, e: DomainEvent) {
    s.event.ProjectName().None? || (s.event.ProjectName() == e.ProjectName() && s.rule == EarlyAdopter)
  }

  function ScoreFromEventValue(env: Env, e: DomainEvent): Built {
    match env.parse(Lookup(e.data, "value"))
    case None => Nothing
    case Some(p) => Added(Score(p, NumberOfProjects, [], e))
  }

  function Compute(env: Env, b: Builder, e: DomainEvent, scores: seq<Score>): Built {
    match b
    case AmountFundedBuilder =>
      (match env.parse(Lookup(e.data, "value"))
       case None => Fatal
       case Some(v) => Added(Score(v, AmountFunded, [], e)))
    case NumberOfProjectsBuilder =>
      if e.ProjectName().Some? && exists s <- scores :: Unlocks(s, e) then
        Added(Score(PROJECT_POINTS, NumberOfProjects, [], e))
      else if (e.ProjectName().None? || scores == []) && e.eventName == "minter:buy" then
        ScoreFromEventValue(env, e)
      else Nothing
    case ResalerBuilder =>
      (match env.parse(Lookup(e.data, "amount"))
       case None => Nothing
       case Some(p) => Added(Score(p, Resaler, [], e)))
    case OffseterBuilder =>
      (match env.parse(Lookup(e.data, "amount"))
       case None => Nothing
       case Some(p) => Added(Score(Mul(p, 100), Offseter, [], e)))
    case EarlyAdopterBuilder =>
      if e.ProjectName().Some? && exists s <- scores :: Blocks(s, e) then Nothing
      else Added(Score(EarlyPoints(e), EarlyAdopter, [], e))
  }

  function EarlyPoints(e: DomainEvent): u256 {
    Mul(if Listed(e) then POINTS_PER_PROJECT[e.ProjectName().value] else 50, MILLION)
  }

  // ----- The manager

  function Produce(env: Env, m: Manager, b: Builder, e: DomainEvent, scores: seq<Score>): Built {
    if !Supports(b, e, scores) then Nothing
    else
      match Compute(env, b, e, scores)
      case Added(s) => Added(Boosted(env, m.boosters, e, s))
      case other => other
  }

  /** The builders in order, each seeing the scores the ones before it added; None is a fatal exit. */
  function RunBuilders(env: Env, m: Manager, builders: seq<Builder>, e: DomainEvent,
                       scores: seq<Score>): Option<seq<Score>> {
    if builders == [] then Some(scores)
    else
      match Produce(env, m, builders[0], e, scores)
      case Fatal => None
      case Nothing => RunBuilders(env, m, builders[1..], e, scores)
      case Added(s) => RunBuilders(env, m, builders[1..], e, scores + [s])
  }

  function ScoreEvent(env: Env, m: Manager, e: DomainEvent, scores: seq<Score>): Option<seq<Score>> {
    RunBuilders(env, m, m.builders, e, scores)
  }

  /** The scores after a whole log, starting from earlier ones. */
  function ScoreLog(env: Env, m: Manager, log: seq<DomainEvent>, scores: seq<Score>): Option<seq<Score>> {
    if log == [] then Some(scores)
    else
      match ScoreLog(env, m, log[..|log| - 1], scores)
      case None => None
      case Some(before) => ScoreEvent(env, m, log[|log| - 1], before)
  }

  // ----- The loops of the source

  method RuleWasApplied(rule: RuleName, project: string, scores: seq<Score>) returns (applied: bool)
    ensures applied == RuleApplied(rule, project, scores)
  {
    for i := 0 to |scores|
      invariant forall j :: 0 <= j < i ==> !(scores[j].event.ProjectName() == Some(project) && scores[j].rule == rule)
    {
      if scores[i].event.ProjectName() == Some(project) && scores[i].rule == rule {
        return true;
      }
    }
    return false;
  }

  method SupportsEvent(b: Builder, e: DomainEvent, scores: seq<Score>) returns (supported: bool)
    ensures supported == Supports(b, e, scores)
  {
    match b
    case NumberOfProjectsBuilder =>
      var name := e.ProjectName();
      if name.None? {
        return false;
      }
      var applied := RuleWasApplied(NumberOfProjects, name.value, scores);
      return !applied;
    case _ =>
      return Supports(b, e, scores);
  }

  method ComputeNumberOfProjects(env: Env, e: DomainEvent, scores: seq<Score>) returns (r: Built)
    ensures r == Compute(env, NumberOfProjectsBuilder, e, scores)
    ensures (e.ProjectName().Some? &&
             exists s <- scores :: s.event.ProjectName().Some? &&
               (s.event.ProjectName() != e.ProjectName() || s.rule != NumberOfProjects)) ==>
              r == Added(Score(200_000_000, NumberOfProjects, [], e))
    ensures (e.ProjectName().None? ||
             forall s <- scores :: s.event.ProjectName().None? ||
               (s.event.ProjectName() == e.ProjectName() && s.rule == NumberOfProjects)) ==>
              r == if (scores == [] || e.ProjectName().None?) && e.eventName == "minter:buy" then
                     match env.parse(Lookup(e.data, "value"))
                     case None => Nothing
                     case Some(points) => Added(Score(points, NumberOfProjects, [], e))
                   else Nothing
  {
    var found := false;
    var name := e.ProjectName();
    if name.Some? {
      for i := 0 to |scores|
        invariant found <==> i > 0
        invariant forall j :: 0 <= j < i ==> !Unlocks(scores[j], e)
      {
        var other := scores[i].event.ProjectName();
        if other.None? || (other == name && scores[i].rule == NumberOfProjects) {
          found := true;
          continue;
        }
        assert Unlocks(scores[i], e);
        return Added(Score(PROJECT_POINTS, NumberOfProjects, [], e));
      }
    }
    if !found && e.eventName == "minter:buy" {
      return ScoreFromEventValue(env, e);
    }
    return Nothing;
  }

  method ComputeEarlyAdopter(env: Env, e: DomainEvent, scores: seq<Score>) returns (r: Built)
    ensures r == Compute(env, EarlyAdopterBuilder, e, scores)
    ensures (e.ProjectName().Some? &&
             exists s <- scores :: s.event.ProjectName().None? ||
               (s.event.ProjectName() == e.ProjectName() && s.rule == EarlyAdopter)) ==>
              r == Nothing
    ensures (e.ProjectName().None? ||
             forall s <- scores :: s.event.ProjectName().Some? &&
               (s.event.ProjectName() != e.ProjectName() || s.rule != EarlyAdopter)) ==>
              r == Added(Score(match e.ProjectName() {
                                 case Some("Banegas Farm") => 200_000_000
                                 case Some("Las Delicias") => 150_000_000
                                 case Some("Manjarisoa") => 100_000_000
                                 case _ => 50_000_000
                               }, EarlyAdopter, [], e))
  {
    var name := e.ProjectName();
    if name.Some? {
      for i := 0 to |scores|
        invariant forall j :: 0 <= j < i ==> !Blocks(scores[j], e)
      {
        var other := scores[i].event.ProjectName();
        if other.None? || (other == name && scores[i].rule == EarlyAdopter) {
          assert Blocks(scores[i], e);
          return Nothing;
        }
      }
    }
    var points := 50;
    if name.Some? && name.value in POINTS_PER_PROJECT {
      points := POINTS_PER_PROJECT[name.value];
    }
    return Added(Score(Mul(points, MILLION), EarlyAdopter, [], e));
  }

  method ComputeWith(env: Env, b: Builder, e: DomainEvent, scores: seq<Score>) returns (r: Built)
    ensures r == Compute(env, b, e, scores)
  {
    match b
    case NumberOfProjectsBuilder => r := ComputeNumberOfProjects(env, e, scores);
    case EarlyAdopterBuilder => r := ComputeEarlyAdopter(env, e, scores);
    case _ => r := Compute(env, b, e, scores);
  }

  /** The manager's double loop; each new score is boosted in place before it is appended. */
  method ComputeScore(env: Env, m: Manager, e: DomainEvent, scores: seq<Score>) returns (r: Option<seq<Score>>)
    ensures r == ScoreEvent(env, m, e, scores)
  {
    var score := scores;
    for i := 0 to |m.builders|
      invariant ScoreEvent(env, m, e, scores) == RunBuilders(env, m, m.builders[i..], e, score)
    {
      var b := m.builders[i];
      var supported := SupportsEvent(b, e, score);
      if supported {
        var built := ComputeWith(env, b, e, score);
        if built.Fatal? {
          return None;
        }
        if built.Added? {
          var cell := new ScoreCell(built.score);
          ApplyAll(env, m.boosters, e, cell);
          score := score + [cell.Value()];
        }
      }
    }
    return Some(score);
  }

  // ----- Processing a log piece by piece

  /** Processing a log in two consecutive pieces equals processing it at once. */
  lemma {:induction false} LogInTwoPieces(env: Env, m: Manager, a: seq<DomainEvent>, b: seq<DomainEvent>,
                                          scores: seq<Score>)
    ensures ScoreLog(env, m, a + b, scores) ==
            match ScoreLog(env, m, a, scores)
            case None => None
            case Some(middle) => ScoreLog(env, m, b, middle)
  {
    if b == [] {
      assert a + b == a;
    } else {
      var n := |b| - 1;
      assert (a + b)[..|a + b| - 1] == a + b[..n];
      LogInTwoPieces(env, m, a, b[..n], scores);
    }
  }

  lemma {:induction false} BuildersOnlyAppend(env: Env, m: Manager, builders: seq<Builder>, e: DomainEvent,
                                              scores: seq<Score>)
    ensures match RunBuilders(env, m, builders, e, scores)
            case None => true
            case Some(after) => scores <= after && forall i :: |scores| <= i < |after| ==> after[i].event == e
  {
    if builders != [] {
      var built := Produce(env, m, builders[0], e, scores);
      match built
      case Fatal =>
      case Nothing => BuildersOnlyAppend(env, m, builders[1..], e, scores);
      case Added(s) =>
        OnlyFundingIsBoosted(env, m.boosters, e, Compute(env, builders[0], e, scores).score);
        BuildersOnlyAppend(env, m, builders[1..], e, scores + [s]);
    }
  }

  /** Later events only append: the scores of earlier ones are never altered. */
  lemma {:induction false} EarlierScoresUnaltered(env: Env, m: Manager, log: seq<DomainEvent>, scores: seq<Score>)
    ensures match ScoreLog(env, m, log, scores)
            case None => true
            case Some(after) => scores <= after && forall i :: |scores| <= i < |after| ==> after[i].event in log
  {
    if log != [] {
      var n := |log| - 1;
      EarlierScoresUnaltered(env, m, log[..n], scores);
      var before := ScoreLog(env, m, log[..n], scores);
      if before.Some? {
        BuildersOnlyAppend(env, m, m.builders, log[n], before.value);
      }
    }
  }

  /** Two outside worlds that answer alike give the same scores. */
  ghost predicate Alike(env1: Env, env2: Env) {
    && (forall text :: env1.parse(text) == env2.parse(text))
    && (forall name, t :: env1.minterValue(name, t) == env2.minterValue(name, t))
  }

  lemma {:induction false} AlikeBoosts(env1: Env, env2: Env, boosters: seq<Booster>, e: DomainEvent, s: Score)
    requires Alike(env1, env2)
    ensures Boosted(env1, boosters, e, s) == Boosted(env2, boosters, e, s)
  {
    if boosters != [] {
      var b := boosters[0];
      assert Applied(env1, b, e, s) == Applied(env2, b, e, s);
      AlikeBoosts(env1, env2, boosters[1..], e, if Check(b, e) then Applied(env1, b, e, s) else s);
    }
  }

  lemma {:induction false} AlikeBuilders(env1: Env, env2: Env, m: Manager, builders: seq<Builder>, e: DomainEvent,
                                         scores: seq<Score>)
    requires Alike(env1, env2)
    ensures RunBuilders(env1, m, builders, e, scores) == RunBuilders(env2, m, builders, e, scores)
  {
    if builders != [] {
      var c := Compute(env1, builders[0], e, scores);
      assert c == Compute(env2, builders[0], e, scores);
      if c.Added? {
        AlikeBoosts(env1, env2, m.boosters, e, c.score);
      }
      var p := Produce(env1, m, builders[0], e, scores);
      AlikeBuilders(env1, env2, m, builders[1..], e, if p.Added? then scores + [p.score] else scores);
    }
  }

  lemma {:induction false} AlikeLogs(env1: Env, env2: Env, m: Manager, log: seq<DomainEvent>, scores: seq<Score>)
    requires Alike(env1, env2)
    ensures ScoreLog(env1, m, log, scores) == ScoreLog(env2, m, log, scores)
  {
    if log != [] {
      var n := |log| - 1;
      AlikeLogs(env1, env2, m, log[..n], scores);
      var before := ScoreLog(env1, m, log[..n], scores);
      if before.Some? {
        AlikeBuilders(env1, env2, m, m.builders, log[n], before.value);
      }
    }
  }
}
