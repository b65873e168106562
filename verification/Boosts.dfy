/** The two boosters and the interval quote (internal/leaderboard/boost.go). */
module Boosts {
  import opened Wrappers
  import opened U256
  import opened Events

  datatype BoostStep = BoostStep(step: u64, coef: u64)

  datatype Booster =
    | Karathuru(steps: seq<BoostStep>)
    | ProjectValue(steps: seq<BoostStep>)

  const KARATHURU_STEPS := [
    BoostStep(50000, 300), BoostStep(150000, 200), BoostStep(300000, 150),
    BoostStep(500000, 120), BoostStep(700000, 110)]

  const PROJECT_STEPS := [BoostStep(5000, 300), BoostStep(1000, 200), BoostStep(500, 150)]

  const MILLION: u64 := 1_000_000

  function MulCoefficient(value: u256, coef: u64): u256 {
    Div(Mul(value, coef), 100)
  }

  /** The threshold in token units; the product is taken on 64 bits. */
  function Threshold(step: u64): u64 {
    (step * MILLION) % TWO_64
  }

  predicate Check(b: Booster, e: DomainEvent) {
    match b
    case Karathuru(_) => Lookup(e.metadata, "project_name") == "Karathuru" && e.IsMint()
    case ProjectValue(_) => e.IsMint()
  }

  function BoostName(b: Booster): string {
    if b.Karathuru? then "KarathuruFundingMilestone" else "ProjectValue"
  }

  function DisplayName(b: Booster): string {
    if b.Karathuru? then "Funding Karathuru" else "Funding Value"
  }

  /** The coefficient of the first step not yet exceeded by the collected value. */
  function MilestoneCoefficient(steps: seq<BoostStep>, collected: u256): Option<u64> {
    if steps == [] then None
    else if collected <= steps[0].step then Some(steps[0].coef)
    else MilestoneCoefficient(steps[1..], collected)
  }

  /** The coefficient of the first step reached by the points. */
  function ValueCoefficient(steps: seq<BoostStep>, points: u256): Option<u64> {
    if steps == [] then None
    else if points >= Threshold(steps[0].step) then Some(steps[0].coef)
    else ValueCoefficient(steps[1..], points)
  }

  function Coefficient(env: Env, b: Booster, e: DomainEvent, points: u256): Option<u64> {
    match b
    case Karathuru(steps) =>
      (match env.minterValue("Karathuru", e.recordedAt)
       case None => None
       case Some(collected) => MilestoneCoefficient(steps, collected))
    case ProjectValue(steps) => ValueCoefficient(steps, points)
  }

  /** What one booster makes of a score whose event passed its check. */
  function Applied(env: Env, b: Booster, e: DomainEvent, s: Score): Score {
    if s.rule != AmountFunded then s
    else
      match Coefficient(env, b, e, s.points)
      case None => s
      case Some(c) => s.(points := MulCoefficient(s.points, c),
                         boosts := s.boosts + [Boost(BoostName(b), DisplayName(b), c)])
  }

  /** All boosters in order, each reading the points left by the one before. */
  function Boosted(env: Env, boosters: seq<Booster>, e: DomainEvent, s: Score): Score {
    if boosters == [] then s
    else
      var s' := if Check(boosters[0], e) then Applied(env, boosters[0], e, s) else s;
      Boosted(env, boosters[1..], e, s')
  }

  /** The boost being applied, filled in while it is applied. */
  class BoostCell {
    const name: string
    var displayName: string
    var value: nat

    constructor (name: string)
      ensures this.name == name
    {
      this.name := name;
      displayName, value := "", 0;
    }
  }

  /** A score under construction; boosters rewrite its points. */
  class ScoreCell {
    var points: u256
    const rule: RuleName
    var boosts: seq<Boost>
    const event: DomainEvent

    constructor (s: Score)
      ensures Value() == s
    {
      points, rule, boosts, event := s.points, s.rule, s.boosts, s.event;
    }

    function Value(): Score
      reads this
    {
      Score(points, rule, boosts, event)
    }

    /** Multiplies the points and records the boost that did it. */
    method Boost(b: BoostCell, displayName: string, coef: u64)
      modifies this`points, this`boosts, b
      ensures points == MulCoefficient(old(points), coef)
      ensures boosts == old(boosts) + [Events.Boost(b.name, displayName, coef)]
    {
      points := MulCoefficient(points, coef);
      b.displayName := displayName;
      b.value := coef;
      boosts := boosts + [Events.Boost(b.name, b.displayName, b.value)];
    }
  }

  method ApplyKarathuru(env: Env, steps: seq<BoostStep>, e: DomainEvent, b: BoostCell, s: ScoreCell)
    requires b.name == BoostName(Karathuru(steps))
    modifies b, s
    ensures s.Value() == Applied(env, Karathuru(steps), e, old(s.Value()))
  {
    var collected := env.minterValue("Karathuru", e.recordedAt);
    if collected.None? {
      return;
    }
    if s.rule != AmountFunded {
      return;
    }
    for i := 0 to |steps|
      invariant s.Value() == old(s.Value())
      invariant MilestoneCoefficient(steps, collected.value) == MilestoneCoefficient(steps[i..], collected.value)
    {
      if collected.value <= steps[i].step {
        s.Boost(b, "Funding Karathuru", steps[i].coef);
        return;
      }
    }
  }

  method ApplyProjectValue(steps: seq<BoostStep>, ghost env: Env, e: DomainEvent, b: BoostCell, s: ScoreCell)
    requires b.name == BoostName(ProjectValue(steps))
    modifies b, s
    ensures s.Value() == Applied(env, ProjectValue(steps), e, old(s.Value()))
  {
    if s.rule != AmountFunded {
      return;
    }
    for i := 0 to |steps|
      invariant s.Value() == old(s.Value())
      invariant ValueCoefficient(steps, s.points) == ValueCoefficient(steps[i..], s.points)
    {
      if s.points >= Threshold(steps[i].step) {
        s.Boost(b, "Funding Value", steps[i].coef);
        return;
      }
    }
  }

  /** The loop over the boosters of a manager, rewriting one score in place. */
  method ApplyAll(env: Env, boosters: seq<Booster>, e: DomainEvent, s: ScoreCell)
    modifies s
    ensures s.Value() == Boosted(env, boosters, e, old(s.Value()))
  {
    for i := 0 to |boosters|
      invariant Boosted(env, boosters, e, old(s.Value())) == Boosted(env, boosters[i..], e, s.Value())
    {
      var b := boosters[i];
      if Check(b, e) {
        var cell := new BoostCell(BoostName(b));
        match b
        case Karathuru(steps) => ApplyKarathuru(env, steps, e, cell, s);
        case ProjectValue(steps) => ApplyProjectValue(steps, env, e, cell, s);
      }
    }
  }
}
