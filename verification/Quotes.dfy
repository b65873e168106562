/** Boost intervals and the quotes of the mint page (internal/leaderboard/boost.go, graph/schema.resolvers.go). */
module Quotes {
  import opened Wrappers
  import opened U256
  import opened Sequences
  import opened Events
  import opened Boosts
  import opened BoostLaws
  import opened Scoring
  import opened Bonuses
  import opened Totals
  import opened Game

  datatype Interval = Interval(boost: u64, next: u64, nextBoost: u64)

  /** The position of the first step the value reaches, or the number of steps. */
  function FirstReached(steps: seq<BoostStep>, value: u64): (i: nat)
    ensures i <= |steps| && (i < |steps| ==> value >= steps[i].step)
    ensures forall j :: 0 <= j < i ==> value < steps[j].step
  {
    if steps == [] || value >= steps[0].step then 0 else 1 + FirstReached(steps[1..], value)
  }

  /** The boost a value has, and the step before it in the table with its boost. */
  function IntervalAt(steps: seq<BoostStep>, value: u64): Interval {
    var i := FirstReached(steps, value);
    Interval(if i < |steps| then steps[i].coef else 0,
             if i > 0 then steps[i - 1].step else 0,
             if i > 0 then steps[i - 1].coef else 0)
  }

  lemma FirstReachedIs(steps: seq<BoostStep>, value: u64, i: nat)
    requires i <= |steps| && (i < |steps| ==> value >= steps[i].step)
    requires forall j :: 0 <= j < i ==> value < steps[j].step
    ensures FirstReached(steps, value) == i
  {
  }

  method GetInterval(steps: seq<BoostStep>, value: u64) returns (interval: Interval)
    ensures interval == IntervalAt(steps, value)
  {
    var boost, next, nextBoost: u64 := 0, 0, 0;
    for i := 0 to |steps|
      invariant forall j :: 0 <= j < i ==> value < steps[j].step
      invariant boost == 0
      invariant next == if i > 0 then steps[i - 1].step else 0
      invariant nextBoost == if i > 0 then steps[i - 1].coef else 0
    {
      if value >= steps[i].step {
        FirstReachedIs(steps, value, i);
        boost := steps[i].coef;
        if i == 0 {
          return Interval(boost, 0, 0);
        }
        next := steps[i - 1].step;
        nextBoost := steps[i - 1].coef;
        return Interval(boost, next, nextBoost);
      }
      next := steps[i].step;
      nextBoost := steps[i].coef;
    }
    FirstReachedIs(steps, value, |steps|);
    return Interval(boost, next, nextBoost);
  }

  predicate NoOverflow(steps: seq<BoostStep>) {
    forall s <- steps :: s.step * MILLION < TWO_64
  }

  /**
   * The quoted boost is the coefficient the booster applies to the same value in token units, zero when
   * it applies none.
   */
  lemma {:induction false} IntervalAgreesWithBooster(steps: seq<BoostStep>, value: u64)
    requires NoOverflow(steps)
    ensures value * MILLION < TWO_256
    ensures IntervalAt(steps, value).boost ==
            match ValueCoefficient(steps, value * MILLION)
            case None => 0
            case Some(c) => c
  {
    if steps != [] && value < steps[0].step {
      IntervalAgreesWithBooster(steps[1..], value);
    }
  }

  ghost predicate StrictlyDescending(steps: seq<BoostStep>) {
    forall i, j :: 0 <= i < j < |steps| ==> steps[j].step < steps[i].step
  }

  /**
   * Below the largest step, `next` is the least value with another boost in the table, and it has
   * exactly `nextBoost`.
   */
  lemma NextIsLeastTopUp(steps: seq<BoostStep>, value: u64, other: u64)
    requires StrictlyDescending(steps) && steps != [] && value < steps[0].step
    ensures var here := IntervalAt(steps, value);
            && value < here.next
            && IntervalAt(steps, here.next).boost == here.nextBoost
            && (value <= other < here.next ==> IntervalAt(steps, other).boost == here.boost)
  {
    var i := FirstReached(steps, value);
    assert i > 0;
    var next := steps[i - 1].step;
    FirstReachedIs(steps, next, i - 1);
    if value <= other < next {
      assert forall j :: 0 <= j < i ==> steps[j].step >= next;
      FirstReachedIs(steps, other, i);
    }
  }

  /** From the largest step on nothing follows: the largest boost, and no next one. */
  lemma NothingAboveTheTop(steps: seq<BoostStep>, value: u64)
    ensures steps == [] ==> IntervalAt(steps, value) == Interval(0, 0, 0)
    ensures steps != [] && value >= steps[0].step ==> IntervalAt(steps, value) == Interval(steps[0].coef, 0, 0)
  {
    if steps != [] && value >= steps[0].step {
      FirstReachedIs(steps, value, 0);
    }
  }

  /** The difference shown as missing, taken on 256-bit words. */
  function Missing(value: u64): u256 {
    Sub(IntervalAt(PROJECT_STEPS, value).next, value)
  }

  /**
   * The missing amount really tops the value up to the next step if and only if the value is below the
   * largest step.
   */
  lemma MissingTopsUp(value: u64)
    ensures Missing(value) + value == IntervalAt(PROJECT_STEPS, value).next <==> value < 5000
    ensures value >= 5000 ==> Missing(value) == TWO_256 - value
  {
    if value >= 5000 {
      NothingAboveTheTop(PROJECT_STEPS, value);
    } else {
      NextIsLeastTopUp(PROJECT_STEPS, value, value);
    }
  }

  // ----- The quote of a purchase

  /** The purchase the resolvers make up; `text` is the printed value. */
  function FakeBuy(wallet: string, now: Time, text: string): DomainEvent {
    DomainEvent(now, map["value" := text], map[], EventId("", 0), "", "minter:buy", "", wallet, [])
  }

  /** Go's `int`. */
  type i64 = x: int | -0x8000_0000_0000_0000 <= x < 0x8000_0000_0000_0000

  /** The value in token units, as the machine multiplies. */
  function TokenUnits(value: i64): i64 {
    var p := (value * MILLION) % TWO_64;
    if p < 0x8000_0000_0000_0000 then p else p - TWO_64
  }

  /** The product is taken modulo 2^64, into the machine's range. */
  lemma TokenUnitsWrap(value: i64) returns (turns: int)
    ensures value * 1_000_000 == TokenUnits(value) + turns * 0x1_0000_0000_0000_0000
    ensures Plain(value) ==> turns == 0
  {
    var product := value * MILLION;
    turns := product / TWO_64;
    if product % TWO_64 >= 0x8000_0000_0000_0000 {
      turns := turns + 1;
    }
  }

  /** The mint-page manager leaves one score, the points scaled by their coefficient, or exits on an unreadable text. */
  lemma MintPageScores(env: Env, wallet: string, now: Time, text: string, points: nat)
    requires points < 0x8000_0000_0000_0000
    requires env.parse(text) == Some(points)
    ensures var r := ScoreLog(env, MINT_PAGE_MANAGER, [FakeBuy(wallet, now, text)], []);
            && r.Some? && |r.value| == 1
            && r.value[0].points == Scaled(points, Par(ValueCoefficient(PROJECT_STEPS, points)))
  {
    var buy := FakeBuy(wallet, now, text);
    var b := ProjectValue(PROJECT_STEPS);
    var raw := Score(points, AmountFunded, [], buy);
    assert Lookup(buy.data, "value") == text;
    assert Compute(env, AmountFundedBuilder, buy, []) == Added(raw);
    TablesAreTiered();
    ValueInTable(PROJECT_STEPS, raw.points, 300);
    AppliedScales(env, b, buy, raw);
    assert Boosted(env, [b], buy, raw) == Applied(env, b, buy, raw) by {
      assert [b][1..] == [];
    }
    MintPageRuns(env, buy);
  }

  lemma MintPageExits(env: Env, wallet: string, now: Time, text: string)
    requires env.parse(text) == None
    ensures ScoreLog(env, MINT_PAGE_MANAGER, [FakeBuy(wallet, now, text)], []) == None
  {
    var buy := FakeBuy(wallet, now, text);
    assert Lookup(buy.data, "value") == text;
    assert [buy][..0] == [];
    assert ScoreLog(env, MINT_PAGE_MANAGER, [buy], []) == ScoreEvent(env, MINT_PAGE_MANAGER, buy, []);
    assert Produce(env, MINT_PAGE_MANAGER, AmountFundedBuilder, buy, []) == Fatal;
  }

  lemma MintPageRuns(env: Env, e: DomainEvent)
    requires Compute(env, AmountFundedBuilder, e, []).Added? && e.IsFunding()
    ensures ScoreLog(env, MINT_PAGE_MANAGER, [e], []) ==
            Some([Boosted(env, MINT_PAGE_MANAGER.boosters, e, Compute(env, AmountFundedBuilder, e, []).score)])
  {
    var s := Boosted(env, MINT_PAGE_MANAGER.boosters, e, Compute(env, AmountFundedBuilder, e, []).score);
    assert [e][..0] == [];
    assert ScoreLog(env, MINT_PAGE_MANAGER, [e], []) == ScoreEvent(env, MINT_PAGE_MANAGER, e, []);
    assert Produce(env, MINT_PAGE_MANAGER, AmountFundedBuilder, e, []) == Added(s);
    RunOne(env, MINT_PAGE_MANAGER, MINT_PAGE_MANAGER.builders, e, []);
    assert MINT_PAGE_MANAGER.builders[1..] == [] && [] + [s] == [s];
    assert RunBuilders(env, MINT_PAGE_MANAGER, [], e, [s]) == Some([s]);
  }

  /** Scaling by a million and back commutes with taking a percentage. */
  lemma ScaleBack(value: nat, coef: nat)
    ensures Scaled(value * 1_000_000, coef) / 1_000_000 == Scaled(value, coef)
  {
    var product := value * coef;
    assert value * 1_000_000 * coef == product * 1_000_000;
  }

  lemma OneScoreTotal(scores: seq<Score>)
    requires |scores| == 1
    ensures TotalScore(scores) == Div(scores[0].points, MILLION)
  {
    assert scores[..0] == [] && PointsOf()(scores[0]) == scores[0].points;
    assert SumBy(PointsOf(), scores) == SumBy(PointsOf(), scores[..0]) + scores[0].points;
  }

  datatype Quote = Quote(value: i64, totalScore: u256, boost: u64)

  /** A whole number of dollars whose token units are not negative and fit the machine. */
  predicate Plain(value: i64) {
    0 <= value && value * MILLION < 0x8000_0000_0000_0000
  }

  /** The total quoted for points that were parsed from the text. */
  function QuotedPoints(points: u256): u256
    requires points < 0x8000_0000_0000_0000
  {
    TablesAreTiered();
    ValueInTable(PROJECT_STEPS, points, 300);
    ScaledMonotone(points, points, Par(ValueCoefficient(PROJECT_STEPS, points)), 300);
    Div(Scaled(points, Par(ValueCoefficient(PROJECT_STEPS, points))), MILLION)
  }

  /**
   * What the resolver answers. The text printed for a negative product has a sign and cannot be
   * parsed, which ends the process; the interval reads the value as an unsigned word. For a plain
   * value the total is the value scaled by the quoted boost (by 100 when there is none).
   */
  method BoostForWallet(env: Env, format: Printer, wallet: string, now: Time, value: i64,
                        text: string) returns (quote: Option<Quote>)
    requires env.parse(text) == if TokenUnits(value) >= 0 then Some(TokenUnits(value)) else None
    ensures quote.Some? <==> TokenUnits(value) >= 0
    ensures quote.Some? ==>
      && quote.value.value == value
      && quote.value.boost == IntervalAt(PROJECT_STEPS, value % TWO_64).boost
      && quote.value.totalScore == QuotedPoints(TokenUnits(value))
    ensures Plain(value) ==>
      quote.Some? && quote.value.totalScore == Scaled(value, if quote.value.boost == 0 then 100 else quote.value.boost)
  {
    var events := new DomainEvent[1](_ => FakeBuy(wallet, now, text));
    var ranking := new PersonnalRanking(wallet, events);
    OnlyOutcome(FakeBuy(wallet, now, text), ranking.events);
    QuoteScores(env, wallet, now, text, value);
    var line := ranking.ComputeScore(env, MINT_PAGE_MANAGER, format);
    if line.None? {
      return None;
    }
    var interval := GetInterval(PROJECT_STEPS, value % TWO_64);
    return Some(Quote(value, line.value.totalScore, interval.boost));
  }

  lemma OnlyOutcome(e: DomainEvent, log: seq<DomainEvent>)
    requires SortOutcome([e], log)
    ensures log == [e]
  {
    OutcomeLengths([e], log);
    PermutationMember([e], log, log[0]);
  }

  lemma QuoteScores(env: Env, wallet: string, now: Time, text: string, value: i64)
    requires env.parse(text) == if TokenUnits(value) >= 0 then Some(TokenUnits(value)) else None
    ensures var r := ScoreLog(env, MINT_PAGE_MANAGER, [FakeBuy(wallet, now, text)], []);
            && (r.Some? <==> TokenUnits(value) >= 0)
            && (r.Some? ==> TotalScore(r.value) == QuotedPoints(TokenUnits(value)))
    ensures Plain(value) ==>
      && TokenUnits(value) == value * MILLION
      && var boost := IntervalAt(PROJECT_STEPS, value % TWO_64).boost;
         QuotedPoints(TokenUnits(value)) == Scaled(value, if boost == 0 then 100 else boost)
  {
    if TokenUnits(value) >= 0 {
      MintPageScores(env, wallet, now, text, TokenUnits(value));
      OneScoreTotal(ScoreLog(env, MINT_PAGE_MANAGER, [FakeBuy(wallet, now, text)], []).value);
    } else {
      MintPageExits(env, wallet, now, text);
    }
    if Plain(value) {
      PlainQuote(value);
    }
  }

  lemma PlainQuote(value: i64)
    requires Plain(value)
    ensures TokenUnits(value) == value * MILLION && value % TWO_64 == value
    ensures var boost := IntervalAt(PROJECT_STEPS, value).boost;
            QuotedPoints(value * MILLION) == Scaled(value, if boost == 0 then 100 else boost)
  {
    IntervalAgreesWithBooster(PROJECT_STEPS, value);
    TablesAreTiered();
    ValueInTable(PROJECT_STEPS, value * MILLION, 300);
    ScaleBack(value, Par(ValueCoefficient(PROJECT_STEPS, value * MILLION)));
  }
}
