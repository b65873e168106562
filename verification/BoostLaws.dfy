/** What the two boosters do to funded points, taken together. */
module BoostLaws {
  import opened Wrappers
  import opened U256
  import opened Events
  import opened Boosts
  import opened Sequences

  const FULL_BOOSTERS := [Karathuru(KARATHURU_STEPS), ProjectValue(PROJECT_STEPS)]

  /** No product overflows while a value is boosted by both boosters. */
  predicate Fits(value: nat) {
    value * 900 < TWO_256
  }

  /** The points a funded value is worth after the boosters of the full manager. */
  function BoostedPoints(env: Env, e: DomainEvent, value: u256): u256 {
    Boosted(env, FULL_BOOSTERS, e, Score(value, AmountFunded, [], e)).points
  }

  /** A coefficient, counting "no step applies" as par. */
  function Par(c: Option<u64>): u64 {
    if c.None? then 100 else c.value
  }

  /** Coefficients between par and three times par that never rise along the table. */
  predicate Tiered(steps: seq<BoostStep>) {
    && (forall i :: 0 <= i < |steps| ==> 100 <= steps[i].coef <= 300)
    && (forall i, j :: 0 <= i < j < |steps| ==> steps[j].coef <= steps[i].coef)
  }

  /** Scaling by a percentage without overflow. */
  function Scaled(value: nat, coef: nat): nat {
    value * coef / 100
  }

  lemma ScaledMonotone(a: nat, b: nat, ca: nat, cb: nat)
    requires a <= b && ca <= cb
    ensures Scaled(a, ca) <= Scaled(b, cb)
  {
    ProductMonotone(a, b, ca, cb);
  }

  lemma ProductMonotone(a: nat, b: nat, ca: nat, cb: nat)
    requires a <= b && ca <= cb
    ensures a * ca <= b * cb
  {
    assert b * cb == a * ca + a * (cb - ca) + (b - a) * cb;
  }

  /** Floors lose at most as much on the whole as on the parts, and the whole has the better rate. */
  lemma ScaledSuperadditive(a: nat, b: nat, ca: nat, cb: nat, c: nat)
    requires ca <= c && cb <= c
    ensures Scaled(a, ca) + Scaled(b, cb) <= Scaled(a + b, c)
  {
    ProductMonotone(a, a, ca, c);
    ProductMonotone(b, b, cb, c);
    assert (a + b) * c == a * c + b * c;
  }

  lemma MulIsScaled(value: u256, coef: u64)
    requires coef <= 300 && value * 300 < TWO_256
    ensures MulCoefficient(value, coef) == Scaled(value, coef)
  {
    ProductMonotone(value, value, coef, 300);
  }

  lemma {:induction false} MilestoneInTable(steps: seq<BoostStep>, collected: u256)
    requires Tiered(steps)
    ensures 100 <= Par(MilestoneCoefficient(steps, collected)) <= 300
  {
    if steps != [] {
      MilestoneInTable(steps[1..], collected);
    }
  }

  lemma {:induction false} ValueInTable(steps: seq<BoostStep>, points: u256, cap: nat)
    requires Tiered(steps) && 100 <= cap
    requires forall i :: 0 <= i < |steps| ==> steps[i].coef <= cap
    ensures 100 <= Par(ValueCoefficient(steps, points)) <= cap
  {
    if steps != [] {
      ValueInTable(steps[1..], points, cap);
    }
  }

  /** More points never earn a worse coefficient. */
  lemma {:induction false} ValueCoefficientMonotone(steps: seq<BoostStep>, a: u256, b: u256)
    requires Tiered(steps) && a <= b
    ensures Par(ValueCoefficient(steps, a)) <= Par(ValueCoefficient(steps, b))
  {
    if steps != [] {
      if b < Threshold(steps[0].step) {
        ValueCoefficientMonotone(steps[1..], a, b);
      } else if a < Threshold(steps[0].step) {
        ValueInTable(steps[1..], a, steps[0].coef);
      }
    }
  }

  /** The rate of the first booster: it depends on the event, not on the value. */
  function MilestoneRate(env: Env, e: DomainEvent): u64 {
    var b := FULL_BOOSTERS[0];
    if Check(b, e) then Par(Coefficient(env, b, e, 0)) else 100
  }

  /** The rate of the second booster on points the first has already raised. */
  function ValueRate(e: DomainEvent, points: u256): u64 {
    if Check(FULL_BOOSTERS[1], e) then Par(ValueCoefficient(PROJECT_STEPS, points)) else 100
  }

  lemma TablesAreTiered()
    ensures Tiered(KARATHURU_STEPS) && Tiered(PROJECT_STEPS)
  {
  }

  lemma RatesInTable(env: Env, e: DomainEvent, points: u256)
    ensures 100 <= MilestoneRate(env, e) <= 300
    ensures 100 <= ValueRate(e, points) <= 300
  {
    TablesAreTiered();
    ValueInTable(PROJECT_STEPS, points, 300);
    if env.minterValue("Karathuru", e.recordedAt).Some? {
      MilestoneInTable(KARATHURU_STEPS, env.minterValue("Karathuru", e.recordedAt).value);
    }
  }

  lemma AppliedScales(env: Env, b: Booster, e: DomainEvent, s: Score)
    requires s.rule == AmountFunded && s.points * 300 < TWO_256
    requires Par(Coefficient(env, b, e, s.points)) <= 300
    ensures Applied(env, b, e, s).points == Scaled(s.points, Par(Coefficient(env, b, e, s.points)))
    ensures Applied(env, b, e, s).rule == AmountFunded
  {
    MulIsScaled(s.points, Par(Coefficient(env, b, e, s.points)));
  }

  lemma TwoBoosters(env: Env, e: DomainEvent, s: Score)
    ensures var first, second := Karathuru(KARATHURU_STEPS), ProjectValue(PROJECT_STEPS);
            var middle := if Check(first, e) then Applied(env, first, e, s) else s;
            Boosted(env, FULL_BOOSTERS, e, s) == if Check(second, e) then Applied(env, second, e, middle) else middle
  {
    var first, second := Karathuru(KARATHURU_STEPS), ProjectValue(PROJECT_STEPS);
    var middle := if Check(first, e) then Applied(env, first, e, s) else s;
    assert FULL_BOOSTERS[0] == first && FULL_BOOSTERS[1..] == [second] && [second][1..] == [];
    assert Boosted(env, FULL_BOOSTERS, e, s) == Boosted(env, [second], e, middle);
  }

  /** Without overflow, boosting is one scaling after another. */
  lemma BoostedIsTwoScalings(env: Env, e: DomainEvent, value: u256)
    requires Fits(value)
    ensures Scaled(value, MilestoneRate(env, e)) <= 3 * value
    ensures BoostedPoints(env, e, value) ==
            Scaled(Scaled(value, MilestoneRate(env, e)), ValueRate(e, Scaled(value, MilestoneRate(env, e))))
  {
    var start := Score(value, AmountFunded, [], e);
    var first, second := FULL_BOOSTERS[0], FULL_BOOSTERS[1];
    var middle := if Check(first, e) then Applied(env, first, e, start) else start;
    TwoBoosters(env, e, start);
    RatesInTable(env, e, 0);
    ScaledMonotone(value, value, MilestoneRate(env, e), 300);
    if Check(first, e) {
      assert Coefficient(env, first, e, value) == Coefficient(env, first, e, 0);
      AppliedScales(env, first, e, start);
    }
    assert middle.points == Scaled(value, MilestoneRate(env, e)) && middle.rule == AmountFunded;
    RatesInTable(env, e, middle.points);
    if Check(second, e) {
      AppliedScales(env, second, e, middle);
    }
  }

  lemma ScaledBounds(value: nat, coef: nat)
    requires 100 <= coef <= 300
    ensures value <= Scaled(value, coef) <= 3 * value
  {
    ScaledMonotone(value, value, 100, coef);
    ScaledMonotone(value, value, coef, 300);
  }

  /** A boost never takes points away and never multiplies by more than nine. */
  lemma BoostBounded(env: Env, e: DomainEvent, value: u256)
    requires Fits(value)
    ensures value <= BoostedPoints(env, e, value) <= 9 * value
  {
    BoostedIsTwoScalings(env, e, value);
    var raised := Scaled(value, MilestoneRate(env, e));
    RatesInTable(env, e, raised);
    ScaledBounds(value, MilestoneRate(env, e));
    ScaledBounds(raised, ValueRate(e, raised));
  }

  /** A larger value never ends up with fewer points. */
  lemma BoostMonotone(env: Env, e: DomainEvent, small: u256, large: u256)
    requires small <= large && Fits(large)
    ensures BoostedPoints(env, e, small) <= BoostedPoints(env, e, large)
  {
    BoostedIsTwoScalings(env, e, small);
    BoostedIsTwoScalings(env, e, large);
    var rate := MilestoneRate(env, e);
    ScaledMonotone(small, large, rate, rate);
    var a, b := Scaled(small, rate), Scaled(large, rate);
    TablesAreTiered();
    ValueCoefficientMonotone(PROJECT_STEPS, a, b);
    ScaledMonotone(a, b, ValueRate(e, a), ValueRate(e, b));
  }

  /** Splitting a purchase in two never beats making it at once. */
  lemma SplittingNeverPays(env: Env, e: DomainEvent, v1: u256, v2: u256)
    requires Fits(v1 + v2)
    ensures BoostedPoints(env, e, v1) + BoostedPoints(env, e, v2) <= BoostedPoints(env, e, v1 + v2)
  {
    BoostedIsTwoScalings(env, e, v1);
    BoostedIsTwoScalings(env, e, v2);
    BoostedIsTwoScalings(env, e, v1 + v2);
    var rate := MilestoneRate(env, e);
    var a, b, whole := Scaled(v1, rate), Scaled(v2, rate), Scaled(v1 + v2, rate);
    ScaledSuperadditive(v1, v2, rate, rate, rate);
    TablesAreTiered();
    ValueCoefficientMonotone(PROJECT_STEPS, a, whole);
    ValueCoefficientMonotone(PROJECT_STEPS, b, whole);
    ScaledSuperadditive(a, b, ValueRate(e, a), ValueRate(e, b), ValueRate(e, whole));
    ScaledMonotone(a + b, whole, ValueRate(e, whole), ValueRate(e, whole));
  }

  /** The same for any number of parts. */
  lemma {:induction false} SplittingManyNeverPays(env: Env, e: DomainEvent, parts: seq<u256>)
    requires Fits(SumBy((v: u256) => v, parts))
    ensures SumBy((v: u256) => BoostedPoints(env, e, v), parts) <=
            BoostedPoints(env, e, SumBy((v: u256) => v, parts))
  {
    var value, points := (v: u256) => v, (v: u256) => BoostedPoints(env, e, v);
    if parts != [] {
      var rest, last := parts[..|parts| - 1], parts[|parts| - 1];
      assert SumBy(value, parts) == SumBy(value, rest) + last;
      SplittingManyNeverPays(env, e, rest);
      SplittingNeverPays(env, e, SumBy(value, rest), last);
      assert SumBy(points, parts) == SumBy(points, rest) + BoostedPoints(env, e, last);
    }
  }

  /** Boosters change nothing but the points and boosts of a funding score. */
  lemma {:induction false} OnlyFundingIsBoosted(env: Env, boosters: seq<Booster>, e: DomainEvent, s: Score)
    ensures Boosted(env, boosters, e, s).rule == s.rule && Boosted(env, boosters, e, s).event == s.event
    ensures s.rule != AmountFunded ==> Boosted(env, boosters, e, s) == s
  {
    if boosters != [] {
      OnlyFundingIsBoosted(env, boosters[1..], e, if Check(boosters[0], e) then Applied(env, boosters[0], e, s) else s);
    }
  }

  /** As the collected value rises, the funding coefficient never does (no step counts as 100). */
  lemma {:induction false} MilestoneNeverRises(steps: seq<BoostStep>, before: u256, after: u256)
    requires Tiered(steps) && before <= after
    ensures Par(MilestoneCoefficient(steps, after)) <= Par(MilestoneCoefficient(steps, before))
  {
    if steps != [] {
      if steps[0].step < before {
        MilestoneNeverRises(steps[1..], before, after);
      } else if steps[0].step < after {
        MilestoneBelow(steps[1..], after, steps[0].coef);
      }
    }
  }

  lemma {:induction false} MilestoneBelow(steps: seq<BoostStep>, collected: u256, cap: nat)
    requires Tiered(steps) && 100 <= cap
    requires forall i :: 0 <= i < |steps| ==> steps[i].coef <= cap
    ensures Par(MilestoneCoefficient(steps, collected)) <= cap
  {
    if steps != [] {
      MilestoneBelow(steps[1..], collected, cap);
    }
  }

  lemma {:induction false} MilestoneAt(steps: seq<BoostStep>, collected: u256, i: nat)
    requires i <= |steps| && (i < |steps| ==> collected <= steps[i].step)
    requires forall j :: 0 <= j < i ==> steps[j].step < collected
    ensures MilestoneCoefficient(steps, collected) == if i < |steps| then Some(steps[i].coef) else None
  {
    if i > 0 {
      MilestoneAt(steps[1..], collected, i - 1);
    }
  }

  /** The funding milestones as tiers of the collected value, upper bounds included. */
  lemma MilestoneTiers(collected: u256)
    ensures Par(MilestoneCoefficient(KARATHURU_STEPS, collected)) ==
            if collected > 700000 then 100 else if collected > 500000 then 110 else if collected > 300000 then 120
            else if collected > 150000 then 150 else if collected > 50000 then 200 else 300
  {
    MilestoneAt(KARATHURU_STEPS, collected,
                if collected > 700000 then 5 else if collected > 500000 then 4 else if collected > 300000 then 3
                else if collected > 150000 then 2 else if collected > 50000 then 1 else 0);
  }

  lemma {:induction false} ValueAt(steps: seq<BoostStep>, points: u256, i: nat)
    requires i <= |steps| && (i < |steps| ==> points >= Threshold(steps[i].step))
    requires forall j :: 0 <= j < i ==> points < Threshold(steps[j].step)
    ensures ValueCoefficient(steps, points) == if i < |steps| then Some(steps[i].coef) else None
  {
    if i > 0 {
      ValueAt(steps[1..], points, i - 1);
    }
  }

  /** The purchase tiers in token units, lower bounds included. */
  lemma ValueTiers(points: u256)
    ensures Par(ValueCoefficient(PROJECT_STEPS, points)) ==
            if points < 500_000_000 then 100 else if points < 1_000_000_000 then 150
            else if points < 5_000_000_000 then 200 else 300
  {
    ValueAt(PROJECT_STEPS, points,
            if points < 500_000_000 then 3 else if points < 1_000_000_000 then 2 else if points < 5_000_000_000 then 1 else 0);
  }

  // ----- Which events are boosted, and by how much

  /** The percentage of a purchase of so many token units. */
  function PurchaseTier(points: nat): nat {
    if points >= 5_000_000_000 then 300 else if points >= 1_000_000_000 then 200 else if points >= 500_000_000 then 150 else 100
  }

  /** The percentage while Karathuru has collected so many dollars; 100 when that is unknown. */
  function MilestoneTier(collected: Option<u256>): nat {
    match collected
    case None => 100
    case Some(c) =>
      if c <= 50_000 then 300 else if c <= 150_000 then 200 else if c <= 300_000 then 150
      else if c <= 500_000 then 120 else if c <= 700_000 then 110 else 100
  }

  lemma TiersAreBounded(points: nat, collected: Option<u256>)
    ensures 100 <= PurchaseTier(points) <= 300 && 100 <= MilestoneTier(collected) <= 300
  {
  }

  /** The record of a boost, if there is one. */
  function Noted(name: string, displayName: string, tier: nat): seq<Boost> {
    if tier == 100 then [] else [Boost(name, displayName, tier)]
  }

  /** Each coefficient of the tables, applied: first multiplied, then divided. */
  lemma ScalesByStep(value: u256)
    requires value * 300 < TWO_256
    ensures MulCoefficient(value, 300) == value * 300 / 100 && MulCoefficient(value, 200) == value * 200 / 100
    ensures MulCoefficient(value, 150) == value * 150 / 100 && MulCoefficient(value, 120) == value * 120 / 100
    ensures MulCoefficient(value, 110) == value * 110 / 100
  {
    FitsWord(value * 300);
    FitsWord(value * 200);
    FitsWord(value * 150);
    FitsWord(value * 120);
    FitsWord(value * 110);
  }

  lemma FitsWord(product: nat)
    requires product < TWO_256
    ensures Wrap(product) == product && Div(product, 100) == product / 100
  {
  }

  /** The purchase booster scales by its tier and notes it. */
  lemma PurchaseBooster(env: Env, e: DomainEvent, s: Score)
    requires s.rule == AmountFunded && s.points * 300 < TWO_256
    ensures var after := Applied(env, ProjectValue(PROJECT_STEPS), e, s);
            && after.points == s.points * PurchaseTier(s.points) / 100
            && after.boosts == s.boosts + Noted("ProjectValue", "Funding Value", PurchaseTier(s.points))
            && after.rule == s.rule && after.event == s.event
  {
    ValueTiers(s.points);
    ValueStepIsBetter(PROJECT_STEPS, s.points);
    ScalesByStep(s.points);
  }

  /** The milestone booster scales by the tier of what the project had collected by then, and notes it. */
  lemma MilestoneBooster(env: Env, e: DomainEvent, s: Score)
    requires s.rule == AmountFunded && s.points * 300 < TWO_256
    ensures var after, tier := Applied(env, Karathuru(KARATHURU_STEPS), e, s), MilestoneTier(env.minterValue("Karathuru", e.recordedAt));
            && after.points == s.points * tier / 100
            && after.boosts == s.boosts + Noted("KarathuruFundingMilestone", "Funding Karathuru", tier)
            && after.rule == s.rule && after.event == s.event
  {
    var collected := env.minterValue("Karathuru", e.recordedAt);
    if collected.Some? {
      MilestoneTiers(collected.value);
      MilestoneStepIsBetter(KARATHURU_STEPS, collected.value);
    }
    ScalesByStep(s.points);
  }

  lemma {:induction false} ValueStepIsBetter(steps: seq<BoostStep>, points: u256)
    requires forall i :: 0 <= i < |steps| ==> steps[i].coef != 100
    ensures ValueCoefficient(steps, points) != Some(100)
  {
    if steps != [] {
      ValueStepIsBetter(steps[1..], points);
    }
  }

  lemma {:induction false} MilestoneStepIsBetter(steps: seq<BoostStep>, collected: u256)
    requires forall i :: 0 <= i < |steps| ==> steps[i].coef != 100
    ensures MilestoneCoefficient(steps, collected) != Some(100)
  {
    if steps != [] {
      MilestoneStepIsBetter(steps[1..], collected);
    }
  }

  predicate IsMintName(name: string) {
    name == "minter:buy" || name == "minter:airdrop"
  }

  predicate OfKarathuru(metadata: Attributes) {
    "project_name" in metadata && metadata["project_name"] == "Karathuru"
  }

  /** A mint of any other project is scaled by the tier of its own value alone. */
  lemma PlainMintIsBoosted(env: Env, e: DomainEvent, value: u256)
    requires Fits(value) && IsMintName(e.eventName) && !OfKarathuru(e.metadata)
    ensures var s := Boosted(env, FULL_BOOSTERS, e, Score(value, AmountFunded, [], e));
            && s.points == value * PurchaseTier(value) / 100 && s.rule == AmountFunded && s.event == e
            && s.boosts == Noted("ProjectValue", "Funding Value", PurchaseTier(value))
  {
    var start := Score(value, AmountFunded, [], e);
    assert |"Karathuru"| == 9;
    assert !Check(Karathuru(KARATHURU_STEPS), e) && Check(ProjectValue(PROJECT_STEPS), e);
    TwoBoosters(env, e, start);
    PurchaseBooster(env, e, start);
  }

  /**
   * A mint of Karathuru is first scaled by the tier of what Karathuru had collected when it was recorded, and
   * then by the tier of the raised points.
   */
  lemma KarathuruMintIsBoosted(env: Env, e: DomainEvent, value: u256)
    requires Fits(value) && IsMintName(e.eventName) && OfKarathuru(e.metadata)
    ensures var tier := MilestoneTier(env.minterValue("Karathuru", e.recordedAt));
            var raised := value * tier / 100;
            var s := Boosted(env, FULL_BOOSTERS, e, Score(value, AmountFunded, [], e));
            && s.points == raised * PurchaseTier(raised) / 100 && s.rule == AmountFunded && s.event == e
            && s.boosts == Noted("KarathuruFundingMilestone", "Funding Karathuru", tier) +
                           Noted("ProjectValue", "Funding Value", PurchaseTier(raised))
  {
    var start := Score(value, AmountFunded, [], e);
    TwoBoosters(env, e, start);
    MilestoneBooster(env, e, start);
    var middle := Applied(env, Karathuru(KARATHURU_STEPS), e, start);
    TiersAreBounded(0, env.minterValue("Karathuru", e.recordedAt));
    ScaledBounds(value, MilestoneTier(env.minterValue("Karathuru", e.recordedAt)));
    PurchaseBooster(env, e, middle);
  }

  /** No other event is boosted: a migration keeps its value. */
  lemma OthersAreNotBoosted(env: Env, e: DomainEvent, s: Score)
    requires !IsMintName(e.eventName)
    ensures Boosted(env, FULL_BOOSTERS, e, s) == s
  {
    assert !Check(Karathuru(KARATHURU_STEPS), e) && !Check(ProjectValue(PROJECT_STEPS), e);
    TwoBoosters(env, e, s);
  }
}
