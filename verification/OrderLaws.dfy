/** When the order of a log does not change what it is worth. */
module OrderLaws {
  import opened Wrappers
  import opened U256
  import opened Sequences
  import opened Events
  import opened Scoring
  import opened Bonuses
  import opened Totals
  import opened TieOrders

  /** Points an event earns by funding, resaling or offsetting, whatever came before it. */
  function FundedBy(env: Env): DomainEvent -> nat {
    (e: DomainEvent) => if e.IsFunding() && Readable(env, e) then FundingScore(env, e).points else 0
  }

  function ResoldBy(env: Env): DomainEvent -> nat {
    (e: DomainEvent) =>
      match ClaimScore(env, e)
      case None => 0
      case Some(s) => if s.rule == Resaler then s.points else 0
  }

  function OffsetBy(env: Env): DomainEvent -> nat {
    (e: DomainEvent) =>
      match ClaimScore(env, e)
      case None => 0
      case Some(s) => if s.rule == Offseter then s.points else 0
  }

  lemma StepSums(env: Env, v: View, e: DomainEvent)
    requires Readable(env, e)
    ensures var v' := StepView(env, v, e);
            && v'.funded == v.funded + FundedBy(env)(e)
            && v'.resold == v.resold + ResoldBy(env)(e)
            && v'.offset == v.offset + OffsetBy(env)(e)
  {
    if e.IsFunding() {
      FundingIsNoted(env, [], e);
    }
  }

  /** Sums that do not depend on earlier scores are plain sums over the log. */
  lemma {:induction false} LogSums(env: Env, log: seq<DomainEvent>)
    requires AllReadable(env, log)
    ensures LogView(env, log).funded == SumBy(FundedBy(env), log)
    ensures LogView(env, log).resold == SumBy(ResoldBy(env), log)
    ensures LogView(env, log).offset == SumBy(OffsetBy(env), log)
  {
    if log != [] {
      var n := |log| - 1;
      LogSums(env, log[..n]);
      StepSums(env, LogView(env, log[..n]), log[n]);
    }
  }

  ghost predicate AllNamed(log: seq<DomainEvent>) {
    forall e <- log :: e.ProjectName().Some?
  }

  /** The log is empty or opens with a funding event. */
  predicate FundingFirst(log: seq<DomainEvent>) {
    log != [] ==> log[0].IsFunding()
  }

  lemma NamedLogIsEarlyOpen(env: Env, log: seq<DomainEvent>)
    requires AllNamed(log)
    ensures forall i: nat :: i <= |log| ==> EarlyOpen(env, log, i)
  {
  }

  /** In a log of named events every listed project seen gets its early-adopter bonus. */
  lemma NamedLogEarly(env: Env, log: seq<DomainEvent>, p: string)
    requires AllReadable(env, log) && AllNamed(log)
    ensures p in LogView(env, log).early <==> p in POINTS_PER_PROJECT && exists e <- log :: e.ProjectName() == Some(p)
  {
    FullLog(log);
    HoldersByPosition(env, log, p, |log|);
    NamedLogIsEarlyOpen(env, log);
    if e :| e in log && e.ProjectName() == Some(p) && p in POINTS_PER_PROJECT {
      var i :| 0 <= i < |log| && log[i] == e;
      assert EarnedEarlyBefore(env, log, p, |log|);
    }
  }

  lemma PermutedLog(a: seq<DomainEvent>, b: seq<DomainEvent>, env: Env)
    requires Permutation(a, b)
    ensures forall e :: e in a <==> e in b
    ensures AllReadable(env, a) <==> AllReadable(env, b)
    ensures AllNamed(a) <==> AllNamed(b)
  {
    forall e: DomainEvent
      ensures e in a <==> e in b
    {
      PermutationMember(a, b, e);
    }
  }

  lemma PermutedEarly(env: Env, a: seq<DomainEvent>, b: seq<DomainEvent>)
    requires Permutation(a, b) && AllNamed(a) && AllNamed(b)
    requires AllReadable(env, a) && AllReadable(env, b)
    ensures LogView(env, a).early == LogView(env, b).early
  {
    PermutedLog(a, b, env);
    forall p: string
      ensures p in LogView(env, a).early <==> p in LogView(env, b).early
    {
      NamedLogEarly(env, a, p);
      NamedLogEarly(env, b, p);
    }
  }

  // ----- The project bonuses of a named log, read off its events

  /**
   * In a log of named events: whether the event leaves a score whatever came before it, carries funding,
   * and its project.
   */
  function MarksOf(env: Env): Marks<DomainEvent> {
    Marks((e: DomainEvent) => ScoresAlone(env, e) || Listed(e),
          (e: DomainEvent) => e.IsFunding(),
          (e: DomainEvent) => Lookup(e.metadata, "project_name"))
  }

  /** The projects of the events after the first one that scores, and its own project when it carries funding. */
  function BonusNames(env: Env, log: seq<DomainEvent>): set<string> {
    EarnedNames(MarksOf(env), log)
  }

  lemma NamesAfter(env: Env, log: seq<DomainEvent>, k: nat, p: string)
    requires k < |log| && AllNamed(log)
    ensures NamedIn(MarksOf(env), log[k + 1..], p) <==> exists i :: k < i < |log| && log[i].ProjectName() == Some(p)
  {
    var m, rest := MarksOf(env), log[k + 1..];
    if i :| 0 <= i < |rest| && m.name(rest[i]) == p {
      assert rest[i] == log[k + 1 + i] && log[k + 1 + i].ProjectName() == Some(p);
    }
    if i :| k < i < |log| && log[i].ProjectName() == Some(p) {
      assert rest[i - k - 1] == log[i];
    }
  }

  function IsNamed(): DomainEvent -> bool {
    (e: DomainEvent) => e.ProjectName().Some?
  }

  /** The marks name and fund as events do, and tell when the first named score is left. */
  ghost predicate MarksFit(env: Env, log: seq<DomainEvent>, m: Marks<DomainEvent>) {
    && (forall e <- log :: e.ProjectName().Some? ==>
          m.name(e) == e.ProjectName().value && m.funds(e) == e.IsFunding() && (m.funds(e) ==> m.scores(e)))
    && (forall i: nat :: i < |log| && log[i].ProjectName().Some? && m.scores(log[i]) ==> LeavesNamed(env, log, i))
    && (forall i: nat :: i < |log| && LeavesNamed(env, log, i) ==>
          exists j :: 0 <= j <= i && log[j].ProjectName().Some? && m.scores(log[j]))
  }

  lemma ScorerIsKept(log: seq<DomainEvent>, m: Marks<DomainEvent>, n: nat, j: nat)
    requires j < n <= |log| && log[j].ProjectName().Some? && m.scores(log[j])
    ensures HasScorer(m, Filter(IsNamed(), log[..n]))
  {
    assert log[..n][j] == log[j];
    FilterMember(IsNamed(), log[..n], log[j]);
    ScorerInside(m, Filter(IsNamed(), log[..n]), log[j]);
  }

  lemma KeptScorer(log: seq<DomainEvent>, m: Marks<DomainEvent>, n: nat) returns (j: nat)
    requires n <= |log| && HasScorer(m, Filter(IsNamed(), log[..n]))
    ensures j < n && log[j].ProjectName().Some? && m.scores(log[j])
  {
    var kept := Filter(IsNamed(), log[..n]);
    var e := kept[FirstScorer(m, kept)];
    FilterMember(IsNamed(), log[..n], e);
    j :| 0 <= j < n && log[..n][j] == e;
  }

  lemma NamedScorerBefore(env: Env, log: seq<DomainEvent>, m: Marks<DomainEvent>, n: nat)
    requires MarksFit(env, log, m) && n <= |log|
    ensures NamedBefore(env, log, n) <==> HasScorer(m, Filter(IsNamed(), log[..n]))
  {
    if NamedBefore(env, log, n) {
      var i: nat :| i < n && LeavesNamed(env, log, i);
      var j :| 0 <= j <= i && log[j].ProjectName().Some? && m.scores(log[j]);
      ScorerIsKept(log, m, n, j);
    }
    if HasScorer(m, Filter(IsNamed(), log[..n])) {
      var j := KeptScorer(log, m, n);
      assert LeavesNamed(env, log, j);
    }
  }

  lemma ViewHasScorer(env: Env, log: seq<DomainEvent>, m: Marks<DomainEvent>, n: nat)
    requires AllReadable(env, log) && MarksFit(env, log, m) && n <= |log|
    ensures AllReadable(env, log[..n])
    ensures var v := LogView(env, log[..n]);
            Sane(v) && (v.named <==> HasScorer(m, Filter(IsNamed(), log[..n])))
  {
    NamesByPosition(env, log, n);
    NamedScorerBefore(env, log, m, n);
  }

  /** The names that hold the project bonus after the first events of a log. */
  function HoldersAfter(env: Env, log: seq<DomainEvent>): nat -> set<string> {
    (n: nat) => if n <= |log| && AllReadable(env, log[..n]) then LogView(env, log[..n]).projects else {}
  }

  lemma HoldersStep(env: Env, log: seq<DomainEvent>, m: Marks<DomainEvent>, n: nat)
    requires AllReadable(env, log) && MarksFit(env, log, m) && n < |log|
    ensures HoldersAfter(env, log)(n + 1) == HoldersAfter(env, log)(n) +
      if IsNamed()(log[n]) && (m.funds(log[n]) || HasScorer(m, Filter(IsNamed(), log[..n]))) then {m.name(log[n])} else {}
  {
    ViewHasScorer(env, log, m, n);
    LogViewStep(env, log, n);
    StepHolders(env, LogView(env, log[..n]), log[n]);
    assert log[n] in log;
  }

  /** The names earned in the named part of a log are the names that hold the project bonus. */
  lemma ProjectsFromMarks(env: Env, log: seq<DomainEvent>, m: Marks<DomainEvent>)
    requires AllReadable(env, log) && MarksFit(env, log, m)
    ensures LogView(env, log).projects == EarnedNames(m, Filter(IsNamed(), log))
  {
    forall n: nat | n < |log|
      ensures HoldersAfter(env, log)(n + 1) == HoldersAfter(env, log)(n) +
        if IsNamed()(log[n]) && (m.funds(log[n]) || HasScorer(m, Filter(IsNamed(), log[..n]))) then {m.name(log[n])} else {}
    {
      HoldersStep(env, log, m, n);
    }
    HoldersAreEarned(m, IsNamed(), log, HoldersAfter(env, log), |log|);
    FullLog(log);
  }

  /** The names read off the events are the names that hold the project bonus in the scores. */
  lemma NamedLogProjects(env: Env, log: seq<DomainEvent>)
    requires AllReadable(env, log) && AllNamed(log)
    ensures LogView(env, log).projects == BonusNames(env, log)
    ensures forall p :: p in BonusNames(env, log) <==> RuleApplied(NumberOfProjects, p, ScoreLogValue(env, log))
  {
    NamedLogIsEarlyOpen(env, log);
    ProjectsFromMarks(env, log, MarksOf(env));
    FilterAll(IsNamed(), log);
    LogScores(env, log);
    forall p: string
      ensures p in BonusNames(env, log) <==> RuleApplied(NumberOfProjects, p, ScoreLogValue(env, log))
    {
      ViewSeesHolders(ScoreLogValue(env, log), p);
    }
  }

  // ----- What the order of any log can change

  /** The points (before scaling) of the early-adopter and project bonuses of a log. */
  function BonusWorth(env: Env, log: seq<DomainEvent>): nat
    requires AllReadable(env, log)
  {
    EarlyWeight(LogView(env, log).early) + 200 * |LogView(env, log).projects|
  }

  /** The exact total, by what each part of it comes from. */
  lemma LogTotal(env: Env, log: seq<DomainEvent>)
    requires AllReadable(env, log)
    ensures var v := LogView(env, log);
            && ExactTotal(ScoreLogValue(env, log)) == v.funded + v.resold + v.offset + 1_000_000 * BonusWorth(env, log)
            && FundSum(v) == v.funded + 1_000_000 * BonusWorth(env, log)
  {
    var scores := ScoreLogValue(env, log);
    LogScores(env, log);
    LogCounted(env, log);
    CategoriesPartition(scores);
    ViewFundSum(scores);
    ViewFarmingSum(scores);
  }

  lemma PermutedParts(env: Env, a: seq<DomainEvent>, b: seq<DomainEvent>)
    requires Permutation(a, b) && AllReadable(env, a)
    ensures AllReadable(env, b)
    ensures var va, vb := LogView(env, a), LogView(env, b);
            va.funded == vb.funded && va.resold == vb.resold && va.offset == vb.offset
  {
    PermutedLog(a, b, env);
    LogSums(env, a);
    LogSums(env, b);
    SumPermutation(FundedBy(env), a, b);
    SumPermutation(ResoldBy(env), a, b);
    SumPermutation(OffsetBy(env), a, b);
  }

  /** Two orders of one log differ by the worth of their bonuses, and in nothing else. */
  lemma OrdersDifferInBonusesOnly(env: Env, a: seq<DomainEvent>, b: seq<DomainEvent>)
    requires Permutation(a, b) && AllReadable(env, a)
    ensures AllReadable(env, b)
    ensures var sa, sb := ScoreLogValue(env, a), ScoreLogValue(env, b);
            var wa, wb := BonusWorth(env, a), BonusWorth(env, b);
            && ExactTotal(sa) + 1_000_000 * wb == ExactTotal(sb) + 1_000_000 * wa
            && (ExactTotal(sa) < TWO_256 && ExactTotal(sb) < TWO_256 ==> TotalScore(sa) + wb == TotalScore(sb) + wa)
            && (wa == wb ==> TotalScore(sa) == TotalScore(sb) && Categories(sa) == Categories(sb))
  {
    PermutedParts(env, a, b);
    LogTotal(env, a);
    LogTotal(env, b);
    ShiftedTotals(ScoreLogValue(env, a), ScoreLogValue(env, b), BonusWorth(env, a), BonusWorth(env, b));
    if BonusWorth(env, a) == BonusWorth(env, b) {
      SameWorthSameTotals(env, a, b);
    }
  }

  /** Differences of whole points before scaling are differences of the total, which rounding keeps. */
  lemma ShiftedTotals(sa: seq<Score>, sb: seq<Score>, wa: nat, wb: nat)
    requires ExactTotal(sa) + 1_000_000 * wb == ExactTotal(sb) + 1_000_000 * wa
    ensures ExactTotal(sa) < TWO_256 && ExactTotal(sb) < TWO_256 ==> TotalScore(sa) + wb == TotalScore(sb) + wa
  {
    if ExactTotal(sa) < TWO_256 && ExactTotal(sb) < TWO_256 {
      assert TotalScore(sa) == ExactTotal(sa) / 1_000_000 && TotalScore(sb) == ExactTotal(sb) / 1_000_000;
    }
  }

  lemma SameWorthSameTotals(env: Env, a: seq<DomainEvent>, b: seq<DomainEvent>)
    requires Permutation(a, b) && AllReadable(env, a) && AllReadable(env, b) && BonusWorth(env, a) == BonusWorth(env, b)
    ensures var sa, sb := ScoreLogValue(env, a), ScoreLogValue(env, b);
            TotalScore(sa) == TotalScore(sb) && Categories(sa) == Categories(sb)
  {
    PermutedParts(env, a, b);
    LogTotal(env, a);
    LogTotal(env, b);
    LogScores(env, a);
    LogScores(env, b);
    TotalsFromView(ScoreLogValue(env, a), ScoreLogValue(env, b));
  }

  /**
   * For named events that is 200 points for each project that earns its bonus in one of the orders only.
   */
  lemma OrdersDifferInProjectsOnly(env: Env, a: seq<DomainEvent>, b: seq<DomainEvent>)
    requires Permutation(a, b) && AllNamed(a) && AllReadable(env, a)
    ensures AllReadable(env, b)
    ensures var sa, sb := ScoreLogValue(env, a), ScoreLogValue(env, b);
            var na, nb := |BonusNames(env, a)|, |BonusNames(env, b)|;
            && ExactTotal(sa) + 200_000_000 * nb == ExactTotal(sb) + 200_000_000 * na
            && (ExactTotal(sa) < TWO_256 && ExactTotal(sb) < TWO_256 ==> TotalScore(sa) + 200 * nb == TotalScore(sb) + 200 * na)
            && (na == nb ==> TotalScore(sa) == TotalScore(sb) && Categories(sa) == Categories(sb))
  {
    OrdersDifferInBonusesOnly(env, a, b);
    PermutedLog(a, b, env);
    PermutedEarly(env, a, b);
    NamedLogProjects(env, a);
    NamedLogProjects(env, b);
  }

  /** If the log opens with funding, every project seen gets its project bonus. */
  lemma FundingFirstProjects(env: Env, log: seq<DomainEvent>, p: string)
    requires AllReadable(env, log) && AllNamed(log) && FundingFirst(log)
    ensures RuleApplied(NumberOfProjects, p, ScoreLogValue(env, log)) <==> exists e <- log :: e.ProjectName() == Some(p)
  {
    NamedLogProjects(env, log);
    FundingFirstNames(env, log, p);
  }

  lemma FundingFirstNames(env: Env, log: seq<DomainEvent>, p: string)
    requires AllNamed(log) && FundingFirst(log)
    ensures p in BonusNames(env, log) <==> exists e <- log :: e.ProjectName() == Some(p)
  {
    if log != [] {
      FirstScorerIs(MarksOf(env), log, 0);
      EarnedMeans(MarksOf(env), log, p);
      NamesAfter(env, log, 0, p);
      assert MarksOf(env).name(log[0]) == p <==> log[0].ProjectName() == Some(p);
      if e :| e in log && e.ProjectName() == Some(p) {
        var i :| 0 <= i < |log| && log[i] == e;
      }
    }
  }

  lemma PermutedBonusNames(env: Env, a: seq<DomainEvent>, b: seq<DomainEvent>)
    requires Permutation(a, b) && AllNamed(a) && FundingFirst(a) && FundingFirst(b)
    ensures BonusNames(env, a) == BonusNames(env, b)
  {
    PermutedLog(a, b, env);
    forall p: string
      ensures p in BonusNames(env, a) <==> p in BonusNames(env, b)
    {
      FundingFirstNames(env, a, p);
      FundingFirstNames(env, b, p);
    }
  }

  /** Two orders of one log of named events, both opening with funding, are worth the same. */
  lemma OrderDoesNotMatter(env: Env, a: seq<DomainEvent>, b: seq<DomainEvent>)
    requires Permutation(a, b) && AllNamed(a) && FundingFirst(a) && FundingFirst(b)
    ensures AllReadable(env, a) <==> AllReadable(env, b)
    ensures AllReadable(env, a) ==>
      && TotalScore(ScoreLogValue(env, a)) == TotalScore(ScoreLogValue(env, b))
      && Categories(ScoreLogValue(env, a)) == Categories(ScoreLogValue(env, b))
  {
    PermutedLog(a, b, env);
    if AllReadable(env, a) {
      PermutedBonusNames(env, a, b);
      OrdersDifferInProjectsOnly(env, a, b);
    }
  }
}
