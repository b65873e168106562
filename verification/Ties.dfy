/** Events that tie in the sort, and when their order can change what a wallet is worth (internal/leaderboard/game.go). */
module Ties {
  import opened Wrappers
  import opened U256
  import opened Sequences
  import opened Events
  import opened BoostLaws
  import opened Scoring
  import opened Bonuses
  import opened Totals
  import opened TieOrders
  import opened OrderLaws
  import opened Game

  /** What the leaderboard shows for a log; None is the process exit on an unreadable funding value. */
  function Shown(env: Env, log: seq<DomainEvent>): Option<(u256, CategorisedScore)> {
    match ScoreLog(env, FULL_MANAGER, log, [])
    case None => None
    case Some(scores) => Some((TotalScore(scores), Categories(scores)))
  }

  /** Whatever the sort does with ties, the leaderboard shows the same. */
  ghost predicate TiesCannotMatter(env: Env, input: seq<DomainEvent>) {
    forall a, b :: SortOutcome(input, a) && SortOutcome(input, b) ==> Shown(env, a) == Shown(env, b)
  }

  // ----- Sorting events is sorting by a key

  function SortKey(): DomainEvent -> int {
    (e: DomainEvent) => Unix(e.recordedAt) * 100_000 + Rank(e)
  }

  lemma LessIsByKey(e1: DomainEvent, e2: DomainEvent)
    ensures Less(e1, e2) <==> SortKey()(e1) < SortKey()(e2)
    ensures SameKey(e1, e2) <==> SortKey()(e1) == SortKey()(e2)
  {
    assert 0 <= Rank(e1) < 100_000 && 0 <= Rank(e2) < 100_000;
  }

  lemma OutcomesByKey(input: seq<DomainEvent>, output: seq<DomainEvent>)
    ensures SortOutcome(input, output) <==> Outcome(SortKey(), input, output)
  {
    forall i, j | 0 <= i < j < |output|
      ensures !Less(output[j], output[i]) <==> SortKey()(output[i]) <= SortKey()(output[j])
    {
      LessIsByKey(output[j], output[i]);
    }
  }

  // ----- The condition

  type EventKey = DomainEvent -> int

  /** No event that closes the early-adopter bonus may come before `e`, whatever the sort does with ties. */
  predicate BeforeClosing(env: Env, key: EventKey, input: seq<DomainEvent>, e: DomainEvent) {
    forall x <- input :: LeavesNameless(env, x) ==> key(e) < key(x)
  }

  /** `x` closes the early-adopter bonus, and no event that does comes before it. */
  predicate ClosesFirst(env: Env, key: EventKey, input: seq<DomainEvent>, x: DomainEvent) {
    x in input && LeavesNameless(env, x) && forall y <- input :: LeavesNameless(env, y) ==> key(x) <= key(y)
  }

  /** A listed event tied with the first closing one only repeats a project of an earlier second or priority. */
  ghost predicate EarlySettled(env: Env, key: EventKey, input: seq<DomainEvent>) {
    forall x, f :: ClosesFirst(env, key, input, x) && f in input && Listed(f) && key(f) == key(x) ==>
      exists g <- input :: key(g) < key(x) && g.ProjectName() == f.ProjectName()
  }

  /**
   * Whether the event leaves a named score (a listed one only before the early-adopter bonus closes),
   * carries funding, and its project.
   */
  function MarksIn(env: Env, key: EventKey, input: seq<DomainEvent>): Marks<DomainEvent> {
    Marks((e: DomainEvent) => ScoresAlone(env, e) || (Listed(e) && BeforeClosing(env, key, input, e)),
          (e: DomainEvent) => e.IsFunding(),
          (e: DomainEvent) => Lookup(e.metadata, "project_name"))
  }

  /**
   * Among the named events that may score first, either each one's project gets its bonus anyway and no
   * named event tied with them adds a project, or each one's project is lost and the named events tied
   * with them only repeat projects of later seconds or priorities.
   */
  ghost predicate ProjectsSettled(env: Env, key: EventKey, input: seq<DomainEvent>) {
    var m, named := MarksIn(env, key, input), Filter(IsNamed(), input);
    NoneLost(key, m, named) || OneLost(key, m, named)
  }

  ghost predicate SettledBy(env: Env, key: EventKey, input: seq<DomainEvent>) {
    EarlySettled(env, key, input) && ProjectsSettled(env, key, input)
  }

  ghost predicate TiesSettled(env: Env, input: seq<DomainEvent>) {
    SettledBy(env, SortKey(), input)
  }

  // ----- What an outcome earns when the early-adopter bonus is settled

  lemma {:induction false} FirstCloser(env: Env, key: EventKey, input: seq<DomainEvent>, part: seq<DomainEvent>) returns (x: DomainEvent)
    requires (forall e <- part :: e in input) && exists y <- part :: LeavesNameless(env, y)
    ensures x in part && LeavesNameless(env, x) && forall y <- part :: LeavesNameless(env, y) ==> key(x) <= key(y)
  {
    var init, last := part[..|part| - 1], part[|part| - 1];
    assert part == init + [last];
    if y :| y in init && LeavesNameless(env, y) {
      x := FirstCloser(env, key, input, init);
      if LeavesNameless(env, last) && key(last) < key(x) {
        x := last;
      }
    } else {
      x := last;
    }
  }

  /** A listed event that finds the bonus open has an equal of its project that surely does, at its place or before. */
  lemma OpenIsSure(env: Env, key: EventKey, input: seq<DomainEvent>, a: seq<DomainEvent>, i: nat) returns (j: nat)
    requires Outcome(key, input, a) && EarlySettled(env, key, input) && i < |a|
    requires Listed(a[i]) && EarlyOpen(env, a, i)
    ensures j <= i && a[j].ProjectName() == a[i].ProjectName() && BeforeClosing(env, key, input, a[j])
  {
    j := i;
    if !BeforeClosing(env, key, input, a[i]) {
      var x := FirstCloser(env, key, input, input);
      assert ClosesFirst(env, key, input, x) && key(x) <= key(a[i]);
      PermutationMember(input, a, x);
      PermutationMember(input, a, a[i]);
      var k :| 0 <= k < |a| && a[k] == x;
      assert k >= i;
      var g :| g in input && key(g) < key(x) && g.ProjectName() == a[i].ProjectName();
      PermutationMember(input, a, g);
      j :| 0 <= j < |a| && a[j] == g;
    }
  }

  lemma SureIsOpen(env: Env, key: EventKey, input: seq<DomainEvent>, a: seq<DomainEvent>, i: nat)
    requires Outcome(key, input, a) && i < |a| && BeforeClosing(env, key, input, a[i])
    ensures EarlyOpen(env, a, i)
  {
    forall j | 0 <= j < i
      ensures !LeavesNameless(env, a[j])
    {
      PermutationMember(input, a, a[j]);
    }
  }

  /** The listed project is seen before the bonus closes, whatever the sort does with ties. */
  ghost predicate SureEarly(env: Env, key: EventKey, input: seq<DomainEvent>, p: string) {
    exists f <- input :: Listed(f) && BeforeClosing(env, key, input, f) && f.ProjectName() == Some(p)
  }

  lemma OutcomeEarly(env: Env, key: EventKey, input: seq<DomainEvent>, a: seq<DomainEvent>, p: string)
    requires Outcome(key, input, a) && EarlySettled(env, key, input) && AllReadable(env, a)
    ensures p in LogView(env, a).early <==> SureEarly(env, key, input, p)
  {
    FullLog(a);
    HoldersByPosition(env, a, p, |a|);
    if EarnedEarlyBefore(env, a, p, |a|) {
      var i :| 0 <= i < |a| && a[i].ProjectName() == Some(p) && Listed(a[i]) && EarlyOpen(env, a, i);
      var j := OpenIsSure(env, key, input, a, i);
      PermutationMember(input, a, a[j]);
    }
    if f :| f in input && Listed(f) && BeforeClosing(env, key, input, f) && f.ProjectName() == Some(p) {
      PermutationMember(input, a, f);
      var i :| 0 <= i < |a| && a[i] == f;
      SureIsOpen(env, key, input, a, i);
      assert EarnedEarlyBefore(env, a, p, |a|);
    }
  }

  lemma OutcomeMarksFit(env: Env, key: EventKey, input: seq<DomainEvent>, a: seq<DomainEvent>)
    requires Outcome(key, input, a) && EarlySettled(env, key, input)
    ensures MarksFit(env, a, MarksIn(env, key, input))
  {
    var m := MarksIn(env, key, input);
    forall i: nat | i < |a| && a[i].ProjectName().Some? && m.scores(a[i])
      ensures LeavesNamed(env, a, i)
    {
      if !ScoresAlone(env, a[i]) {
        SureIsOpen(env, key, input, a, i);
      }
    }
    forall i: nat | i < |a| && LeavesNamed(env, a, i)
      ensures exists j :: 0 <= j <= i && a[j].ProjectName().Some? && m.scores(a[j])
    {
      if ScoresAlone(env, a[i]) {
        assert m.scores(a[i]);
      } else {
        var j := OpenIsSure(env, key, input, a, i);
        assert m.scores(a[j]);
      }
    }
  }

  lemma OutcomeProjects(env: Env, key: EventKey, input: seq<DomainEvent>, a: seq<DomainEvent>)
    requires Outcome(key, input, a) && EarlySettled(env, key, input) && AllReadable(env, a)
    ensures LogView(env, a).projects == EarnedNames(MarksIn(env, key, input), Filter(IsNamed(), a))
  {
    OutcomeMarksFit(env, key, input, a);
    ProjectsFromMarks(env, a, MarksIn(env, key, input));
  }

  lemma OutcomeEarlySets(env: Env, key: EventKey, input: seq<DomainEvent>, a: seq<DomainEvent>, b: seq<DomainEvent>)
    requires Outcome(key, input, a) && Outcome(key, input, b) && EarlySettled(env, key, input)
    requires AllReadable(env, a) && AllReadable(env, b)
    ensures LogView(env, a).early == LogView(env, b).early
  {
    forall p: string
      ensures p in LogView(env, a).early <==> p in LogView(env, b).early
    {
      OutcomeEarly(env, key, input, a, p);
      OutcomeEarly(env, key, input, b, p);
    }
  }

  // ----- The condition is enough

  lemma SettledWorth(env: Env, key: EventKey, input: seq<DomainEvent>, a: seq<DomainEvent>, b: seq<DomainEvent>)
    requires Outcome(key, input, a) && Outcome(key, input, b) && SettledBy(env, key, input)
    requires AllReadable(env, a) && AllReadable(env, b)
    ensures BonusWorth(env, a) == BonusWorth(env, b)
  {
    OutcomeEarlySets(env, key, input, a, b);
    OutcomeProjects(env, key, input, a);
    OutcomeProjects(env, key, input, b);
    FilterPermutation(IsNamed(), input, a);
    FilterPermutation(IsNamed(), input, b);
    FilterOrdered(key, IsNamed(), a);
    FilterOrdered(key, IsNamed(), b);
    SettledExactly(key, MarksIn(env, key, input), Filter(IsNamed(), input));
    assert Outcome(key, Filter(IsNamed(), input), Filter(IsNamed(), a));
    assert Outcome(key, Filter(IsNamed(), input), Filter(IsNamed(), b));
  }

  // ----- And it is needed: the project bonuses

  lemma ProjectsBreach(env: Env, key: EventKey, input: seq<DomainEvent>) returns (a: seq<DomainEvent>, b: seq<DomainEvent>)
    requires EarlySettled(env, key, input) && !ProjectsSettled(env, key, input) && AllReadable(env, input)
    ensures Outcome(key, input, a) && Outcome(key, input, b) && AllReadable(env, a) && AllReadable(env, b)
    ensures BonusWorth(env, a) < BonusWorth(env, b)
  {
    var m := MarksIn(env, key, input);
    var fewer, more := BreachCounts(key, m, Filter(IsNamed(), input));
    a := WeaveIn(key, IsNamed(), input, fewer);
    b := WeaveIn(key, IsNamed(), input, more);
    PermutedLog(input, a, env);
    PermutedLog(input, b, env);
    OutcomeEarlySets(env, key, input, a, b);
    OutcomeProjects(env, key, input, a);
    OutcomeProjects(env, key, input, b);
  }

  // ----- And it is needed: the early-adopter bonuses

  /** In this order, the listed events that find the bonus open are those with a property. */
  ghost predicate OpenFor(env: Env, log: seq<DomainEvent>, open: DomainEvent -> bool) {
    forall i: nat :: i < |log| && Listed(log[i]) ==> (EarlyOpen(env, log, i) <==> open(log[i]))
  }

  function MarksFor(env: Env, open: DomainEvent -> bool): Marks<DomainEvent> {
    Marks((e: DomainEvent) => ScoresAlone(env, e) || (Listed(e) && open(e)),
          Funding(), ProjectText())
  }

  function Funding(): DomainEvent -> bool {
    (e: DomainEvent) => e.IsFunding()
  }

  function ProjectText(): DomainEvent -> string {
    (e: DomainEvent) => Lookup(e.metadata, "project_name")
  }

  lemma OpenProjects(env: Env, log: seq<DomainEvent>, open: DomainEvent -> bool)
    requires OpenFor(env, log, open) && AllReadable(env, log)
    ensures LogView(env, log).projects == EarnedNames(MarksFor(env, open), Filter(IsNamed(), log))
  {
    var m := MarksFor(env, open);
    forall i: nat | i < |log|
      ensures LeavesNamed(env, log, i) <==> log[i].ProjectName().Some? && m.scores(log[i])
    {
    }
    assert MarksFit(env, log, m);
    ProjectsFromMarks(env, log, m);
  }

  lemma OpenEarly(env: Env, log: seq<DomainEvent>, open: DomainEvent -> bool, p: string)
    requires OpenFor(env, log, open) && AllReadable(env, log)
    ensures p in LogView(env, log).early <==> exists f <- log :: Listed(f) && open(f) && f.ProjectName() == Some(p)
  {
    FullLog(log);
    HoldersByPosition(env, log, p, |log|);
    if f :| f in log && Listed(f) && open(f) && f.ProjectName() == Some(p) {
      var i :| 0 <= i < |log| && log[i] == f;
      assert EarnedEarlyBefore(env, log, p, |log|);
    }
  }

  /** If more listed events find the bonus open, and one of a new project among them, the bonuses are worth more. */
  lemma MoreOpenWorth(env: Env, a: seq<DomainEvent>, b: seq<DomainEvent>,
                      less: DomainEvent -> bool, more: DomainEvent -> bool, f: DomainEvent)
    requires Permutation(a, b) && AllReadable(env, a) && AllReadable(env, b)
    requires OpenFor(env, a, less) && OpenFor(env, b, more) && Filter(IsNamed(), a) == Filter(IsNamed(), b)
    requires forall e :: less(e) ==> more(e)
    requires f in b && Listed(f) && more(f)
    requires forall g <- a :: Listed(g) && less(g) ==> g.ProjectName() != f.ProjectName()
    ensures BonusWorth(env, a) < BonusWorth(env, b)
  {
    var p := f.ProjectName().value;
    forall q: string
      ensures q in LogView(env, a).early ==> q in LogView(env, b).early
      ensures p !in LogView(env, a).early && p in LogView(env, b).early
    {
      OpenEarly(env, a, less, q);
      OpenEarly(env, b, more, q);
      OpenEarly(env, a, less, p);
      OpenEarly(env, b, more, p);
      PermutedLog(a, b, env);
    }
    EarlyWeightMore(LogView(env, a).early, LogView(env, b).early, p);
    OpenProjects(env, a, less);
    OpenProjects(env, b, more);
    MoreScorersMoreNames(MarksFor(env, less), MarksFor(env, more), Filter(IsNamed(), a));
    SubsetSize(LogView(env, a).projects, LogView(env, b).projects);
  }

  lemma EarlyWeightMore(small: set<string>, large: set<string>, p: string)
    requires small <= large && p in large && p !in small && p in POINTS_PER_PROJECT
    ensures EarlyWeight(small) < EarlyWeight(large)
  {
    ListedNames();
    assert p == "Banegas Farm" || p == "Las Delicias" || p == "Manjarisoa";
  }

  lemma SubsetSize(small: set<string>, large: set<string>)
    requires small <= large
    ensures |small| <= |large|
  {
    assert large == small + (large - small);
  }

  function KeyLess(key: EventKey, x: DomainEvent): DomainEvent -> bool {
    (e: DomainEvent) => key(e) < key(x)
  }

  function KeyAtMost(key: EventKey, x: DomainEvent): DomainEvent -> bool {
    (e: DomainEvent) => key(e) <= key(x)
  }

  function Closes(env: Env): DomainEvent -> bool {
    (e: DomainEvent) => LeavesNameless(env, e)
  }

  function StaysOpen(env: Env): DomainEvent -> bool {
    (e: DomainEvent) => !LeavesNameless(env, e)
  }

  /** If no event of the first part closes the bonus and the next one does, just the listed events of that part find it open. */
  lemma OpenUntil(env: Env, first: seq<DomainEvent>, rest: seq<DomainEvent>, open: DomainEvent -> bool)
    requires (forall e <- first :: !LeavesNameless(env, e) && open(e)) && rest != [] && LeavesNameless(env, rest[0])
    requires forall e <- rest :: Listed(e) ==> !open(e)
    ensures OpenFor(env, first + rest, open)
  {
    var log := first + rest;
    forall i: nat | i < |log| && Listed(log[i])
      ensures EarlyOpen(env, log, i) <==> open(log[i])
    {
      if i < |first| {
        assert log[i] in first;
        assert forall j :: 0 <= j < i ==> log[j] in first;
      } else {
        assert log[i] == rest[i - |first|] && log[i] in rest;
        assert log[|first|] == rest[0] && i != |first|;
      }
    }
  }

  lemma TiedSplit(env: Env, key: EventKey, input: seq<DomainEvent>, x: DomainEvent) returns (closing: seq<DomainEvent>, open: seq<DomainEvent>)
    requires ClosesFirst(env, key, input, x)
    ensures Permutation(Filter(KeySame(key, x), input), closing + open)
    ensures Permutation(Filter(KeySame(key, x), input), open + closing)
    ensures x in closing && (forall e <- closing :: LeavesNameless(env, e)) && (forall e <- open :: !LeavesNameless(env, e))
  {
    var tied := Filter(KeySame(key, x), input);
    closing, open := Filter(Closes(env), tied), Filter(StaysOpen(env), tied);
    forall e: DomainEvent
      ensures multiset(tied)[e] == multiset(closing + open)[e] == multiset(open + closing)[e]
      ensures (e in closing ==> LeavesNameless(env, e)) && (e in open ==> !LeavesNameless(env, e))
    {
      FilterCount(Closes(env), tied, e);
      FilterCount(StaysOpen(env), tied, e);
      FilterMember(Closes(env), tied, e);
      FilterMember(StaysOpen(env), tied, e);
    }
    FilterMember(KeySame(key, x), input, x);
    FilterMember(Closes(env), tied, x);
  }

  lemma {:induction false} FilterNone<T>(p: T -> bool, log: seq<T>)
    requires forall e <- log :: !p(e)
    ensures Filter(p, log) == []
  {
    if log != [] {
      FilterNone(p, log[..|log| - 1]);
    }
  }

  /** Where nameless events stand does not matter to what is kept of the named ones. */
  lemma SameNamedPart(low: seq<DomainEvent>, closing: seq<DomainEvent>, open: seq<DomainEvent>, high: seq<DomainEvent>)
    requires forall e <- closing :: e.ProjectName().None?
    ensures Filter(IsNamed(), low + (closing + open) + high) == Filter(IsNamed(), low + (open + closing) + high)
  {
    FilterNone(IsNamed(), closing);
    FilterConcat(IsNamed(), closing, open);
    FilterConcat(IsNamed(), open, closing);
    FilterConcat(IsNamed(), low, closing + open);
    FilterConcat(IsNamed(), low, open + closing);
    FilterConcat(IsNamed(), low + (closing + open), high);
    FilterConcat(IsNamed(), low + (open + closing), high);
  }

  /** The events below the key of `x`, those of its key that close the bonus, the others of its key, and those above. */
  ghost predicate ClosingParts(env: Env, key: EventKey, x: DomainEvent, low: seq<DomainEvent>, closing: seq<DomainEvent>,
                               open: seq<DomainEvent>, high: seq<DomainEvent>) {
    && closing != []
    && (forall e <- low :: key(e) < key(x) && !LeavesNameless(env, e))
    && (forall e <- closing :: key(e) == key(x) && LeavesNameless(env, e))
    && (forall e <- open :: key(e) == key(x) && !LeavesNameless(env, e))
    && (forall e <- high :: key(x) < key(e))
  }

  lemma SplitAtClosing(env: Env, key: EventKey, input: seq<DomainEvent>, x: DomainEvent)
    returns (low: seq<DomainEvent>, closing: seq<DomainEvent>, open: seq<DomainEvent>, high: seq<DomainEvent>)
    requires ClosesFirst(env, key, input, x)
    ensures ClosingParts(env, key, x, low, closing, open, high)
    ensures Outcome(key, input, low + (closing + open) + high) && Outcome(key, input, low + (open + closing) + high)
  {
    low := SomeOutcome(key, Filter(KeyBelow(key, x), input));
    high := SomeOutcome(key, Filter(KeyAbove(key, x), input));
    closing, open := TiedSplit(env, key, input, x);
    MiddleIsOutcome(key, input, x, low, closing + open, high);
    MiddleIsOutcome(key, input, x, low, open + closing, high);
    forall e: DomainEvent
      ensures e in low ==> key(e) < key(x) && !LeavesNameless(env, e)
      ensures e in closing || e in open ==> key(e) == key(x)
      ensures e in high ==> key(x) < key(e)
    {
      KeyParts(key, input, x, low, closing + open, high, e);
    }
  }

  /** The events that close the bonus before or after all others of their key. */
  lemma ClosingMoved(env: Env, key: EventKey, input: seq<DomainEvent>, x: DomainEvent) returns (a: seq<DomainEvent>, b: seq<DomainEvent>)
    requires ClosesFirst(env, key, input, x)
    ensures Outcome(key, input, a) && Outcome(key, input, b) && Filter(IsNamed(), a) == Filter(IsNamed(), b)
    ensures OpenFor(env, a, KeyLess(key, x)) && OpenFor(env, b, KeyAtMost(key, x))
  {
    var low, closing, open, high := SplitAtClosing(env, key, input, x);
    a, b := low + (closing + open) + high, low + (open + closing) + high;
    SameNamedPart(low, closing, open, high);
    ClosingFirst(env, key, x, low, closing, open + high);
    assert low + (closing + (open + high)) == a;
    ClosingLast(env, key, x, low + open, closing, high);
    assert low + open + (closing + high) == b;
  }

  lemma ClosingFirst(env: Env, key: EventKey, x: DomainEvent, low: seq<DomainEvent>, closing: seq<DomainEvent>, rest: seq<DomainEvent>)
    requires (forall e <- low :: key(e) < key(x) && !LeavesNameless(env, e)) && closing != []
    requires (forall e <- closing :: LeavesNameless(env, e)) && forall e <- rest :: key(x) <= key(e)
    ensures OpenFor(env, low + (closing + rest), KeyLess(key, x))
  {
    assert (closing + rest)[0] == closing[0] && closing[0] in closing;
    OpenUntil(env, low, closing + rest, KeyLess(key, x));
  }

  lemma ClosingLast(env: Env, key: EventKey, x: DomainEvent, first: seq<DomainEvent>, closing: seq<DomainEvent>, high: seq<DomainEvent>)
    requires (forall e <- first :: key(e) <= key(x) && !LeavesNameless(env, e)) && closing != []
    requires (forall e <- closing :: LeavesNameless(env, e)) && forall e <- high :: key(x) < key(e)
    ensures OpenFor(env, first + (closing + high), KeyAtMost(key, x))
  {
    assert (closing + high)[0] == closing[0] && closing[0] in closing;
    OpenUntil(env, first, closing + high, KeyAtMost(key, x));
  }

  lemma EarlyBreach(env: Env, key: EventKey, input: seq<DomainEvent>) returns (a: seq<DomainEvent>, b: seq<DomainEvent>)
    requires !EarlySettled(env, key, input) && AllReadable(env, input)
    ensures Outcome(key, input, a) && Outcome(key, input, b) && AllReadable(env, a) && AllReadable(env, b)
    ensures BonusWorth(env, a) < BonusWorth(env, b)
  {
    var x, f :| ClosesFirst(env, key, input, x) && f in input && Listed(f) && key(f) == key(x) &&
      !exists g :: g in input && key(g) < key(x) && g.ProjectName() == f.ProjectName();
    a, b := ClosingMoved(env, key, input, x);
    PermutedLog(input, a, env);
    PermutedLog(input, b, env);
    MoreOpenWorth(env, a, b, KeyLess(key, x), KeyAtMost(key, x), f);
  }

  // ----- Main results

  ghost predicate NoneOverflows(env: Env, input: seq<DomainEvent>) {
    forall a :: SortOutcome(input, a) && AllReadable(env, a) ==> ExactTotal(ScoreLogValue(env, a)) < TWO_256
  }

  lemma ShownIs(env: Env, log: seq<DomainEvent>)
    ensures Shown(env, log).Some? <==> AllReadable(env, log)
    ensures AllReadable(env, log) ==>
      Shown(env, log) == Some((TotalScore(ScoreLogValue(env, log)), Categories(ScoreLogValue(env, log))))
  {
    LogScores(env, log);
  }

  /** If the condition holds, ties cannot matter; this needs no bound on the points. */
  lemma TiesDoNotMatter(env: Env, input: seq<DomainEvent>, a: seq<DomainEvent>, b: seq<DomainEvent>)
    requires SortOutcome(input, a) && SortOutcome(input, b) && TiesSettled(env, input)
    ensures Shown(env, a) == Shown(env, b)
  {
    ShownIs(env, a);
    ShownIs(env, b);
    PermutedLog(input, a, env);
    PermutedLog(input, b, env);
    if AllReadable(env, input) {
      OutcomesByKey(input, a);
      OutcomesByKey(input, b);
      SettledWorth(env, SortKey(), input, a, b);
      OrdersDifferInBonusesOnly(env, a, b);
    }
  }

  lemma TiesBreach(env: Env, input: seq<DomainEvent>) returns (a: seq<DomainEvent>, b: seq<DomainEvent>)
    requires AllReadable(env, input) && !TiesSettled(env, input)
    ensures SortOutcome(input, a) && SortOutcome(input, b) && AllReadable(env, a) && AllReadable(env, b)
    ensures BonusWorth(env, a) < BonusWorth(env, b)
  {
    if EarlySettled(env, SortKey(), input) {
      a, b := ProjectsBreach(env, SortKey(), input);
    } else {
      a, b := EarlyBreach(env, SortKey(), input);
    }
    OutcomesByKey(input, a);
    OutcomesByKey(input, b);
  }

  lemma DifferentWorthDifferentShown(env: Env, a: seq<DomainEvent>, b: seq<DomainEvent>)
    requires Permutation(a, b) && AllReadable(env, a) && AllReadable(env, b) && BonusWorth(env, a) != BonusWorth(env, b)
    requires ExactTotal(ScoreLogValue(env, a)) < TWO_256 && ExactTotal(ScoreLogValue(env, b)) < TWO_256
    ensures Shown(env, a) != Shown(env, b)
  {
    OrdersDifferInBonusesOnly(env, a, b);
    ShownIs(env, a);
    ShownIs(env, b);
  }

  /**
   * For every wallet whose funding values are readable: the order of ties cannot change what the
   * leaderboard shows if and only if the condition holds.
   */
  lemma TiesMatterExactly(env: Env, input: seq<DomainEvent>)
    requires AllReadable(env, input) && NoneOverflows(env, input)
    ensures TiesCannotMatter(env, input) <==> TiesSettled(env, input)
  {
    if TiesSettled(env, input) {
      forall a, b | SortOutcome(input, a) && SortOutcome(input, b)
        ensures Shown(env, a) == Shown(env, b)
      {
        TiesDoNotMatter(env, input, a, b);
      }
    } else {
      var a, b := TiesBreach(env, input);
      DifferentWorthDifferentShown(env, a, b);
    }
  }

  /** The events that sorting may put first all carry funding. */
  ghost predicate EarliestFund(input: seq<DomainEvent>) {
    forall e <- input :: (forall f <- input :: !Less(f, e)) ==> e.IsFunding()
  }

  /** Going down from an event, some event has none before it. */
  lemma Earliest(input: seq<DomainEvent>, f: DomainEvent) returns (e: DomainEvent)
    requires f in input
    ensures e in input && !Less(f, e) && forall g <- input :: !Less(g, e)
  {
    var log := SortLog(input);
    SortLogSorts(input);
    PermutationMember(input, log, f);
    e := log[0];
    PermutationMember(input, log, e);
    forall g | g in input
      ensures !Less(g, e)
    {
      PermutationMember(input, log, g);
      var i :| 0 <= i < |log| && log[i] == g;
    }
  }

  /** If the earliest events fund, so does every event that may score first or tie with one. */
  lemma EarliestScorersFund(env: Env, input: seq<DomainEvent>, k: DomainEvent, f: DomainEvent)
    requires EarliestFund(input) && MayScoreFirst(SortKey(), MarksIn(env, SortKey(), input), input, k)
    requires f in input && !Less(k, f)
    ensures f.IsFunding()
  {
    var e := Earliest(input, f);
    assert e.IsFunding() && MarksIn(env, SortKey(), input).scores(e);
    LessIsByKey(e, k);
    LessIsByKey(f, e);
    LessIsByKey(k, f);
    forall g | g in input
      ensures !Less(g, f)
    {
      LessIsByKey(g, f);
      LessIsByKey(g, e);
    }
  }

  /** Named events never close the early-adopter bonus. */
  lemma NamedSettleEarly(env: Env, key: EventKey, input: seq<DomainEvent>)
    requires AllNamed(input)
    ensures EarlySettled(env, key, input)
  {
  }

  lemma EarliestFundKeepsNames(env: Env, input: seq<DomainEvent>)
    requires EarliestFund(input)
    ensures NoneLost(SortKey(), MarksIn(env, SortKey(), input), input)
  {
    var key, m := SortKey(), MarksIn(env, SortKey(), input);
    forall k, f | MayScoreFirst(key, m, input, k) && f in input && key(f) <= key(k)
      ensures m.funds(f) && m.scores(f)
    {
      LessIsByKey(k, f);
      EarliestScorersFund(env, input, k, f);
    }
    AllFundNoneLost(key, m, input);
  }

  /** One common case: all events are named and every event that sorting may put first carries funding. */
  lemma EarliestFundSettles(env: Env, input: seq<DomainEvent>)
    requires AllNamed(input) && EarliestFund(input)
    ensures TiesSettled(env, input)
  {
    FilterAll(IsNamed(), input);
    EarliestFundKeepsNames(env, input);
    NamedSettleEarly(env, SortKey(), input);
  }

  lemma AllFundNoneLost<T(!new)>(key: T -> int, m: Marks<T>, input: seq<T>)
    requires forall k, f :: MayScoreFirst(key, m, input, k) && f in input && key(f) <= key(k) ==> m.funds(f) && m.scores(f)
    ensures NoneLost(key, m, input)
  {
  }

  // ----- Wallets for which ties matter

  /** The first event leaves a score by itself and does not fund, the second does fund; they tie and are of different projects. */
  predicate Rivals(env: Env, idle: DomainEvent, fund: DomainEvent) {
    && SameKey(idle, fund) && Readable(env, idle) && Readable(env, fund)
    && ScoresAlone(env, idle) && !idle.IsFunding() && fund.IsFunding()
    && idle.ProjectName().Some? && fund.ProjectName().Some? && idle.ProjectName() != fund.ProjectName()
  }

  lemma RivalNames(env: Env, idle: DomainEvent, fund: DomainEvent)
    requires Rivals(env, idle, fund)
    ensures |BonusNames(env, [idle, fund])| == 1 && |BonusNames(env, [fund, idle])| == 2
  {
    TwoScorers(MarksOf(env), idle, fund);
    TwoScorers(MarksOf(env), fund, idle);
    assert MarksOf(env).name(idle) == idle.ProjectName().value && MarksOf(env).name(fund) == fund.ProjectName().value;
  }

  /** The sort decides between one project bonus and two; the totals shown differ by 200 unless they overflow. */
  lemma TwoTiedEvents(env: Env, idle: DomainEvent, fund: DomainEvent)
    requires Rivals(env, idle, fund)
    ensures SortOutcome([idle, fund], [idle, fund]) && SortOutcome([idle, fund], [fund, idle])
    ensures AllReadable(env, [idle, fund]) && AllReadable(env, [fund, idle])
    ensures BonusWorth(env, [idle, fund]) + 200 == BonusWorth(env, [fund, idle])
    ensures !TiesSettled(env, [idle, fund])
  {
    BothOutcomes(idle, fund);
    BothNamed(env, idle, fund);
    BothNamed(env, fund, idle);
    RivalNames(env, idle, fund);
    NamedLogProjects(env, [idle, fund]);
    NamedLogProjects(env, [fund, idle]);
    PermutedEarly(env, [idle, fund], [fund, idle]);
    OutcomesByKey([idle, fund], [idle, fund]);
    OutcomesByKey([idle, fund], [fund, idle]);
    if TiesSettled(env, [idle, fund]) {
      SettledWorth(env, SortKey(), [idle, fund], [idle, fund], [fund, idle]);
    }
  }

  lemma BothOutcomes(x: DomainEvent, y: DomainEvent)
    requires SameKey(x, y)
    ensures SortOutcome([x, y], [x, y]) && SortOutcome([x, y], [y, x])
  {
    assert multiset([x, y]) == multiset([y, x]);
  }

  lemma BothNamed(env: Env, x: DomainEvent, y: DomainEvent)
    requires Readable(env, x) && Readable(env, y) && x.ProjectName().Some? && y.ProjectName().Some?
    ensures AllNamed([x, y]) && AllReadable(env, [x, y])
  {
  }

  lemma TwoScorers<T>(m: Marks<T>, first: T, second: T)
    requires m.scores(first)
    ensures EarnedNames(m, [first, second]) == if m.funds(first) then {m.name(second), m.name(first)} else {m.name(second)}
  {
    FirstScorerIs(m, [first, second], 0);
    assert [first, second][1..] == [second];
    forall p: string
      ensures p in Names(m, [second]) <==> p == m.name(second)
    {
      assert [second][0] == second;
    }
  }

  function At(id: nat, name: string, project: string): DomainEvent {
    DomainEvent(0, map["value" := "0x0", "amount" := "0x0"], map["project_name" := project], EventId("0x1", id),
                "", name, "", "", [])
  }

  /** Such a wallet: a claim and a buy of the same second, for two projects. */
  lemma TiesCanMatter(env: Env, claim: DomainEvent, buy: DomainEvent)
    requires env.parse("0x0") == Some(0)
    requires claim == At(0, "yielder:claim", "A") && buy == At(1, "minter:buy", "B")
    ensures SortOutcome([claim, buy], [claim, buy]) && SortOutcome([claim, buy], [buy, claim])
    ensures Shown(env, [claim, buy]) != Shown(env, [buy, claim])
  {
    ClaimAndBuy(env, claim, buy);
    TwoTiedEvents(env, claim, buy);
    PlainTotal(env, claim, buy);
    PlainTotal(env, buy, claim);
    DifferentWorthDifferentShown(env, [claim, buy], [buy, claim]);
  }

  /** The event earns nothing but bonuses. */
  predicate Plain(env: Env, e: DomainEvent) {
    FundedBy(env)(e) == 0 && ResoldBy(env)(e) == 0 && OffsetBy(env)(e) == 0
  }

  lemma TwoSum(f: DomainEvent -> nat, x: DomainEvent, y: DomainEvent)
    ensures SumBy(f, [x, y]) == f(x) + f(y)
  {
    assert [x, y][..1] == [x] && [x][..0] == [];
    assert SumBy(f, [x]) == SumBy(f, []) + f(x);
  }

  lemma PlainTotal(env: Env, x: DomainEvent, y: DomainEvent)
    requires Plain(env, x) && Plain(env, y) && AllReadable(env, [x, y]) && AllNamed([x, y])
    ensures ExactTotal(ScoreLogValue(env, [x, y])) < TWO_256
  {
    LogTotal(env, [x, y]);
    LogSums(env, [x, y]);
    TwoSum(FundedBy(env), x, y);
    TwoSum(ResoldBy(env), x, y);
    TwoSum(OffsetBy(env), x, y);
    NamedLogProjects(env, [x, y]);
    TwoNamesAtMost(MarksOf(env), x, y);
  }

  lemma TwoNamesAtMost<T>(m: Marks<T>, x: T, y: T)
    ensures |EarnedNames(m, [x, y])| <= 2
  {
    var names := EarnedNames(m, [x, y]);
    assert names <= {m.name(x), m.name(y)};
    SubsetSize(names, {m.name(x), m.name(y)});
  }

  lemma ClaimAndBuy(env: Env, claim: DomainEvent, buy: DomainEvent)
    requires env.parse("0x0") == Some(0)
    requires claim == At(0, "yielder:claim", "A") && buy == At(1, "minter:buy", "B")
    ensures Rivals(env, claim, buy) && Plain(env, claim) && Plain(env, buy) && AllNamed([claim, buy]) && AllNamed([buy, claim])
  {
    assert EVENT_PRIORITY[0][0] == EVENT_PRIORITY[1][0] == EVENT_PRIORITY[2][0] == 'p';
    assert |"value"| != |"amount"|;
    assert "A"[0] != "B"[0];
    BoostBounded(env, buy, 0);
  }
}
