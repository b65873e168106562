/** Ordering a wallet's events and ranking them (internal/leaderboard/game.go, leaderboard.go). */
module Game {
  import opened Wrappers
  import opened U256
  import opened Sequences
  import opened Events
  import opened Scoring
  import opened Totals

  const EVENT_PRIORITY := ["project:transfer", "project:transfer-value", "project:slot-changed"]
  const NO_PRIORITY := 99999

  method FindIndex(names: seq<string>, name: string) returns (index: nat)
    ensures name in names ==> index < |names| && names[index] == name && name !in names[..index]
    ensures name !in names ==> index == NO_PRIORITY
  {
    for i := 0 to |names|
      invariant name !in names[..i]
    {
      if names[i] == name {
        return i;
      }
    }
    return NO_PRIORITY;
  }

  function Rank(e: DomainEvent): nat {
    if e.eventName == EVENT_PRIORITY[0] then 0
    else if e.eventName == EVENT_PRIORITY[1] then 1
    else if e.eventName == EVENT_PRIORITY[2] then 2
    else NO_PRIORITY
  }

  predicate Less(e1: DomainEvent, e2: DomainEvent) {
    if Unix(e1.recordedAt) == Unix(e2.recordedAt) then Rank(e1) < Rank(e2)
    else Unix(e1.recordedAt) < Unix(e2.recordedAt)
  }

  method ComputeLess(e1: DomainEvent, e2: DomainEvent) returns (less: bool)
    ensures less == Less(e1, e2)
  {
    assert EVENT_PRIORITY[..1] == [EVENT_PRIORITY[0]] && EVENT_PRIORITY[..2] == [EVENT_PRIORITY[0], EVENT_PRIORITY[1]];
    var rank1 := FindIndex(EVENT_PRIORITY, e1.eventName);
    var rank2 := FindIndex(EVENT_PRIORITY, e2.eventName);
    if Unix(e1.recordedAt) == Unix(e2.recordedAt) {
      return rank1 < rank2;
    }
    return Unix(e1.recordedAt) < Unix(e2.recordedAt);
  }

  predicate SameKey(e1: DomainEvent, e2: DomainEvent) {
    Unix(e1.recordedAt) == Unix(e2.recordedAt) && Rank(e1) == Rank(e2)
  }

  /** Less is a strict weak order whose ties are the events of equal key. */
  lemma LessIsStrictWeakOrder(a: DomainEvent, b: DomainEvent, c: DomainEvent)
    ensures !Less(a, a)
    ensures Less(a, b) && Less(b, c) ==> Less(a, c)
    ensures !Less(a, b) && !Less(b, a) <==> SameKey(a, b)
    ensures Less(a, c) ==> Less(a, b) || Less(b, c)
  {
  }

  /**
   * An event comes before another exactly when its second does, or in the same second its kind does:
   * transfers, value transfers, slot changes, anything else.
   */
  lemma LessMeans(a: DomainEvent, b: DomainEvent, s: int, t: int)
    requires s * 1_000_000_000 <= a.recordedAt < (s + 1) * 1_000_000_000
    requires t * 1_000_000_000 <= b.recordedAt < (t + 1) * 1_000_000_000
    ensures Less(a, b) <==>
      || s < t
      || (s == t &&
          match a.eventName
          case "project:transfer" => b.eventName != "project:transfer"
          case "project:transfer-value" => b.eventName !in {"project:transfer", "project:transfer-value"}
          case "project:slot-changed" => b.eventName !in {"project:transfer", "project:transfer-value", "project:slot-changed"}
          case _ => false)
  {
    assert Unix(a.recordedAt) == s && Unix(b.recordedAt) == t;
    assert |"project:transfer"| == 16 && |"project:transfer-value"| == 22 && |"project:slot-changed"| == 20;
  }

  predicate InOrder(log: seq<DomainEvent>) {
    forall i, j :: 0 <= i < j < |log| ==> !Less(log[j], log[i])
  }

  /** Anything the library sort may return: it promises nothing about ties. */
  ghost predicate SortOutcome(input: seq<DomainEvent>, output: seq<DomainEvent>) {
    Permutation(input, output) && InOrder(output)
  }

  /** A sorted log runs through the seconds, and within one second transfers come before
      value transfers, those before slot changes, and those before everything else. */
  lemma SortedMeans(log: seq<DomainEvent>, i: nat, j: nat)
    requires InOrder(log) && i < j < |log|
    ensures Unix(log[i].recordedAt) <= Unix(log[j].recordedAt)
    ensures Unix(log[i].recordedAt) == Unix(log[j].recordedAt) ==>
      && (log[j].eventName == "project:transfer" ==> log[i].eventName == "project:transfer")
      && (log[j].eventName == "project:transfer-value" ==> log[i].eventName in ["project:transfer", "project:transfer-value"])
      && (log[j].eventName == "project:slot-changed" ==> log[i].eventName in EVENT_PRIORITY)
  {
    assert !Less(log[j], log[i]);
  }

  // ----- The library sort: only its promise, SortOutcome, is used

  function Insert(e: DomainEvent, log: seq<DomainEvent>): seq<DomainEvent> {
    if log == [] then [e]
    else if Less(e, log[|log| - 1]) then Insert(e, log[..|log| - 1]) + [log[|log| - 1]]
    else log + [e]
  }

  function SortLog(log: seq<DomainEvent>): seq<DomainEvent> {
    if log == [] then [] else Insert(log[|log| - 1], SortLog(log[..|log| - 1]))
  }

  lemma {:induction false} InsertPermutes(e: DomainEvent, log: seq<DomainEvent>)
    ensures Permutation(Insert(e, log), log + [e])
  {
    if log != [] && Less(e, log[|log| - 1]) {
      InsertPermutes(e, log[..|log| - 1]);
      InsertBeforeLast(log, e, Insert(e, log[..|log| - 1]));
    }
  }

  lemma InsertBeforeLast(log: seq<DomainEvent>, e: DomainEvent, inserted: seq<DomainEvent>)
    requires log != [] && Permutation(inserted, log[..|log| - 1] + [e])
    ensures Permutation(inserted + [log[|log| - 1]], log + [e])
  {
    var last := log[|log| - 1];
    assert log == log[..|log| - 1] + [last];
    calc {
      multiset(inserted + [last]);
      multiset(inserted) + multiset{last};
      multiset(log[..|log| - 1]) + multiset{e} + multiset{last};
      multiset(log) + multiset{e};
      multiset(log + [e]);
    }
  }

  lemma {:induction false} InsertKeepsOrder(e: DomainEvent, log: seq<DomainEvent>)
    requires InOrder(log)
    ensures InOrder(Insert(e, log))
  {
    if log != [] {
      var n := |log| - 1;
      if Less(e, log[n]) {
        InsertKeepsOrder(e, log[..n]);
        InsertPermutes(e, log[..n]);
        forall x | x in Insert(e, log[..n])
          ensures !Less(log[n], x)
        {
          PermutationMember(Insert(e, log[..n]), log[..n] + [e], x);
        }
      }
    }
  }

  lemma {:induction false} SortLogSorts(log: seq<DomainEvent>)
    ensures SortOutcome(log, SortLog(log))
  {
    if log != [] {
      var n := |log| - 1;
      SortLogSorts(log[..n]);
      InsertKeepsOrder(log[n], SortLog(log[..n]));
      InsertPermutes(log[n], SortLog(log[..n]));
      assert log == log[..n] + [log[n]];
    }
  }

  lemma OutcomeLengths(a: seq<DomainEvent>, b: seq<DomainEvent>)
    requires Permutation(a, b)
    ensures |a| == |b|
  {
    assert |multiset(a)| == |multiset(b)|;
  }

  method SortInPlace(events: array<DomainEvent>)
    modifies events
    ensures SortOutcome(old(events[..]), events[..])
  {
    var before := events[..];
    var sorted := SortLog(before);
    SortLogSorts(before);
    OutcomeLengths(before, sorted);
    Overwrite(events, sorted);
  }

  method Overwrite(events: array<DomainEvent>, log: seq<DomainEvent>)
    requires |log| == events.Length
    modifies events
    ensures events[..] == log
  {
    for i := 0 to events.Length
      invariant events[..i] == log[..i]
    {
      events[i] := log[i];
    }
  }

  // ----- What ties can and cannot change

  /** Any two outcomes of sorting agree on the key at every position. */
  lemma {:induction false} OutcomesAgreeOnKeys(a: seq<DomainEvent>, b: seq<DomainEvent>, i: nat)
    requires Permutation(a, b) && InOrder(a) && InOrder(b) && i < |a|
    ensures |a| == |b| && SameKey(a[i], b[i])
    decreases |a|
  {
    OutcomeLengths(a, b);
    var n := |a| - 1;
    var k := Find(a, b);
    var rest := Without(b, k);
    PermutationMember(a, b, b[n]);
    assert SameKey(b[n], a[n]);
    if i < n {
      OutcomesAgreeOnKeys(a[..n], rest, i);
      assert i >= k ==> SameKey(b[i], a[n]) && SameKey(b[i + 1], a[n]);
    }
  }

  /** When no two events share a key, sorting has only one outcome. */
  lemma DistinctKeysFixTheOrder(input: seq<DomainEvent>, a: seq<DomainEvent>, b: seq<DomainEvent>)
    requires SortOutcome(input, a) && SortOutcome(input, b)
    requires forall x, y :: x in input && y in input && SameKey(x, y) ==> x == y
    ensures a == b
  {
    OutcomeLengths(a, b);
    forall i: nat | i < |a|
      ensures a[i] == b[i]
    {
      OutcomesAgreeOnKeys(a, b, i);
      PermutationMember(input, a, a[i]);
      PermutationMember(input, b, b[i]);
    }
  }

  // ----- The ranking of one wallet

  /** The formatting verbs of the detail lines: decimal numbers, and a percentage as a factor with one decimal. */
  datatype Printer = Printer(decimal: int -> string, factor: nat -> string)

  datatype Point = Point(metadata: Attributes, rule: RuleName, value: u64)

  datatype LeaderboardLine = LeaderboardLine(
    walletAddress: string, points: seq<Point>, totalScore: u256, categories: CategorisedScore)

  function RuleText(rule: RuleName): string {
    match rule
    case AmountFunded => "amount_funded"
    case NumberOfProjects => "number_of_projects"
    case EarlyAdopter => "early_adopter"
    case Offseter => "offseter"
    case Resaler => "resaler"
  }

  function BoostText(format: Printer, b: Boost): string {
    "x" + format.factor(b.value) + " - " + b.displayName
  }

  /** The boosts in order, separated by two slashes. */
  function BoostTexts(format: Printer, boosts: seq<Boost>): string {
    if boosts == [] then ""
    else if |boosts| == 1 then BoostText(format, boosts[0])
    else BoostTexts(format, boosts[..|boosts| - 1]) + " // " + BoostText(format, boosts[|boosts| - 1])
  }

  /** The project, slot, date in milliseconds, event and rule; the boosts only if there are any. */
  function MetadataOf(format: Printer, s: Score): Attributes {
    var base := map["project_name" := Lookup(s.event.metadata, "project_name"),
                    "slot" := Lookup(s.event.metadata, "slot"),
                    "date" := format.decimal(Unix(s.event.recordedAt) * 1000),
                    "event" := s.event.eventName,
                    "rule" := RuleText(s.rule)];
    if s.boosts == [] then base else base["boosts" := BoostTexts(format, s.boosts)]
  }

  /** One line of detail; the value keeps the low 64 bits of the points. */
  function PointOf(format: Printer, s: Score): Point {
    Point(MetadataOf(format, s), s.rule, s.points % TWO_64)
  }

  /** What a line of detail shows under each of its keys. */
  lemma PointShows(format: Printer, s: Score, second: int)
    requires second * 1_000_000_000 <= s.event.recordedAt < (second + 1) * 1_000_000_000
    ensures var p := PointOf(format, s);
      && p.rule == s.rule && p.value == s.points % 0x1_0000_0000_0000_0000
      && p.metadata.Keys == {"project_name", "slot", "date", "event", "rule"} + (if s.boosts == [] then {} else {"boosts"})
      && p.metadata["project_name"] == Lookup(s.event.metadata, "project_name")
      && p.metadata["slot"] == Lookup(s.event.metadata, "slot")
      && p.metadata["date"] == format.decimal(second * 1000)
      && p.metadata["event"] == s.event.eventName
      && p.metadata["rule"] == match s.rule {
           case AmountFunded => "amount_funded"
           case NumberOfProjects => "number_of_projects"
           case EarlyAdopter => "early_adopter"
           case Offseter => "offseter"
           case Resaler => "resaler"
         }
      && (s.boosts != [] ==> p.metadata["boosts"] == BoostTexts(format, s.boosts))
  {
    DetailKeysDiffer();
    assert Unix(s.event.recordedAt) == second;
  }

  lemma DetailKeysDiffer()
    ensures Distinct(["project_name", "slot", "date", "event", "rule", "boosts"])
  {
    assert |"project_name"| == 12 && |"event"| == 5 && |"boosts"| == 6;
    assert "slot"[0] == 's' && "date"[0] == 'd' && "rule"[0] == 'r';
  }

  /** Each boost is shown as its factor and display name, two slashes between one and the next. */
  lemma BoostsShown(format: Printer, boosts: seq<Boost>, b: Boost)
    ensures BoostTexts(format, [b]) == "x" + format.factor(b.value) + " - " + b.displayName
    ensures boosts != [] ==> BoostTexts(format, boosts + [b]) == BoostTexts(format, boosts) + " // " + BoostTexts(format, [b])
  {
    assert (boosts + [b])[..|boosts|] == boosts;
  }

  method JoinBoosts(format: Printer, boosts: seq<Boost>) returns (text: string)
    ensures text == BoostTexts(format, boosts)
  {
    text := "";
    for i := 0 to |boosts|
      invariant text == BoostTexts(format, boosts[..i])
    {
      assert boosts[..i + 1][..i] == boosts[..i];
      text := if i == 0 then BoostText(format, boosts[i]) else text + " // " + BoostText(format, boosts[i]);
    }
    assert boosts[..|boosts|] == boosts;
  }

  method BuildPointMetadata(format: Printer, s: Score) returns (metadata: Attributes)
    ensures metadata == MetadataOf(format, s)
  {
    metadata := map[];
    metadata := metadata["project_name" := Lookup(s.event.metadata, "project_name")];
    metadata := metadata["slot" := Lookup(s.event.metadata, "slot")];
    metadata := metadata["date" := format.decimal(Unix(s.event.recordedAt) * 1000)];
    metadata := metadata["event" := s.event.eventName];
    metadata := metadata["rule" := RuleText(s.rule)];
    if s.boosts != [] {
      var boosts := JoinBoosts(format, s.boosts);
      metadata := metadata["boosts" := boosts];
    }
  }

  method LeaderboardLineFromScore(format: Printer, wallet: string, scores: seq<Score>, total: u256,
                                  categories: CategorisedScore)
    returns (line: LeaderboardLine)
    ensures line.walletAddress == wallet && line.totalScore == total && line.categories == categories
    ensures |line.points| == |scores| && forall i :: 0 <= i < |scores| ==> line.points[i] == PointOf(format, scores[i])
  {
    var points: seq<Point> := [];
    for i := 0 to |scores|
      invariant |points| == i && forall j :: 0 <= j < i ==> points[j] == PointOf(format, scores[j])
    {
      var metadata := BuildPointMetadata(format, scores[i]);
      points := points + [Point(metadata, scores[i].rule, scores[i].points % TWO_64)];
    }
    return LeaderboardLine(wallet, points, total, categories);
  }

  class PersonnalRanking {
    const customerWallet: string
    var events: seq<DomainEvent>
    var handledEvents: seq<DomainEvent>

    /** Sorts the caller's events in place and takes them over. */
    constructor (wallet: string, events: array<DomainEvent>)
      modifies events
      ensures customerWallet == wallet && handledEvents == []
      ensures SortOutcome(old(events[..]), this.events) && this.events == events[..]
    {
      SortInPlace(events);
      customerWallet, this.events, handledEvents := wallet, events[..], [];
    }

    /** None is the process exit on an unreadable funding value. */
    method ComputeScore(env: Env, m: Manager, format: Printer) returns (line: Option<LeaderboardLine>)
      modifies this`handledEvents
      ensures line.Some? <==> ScoreLog(env, m, events, []).Some?
      ensures line.Some? ==>
        var scores := ScoreLog(env, m, events, []).value;
        && handledEvents == old(handledEvents) + events
        && line.value.walletAddress == customerWallet
        && line.value.totalScore == TotalScore(scores) && line.value.categories == Categories(scores)
        && |line.value.points| == |scores|
        && forall i :: 0 <= i < |scores| ==> line.value.points[i] == PointOf(format, scores[i])
    {
      var scores: seq<Score> := [];
      for i := 0 to |events|
        invariant ScoreLog(env, m, events[..i], []) == Some(scores)
        invariant handledEvents == old(handledEvents) + events[..i]
      {
        assert events[..i + 1][..i] == events[..i];
        var next := Scoring.ComputeScore(env, m, events[i], scores);
        if next.None? {
          FatalStaysFatal(env, m, events, i + 1);
          return None;
        }
        scores := next.value;
        handledEvents := handledEvents + [events[i]];
      }
      assert events[..|events|] == events;
      var total := ComputeTotalScore(scores);
      var categories := Totals.AggregateCategories(scores);
      var l := LeaderboardLineFromScore(format, customerWallet, scores, total, categories);
      return Some(l);
    }
  }

  lemma FatalStaysFatal(env: Env, m: Manager, log: seq<DomainEvent>, n: nat)
    requires n <= |log| && ScoreLog(env, m, log[..n], []).None?
    ensures ScoreLog(env, m, log, []).None?
  {
    LogInTwoPieces(env, m, log[..n], log[n..], []);
    assert log[..n] + log[n..] == log;
  }
}
