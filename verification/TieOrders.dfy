/**
 * Sorting by a key leaves the order of ties open. Here items are marked as scoring or not, as
 * funding or not, and with a name; a name is earned by the items after the first one that scores,
 * and by that item itself when it funds. When does the number of names earned depend on the ties?
 */
module TieOrders {
  import opened Sequences

  datatype Marks<!T> = Marks(scores: T -> bool, funds: T -> bool, name: T -> string)

  function Names<T>(m: Marks<T>, log: seq<T>): set<string> {
    set i | 0 <= i < |log| :: m.name(log[i])
  }

  /** Some item of the list has the name. */
  predicate NamedIn<T>(m: Marks<T>, log: seq<T>, p: string) {
    exists i :: 0 <= i < |log| && m.name(log[i]) == p
  }

  function FirstScorer<T>(m: Marks<T>, log: seq<T>): (k: nat)
    ensures k <= |log| && (forall i :: 0 <= i < k ==> !m.scores(log[i])) && (k < |log| ==> m.scores(log[k]))
  {
    if log == [] || m.scores(log[0]) then 0
    else
      var k := FirstScorer(m, log[1..]);
      assert forall i :: 0 < i < k + 1 ==> log[i] == log[1..][i - 1];
      k + 1
  }

  lemma FirstScorerIs<T>(m: Marks<T>, log: seq<T>, k: nat)
    requires k < |log| && m.scores(log[k]) && forall i :: 0 <= i < k ==> !m.scores(log[i])
    ensures FirstScorer(m, log) == k
  {
  }

  /** The item's own name, if the item funds. */
  function OwnName<T>(m: Marks<T>, e: T): set<string> {
    if m.funds(e) then {m.name(e)} else {}
  }

  function EarnedNames<T>(m: Marks<T>, log: seq<T>): set<string> {
    var k := FirstScorer(m, log);
    if k == |log| then {} else OwnName(m, log[k]) + Names(m, log[k + 1..])
  }

  lemma EarnedMeans<T>(m: Marks<T>, log: seq<T>, p: string)
    requires FirstScorer(m, log) < |log|
    ensures var k := FirstScorer(m, log);
            p in EarnedNames(m, log) <==> (m.funds(log[k]) && m.name(log[k]) == p) || NamedIn(m, log[k + 1..], p)
  {
  }

  predicate HasScorer<T>(m: Marks<T>, log: seq<T>) {
    FirstScorer(m, log) < |log|
  }

  lemma ScorerInside<T>(m: Marks<T>, log: seq<T>, e: T)
    requires e in log && m.scores(e)
    ensures HasScorer(m, log)
  {
    var i :| 0 <= i < |log| && log[i] == e;
  }

  lemma FirstScorerSnoc<T>(m: Marks<T>, log: seq<T>, e: T)
    ensures FirstScorer(m, log + [e]) ==
            if HasScorer(m, log) then FirstScorer(m, log) else if m.scores(e) then |log| else |log| + 1
  {
    var more := log + [e];
    if HasScorer(m, log) {
      FirstScorerIs(m, more, FirstScorer(m, log));
    } else if m.scores(e) {
      FirstScorerIs(m, more, |log|);
    }
  }

  /** One more item earns its name if some item scored before, or if it funds. */
  lemma EarnedSnoc<T>(m: Marks<T>, log: seq<T>, e: T)
    requires m.funds(e) ==> m.scores(e)
    ensures EarnedNames(m, log + [e]) == EarnedNames(m, log) + (if m.funds(e) || HasScorer(m, log) then {m.name(e)} else {})
  {
    FirstScorerSnoc(m, log, e);
    var more, k := log + [e], FirstScorer(m, log);
    if HasScorer(m, log) {
      assert more[k + 1..] == log[k + 1..] + [e];
      NamesSnoc(m, log[k + 1..], e);
    } else if m.scores(e) {
      assert more[|log| + 1..] == [];
    }
  }

  /** Holders that grow as the names earned do, item by item, are the names earned among the items kept. */
  lemma {:induction false} HoldersAreEarned<T(!new)>(m: Marks<T>, keep: T -> bool, log: seq<T>, holders: nat -> set<string>, n: nat)
    requires n <= |log| && holders(0) == {}
    requires forall e <- log :: keep(e) && m.funds(e) ==> m.scores(e)
    requires forall i: nat :: i < |log| ==>
      holders(i + 1) == holders(i) +
        if keep(log[i]) && (m.funds(log[i]) || HasScorer(m, Filter(keep, log[..i]))) then {m.name(log[i])} else {}
    ensures holders(n) == EarnedNames(m, Filter(keep, log[..n]))
  {
    if n > 0 {
      HoldersAreEarned(m, keep, log, holders, n - 1);
      assert log[..n] == log[..n - 1] + [log[n - 1]];
      FilterSnoc(keep, log[..n - 1], log[n - 1]);
      if keep(log[n - 1]) {
        EarnedSnoc(m, Filter(keep, log[..n - 1]), log[n - 1]);
      }
    }
  }

  lemma NamesSnoc<T>(m: Marks<T>, log: seq<T>, e: T)
    ensures Names(m, log + [e]) == Names(m, log) + {m.name(e)}
  {
    var more := log + [e];
    assert more[|log|] == e && forall i :: 0 <= i < |log| ==> more[i] == log[i];
  }

  /** If more items score, no name is lost. */
  lemma {:induction false} MoreScorersMoreNames<T>(m1: Marks<T>, m2: Marks<T>, log: seq<T>)
    requires m1.funds == m2.funds && m1.name == m2.name
    requires forall e <- log :: (m1.scores(e) ==> m2.scores(e)) && (m1.funds(e) ==> m1.scores(e))
    ensures EarnedNames(m1, log) <= EarnedNames(m2, log) && (HasScorer(m1, log) ==> HasScorer(m2, log))
  {
    if log != [] {
      var init, e := log[..|log| - 1], log[|log| - 1];
      assert log == init + [e];
      MoreScorersMoreNames(m1, m2, init);
      EarnedSnoc(m1, init, e);
      EarnedSnoc(m2, init, e);
      FirstScorerSnoc(m1, init, e);
      FirstScorerSnoc(m2, init, e);
    }
  }

  ghost predicate Ordered<T(!new)>(key: T -> int, log: seq<T>) {
    forall i, j :: 0 <= i < j < |log| ==> key(log[i]) <= key(log[j])
  }

  /** Anything a sort by the key may return. */
  ghost predicate Outcome<T(!new)>(key: T -> int, input: seq<T>, output: seq<T>) {
    Permutation(input, output) && Ordered(key, output)
  }

  // ----- The condition, read off the items

  /** The sort may put `k` first among the items that score. */
  ghost predicate MayScoreFirst<T(!new)>(key: T -> int, m: Marks<T>, input: seq<T>, k: T) {
    k in input && m.scores(k) && forall f <- input :: m.scores(f) ==> key(k) <= key(f)
  }

  /** If `k` scores first, `f` comes after it (or is `k`), whatever the sort does with ties. */
  ghost predicate Follows<T(!new)>(key: T -> int, m: Marks<T>, k: T, f: T) {
    key(k) < key(f) || (key(k) == key(f) && m.scores(f))
  }

  function Others<T>(input: seq<T>, k: T): multiset<T> {
    multiset(input) - multiset{k}
  }

  /** If `k` scores first, its name is still earned: by its own funding, or by an item that follows. */
  ghost predicate KeepsOwn<T(!new)>(key: T -> int, m: Marks<T>, input: seq<T>, k: T) {
    m.funds(k) || exists f :: f in Others(input, k) && Follows(key, m, k, f) && m.name(f) == m.name(k)
  }

  /** `n` does not score, and the sort may put it before or after the first item that does. */
  ghost predicate Floats<T(!new)>(key: T -> int, m: Marks<T>, input: seq<T>, k: T, n: T) {
    MayScoreFirst(key, m, input, k) && n in input && key(k) == key(n) && !m.scores(n)
  }

  /** Every item that may score first keeps its own name, and floating items add none. */
  ghost predicate NoneLost<T(!new)>(key: T -> int, m: Marks<T>, input: seq<T>) {
    && (forall k :: MayScoreFirst(key, m, input, k) ==> KeepsOwn(key, m, input, k))
    && (forall k, n :: Floats(key, m, input, k, n) ==>
          exists f <- input :: Follows(key, m, k, f) && m.name(f) == m.name(n))
  }

  /** Whichever item scores first, exactly its name is lost. */
  ghost predicate OneLost<T(!new)>(key: T -> int, m: Marks<T>, input: seq<T>) {
    && (forall k :: MayScoreFirst(key, m, input, k) ==> !KeepsOwn(key, m, input, k))
    && (forall k, n :: Floats(key, m, input, k, n) ==>
          exists f <- input :: key(k) < key(f) && m.name(f) == m.name(n))
  }

  // ----- If the condition holds, every outcome earns equally many names

  ghost predicate Followed<T(!new)>(key: T -> int, m: Marks<T>, input: seq<T>, k: T, p: string) {
    exists f <- input :: Follows(key, m, k, f) && m.name(f) == p
  }

  lemma SplitPermutation<T>(input: seq<T>, a: seq<T>, k: nat)
    requires Permutation(input, a) && k < |a|
    ensures multiset(input) == multiset(a[..k]) + multiset{a[k]} + multiset(a[k + 1..])
    ensures Others(input, a[k]) == multiset(a[..k]) + multiset(a[k + 1..])
    ensures forall f :: f in input <==> f in a
  {
    assert a == a[..k] + [a[k]] + a[k + 1..];
    forall f: T
      ensures f in input <==> f in a
    {
      PermutationMember(input, a, f);
    }
  }

  lemma NoneScoresEarlier<T(!new)>(key: T -> int, m: Marks<T>, input: seq<T>, a: seq<T>)
    requires Outcome(key, input, a) && FirstScorer(m, a) < |a|
    ensures MayScoreFirst(key, m, input, a[FirstScorer(m, a)])
  {
    var k := FirstScorer(m, a);
    SplitPermutation(input, a, k);
    forall f | f in input && m.scores(f)
      ensures key(a[k]) <= key(f)
    {
      var i :| 0 <= i < |a| && a[i] == f;
    }
  }

  /** The item of an outcome that scores first, and what comes before and after it. */
  lemma OutcomeSplit<T(!new)>(key: T -> int, m: Marks<T>, input: seq<T>, a: seq<T>)
    requires Outcome(key, input, a) && FirstScorer(m, a) < |a|
    ensures var k := FirstScorer(m, a);
            && MayScoreFirst(key, m, input, a[k])
            && (forall f <- a[..k] :: !Follows(key, m, a[k], f))
            && (forall f <- a[k + 1..] :: Follows(key, m, a[k], f) || Floats(key, m, input, a[k], f))
  {
    var k := FirstScorer(m, a);
    NoneScoresEarlier(key, m, input, a);
    SplitPermutation(input, a, k);
    forall f | f in a[..k]
      ensures !Follows(key, m, a[k], f)
    {
      var i :| 0 <= i < k && a[i] == f;
    }
    forall f | f in a[k + 1..]
      ensures key(a[k]) <= key(f) && f in a
    {
      var i :| k < i < |a| && a[i] == f;
    }
  }

  lemma LaterMember<T(!new)>(key: T -> int, m: Marks<T>, input: seq<T>, a: seq<T>, f: T)
    requires Outcome(key, input, a) && FirstScorer(m, a) < |a|
    requires Follows(key, m, a[FirstScorer(m, a)], f)
    ensures f in Others(input, a[FirstScorer(m, a)]) ==> f in a[FirstScorer(m, a) + 1..]
    ensures f in input && f != a[FirstScorer(m, a)] ==> f in a[FirstScorer(m, a) + 1..]
  {
    OutcomeSplit(key, m, input, a);
    SplitPermutation(input, a, FirstScorer(m, a));
    assert f in input ==> f in multiset(input);
  }

  /** An item that comes after the first scorer follows it, or floats and shares its name with another item. */
  lemma LaterNames<T(!new)>(key: T -> int, m: Marks<T>, input: seq<T>, a: seq<T>, p: string) returns (f: T)
    requires Outcome(key, input, a) && FirstScorer(m, a) < |a| && NamedIn(m, a[FirstScorer(m, a) + 1..], p)
    ensures m.name(f) == p && f in Others(input, a[FirstScorer(m, a)])
    ensures Follows(key, m, a[FirstScorer(m, a)], f) || Floats(key, m, input, a[FirstScorer(m, a)], f)
  {
    var k := FirstScorer(m, a);
    OutcomeSplit(key, m, input, a);
    SplitPermutation(input, a, k);
    var i :| 0 <= i < |a[k + 1..]| && m.name(a[k + 1..][i]) == p;
    f := a[k + 1..][i];
    assert f in multiset(a[k + 1..]);
  }

  lemma FollowerIsLater<T(!new)>(key: T -> int, m: Marks<T>, input: seq<T>, a: seq<T>, f: T)
    requires Outcome(key, input, a) && FirstScorer(m, a) < |a|
    requires Follows(key, m, a[FirstScorer(m, a)], f)
    requires f in Others(input, a[FirstScorer(m, a)]) || (f in input && f != a[FirstScorer(m, a)])
    ensures NamedIn(m, a[FirstScorer(m, a) + 1..], m.name(f))
  {
    LaterMember(key, m, input, a, f);
    var rest := a[FirstScorer(m, a) + 1..];
    var i :| 0 <= i < |rest| && rest[i] == f;
  }

  lemma NoneLostNames<T(!new)>(key: T -> int, m: Marks<T>, input: seq<T>, a: seq<T>, p: string)
    requires Outcome(key, input, a) && NoneLost(key, m, input) && FirstScorer(m, a) < |a|
    ensures p in EarnedNames(m, a) <==> Followed(key, m, input, a[FirstScorer(m, a)], p)
  {
    var k := a[FirstScorer(m, a)];
    EarnedMeans(m, a, p);
    OutcomeSplit(key, m, input, a);
    assert Follows(key, m, k, k);
    if NamedIn(m, a[FirstScorer(m, a) + 1..], p) {
      var f := LaterNames(key, m, input, a, p);
      assert f in input;
    }
    if f :| f in input && Follows(key, m, k, f) && m.name(f) == p {
      if f != k {
        FollowerIsLater(key, m, input, a, f);
      } else if !m.funds(k) {
        assert KeepsOwn(key, m, input, k);
        var g :| g in Others(input, k) && Follows(key, m, k, g) && m.name(g) == p;
        FollowerIsLater(key, m, input, a, g);
      }
    }
  }

  lemma OneLostNames<T(!new)>(key: T -> int, m: Marks<T>, input: seq<T>, a: seq<T>, p: string)
    requires Outcome(key, input, a) && OneLost(key, m, input) && FirstScorer(m, a) < |a|
    ensures var k := a[FirstScorer(m, a)];
            && Followed(key, m, input, k, m.name(k))
            && (p in EarnedNames(m, a) <==> Followed(key, m, input, k, p) && p != m.name(k))
  {
    var k := a[FirstScorer(m, a)];
    EarnedMeans(m, a, p);
    OutcomeSplit(key, m, input, a);
    assert Follows(key, m, k, k) && !KeepsOwn(key, m, input, k);
    if NamedIn(m, a[FirstScorer(m, a) + 1..], p) {
      var f := LaterNames(key, m, input, a, p);
      assert f in input;
      if !Follows(key, m, k, f) {
        var g :| g in input && key(k) < key(g) && m.name(g) == p;
        assert g in Others(input, k) && Follows(key, m, k, g);
      }
    }
    if f :| f in input && Follows(key, m, k, f) && m.name(f) == p && p != m.name(k) {
      FollowerIsLater(key, m, input, a, f);
    }
  }

  lemma SameFollowed<T(!new)>(key: T -> int, m: Marks<T>, input: seq<T>, k1: T, k2: T, p: string)
    requires MayScoreFirst(key, m, input, k1) && MayScoreFirst(key, m, input, k2)
    ensures Followed(key, m, input, k1, p) <==> Followed(key, m, input, k2, p)
  {
    assert forall f :: Follows(key, m, k1, f) <==> Follows(key, m, k2, f);
  }

  lemma ScorerInBoth<T(!new)>(m: Marks<T>, a: seq<T>, b: seq<T>)
    requires Permutation(a, b)
    ensures FirstScorer(m, a) < |a| <==> FirstScorer(m, b) < |b|
  {
    if FirstScorer(m, a) < |a| {
      PermutationMember(a, b, a[FirstScorer(m, a)]);
    }
    if FirstScorer(m, b) < |b| {
      PermutationMember(a, b, b[FirstScorer(m, b)]);
    }
  }

  lemma NoneLostCounts<T(!new)>(key: T -> int, m: Marks<T>, input: seq<T>, a: seq<T>, b: seq<T>)
    requires Outcome(key, input, a) && Outcome(key, input, b) && NoneLost(key, m, input)
    ensures EarnedNames(m, a) == EarnedNames(m, b)
  {
    ScorerInBoth(m, a, b);
    if FirstScorer(m, a) < |a| {
      OutcomeSplit(key, m, input, a);
      OutcomeSplit(key, m, input, b);
      forall p: string
        ensures p in EarnedNames(m, a) <==> p in EarnedNames(m, b)
      {
        SameFollowed(key, m, input, a[FirstScorer(m, a)], b[FirstScorer(m, b)], p);
        NoneLostNames(key, m, input, a, p);
        NoneLostNames(key, m, input, b, p);
      }
    }
  }

  lemma OneLostCounts<T(!new)>(key: T -> int, m: Marks<T>, input: seq<T>, a: seq<T>, b: seq<T>)
    requires Outcome(key, input, a) && Outcome(key, input, b) && OneLost(key, m, input)
    ensures |EarnedNames(m, a)| == |EarnedNames(m, b)|
  {
    ScorerInBoth(m, a, b);
    if FirstScorer(m, a) < |a| {
      var na, nb := m.name(a[FirstScorer(m, a)]), m.name(b[FirstScorer(m, b)]);
      forall p: string
        ensures p in EarnedNames(m, a) + {na} <==> p in EarnedNames(m, b) + {nb}
      {
        OneLostPair(key, m, input, a, b, p);
      }
      OneLostPair(key, m, input, a, b, na);
      OneLostPair(key, m, input, a, b, nb);
      assert EarnedNames(m, a) + {na} == EarnedNames(m, b) + {nb};
    }
  }

  lemma OneLostPair<T(!new)>(key: T -> int, m: Marks<T>, input: seq<T>, a: seq<T>, b: seq<T>, p: string)
    requires Outcome(key, input, a) && Outcome(key, input, b) && OneLost(key, m, input)
    requires FirstScorer(m, a) < |a| && FirstScorer(m, b) < |b|
    ensures var na, nb := m.name(a[FirstScorer(m, a)]), m.name(b[FirstScorer(m, b)]);
            && (p in EarnedNames(m, a) ==> p != na) && (p in EarnedNames(m, b) ==> p != nb)
            && (p in EarnedNames(m, a) || p == na <==> p in EarnedNames(m, b) || p == nb)
  {
    OutcomeSplit(key, m, input, a);
    OutcomeSplit(key, m, input, b);
    SameFollowed(key, m, input, a[FirstScorer(m, a)], b[FirstScorer(m, b)], p);
    OneLostNames(key, m, input, a, p);
    OneLostNames(key, m, input, b, p);
  }

  // ----- If it does not hold, two outcomes earn differently many names

  function KeyBelow<T>(key: T -> int, k: T): T -> bool {
    (e: T) => key(e) < key(k)
  }

  function KeySame<T>(key: T -> int, k: T): T -> bool {
    (e: T) => key(e) == key(k)
  }

  function KeyAbove<T>(key: T -> int, k: T): T -> bool {
    (e: T) => key(k) < key(e)
  }

  /**
   * An outcome with the items of the key of `k` in a chosen order: those below, then `before`, then
   * `k`, then `rest`, then those above.
   */
  function Arranged<T>(low: seq<T>, before: seq<T>, k: T, rest: seq<T>, high: seq<T>): seq<T> {
    low + before + [k] + (rest + high)
  }

  ghost predicate Arrangement<T(!new)>(key: T -> int, m: Marks<T>, input: seq<T>, low: seq<T>, before: seq<T>, k: T,
                                rest: seq<T>, high: seq<T>) {
    && Outcome(key, Filter(KeyBelow(key, k), input), low)
    && Outcome(key, Filter(KeyAbove(key, k), input), high)
    && multiset(before) + multiset{k} + multiset(rest) == multiset(Filter(KeySame(key, k), input))
    && (forall e <- before :: !m.scores(e))
    && MayScoreFirst(key, m, input, k)
  }

  lemma PartMembers<T(!new)>(key: T -> int, m: Marks<T>, input: seq<T>, low: seq<T>, before: seq<T>, k: T,
                      rest: seq<T>, high: seq<T>)
    requires Arrangement(key, m, input, low, before, k, rest, high)
    ensures forall e <- low :: e in input && key(e) < key(k)
    ensures forall e <- before + rest :: e in input && key(e) == key(k)
    ensures forall e <- high :: e in input && key(k) < key(e)
  {
    forall e: T
      ensures e in low ==> e in input && key(e) < key(k)
      ensures e in high ==> e in input && key(k) < key(e)
      ensures e in before + rest ==> e in input && key(e) == key(k)
    {
      PermutationMember(Filter(KeyBelow(key, k), input), low, e);
      PermutationMember(Filter(KeyAbove(key, k), input), high, e);
      FilterMember(KeyBelow(key, k), input, e);
      FilterMember(KeyAbove(key, k), input, e);
      FilterMember(KeySame(key, k), input, e);
      assert e in before + rest ==> e in multiset(Filter(KeySame(key, k), input));
    }
  }

  lemma OrderedConcat<T(!new)>(key: T -> int, a: seq<T>, b: seq<T>)
    requires Ordered(key, a) && Ordered(key, b) && forall e, f :: e in a && f in b ==> key(e) <= key(f)
    ensures Ordered(key, a + b)
  {
  }

  lemma KeyParts<T(!new)>(key: T -> int, input: seq<T>, k: T, low: seq<T>, middle: seq<T>, high: seq<T>, e: T)
    requires Permutation(Filter(KeyBelow(key, k), input), low)
    requires Permutation(Filter(KeySame(key, k), input), middle)
    requires Permutation(Filter(KeyAbove(key, k), input), high)
    ensures e in low ==> e in input && key(e) < key(k)
    ensures e in middle ==> e in input && key(e) == key(k)
    ensures e in high ==> e in input && key(k) < key(e)
    ensures multiset(low + middle + high)[e] == multiset(input)[e]
  {
    PermutationMember(Filter(KeyBelow(key, k), input), low, e);
    PermutationMember(Filter(KeySame(key, k), input), middle, e);
    PermutationMember(Filter(KeyAbove(key, k), input), high, e);
    FilterMember(KeyBelow(key, k), input, e);
    FilterMember(KeySame(key, k), input, e);
    FilterMember(KeyAbove(key, k), input, e);
    FilterCount(KeyBelow(key, k), input, e);
    FilterCount(KeySame(key, k), input, e);
    FilterCount(KeyAbove(key, k), input, e);
    assert multiset(low)[e] == multiset(Filter(KeyBelow(key, k), input))[e];
    assert multiset(middle)[e] == multiset(Filter(KeySame(key, k), input))[e];
    assert multiset(high)[e] == multiset(Filter(KeyAbove(key, k), input))[e];
  }

  /** The items of one key may come in any order between those below and those above. */
  lemma MiddleIsOutcome<T(!new)>(key: T -> int, input: seq<T>, k: T, low: seq<T>, middle: seq<T>, high: seq<T>)
    requires Outcome(key, Filter(KeyBelow(key, k), input), low)
    requires Permutation(Filter(KeySame(key, k), input), middle)
    requires Outcome(key, Filter(KeyAbove(key, k), input), high)
    ensures Outcome(key, input, low + middle + high)
  {
    forall e: T
      ensures e in low ==> key(e) < key(k)
      ensures e in middle ==> key(e) == key(k)
      ensures e in high ==> key(k) < key(e)
      ensures multiset(low + middle + high)[e] == multiset(input)[e]
    {
      KeyParts(key, input, k, low, middle, high, e);
    }
    OrderedConcat(key, low, middle);
    OrderedConcat(key, low + middle, high);
  }

  lemma ArrangedIsOutcome<T(!new)>(key: T -> int, m: Marks<T>, input: seq<T>, low: seq<T>, before: seq<T>, k: T,
                                   rest: seq<T>, high: seq<T>)
    requires Arrangement(key, m, input, low, before, k, rest, high)
    ensures Outcome(key, input, Arranged(low, before, k, rest, high))
  {
    var middle := before + [k] + rest;
    MiddleIsOutcome(key, input, k, low, middle, high);
    assert low + middle + high == Arranged(low, before, k, rest, high);
  }

  /** What the arrangement earns. */
  lemma ArrangedEarns<T(!new)>(key: T -> int, m: Marks<T>, input: seq<T>, low: seq<T>, before: seq<T>, k: T,
                        rest: seq<T>, high: seq<T>, p: string)
    requires Arrangement(key, m, input, low, before, k, rest, high)
    ensures p in EarnedNames(m, Arranged(low, before, k, rest, high)) <==>
            (m.funds(k) && m.name(k) == p) || NamedIn(m, rest + high, p)
  {
    var all := Arranged(low, before, k, rest, high);
    var i := |low| + |before|;
    PartMembers(key, m, input, low, before, k, rest, high);
    forall j | 0 <= j < i
      ensures !m.scores(all[j])
    {
      assert all[j] == (low + before)[j];
    }
    FirstScorerIs(m, all, i);
    assert all[i + 1..] == rest + high;
    EarnedMeans(m, all, p);
  }

  function InsertByKey<T>(key: T -> int, log: seq<T>, x: T): seq<T> {
    if log == [] || key(log[|log| - 1]) <= key(x) then log + [x]
    else InsertByKey(key, log[..|log| - 1], x) + [log[|log| - 1]]
  }

  lemma {:induction false} InsertByKeyPermutes<T(!new)>(key: T -> int, log: seq<T>, x: T)
    ensures Permutation(log + [x], InsertByKey(key, log, x))
  {
    if log != [] && key(x) < key(log[|log| - 1]) {
      var init, last := log[..|log| - 1], log[|log| - 1];
      InsertByKeyPermutes(key, init, x);
      assert log == init + [last];
    }
  }

  lemma {:induction false} InsertByKeyOrders<T(!new)>(key: T -> int, log: seq<T>, x: T)
    requires Ordered(key, log)
    ensures Ordered(key, InsertByKey(key, log, x))
  {
    if log != [] && key(x) < key(log[|log| - 1]) {
      var init, last := log[..|log| - 1], log[|log| - 1];
      InsertByKeyOrders(key, init, x);
      InsertByKeyPermutes(key, init, x);
      forall e | e in InsertByKey(key, init, x)
        ensures key(e) <= key(last)
      {
        PermutationMember(init + [x], InsertByKey(key, init, x), e);
      }
      OrderedConcat(key, InsertByKey(key, init, x), [last]);
    }
  }

  /** Inserting an item that is filtered out changes nothing in what is kept. */
  lemma {:induction false} InsertByKeyFilter<T(!new)>(key: T -> int, p: T -> bool, log: seq<T>, x: T)
    requires !p(x)
    ensures Filter(p, InsertByKey(key, log, x)) == Filter(p, log)
  {
    if log != [] && key(x) < key(log[|log| - 1]) {
      InsertByKeyFilter(key, p, log[..|log| - 1], x);
      FilterSnoc(p, InsertByKey(key, log[..|log| - 1], x), log[|log| - 1]);
    } else {
      FilterSnoc(p, log, x);
    }
  }

  /** Some outcome of sorting always exists. */
  lemma {:induction false} SomeOutcome<T(!new)>(key: T -> int, xs: seq<T>) returns (ys: seq<T>)
    ensures Outcome(key, xs, ys)
  {
    if xs == [] {
      ys := [];
    } else {
      var n := |xs| - 1;
      var rest := SomeOutcome(key, xs[..n]);
      ys := InsertByKey(key, rest, xs[n]);
      InsertByKeyPermutes(key, rest, xs[n]);
      InsertByKeyOrders(key, rest, xs[n]);
      assert xs == xs[..n] + [xs[n]];
    }
  }

  lemma {:induction false} InsertAll<T(!new)>(key: T -> int, p: T -> bool, log: seq<T>, xs: seq<T>) returns (longer: seq<T>)
    requires Ordered(key, log) && forall x <- xs :: !p(x)
    ensures Outcome(key, log + xs, longer) && Filter(p, longer) == Filter(p, log)
  {
    if xs == [] {
      longer := log;
      assert log + xs == log;
    } else {
      var n := |xs| - 1;
      var before := InsertAll(key, p, log, xs[..n]);
      longer := InsertByKey(key, before, xs[n]);
      InsertByKeyPermutes(key, before, xs[n]);
      InsertByKeyOrders(key, before, xs[n]);
      InsertByKeyFilter(key, p, before, xs[n]);
      assert log + xs == log + xs[..n] + [xs[n]];
    }
  }

  lemma {:induction false} FilterAll<T>(p: T -> bool, log: seq<T>)
    requires forall e <- log :: p(e)
    ensures Filter(p, log) == log
  {
    if log != [] {
      FilterAll(p, log[..|log| - 1]);
    }
  }

  /** An outcome of sorting some of the items is what is kept of an outcome of sorting all of them. */
  lemma WeaveIn<T(!new)>(key: T -> int, p: T -> bool, input: seq<T>, kept: seq<T>) returns (all: seq<T>)
    requires Outcome(key, Filter(p, input), kept)
    ensures Outcome(key, input, all) && Filter(p, all) == kept
  {
    var not := (e: T) => !p(e);
    var others := Filter(not, input);
    forall e: T
      ensures (e in kept ==> p(e)) && (e in others ==> !p(e))
      ensures multiset(input)[e] == multiset(kept + others)[e]
    {
      PermutationMember(Filter(p, input), kept, e);
      FilterMember(p, input, e);
      FilterMember(not, input, e);
      FilterCount(p, input, e);
      FilterCount(not, input, e);
      assert multiset(kept)[e] == multiset(Filter(p, input))[e];
    }
    all := InsertAll(key, p, kept, others);
    FilterAll(p, kept);
    assert multiset(input) == multiset(kept + others);
  }

  lemma {:induction false} FilterOrdered<T(!new)>(key: T -> int, p: T -> bool, log: seq<T>)
    requires Ordered(key, log)
    ensures Ordered(key, Filter(p, log))
  {
    if log != [] {
      var n := |log| - 1;
      FilterOrdered(key, p, log[..n]);
      forall e | e in Filter(p, log[..n])
        ensures key(e) <= key(log[n])
      {
        FilterMember(p, log[..n], e);
      }
    }
  }

  /** The name is earned even if every tied item that can come before `k` does. */
  ghost predicate SureName<T(!new)>(key: T -> int, m: Marks<T>, input: seq<T>, k: T, p: string) {
    (m.funds(k) && m.name(k) == p) || exists f :: f in Others(input, k) && Follows(key, m, k, f) && m.name(f) == p
  }

  /** The name is earned if no tied item comes before `k`. */
  ghost predicate PossibleName<T(!new)>(key: T -> int, m: Marks<T>, input: seq<T>, k: T, p: string) {
    (m.funds(k) && m.name(k) == p) || exists f :: f in Others(input, k) && key(k) <= key(f) && m.name(f) == p
  }

  lemma NamedInMeans<T(!new)>(m: Marks<T>, log: seq<T>, p: string)
    ensures NamedIn(m, log, p) <==> exists f :: f in log && m.name(f) == p
  {
    if f :| f in log && m.name(f) == p {
      var i :| 0 <= i < |log| && log[i] == f;
    }
  }

  /** Which items come after `k` in an arrangement. */
  lemma ArrangedRest<T(!new)>(key: T -> int, m: Marks<T>, input: seq<T>, low: seq<T>, before: seq<T>, k: T,
                       rest: seq<T>, high: seq<T>, f: T)
    requires Arrangement(key, m, input, low, before, k, rest, high)
    ensures f in rest + high ==> f in Others(input, k) && key(k) <= key(f)
    ensures f in Others(input, k) && key(k) <= key(f) ==> f in before || f in rest + high
  {
    ArrangedIsOutcome(key, m, input, low, before, k, rest, high);
    PartMembers(key, m, input, low, before, k, rest, high);
    assert multiset(input) == multiset(low) + multiset(before) + multiset{k} + (multiset(rest) + multiset(high));
    assert Others(input, k) == multiset(low) + multiset(before) + (multiset(rest) + multiset(high));
    assert f in rest + high <==> f in multiset(rest) + multiset(high);
  }

  lemma SplitTied<T(!new)>(key: T -> int, m: Marks<T>, input: seq<T>, k: T) returns (idle: seq<T>, scorers: seq<T>)
    requires MayScoreFirst(key, m, input, k)
    ensures multiset(idle) + multiset{k} + multiset(scorers) == multiset(Filter(KeySame(key, k), input))
    ensures forall e <- idle :: !m.scores(e)
    ensures forall e <- scorers :: m.scores(e)
  {
    var tied := Filter(KeySame(key, k), input);
    FilterMember(KeySame(key, k), input, k);
    var not := (e: T) => !m.scores(e);
    idle := Filter(not, tied);
    var scoring := Filter(m.scores, tied);
    forall e: T
      ensures (e in idle ==> !m.scores(e)) && (e in scoring <==> e in tied && m.scores(e))
    {
      FilterMember(not, tied, e);
      FilterMember(m.scores, tied, e);
    }
    var i :| 0 <= i < |scoring| && scoring[i] == k;
    scorers := Without(scoring, i);
    WithoutMultiset(scoring, i);
    forall e: T
      ensures multiset(idle)[e] + multiset(scoring)[e] == multiset(tied)[e]
    {
      FilterCount(not, tied, e);
      FilterCount(m.scores, tied, e);
    }
    assert multiset(idle) + multiset(scoring) == multiset(tied);
    assert forall e <- scorers :: e in multiset(scorers);
  }

  /** The outcome that puts every idle tied item before `k` earns the sure names only. */
  lemma LeastOutcome<T(!new)>(key: T -> int, m: Marks<T>, input: seq<T>,
                       k: T) returns (a: seq<T>)
    requires MayScoreFirst(key, m, input, k)
    ensures Outcome(key, input, a)
    ensures forall p :: p in EarnedNames(m, a) <==> SureName(key, m, input, k, p)
  {
    var low := SomeOutcome(key, Filter(KeyBelow(key, k), input));
    var high := SomeOutcome(key, Filter(KeyAbove(key, k), input));
    var idle, scorers := SplitTied(key, m, input, k);
    a := Arranged(low, idle, k, scorers, high);
    ArrangedIsOutcome(key, m, input, low, idle, k, scorers, high);
    PartMembers(key, m, input, low, idle, k, scorers, high);
    forall f: T
      ensures f in scorers + high <==> f in Others(input, k) && Follows(key, m, k, f)
    {
      ArrangedRest(key, m, input, low, idle, k, scorers, high, f);
      assert f in idle ==> f in idle + scorers;
      assert f in scorers ==> f in idle + scorers;
    }
    forall p: string
      ensures p in EarnedNames(m, a) <==> SureName(key, m, input, k, p)
    {
      ArrangedEarns(key, m, input, low, idle, k, scorers, high, p);
      NamedInMeans(m, scorers + high, p);
    }
  }

  /** The outcome that puts every tied item after `k` earns all possible names. */
  lemma MostOutcome<T(!new)>(key: T -> int, m: Marks<T>, input: seq<T>,
                      k: T) returns (a: seq<T>)
    requires MayScoreFirst(key, m, input, k)
    ensures Outcome(key, input, a)
    ensures forall p :: p in EarnedNames(m, a) <==> PossibleName(key, m, input, k, p)
  {
    var low := SomeOutcome(key, Filter(KeyBelow(key, k), input));
    var high := SomeOutcome(key, Filter(KeyAbove(key, k), input));
    var idle, scorers := SplitTied(key, m, input, k);
    a := Arranged(low, [], k, idle + scorers, high);
    assert Arrangement(key, m, input, low, [], k, idle + scorers, high);
    ArrangedIsOutcome(key, m, input, low, [], k, idle + scorers, high);
    forall f: T
      ensures f in idle + scorers + high <==> f in Others(input, k) && key(k) <= key(f)
    {
      ArrangedRest(key, m, input, low, [], k, idle + scorers, high, f);
    }
    forall p: string
      ensures p in EarnedNames(m, a) <==> PossibleName(key, m, input, k, p)
    {
      ArrangedEarns(key, m, input, low, [], k, idle + scorers, high, p);
      NamedInMeans(m, idle + scorers + high, p);
    }
  }

  /** Two events to score first and a name that tell a breach of the condition. */
  ghost predicate Breach<T(!new)>(key: T -> int, m: Marks<T>, input: seq<T>, k1: T, k2: T, p: string) {
    && MayScoreFirst(key, m, input, k1) && MayScoreFirst(key, m, input, k2)
    && (k1 == k2 || KeepsOwn(key, m, input, k2))
    && !SureName(key, m, input, k1, p) && PossibleName(key, m, input, k2, p)
  }

  /** A floating item adds a name of its own. */
  lemma FloatingBreach<T(!new)>(key: T -> int, m: Marks<T>, input: seq<T>, k: T, n: T)
    requires Floats(key, m, input, k, n) && !exists f :: f in input && Follows(key, m, k, f) && m.name(f) == m.name(n)
    ensures Breach(key, m, input, k, k, m.name(n))
  {
    assert Follows(key, m, k, k) && n in Others(input, k);
  }

  /** One item that may score first loses its name, another does not. */
  lemma MixedBreach<T(!new)>(key: T -> int, m: Marks<T>, input: seq<T>, k1: T, k2: T)
    requires MayScoreFirst(key, m, input, k1) && !KeepsOwn(key, m, input, k1)
    requires MayScoreFirst(key, m, input, k2) && KeepsOwn(key, m, input, k2)
    ensures Breach(key, m, input, k1, k2, m.name(k1))
  {
    assert k1 in Others(input, k2);
  }

  /** A floating item shares its name with an item that may score first and loses it. */
  lemma SharedBreach<T(!new)>(key: T -> int, m: Marks<T>, input: seq<T>, f: T, n: T)
    requires MayScoreFirst(key, m, input, f) && !KeepsOwn(key, m, input, f)
    requires Floats(key, m, input, f, n) && m.name(f) == m.name(n)
    ensures Breach(key, m, input, f, f, m.name(f))
  {
    assert n in Others(input, f);
  }

  lemma BreachExists<T(!new)>(key: T -> int, m: Marks<T>, input: seq<T>) returns (k1: T, k2: T, p: string)
    requires !NoneLost(key, m, input) && !OneLost(key, m, input)
    ensures Breach(key, m, input, k1, k2, p)
  {
    if k, n :| Floats(key, m, input, k, n) && !exists f :: f in input && Follows(key, m, k, f) && m.name(f) == m.name(n) {
      k1, k2, p := k, k, m.name(n);
      FloatingBreach(key, m, input, k, n);
    } else {
      k1 :| MayScoreFirst(key, m, input, k1) && !KeepsOwn(key, m, input, k1);
      p := m.name(k1);
      if k :| MayScoreFirst(key, m, input, k) && KeepsOwn(key, m, input, k) {
        k2 := k;
        MixedBreach(key, m, input, k1, k2);
      } else {
        var k, n :| Floats(key, m, input, k, n) && !exists f :: f in input && key(k) < key(f) && m.name(f) == m.name(n);
        var f :| f in input && Follows(key, m, k, f) && m.name(f) == m.name(n);
        k1, k2, p := f, f, m.name(f);
        SharedBreach(key, m, input, f, n);
      }
    }
  }

  lemma SureIsPossible<T(!new)>(key: T -> int, m: Marks<T>, input: seq<T>, k1: T, k2: T, p: string)
    requires MayScoreFirst(key, m, input, k1) && MayScoreFirst(key, m, input, k2)
    requires k1 == k2 || KeepsOwn(key, m, input, k2)
    requires SureName(key, m, input, k1, p)
    ensures PossibleName(key, m, input, k2, p)
  {
    if k1 != k2 {
      assert k1 in Others(input, k2);
      if f :| f in Others(input, k1) && Follows(key, m, k1, f) && m.name(f) == p {
        assert f in input && (f != k2 ==> f in Others(input, k2));
      }
    }
  }

  lemma StrictlyMore(a: set<string>, b: set<string>, p: string)
    requires a <= b && p in b && p !in a
    ensures |a| < |b|
  {
    assert b == a + (b - a) && p in b - a;
  }

  lemma BreachCounts<T(!new)>(key: T -> int, m: Marks<T>, input: seq<T>) returns (a: seq<T>,
                       b: seq<T>)
    requires !NoneLost(key, m, input) && !OneLost(key, m, input)
    ensures Outcome(key, input, a) && Outcome(key, input, b) && |EarnedNames(m, a)| < |EarnedNames(m, b)|
  {
    var k1, k2, p := BreachExists(key, m, input);
    a := LeastOutcome(key, m, input, k1);
    b := MostOutcome(key, m, input, k2);
    forall q | q in EarnedNames(m, a)
      ensures q in EarnedNames(m, b)
    {
      SureIsPossible(key, m, input, k1, k2, q);
    }
    StrictlyMore(EarnedNames(m, a), EarnedNames(m, b), p);
  }

  // ----- Both directions

  ghost predicate SameCounts<T(!new)>(key: T -> int, m: Marks<T>, input: seq<T>) {
    forall a, b :: Outcome(key, input, a) && Outcome(key, input, b) ==> |EarnedNames(m, a)| == |EarnedNames(m, b)|
  }

  /** Ties cannot change the number of names earned if and only if none is ever lost, or exactly one always is. */
  lemma SettledExactly<T(!new)>(key: T -> int, m: Marks<T>, input: seq<T>)
    ensures SameCounts(key, m, input) <==> NoneLost(key, m, input) || OneLost(key, m, input)
  {
    if NoneLost(key, m, input) || OneLost(key, m, input) {
      forall a, b | Outcome(key, input, a) && Outcome(key, input, b)
        ensures |EarnedNames(m, a)| == |EarnedNames(m, b)|
      {
        if NoneLost(key, m, input) {
          NoneLostCounts(key, m, input, a, b);
        } else {
          OneLostCounts(key, m, input, a, b);
        }
      }
    } else {
      var a, b := BreachCounts(key, m, input);
    }
  }
}
