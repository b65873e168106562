/** Prefix queries over ordered byte keys (internal/indexer/storage.go). */
module PrefixScan {
  import opened Wrappers

  type byte = x: nat | x < 256
  type Bytes = seq<byte>

  /** The lexicographic order of byte strings. */
  predicate Less(a: Bytes, b: Bytes) {
    b != [] && (a == [] || a[0] < b[0] || (a[0] == b[0] && Less(a[1..], b[1..])))
  }

  lemma {:induction false} LessTransitive(a: Bytes, b: Bytes, c: Bytes)
    requires Less(a, b) && Less(b, c)
    ensures Less(a, c)
  {
    if a != [] && a[0] == b[0] == c[0] {
      LessTransitive(a[1..], b[1..], c[1..]);
    }
  }

  lemma PrefixStep(p: Bytes, k: Bytes)
    requires p != []
    ensures p <= k <==> k != [] && k[0] == p[0] && p[1..] <= k[1..]
  {
    if k != [] && k[0] == p[0] && p[1..] <= k[1..] {
      assert p == [p[0]] + p[1..] && k == [k[0]] + k[1..];
    }
  }

  /** The least byte string above everything that starts with `p`; None when there is none. */
  function UpperBound(p: Bytes): Option<Bytes> {
    if p == [] then None
    else
      match UpperBound(p[1..])
      case Some(u) => Some([p[0]] + u)
      case None => if p[0] < 255 then Some([p[0] + 1]) else None
  }

  predicate InRange(k: Bytes, lower: Bytes, upper: Option<Bytes>) {
    !Less(k, lower) && (upper.None? || Less(k, upper.value))
  }

  lemma LessStep(x: byte, a: Bytes, y: byte, b: Bytes)
    ensures Less([x] + a, [y] + b) <==> x < y || (x == y && Less(a, b))
  {
    assert ([x] + a)[1..] == a && ([y] + b)[1..] == b;
  }

  /** The range from a prefix to its upper bound holds exactly the keys with that prefix. */
  lemma {:induction false} RangeIsPrefix(p: Bytes, k: Bytes)
    ensures InRange(k, p, UpperBound(p)) <==> p <= k
  {
    if p != [] && k != [] {
      var x, rest, y, tail := p[0], p[1..], k[0], k[1..];
      assert p == [x] + rest && k == [y] + tail;
      PrefixStep(p, k);
      LessStep(y, tail, x, rest);
      RangeIsPrefix(rest, tail);
      match UpperBound(rest) {
        case Some(u) =>
          LessStep(y, tail, x, u);
        case None =>
          if x < 255 {
            LessStep(y, tail, x + 1, []);
            assert [x + 1] + [] == [x + 1];
          }
      }
    }
  }

  /** The first byte from the right that is not 255 is raised, and what follows it is dropped. */
  lemma {:induction false} UpperBoundAt(p: Bytes, i: nat)
    requires i < |p| && p[i] < 255 && forall j :: i < j < |p| ==> p[j] == 255
    ensures UpperBound(p) == Some(p[..i] + [p[i] + 1])
  {
    if i == 0 {
      NoUpperBound(p[1..]);
      assert p[..0] + [p[0] + 1] == [p[0] + 1];
    } else {
      UpperBoundAt(p[1..], i - 1);
      assert p[..i] + [p[i] + 1] == [p[0]] + (p[1..][..i - 1] + [p[1..][i - 1] + 1]);
    }
  }

  lemma {:induction false} NoUpperBound(p: Bytes)
    requires forall j :: 0 <= j < |p| ==> p[j] == 255
    ensures UpperBound(p) == None
  {
    if p != [] {
      NoUpperBound(p[1..]);
    }
  }

  /** Increments a copy of the prefix in place, from the right, until no carry is left. */
  method KeyUpperBound(b: Bytes) returns (bound: Option<Bytes>)
    ensures bound == UpperBound(b)
  {
    var end := new byte[|b|](i requires 0 <= i < |b| => b[i]);
    var i := |b| - 1;
    while i >= 0
      invariant -1 <= i < |b|
      invariant forall j :: i < j < |b| ==> b[j] == 255
      invariant forall j :: 0 <= j <= i ==> end[j] == b[j]
    {
      end[i] := (end[i] as int + 1) % 256;
      if end[i] != 0 {
        UpperBoundAt(b, i);
        assert end[..i + 1] == b[..i] + [b[i] + 1];
        return Some(end[..i + 1]);
      }
      i := i - 1;
    }
    NoUpperBound(b);
    return None;
  }

  // ----- Scans over a sorted store

  datatype Entry<V> = Entry(key: Bytes, value: V)

  predicate Sorted<V>(db: seq<Entry<V>>) {
    forall i, j :: 0 <= i < j < |db| ==> Less(db[i].key, db[j].key)
  }

  /** The values of all entries whose key starts with the prefix, in key order. */
  function Matching<V>(db: seq<Entry<V>>, prefix: Bytes): seq<V> {
    if db == [] then []
    else
      var front, last := Matching(db[..|db| - 1], prefix), db[|db| - 1];
      if prefix <= last.key then front + [last.value] else front
  }

  lemma {:induction false} MatchingTail<V>(db: seq<Entry<V>>, prefix: Bytes, i: nat)
    requires i <= |db| && forall j :: i <= j < |db| ==> !(prefix <= db[j].key)
    ensures Matching(db, prefix) == Matching(db[..i], prefix)
    decreases |db|
  {
    if i < |db| {
      MatchingTail(db[..|db| - 1], prefix, i);
      assert db[..|db| - 1][..i] == db[..i];
    } else {
      assert db[..i] == db;
    }
  }

  lemma MatchingTake<V>(db: seq<Entry<V>>, prefix: Bytes, i: nat)
    requires i < |db|
    ensures Matching(db[..i + 1], prefix) ==
            Matching(db[..i], prefix) + if prefix <= db[i].key then [db[i].value] else []
  {
    assert db[..i + 1][..i] == db[..i];
  }

  /**
   * The value of an entry with the prefix stands behind as many values as matching entries precede it, and
   * every value of the result is that of such an entry.
   */
  lemma {:induction false} MatchingPlaces<V>(db: seq<Entry<V>>, prefix: Bytes, i: nat, k: nat)
    ensures i < |db| && prefix <= db[i].key ==>
              |Matching(db[..i], prefix)| < |Matching(db, prefix)| && Matching(db, prefix)[|Matching(db[..i], prefix)|] == db[i].value
    ensures k < |Matching(db, prefix)| ==>
              exists j: nat :: j < |db| && prefix <= db[j].key && |Matching(db[..j], prefix)| == k && db[j].value == Matching(db, prefix)[k]
  {
    if db != [] {
      var n := |db| - 1;
      MatchingPlaces(db[..n], prefix, i, k);
      if i < n {
        assert db[..n][..i] == db[..i];
      }
      if k < |Matching(db[..n], prefix)| {
        var j: nat :| j < n && prefix <= db[..n][j].key && |Matching(db[..n][..j], prefix)| == k && db[..n][j].value == Matching(db[..n], prefix)[k];
        assert db[..n][..j] == db[..j];
      }
    }
  }

  /** Moves to the first key not below the target. */
  method Seek<V>(db: seq<Entry<V>>, target: Bytes) returns (i: nat)
    requires Sorted(db)
    ensures i <= |db| && (forall j :: 0 <= j < i ==> Less(db[j].key, target))
    ensures forall j :: i <= j < |db| ==> !Less(db[j].key, target)
  {
    i := 0;
    while i < |db| && Less(db[i].key, target)
      invariant i <= |db| && forall j :: 0 <= j < i ==> Less(db[j].key, target)
    {
      i := i + 1;
    }
    forall j | i <= j < |db|
      ensures !Less(db[j].key, target)
    {
      StaysAbove(db, target, i, j);
    }
  }

  /** Once a key is not below a bound, no later key is. */
  lemma StaysAbove<V>(db: seq<Entry<V>>, bound: Bytes, i: nat, j: nat)
    requires Sorted(db) && i <= j < |db| && !Less(db[i].key, bound)
    ensures !Less(db[j].key, bound)
  {
    if i < j && Less(db[j].key, bound) {
      LessTransitive(db[i].key, db[j].key, bound);
    }
  }

  lemma BelowHasNoMatch<V>(db: seq<Entry<V>>, prefix: Bytes, i: nat)
    requires i <= |db| && forall j :: 0 <= j < i ==> Less(db[j].key, prefix)
    ensures Matching(db[..i], prefix) == []
  {
    forall j | 0 <= j < i
      ensures !(prefix <= db[..i][j].key)
    {
      RangeIsPrefix(prefix, db[j].key);
    }
    MatchingTail(db[..i], prefix, 0);
  }

  /** From an entry that is not below the prefix and does not have it, no entry has it. */
  lemma NoMatchFrom<V>(db: seq<Entry<V>>, prefix: Bytes, i: nat)
    requires Sorted(db) && i < |db| && !Less(db[i].key, prefix) && !(prefix <= db[i].key)
    ensures Matching(db, prefix) == Matching(db[..i], prefix)
  {
    RangeIsPrefix(prefix, db[i].key);
    forall j | i <= j < |db|
      ensures !(prefix <= db[j].key)
    {
      StaysAbove(db, UpperBound(prefix).value, i, j);
      RangeIsPrefix(prefix, db[j].key);
    }
    MatchingTail(db, prefix, i);
  }

  /** The iterator bounded by the prefix and its upper bound returns exactly the matching values, in order. */
  method PebbleScan<V>(db: seq<Entry<V>>, prefix: Bytes) returns (results: seq<V>)
    requires Sorted(db)
    ensures results == Matching(db, prefix)
  {
    var upper := KeyUpperBound(prefix);
    var i := Seek(db, prefix);
    results := [];
    BelowHasNoMatch(db, prefix, i);
    while i < |db| && (upper.None? || Less(db[i].key, upper.value))
      invariant i <= |db| && results == Matching(db[..i], prefix)
      invariant forall j :: i <= j < |db| ==> !Less(db[j].key, prefix)
    {
      RangeIsPrefix(prefix, db[i].key);
      MatchingTake(db, prefix, i);
      results := results + [db[i].value];
      i := i + 1;
    }
    if i < |db| {
      RangeIsPrefix(prefix, db[i].key);
      NoMatchFrom(db, prefix, i);
    } else {
      assert db[..i] == db;
    }
  }

  /** Seeking the prefix and stopping at the first key without it returns the same. */
  method BadgerScan<V>(db: seq<Entry<V>>, prefix: Bytes) returns (results: seq<V>)
    requires Sorted(db)
    ensures results == Matching(db, prefix)
  {
    var i := Seek(db, prefix);
    results := [];
    BelowHasNoMatch(db, prefix, i);
    while i < |db| && prefix <= db[i].key
      invariant i <= |db| && results == Matching(db[..i], prefix)
      invariant forall j :: i <= j < |db| ==> !Less(db[j].key, prefix)
    {
      MatchingTake(db, prefix, i);
      results := results + [db[i].value];
      i := i + 1;
    }
    if i < |db| {
      NoMatchFrom(db, prefix, i);
    } else {
      assert db[..i] == db;
    }
  }
}
