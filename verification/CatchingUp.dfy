/** When a whole deployment has indexed everything below a height and nothing beyond it, and that it always can. */
module CatchingUp {
  import opened Events
  import opened IndexPlan
  import opened Deployments
  import IT = IndexerTheorems
  import IP = IndexerProgress

  /** What one contract's indexer has stored and published. */
  function WorldOf(s: Whole, a: string): World
    requires a in s.published
  {
    World(s.disk, s.published[a])
  }

  /** Every indexer has fully indexed every block below the height. */
  ghost predicate Reached(d: Deployment, s: Whole, n: nat) {
    && Covers(d, s)
    && forall a, m: nat :: a in d.addresses && d.startBlock <= m < n ==> IT.FullyIndexed(ConfigOf(d, a), WorldOf(s, a), m)
  }

  /** None has published an event of a block from the height on. */
  ghost predicate NothingBeyond(d: Deployment, s: Whole, n: nat) {
    && Covers(d, s)
    && forall a :: a in d.addresses ==> IP.PublishedBelow(ConfigOf(d, a), WorldOf(s, a), n)
  }

  ghost predicate CaughtUp(d: Deployment, s: Whole, n: nat) {
    Reached(d, s, n) && NothingBeyond(d, s, n)
  }

  // ----- A path of one indexer is a path of the deployment

  /** The whole state with one indexer's state put in its place. */
  function Placed(s: Whole, a: string, v: IM.State): Whole {
    Whole(v.world.disk, s.published[a := v.world.published], s.processes[a := v.process])
  }

  lemma PlacedMoves(d: Deployment, s: Whole, a: string, v: IM.State, v': IM.State)
    requires Covers(d, s) && a in d.addresses && IP.Moves(ConfigOf(d, a), v, v')
    ensures Steps(d, Placed(s, a, v), Placed(s, a, v'))
  {
    var step :| IP.Calm(step) && IM.Enabled(ConfigOf(d, a), v, step) && v' == IM.Next(ConfigOf(d, a), v, step);
    var w := Placed(s, a, v);
    assert Covers(d, w) && Seen(w, a) == v;
    if step.Outside? {
      assert Placed(s, a, v') == Next(d, w, Sync(step.key.number));
    } else {
      assert Enabled(d, w, Indexer(a, step));
      assert Placed(s, a, v') == Next(d, w, Indexer(a, step));
    }
  }

  lemma PlacedCrash(d: Deployment, s: Whole, a: string)
    requires Covers(d, s) && a in d.addresses && s.processes[a].Up?
    ensures Steps(d, s, Placed(s, a, IM.State(WorldOf(s, a), IM.Down)))
  {
    assert Enabled(d, s, Indexer(a, IM.Crash));
    assert Placed(s, a, IM.State(WorldOf(s, a), IM.Down)) == Next(d, s, Indexer(a, IM.Crash));
  }

  lemma PathExtendsRun(d: Deployment, run: seq<Whole>, a: string, path: seq<IM.State>) returns (longer: seq<Whole>)
    requires IsRun(d, run) && Covers(d, Final(run)) && a in d.addresses
    requires IP.Path(ConfigOf(d, a), path) && path[0] == Seen(Final(run), a)
    ensures IsRun(d, longer) && run <= longer && Final(longer) == Placed(Final(run), a, IP.Last(path))
  {
    var s := Final(run);
    var placed := seq(|path|, i requires 0 <= i < |path| => Placed(s, a, path[i]));
    assert placed[0] == s;
    longer := run + placed[1..];
    forall i | 0 <= i < |longer| - 1
      ensures Steps(d, longer[i], longer[i + 1])
    {
      if i < |run| - 1 {
        assert Steps(d, run[i], run[i + 1]);
      } else {
        var k := i - |run| + 1;
        assert longer[i] == placed[k] && longer[i + 1] == placed[k + 1];
        assert IP.Moves(ConfigOf(d, a), path[k], path[k + 1]);
        PlacedMoves(d, s, a, path[k], path[k + 1]);
      }
    }
  }

  lemma StepExtendsRun(d: Deployment, run: seq<Whole>, s: Whole)
    requires IsRun(d, run) && Steps(d, Final(run), s)
    ensures IsRun(d, run + [s])
  {
    var longer := run + [s];
    forall i | 0 <= i < |longer| - 1
      ensures Steps(d, longer[i], longer[i + 1])
    {
      if i < |run| - 1 {
        assert Steps(d, run[i], run[i + 1]);
      }
    }
  }

  // ----- One indexer after the other catches up

  /** The indexer runs, has no work in hand and waits for a block from the height on. */
  predicate AtHeight(s: Whole, a: string, n: nat) {
    a in s.processes && s.processes[a].Up? && s.processes[a].work == [] && n <= s.processes[a].next
  }

  lemma BootedIndexes(c: IM.Config, s: IM.State, n: nat) returns (path: seq<IM.State>, end: IM.State)
    requires IM.WellFormedChain(c) && s.process.Down? && IP.PublishedBelow(c, s.world, n)
    ensures IP.Leads(c, s, path, end) && IP.Idle(end) && n <= end.process.next
    ensures IP.PublishedBelow(c, end.world, n)
  {
    path, end := IP.BootUp(c, s);
    if end.process.next < n {
      var rest, last := IndexBelow(c, end, n);
      path := IP.Join(c, s, path, end, rest, last);
      end := last;
    }
  }

  /** Blocks up to the height are indexed one by one; what was published before stays below it. */
  lemma {:induction false} IndexBelow(c: IM.Config, s: IM.State, n: nat) returns (path: seq<IM.State>, end: IM.State)
    requires IM.WellFormedChain(c) && IP.Idle(s) && s.process.next < n && IP.PublishedBelow(c, s.world, n)
    ensures IP.Leads(c, s, path, end) && IP.Idle(end) && end.process.next == n && IP.PublishedBelow(c, end.world, n)
    decreases n - s.process.next
  {
    path, end := IP.IndexNext(c, s, n);
    if end.process.next < n {
      var rest, last := IndexBelow(c, end, n);
      path := IP.Join(c, s, path, end, rest, last);
      end := last;
    }
  }

  /** Putting one indexer elsewhere keeps what the others have reached. */
  lemma PlacedKeepsOthers(d: Deployment, s: Whole, a: string, v: IM.State, n: nat)
    requires a in d.addresses && NothingBeyond(d, s, n) && IP.PublishedBelow(ConfigOf(d, a), v.world, n)
    ensures NothingBeyond(d, Placed(s, a, v), n) && Seen(Placed(s, a, v), a) == v
    ensures forall b :: b != a && AtHeight(s, b, n) ==> AtHeight(Placed(s, a, v), b, n)
  {
    var s' := Placed(s, a, v);
    forall b | b in d.addresses
      ensures IP.PublishedBelow(ConfigOf(d, b), WorldOf(s', b), n)
    {
      assert IP.PublishedBelow(ConfigOf(d, b), WorldOf(s, b), n);
    }
  }

  lemma StopOne(d: Deployment, run: seq<Whole>, a: string, n: nat) returns (longer: seq<Whole>)
    requires IsRun(d, run) && a in d.addresses && NothingBeyond(d, Final(run), n)
    ensures IsRun(d, longer) && run <= longer && NothingBeyond(d, Final(longer), n)
    ensures Seen(Final(longer), a).process.Down?
    ensures forall b :: b != a && AtHeight(Final(run), b, n) ==> AtHeight(Final(longer), b, n)
  {
    longer := run;
    if Final(run).processes[a].Up? {
      var down := IM.State(WorldOf(Final(run), a), IM.Down);
      PlacedCrash(d, Final(run), a);
      StepExtendsRun(d, run, Placed(Final(run), a, down));
      PlacedKeepsOthers(d, Final(run), a, down, n);
      longer := run + [Placed(Final(run), a, down)];
    }
  }

  /** A crash if it runs, a boot, and the blocks still missing below the height. */
  lemma OneCatchesUp(d: Deployment, run: seq<Whole>, a: string, n: nat) returns (longer: seq<Whole>)
    requires WellFormed(d) && IsRun(d, run) && a in d.addresses && NothingBeyond(d, Final(run), n)
    ensures IsRun(d, longer) && run <= longer && NothingBeyond(d, Final(longer), n) && AtHeight(Final(longer), a, n)
    ensures forall b :: b != a && AtHeight(Final(run), b, n) ==> AtHeight(Final(longer), b, n)
  {
    var down := StopOne(d, run, a, n);
    var path, end := BootedIndexes(ConfigOf(d, a), Seen(Final(down), a), n);
    longer := PathExtendsRun(d, down, a, path);
    PlacedKeepsOthers(d, Final(down), a, end, n);
  }

  lemma {:induction false} AllCatchUp(d: Deployment, run: seq<Whole>, todo: set<string>, n: nat) returns (longer: seq<Whole>)
    requires WellFormed(d) && IsRun(d, run) && NothingBeyond(d, Final(run), n) && todo <= d.addresses
    requires forall b :: b in d.addresses - todo ==> AtHeight(Final(run), b, n)
    ensures IsRun(d, longer) && run <= longer && NothingBeyond(d, Final(longer), n)
    ensures forall b :: b in d.addresses ==> AtHeight(Final(longer), b, n)
    decreases |todo|
  {
    if todo == {} {
      longer := run;
    } else {
      var a :| a in todo;
      var middle := OneCatchesUp(d, run, a, n);
      longer := AllCatchUp(d, middle, todo - {a}, n);
    }
  }

  /** Indexers that wait at the height have indexed everything below it. */
  lemma WaitingHasReached(d: Deployment, run: seq<Whole>, n: nat)
    requires WellFormed(d) && IsRun(d, run) && forall b :: b in d.addresses ==> AtHeight(Final(run), b, n)
    ensures Reached(d, Final(run), n)
  {
    RunCovers(d, run);
    forall a, m: nat | a in d.addresses && d.startBlock <= m < n
      ensures IT.FullyIndexed(ConfigOf(d, a), WorldOf(Final(run), a), m)
    {
      var own := Project(d, run, a);
      assert AtHeight(Final(run), a, n);
      IT.NothingLeftBehind(ConfigOf(d, a), own, m);
    }
  }

  /** So have indexers that would resume at the height or later. */
  lemma ResumingHasReached(d: Deployment, run: seq<Whole>, n: nat)
    requires WellFormed(d) && IsRun(d, run)
    requires forall a :: a in d.addresses ==> n <= IM.Resume(ConfigOf(d, a), Final(run).disk)
    ensures Reached(d, Final(run), n)
  {
    RunCovers(d, run);
    forall a, m: nat | a in d.addresses && d.startBlock <= m < n
      ensures IT.FullyIndexed(ConfigOf(d, a), WorldOf(Final(run), a), m)
    {
      var own := Project(d, run, a);
      IT.NoBlockIsSkipped(ConfigOf(d, a), own, m);
    }
  }

  // ----- Published messages stay published

  lemma StepKeepsPublished(d: Deployment, s: Whole, step: Step, a: string, id: EventId)
    requires Covers(d, s) && Enabled(d, s, step) && a in d.addresses && id in s.published[a]
    ensures a in Next(d, s, step).published && id in Next(d, s, step).published[a]
  {
  }

  lemma {:induction false} RunKeepsPublished(d: Deployment, run: seq<Whole>, longer: seq<Whole>, a: string, id: EventId)
    requires IsRun(d, run) && IsRun(d, longer) && run <= longer && a in d.addresses
    requires a in Final(run).published && id in Final(run).published[a]
    ensures a in Final(longer).published && id in Final(longer).published[a]
    decreases |longer|
  {
    if |run| == |longer| {
      assert run == longer;
    } else {
      var before, step := LastStep(d, longer);
      RunKeepsPublished(d, run, before, a, id);
      StepKeepsPublished(d, Final(before), step, a, id);
    }
  }

  ghost predicate Continues(d: Deployment, run: seq<Whole>, longer: seq<Whole>) {
    IsRun(d, longer) && run <= longer
  }

  /**
   * From whatever state it is in, a deployment can be continued until it has caught up with a height
   * if and only if it has not yet published anything from that height on.
   */
  lemma CatchesUpExactly(d: Deployment, run: seq<Whole>, n: nat)
    requires WellFormed(d) && IsRun(d, run)
    ensures (exists longer :: Continues(d, run, longer) && CaughtUp(d, Final(longer), n)) <==> NothingBeyond(d, Final(run), n)
  {
    RunCovers(d, run);
    if NothingBeyond(d, Final(run), n) {
      var longer := AllCatchUp(d, run, d.addresses, n);
      WaitingHasReached(d, longer, n);
      assert Continues(d, run, longer) && CaughtUp(d, Final(longer), n);
    }
    if longer :| Continues(d, run, longer) && CaughtUp(d, Final(longer), n) {
      forall a | a in d.addresses
        ensures IP.PublishedBelow(ConfigOf(d, a), WorldOf(Final(run), a), n)
      {
        forall id | id in Final(run).published[a]
          ensures IP.FromBelow(ConfigOf(d, a), n, id)
        {
          RunKeepsPublished(d, run, longer, a, id);
          assert IP.PublishedBelow(ConfigOf(d, a), WorldOf(Final(longer), a), n);
        }
      }
    }
  }

  /** In particular every deployment has, for every height, a run that catches up with it. */
  lemma SomeRunCatchesUp(d: Deployment, n: nat) returns (run: seq<Whole>)
    requires WellFormed(d)
    ensures IsRun(d, run) && CaughtUp(d, Final(run), n)
  {
    FreshRuns(d);
    CatchesUpExactly(d, [Fresh(d)], n);
    run :| Continues(d, [Fresh(d)], run) && CaughtUp(d, Final(run), n);
  }
}
