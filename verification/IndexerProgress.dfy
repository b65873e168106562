/** What the indexer can still do: it is never stuck, and its stored latest block does move backwards. */
module IndexerProgress {
  import opened Wrappers
  import opened Events
  import opened IndexPlan
  import opened PlanEffects
  import opened IndexerMachine
  import opened IndexerTheorems

  // ----- Paths of the state machine without crashes

  /** Any step of the process but a crash, or a block stored by others. */
  predicate Calm(step: Step) {
    !step.Crash? && (step.Outside? ==> step.key.BlockKey?)
  }

  ghost predicate Moves(c: Config, s: State, s': State) {
    exists step :: Calm(step) && Enabled(c, s, step) && s' == Next(c, s, step)
  }

  ghost predicate Path(c: Config, path: seq<State>) {
    path != [] && forall i :: 0 <= i < |path| - 1 ==> Moves(c, path[i], path[i + 1])
  }

  function Last(path: seq<State>): State
    requires path != []
  {
    path[|path| - 1]
  }

  /** `end` is reached from `s` along `path`. */
  ghost predicate Leads(c: Config, s: State, path: seq<State>, end: State) {
    Path(c, path) && path[0] == s && Last(path) == end
  }

  lemma Take(c: Config, s: State, step: Step) returns (path: seq<State>)
    requires Calm(step) && Enabled(c, s, step)
    ensures Leads(c, s, path, Next(c, s, step))
  {
    path := [s, Next(c, s, step)];
    assert Moves(c, s, Next(c, s, step));
  }

  lemma Join(c: Config, s: State, a: seq<State>, middle: State, b: seq<State>, end: State) returns (path: seq<State>)
    requires Leads(c, s, a, middle) && Leads(c, middle, b, end)
    ensures Leads(c, s, path, end) && a <= path
  {
    path := a + b[1..];
    forall i | 0 <= i < |path| - 1
      ensures Moves(c, path[i], path[i + 1])
    {
      if i < |a| - 1 {
        assert Moves(c, a[i], a[i + 1]);
      } else {
        assert path[i] == b[i - |a| + 1] && path[i + 1] == b[i - |a| + 2];
        assert Moves(c, b[i - |a| + 1], b[i - |a| + 2]);
      }
    }
  }

  lemma {:induction false} WriteAll(c: Config, s: State) returns (path: seq<State>)
    requires s.process.Up?
    ensures Leads(c, s, path, State(ExecAll(c.address, s.world, s.process.work), s.process.(work := [])))
    decreases |s.process.work|
  {
    WritesAmountToIndexing(c, s);
    if s.process.work == [] {
      path := [s];
    } else {
      var s' := Next(c, s, Write);
      var first := Take(c, s, Write);
      var rest := WriteAll(c, s');
      WritesAmountToIndexing(c, s');
      path := Join(c, s, first, s', rest, AfterWrites(c, s, |s.process.work|));
    }
  }

  // ----- Indexing one block

  predicate Idle(s: State) {
    s.process.Up? && s.process.work == [] && s.process.nextOffer.None?
  }

  lemma PlanRaisesLatest(c: Config, w: World, n: nat)
    requires WellFormedChain(c)
    ensures var before := IndexOf(c, ExecAll(c.address, w, PlanOf(c, n)[..|PlanOf(c, n)| - 1]));
            && IndexOf(c, ExecAll(c.address, w, PlanOf(c, n))).blocks == before.blocks
            && IndexOf(c, ExecAll(c.address, w, PlanOf(c, n))).latestBlock ==
               if before.blocks != [] && MaxOf(before.blocks) > n then MaxOf(before.blocks) else n
  {
    PlanEndsWithLatest(c, n);
  }

  lemma {:induction false} OnlyThisBlockIsNoted(c: Config, w: World, n: nat, ops: seq<Op>, m: nat)
    requires WellFormedChain(c) && forall op <- ops :: op in PlanOf(c, n)
    requires m in IndexOf(c, ExecAll(c.address, w, ops)).blocks
    ensures m in IndexOf(c, w).blocks || m == n
  {
    if ops != [] {
      var k := |ops| - 1;
      assert ops[k] in PlanOf(c, n);
      NotedBlocksAfter(c, ExecAll(c.address, w, ops[..k]), ops[k], m);
      if ops[k] == NoteBlock(m) {
        NotesAreOfTheBlock(c, n, ops[k]);
      } else {
        OnlyThisBlockIsNoted(c, w, n, ops[..k], m);
      }
    }
  }

  /**
   * Indexing a block notes at most that block and leaves a latest block that is the larger of it and the
   * noted ones.
   */
  lemma PlanLeavesIndex(c: Config, w: World, n: nat)
    requires WellFormedChain(c)
    ensures var idx := IndexOf(c, ExecAll(c.address, w, PlanOf(c, n)));
            && (forall m <- idx.blocks :: m in IndexOf(c, w).blocks || m == n)
            && n <= idx.latestBlock && (idx.latestBlock == n || idx.latestBlock in idx.blocks)
            && (forall m <- idx.blocks :: m <= idx.latestBlock)
  {
    var plan := PlanOf(c, n);
    PlanEndsWithLatest(c, n);
    PlanRaisesLatest(c, w, n);
    var idx := IndexOf(c, ExecAll(c.address, w, plan));
    forall m | m in idx.blocks
      ensures m in IndexOf(c, w).blocks || m == n
    {
      OnlyThisBlockIsNoted(c, w, n, plan, m);
    }
    if idx.blocks != [] {
      MaxOfIsMax(idx.blocks);
    }
  }

  /** The id of some matching event of a block below the height. */
  ghost predicate FromBelow(c: Config, n: nat, id: EventId) {
    exists m: nat, r: nat, i: nat :: m < n && MatchingEvent(c.address, c.chain(m), r, i) && IdAt(c.chain(m), r, i) == id
  }

  ghost predicate PublishedBelow(c: Config, w: World, n: nat) {
    forall id <- w.published :: FromBelow(c, n, id)
  }

  /** Indexing a block publishes only its matching events. */
  lemma {:induction false} OnlyThisBlockIsPublished(c: Config, w: World, n: nat, ops: seq<Op>, height: nat)
    requires n < height && PublishedBelow(c, w, height) && forall op <- ops :: op in PlanOf(c, n)
    ensures PublishedBelow(c, ExecAll(c.address, w, ops), height)
  {
    if ops != [] {
      var k := |ops| - 1;
      assert ops[k] in PlanOf(c, n);
      OnlyThisBlockIsPublished(c, w, n, ops[..k], height);
      if ops[k].Publish? {
        PlanContains(c.address, c.chain(n), ops[k]);
        var r: nat, i: nat :| EventWrites(c.address, c.chain(n), r, i, ops[k]);
        assert FromBelow(c, height, ops[k].id);
      }
    }
  }

  lemma StoreBlockFirst(c: Config, s: State, n: nat) returns (path: seq<State>, s': State)
    requires WellFormedChain(c)
    ensures Leads(c, s, path, s') && s'.process == s.process && s'.world.published == s.world.published
    ensures StoredBlock(s'.world.disk, n) == Some(c.chain(n)) && IndexOf(c, s'.world) == IndexOf(c, s.world)
  {
    var step := Outside(BlockKey(n), BlockValue(c.chain(n)));
    path := Take(c, s, step);
    s' := Next(c, s, step);
  }

  /** Fetching, handing over and writing a stored block does to storage what the method `IndexStored` does. */
  lemma StoredTurn(c: Config, s: State) returns (path: seq<State>)
    requires Idle(s) && StoredBlock(s.world.disk, s.process.next).Some?
    ensures var b := StoredBlock(s.world.disk, s.process.next).value;
            Leads(c, s, path, State(ExecAll(c.address, s.world, Plan(c.address, b)),
                                    s.process.(next := s.process.next + 1, current := b.number)))
  {
    var fetched := Next(c, s, FetchNext);
    var p1 := Take(c, s, FetchNext);
    var received := Next(c, fetched, ReceiveNext);
    var p2 := Take(c, fetched, ReceiveNext);
    path := WriteAll(c, received);
    path := Join(c, fetched, p2, received, path, Last(path));
    path := Join(c, s, p1, fetched, path, Last(path));
  }

  /** The ascending producer's next block becomes available and is indexed; what is published stays below any height above it. */
  lemma IndexNext(c: Config, s: State, height: nat) returns (path: seq<State>, end: State)
    requires WellFormedChain(c) && Idle(s) && s.process.next < height
    ensures Leads(c, s, path, end) && Idle(end) && end.process.next == s.process.next + 1
    ensures var n, idx := s.process.next, IndexOf(c, end.world);
            && (forall m <- idx.blocks :: m in IndexOf(c, s.world).blocks || m == n)
            && n <= idx.latestBlock && (idx.latestBlock == n || idx.latestBlock in idx.blocks)
    ensures PublishedBelow(c, s.world, height) ==> PublishedBelow(c, end.world, height)
  {
    var n := s.process.next;
    var p0, stored := StoreBlockFirst(c, s, n);
    var p1 := StoredTurn(c, stored);
    end := State(ExecAll(c.address, stored.world, PlanOf(c, n)), stored.process.(next := n + 1, current := n));
    PlanLeavesIndex(c, stored.world, n);
    if PublishedBelow(c, s.world, height) {
      OnlyThisBlockIsPublished(c, stored.world, n, PlanOf(c, n), height);
    }
    path := Join(c, s, p0, stored, p1, end);
  }

  lemma {:induction false} IndexUpTo(c: Config, s: State, n: nat) returns (path: seq<State>, end: State)
    requires WellFormedChain(c) && Idle(s) && s.process.next <= n
    ensures Leads(c, s, path, end) && Idle(end) && end.process.next == n + 1
    ensures var idx := IndexOf(c, end.world);
            && (forall m <- idx.blocks :: m in IndexOf(c, s.world).blocks || m <= n)
            && n <= idx.latestBlock && (idx.latestBlock == n || idx.latestBlock in idx.blocks)
    decreases n - s.process.next
  {
    var first, middle := IndexNext(c, s, n + 1);
    if s.process.next == n {
      path, end := first, middle;
    } else {
      var rest;
      rest, end := IndexUpTo(c, middle, n);
      path := Join(c, s, first, middle, rest, end);
    }
  }

  /** A process that is down boots and waits for its first block. */
  lemma BootUp(c: Config, s: State) returns (path: seq<State>, end: State)
    requires s.process.Down?
    ensures Leads(c, s, path, end) && Idle(end) && end.world == s.world && end.process.replayOffer.None?
    ensures end.process.next == Resume(c, s.world.disk) && end.process.replay == IndexOf(c, s.world).blocks
  {
    path := Take(c, s, Boot);
    end := Next(c, s, Boot);
  }

  /** A running process finishes the block in hand and the one offered next. */
  lemma FinishUp(c: Config, s: State) returns (path: seq<State>, end: State)
    requires s.process.Up?
    ensures Leads(c, s, path, end) && Idle(end)
  {
    var done := State(ExecAll(c.address, s.world, s.process.work), s.process.(work := []));
    path := WriteAll(c, s);
    end := done;
    if s.process.nextOffer.Some? {
      var received := Next(c, done, ReceiveNext);
      var p1 := Take(c, done, ReceiveNext);
      var p2 := WriteAll(c, received);
      end := State(ExecAll(c.address, received.world, received.process.work), received.process.(work := []));
      path := Join(c, s, path, done, p1, received);
      path := Join(c, s, path, received, p2, end);
    }
  }

  // ----- Noted blocks are indexed again after a restart

  lemma {:induction false} SkipReplays(c: Config, s: State, k: nat) returns (path: seq<State>, end: State)
    requires s.process.Up? && s.process.replayOffer.None? && k <= |s.process.replay|
    ensures Leads(c, s, path, end) && end == State(s.world, s.process.(replay := s.process.replay[k..]))
    decreases k
  {
    if k == 0 {
      path, end := [s], s;
    } else {
      var first := Take(c, s, SkipReplay);
      var rest;
      rest, end := SkipReplays(c, Next(c, s, SkipReplay), k - 1);
      path := Join(c, s, first, Next(c, s, SkipReplay), rest, end);
    }
  }

  /** The replaying producer fetches its next block, and the consumer indexes it. */
  lemma ReplayOne(c: Config, s: State) returns (path: seq<State>, end: State)
    requires WellFormedChain(c) && s.process.Up? && s.process.work == []
    requires s.process.replayOffer.None? && s.process.replay != []
    ensures Leads(c, s, path, end) && end.process.Up? && end.process.work == []
    ensures end.process.replay == s.process.replay[1..] && end.process.replayOffer.None?
    ensures end.world.published == s.world.published + Published(PlanOf(c, s.process.replay[0]))
  {
    var m := s.process.replay[0];
    var p0, stored := StoreBlockFirst(c, s, m);
    var fetched := Next(c, stored, FetchReplay);
    var p1 := Take(c, stored, FetchReplay);
    var received := Next(c, fetched, ReceiveReplay);
    var p2 := Take(c, fetched, ReceiveReplay);
    var p3 := WriteAll(c, received);
    end := Last(p3);
    WritesPublish(c.address, received.world, PlanOf(c, m));
    path := Join(c, fetched, p2, received, p3, end);
    path := Join(c, stored, p1, fetched, path, end);
    path := Join(c, s, p0, stored, path, end);
  }

  lemma MatchesArePublished(c: Config, n: nat)
    ensures forall r: nat, i: nat :: MatchingEvent(c.address, c.chain(n), r, i) ==>
      EventId(c.chain(n).receipts[r].transactionHash, i) in Published(PlanOf(c, n))
  {
    forall r: nat, i: nat | MatchingEvent(c.address, c.chain(n), r, i)
      ensures EventId(c.chain(n).receipts[r].transactionHash, i) in Published(PlanOf(c, n))
    {
      assert EventWrites(c.address, c.chain(n), r, i, Publish(IdAt(c.chain(n), r, i)));
      EventIsPlanned(c, n, r, i, Publish(IdAt(c.chain(n), r, i)));
      PublishedMember(PlanOf(c, n), IdAt(c.chain(n), r, i));
    }
  }

  /** Whenever the process starts, every block noted by then can be indexed again, which publishes all its matching events once more. */
  lemma NotedBlocksAreReplayed(c: Config, run: seq<State>, m: nat) returns (longer: seq<State>)
    requires WellFormedChain(c) && IsRun(c, run) && Last(run).process.Down? && m in IndexOf(c, Last(run).world).blocks
    ensures IsRun(c, longer) && run <= longer
    ensures forall i :: |run| - 1 <= i < |longer| - 1 ==> Moves(c, longer[i], longer[i + 1])
    ensures Last(run).world.published <= Last(longer).world.published
    ensures forall r: nat, i: nat :: MatchingEvent(c.address, c.chain(m), r, i) ==>
      EventId(c.chain(m).receipts[r].transactionHash, i) in Last(longer).world.published[|Last(run).world.published|..]
  {
    var path, up := BootUp(c, Last(run));
    var k :| 0 <= k < |up.process.replay| && up.process.replay[k] == m;
    var p1, ready := SkipReplays(c, up, k);
    var p2, end := ReplayOne(c, ready);
    MatchesArePublished(c, m);
    path := Join(c, Last(run), path, up, p1, ready);
    path := Join(c, Last(run), path, ready, p2, end);
    longer := PathExtendsRun(c, run, path, end);
  }

  // ----- The indexer is never stuck

  lemma PathExtendsRun(c: Config, run: seq<State>, path: seq<State>, end: State) returns (longer: seq<State>)
    requires IsRun(c, run) && Leads(c, Last(run), path, end)
    ensures IsRun(c, longer) && run <= longer && Last(longer) == end
    ensures forall i :: |run| - 1 <= i < |longer| - 1 ==> Moves(c, longer[i], longer[i + 1])
  {
    longer := run + path[1..];
    forall i | 0 <= i < |longer| - 1
      ensures Steps(c, longer[i], longer[i + 1])
      ensures |run| - 1 <= i ==> Moves(c, longer[i], longer[i + 1])
    {
      if i < |run| - 1 {
        assert Steps(c, run[i], run[i + 1]);
      } else {
        assert longer[i] == path[i - |run| + 1] && longer[i + 1] == path[i - |run| + 2];
        assert Moves(c, path[i - |run| + 1], path[i - |run| + 2]);
      }
    }
  }

  /**
   * From every reachable state, running or down, and for every block, some continuation without a crash
   * fully indexes all blocks before it and would resume at it or later.
   */
  lemma CanAlwaysProgress(c: Config, run: seq<State>, n: nat) returns (longer: seq<State>)
    requires WellFormedChain(c) && IsRun(c, run)
    ensures IsRun(c, longer) && run <= longer
    ensures forall i :: |run| - 1 <= i < |longer| - 1 ==> Moves(c, longer[i], longer[i + 1])
    ensures n <= Resume(c, Last(longer).world.disk)
    ensures forall m :: c.startBlock <= m < n ==> FullyIndexed(c, Last(longer).world, m)
  {
    var path, idle;
    if Last(run).process.Up? {
      path, idle := FinishUp(c, Last(run));
    } else {
      path, idle := BootUp(c, Last(run));
    }
    var rest, end := IndexUpTo(c, idle, if n < idle.process.next then idle.process.next else n);
    path := Join(c, Last(run), path, idle, rest, end);
    longer := PathExtendsRun(c, run, path, end);
    forall m: nat | c.startBlock <= m < n
      ensures FullyIndexed(c, Last(longer).world, m)
    {
      NoBlockIsSkipped(c, longer, m);
    }
  }

  // ----- The stored latest block moves backwards

  function LatestAt(c: Config, s: State): nat {
    IndexOf(c, s.world).latestBlock
  }

  predicate DropsAt(c: Config, run: seq<State>, i: nat) {
    i + 1 < |run| && LatestAt(c, run[i + 1]) < LatestAt(c, run[i])
  }

  lemma {:induction false} DropBetween(c: Config, run: seq<State>, from: nat, to: nat) returns (i: nat)
    requires from <= to < |run| && LatestAt(c, run[to]) < LatestAt(c, run[from])
    ensures DropsAt(c, run, i)
  {
    if LatestAt(c, run[to]) < LatestAt(c, run[to - 1]) {
      i := to - 1;
    } else {
      i := DropBetween(c, run, from, to - 1);
    }
  }

  /** A noted block becomes available, is replayed and indexed again. */
  lemma ReplayFirst(c: Config, s: State) returns (path: seq<State>, end: State)
    requires WellFormedChain(c) && Idle(s) && s.process.replayOffer.None?
    requires s.process.replay != [] && s.process.replay[0] in IndexOf(c, s.world).blocks
    ensures Leads(c, s, path, end)
    ensures var r, idx := s.process.replay[0], IndexOf(c, end.world);
            && (forall m <- idx.blocks :: m in IndexOf(c, s.world).blocks)
            && (idx.latestBlock == r || idx.latestBlock in idx.blocks)
  {
    var r := s.process.replay[0];
    var p0, stored := StoreBlockFirst(c, s, r);
    var fetched := Next(c, stored, FetchReplay);
    var p1 := Take(c, stored, FetchReplay);
    var received := Next(c, fetched, ReceiveReplay);
    var p2 := Take(c, fetched, ReceiveReplay);
    var p3 := WriteAll(c, received);
    end := State(ExecAll(c.address, received.world, PlanOf(c, r)), received.process.(work := []));
    PlanLeavesIndex(c, received.world, r);
    path := Join(c, s, p0, stored, p1, fetched);
    path := Join(c, s, path, fetched, p2, received);
    path := Join(c, s, path, received, p3, end);
  }

  /** A run that has just indexed block `n`, which has no match, after noting a block below it. */
  ghost predicate AtGap(c: Config, run: seq<State>, n: nat) {
    && IsRun(c, run) && Idle(Last(run)) && LatestAt(c, Last(run)) == n
    && IndexOf(c, Last(run).world).blocks != []
    && forall b <- IndexOf(c, Last(run).world).blocks :: b < n
  }

  lemma RunToGap(c: Config, m: nat, n: nat) returns (run: seq<State>)
    requires WellFormedChain(c) && c.startBlock <= m < n && HasMatch(c, m) && !HasMatch(c, n)
    ensures AtGap(c, run, n)
  {
    var start := State(World(map[], []), Down);
    run := [start];
    assert IsRun(c, run);
    var p0, up := BootUp(c, start);
    run := PathExtendsRun(c, run, p0, up);
    var p1, indexed := IndexUpTo(c, up, n);
    run := PathExtendsRun(c, run, p1, indexed);
    NotedBlocksAreExact(c, run, n);
    NotedBlocksAreExact(c, run, m);
  }

  /** With a matching block below one without a match, some run lowers the stored latest block. */
  lemma LatestDoesMoveBack(c: Config, m: nat, n: nat) returns (run: seq<State>, i: nat)
    requires WellFormedChain(c) && c.startBlock <= m < n && HasMatch(c, m) && !HasMatch(c, n)
    ensures IsRun(c, run) && DropsAt(c, run, i)
  {
    var before := RunToGap(c, m, n);
    var down := Next(c, Last(before), Crash);
    assert Steps(c, Last(before), down);
    var p2, again := BootUp(c, down);
    var middle := PathExtendsRun(c, before + [down], p2, again);
    var p3, end := ReplayFirst(c, again);
    run := PathExtendsRun(c, middle, p3, end);
    assert run[|before| - 1] == Last(before);
    i := DropBetween(c, run, |before| - 1, |run| - 1);
  }

  /**
   * A stored latest block with a match is noted; without noted blocks nothing is replayed and the latest
   * block is not ahead.
   */
  ghost predicate LatestSound(c: Config, s: State) {
    var idx := IndexOf(c, s.world);
    && (IndexKey(c.address) in s.world.disk && HasMatch(c, idx.latestBlock) ==> idx.latestBlock in idx.blocks)
    && (idx.blocks == [] && s.process.Up? ==>
          && s.process.replay == [] && s.process.replayOffer.None? && idx.latestBlock <= s.process.next
          && (s.process.work != [] ==> idx.latestBlock <= s.process.current < s.process.next))
  }

  lemma NoteLatestIsLast(c: Config, s: State)
    requires WellFormedChain(c) && Inv(c, s) && Enabled(c, s, Write) && s.process.work[0].NoteLatest?
    ensures s.process.work == [NoteLatest(s.process.current)]
  {
    var plan, work := PlanOf(c, s.process.current), s.process.work;
    PlanEndsWithLatest(c, s.process.current);
    assert work[0] == plan[|plan| - |work|];
  }

  lemma NoteLatestKeepsLatest(c: Config, s: State)
    requires WellFormedChain(c) && Inv(c, s) && LatestSound(c, s) && Enabled(c, s, Write) && s.process.work[0].NoteLatest?
    ensures LatestSound(c, Next(c, s, Write))
  {
    NoteLatestIsLast(c, s);
    var b, before := s.process.current, StoredIndex(s.world.disk, c.address, s.process.current);
    var s' := Next(c, s, Write);
    assert IndexOf(c, s'.world) == WithLatest(before, b);
    WriteKeepsIndex(c, s.world, s.process);
    WriteKeepsWork(c, s.world, s.process);
    DoneStores(c, s'.world, b);
    if before.blocks != [] {
      MaxOfIsMax(before.blocks);
    }
  }

  lemma WriteKeepsLatest(c: Config, s: State)
    requires WellFormedChain(c) && Inv(c, s) && LatestSound(c, s) && Enabled(c, s, Write)
    ensures LatestSound(c, Next(c, s, Write))
  {
    WriteKeepsIndex(c, s.world, s.process);
    if s.process.work[0].NoteLatest? {
      NoteLatestKeepsLatest(c, s);
    } else if s.process.work[0].NoteBlock? {
      NotesAreOfTheBlock(c, s.process.current, s.process.work[0]);
      var before := StoredIndex(s.world.disk, c.address, s.process.current);
      assert IndexOf(c, Next(c, s, Write).world) == WithBlock(before, s.process.current);
    } else {
      assert IndexOf(c, Next(c, s, Write).world) == IndexOf(c, s.world);
    }
  }

  lemma StepKeepsLatest(c: Config, s: State, step: Step)
    requires WellFormedChain(c) && Inv(c, s) && LatestSound(c, s) && Enabled(c, s, step)
    ensures LatestSound(c, Next(c, s, step))
  {
    match step
    case Write => WriteKeepsLatest(c, s);
    case Outside(k, v) =>
      assert Owned(c, IndexKey(c.address));
      assert IndexOf(c, Next(c, s, step).world) == IndexOf(c, s.world);
    case _ =>
  }

  lemma {:induction false} RunKeepsLatest(c: Config, run: seq<State>)
    requires WellFormedChain(c) && IsRun(c, run)
    ensures LatestSound(c, Last(run))
  {
    var n := |run| - 1;
    if n == 0 {
      assert Owned(c, IndexKey(c.address));
    } else {
      RunKeepsLatest(c, run[..n]);
      RunKeepsInv(c, run[..n]);
      assert Steps(c, run[n - 1], run[n]);
      var step :| Enabled(c, run[n - 1], step) && run[n] == Next(c, run[n - 1], step);
      StepKeepsLatest(c, run[n - 1], step);
    }
  }

  /** Only the last write of a plan lowers the latest block, and only when nothing noted reaches it. */
  lemma DropMeans(c: Config, s: State, step: Step)
    requires WellFormedChain(c) && Inv(c, s) && Enabled(c, s, step)
    requires LatestAt(c, Next(c, s, step)) < LatestAt(c, s)
    ensures s.process.Up? && IndexKey(c.address) in s.world.disk
    ensures s.process.work == [NoteLatest(s.process.current)] && s.process.current < LatestAt(c, s)
    ensures forall m <- IndexOf(c, s.world).blocks :: m < LatestAt(c, s)
  {
    match step
    case Write =>
      WriteKeepsIndex(c, s.world, s.process);
      var op := s.process.work[0];
      if op.NoteLatest? {
        NoteLatestIsLast(c, s);
        assert IndexOf(c, Next(c, s, step).world) == WithLatest(StoredIndex(s.world.disk, c.address, op.block), op.block);
        LatestMayMoveBack(StoredIndex(s.world.disk, c.address, op.block), op.block);
      } else if op.NoteBlock? {
        NotesAreOfTheBlock(c, s.process.current, op);
      }
    case Outside(k, v) => assert Owned(c, IndexKey(c.address));
    case _ =>
  }

  ghost predicate LatestDrops(c: Config, run: seq<State>, i: nat) {
    IsRun(c, run) && DropsAt(c, run, i)
  }

  /** A block with a match somewhere below a block without one. */
  ghost predicate MatchBelowGap(c: Config, m: nat, n: nat) {
    c.startBlock <= m < n && HasMatch(c, m) && !HasMatch(c, n)
  }

  lemma DropNeedsGap(c: Config, run: seq<State>, i: nat) returns (m: nat, n: nat)
    requires WellFormedChain(c) && LatestDrops(c, run, i)
    ensures MatchBelowGap(c, m, n)
  {
    var before := run[..i + 1];
    RunKeepsInv(c, before);
    RunKeepsLatest(c, before);
    assert Steps(c, run[i], run[i + 1]);
    var step :| Enabled(c, run[i], step) && run[i + 1] == Next(c, run[i], step);
    DropMeans(c, run[i], step);
    var idx := IndexOf(c, run[i].world);
    n := idx.latestBlock;
    assert idx.blocks != [];
    m := idx.blocks[0];
    NotedBlocksAreExact(c, before, m);
  }

  /**
   * Some run of the indexer lowers the stored latest block if and only if the chain has a match below a
   * block without one.
   */
  lemma LatestDropsExactly(c: Config)
    requires WellFormedChain(c)
    ensures (exists run, i: nat :: LatestDrops(c, run, i)) <==> (exists m: nat, n: nat :: MatchBelowGap(c, m, n))
  {
    if run, i: nat :| LatestDrops(c, run, i) {
      var m, n := DropNeedsGap(c, run, i);
    }
    if m: nat, n: nat :| MatchBelowGap(c, m, n) {
      var run, i := LatestDoesMoveBack(c, m, n);
      assert LatestDrops(c, run, i);
    }
  }
}
