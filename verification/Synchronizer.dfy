/**
 * The synchronizer (internal/synchronizer/synchronizer.go) as a state machine: each block handed to
 * SyncBlock starts one goroutine that stores it and one that first reads and then writes the
 * latest-block mark; all of them interleave, and a crash kills those that are still pending.
 */
module Synchronizer {
  import opened Wrappers
  import opened Chain

  datatype Config = Config(startBlock: nat, chain: nat -> Block)

  /** The gateway answers a request for block n with block n. */
  ghost predicate WellFormedChain(c: Config) {
    forall n: nat :: c.chain(n).number == n
  }

  datatype Task =
    | StoreBlock(block: Block)
    | ReadLatest(number: nat)
    | WriteLatest(number: nat)
  {
    function Number(): nat {
      if StoreBlock? then block.number else number
    }
  }

  datatype Process = Down | Up(next: nat, offer: Option<Block>, tasks: multiset<Task>)

  /**
   * Storage (the blocks under their numbers and the latest-block mark), the process, and what
   * happened so far: the blocks handed to SyncBlock, those handed in this run of the process, and
   * those whose store was killed by a crash.
   */
  datatype State = State(
    blocks: map<nat, Block>, latest: Option<nat>, process: Process,
    handed: set<nat>, handedThisRun: set<nat>, lost: set<nat>)

  datatype Step =
    | Start
    | Fetch
    | Hand
    | RunStore(block: Block)
    | RunRead(number: nat)
    | RunWrite(number: nat)
    | Crash
    | Resync(number: nat)

  /** A mark that is missing or does not parse reads as zero. */
  function Mark(latest: Option<nat>): nat {
    if latest.Some? then latest.value else 0
  }

  predicate Enabled(c: Config, s: State, step: Step) {
    match step
    case Start => s.process.Down?
    case Fetch => s.process.Up? && s.process.offer.None?
    case Hand => s.process.Up? && s.process.offer.Some?
    case RunStore(b) => s.process.Up? && StoreBlock(b) in s.process.tasks
    case RunRead(n) => s.process.Up? && ReadLatest(n) in s.process.tasks
    case RunWrite(n) => s.process.Up? && WriteLatest(n) in s.process.tasks
    case Crash => s.process.Up?
    case Resync(_) => true
  }

  function Resume(c: Config, latest: Option<nat>): nat {
    if Mark(latest) > c.startBlock then Mark(latest) else c.startBlock
  }

  /** A stored block is preferred to asking the gateway. */
  function Fetched(c: Config, s: State, n: nat): Block {
    if n in s.blocks then s.blocks[n] else c.chain(n)
  }

  function Finish(p: Process, t: Task): Process
    requires p.Up?
  {
    p.(tasks := p.tasks - multiset{t})
  }

  function PendingStores(p: Process): set<nat>
    requires p.Up?
  {
    set t | t in p.tasks && t.StoreBlock? :: t.block.number
  }

  function Next(c: Config, s: State, step: Step): State
    requires Enabled(c, s, step)
  {
    var p := s.process;
    match step
    case Start => s.(process := Up(Resume(c, s.latest), None, multiset{}), handedThisRun := {})
    case Fetch => s.(process := p.(offer := Some(Fetched(c, s, p.next))))
    case Hand =>
      var b := p.offer.value;
      s.(process := Up(p.next + 1, None, p.tasks + multiset{StoreBlock(b), ReadLatest(b.number)}),
         handed := s.handed + {b.number}, handedThisRun := s.handedThisRun + {b.number})
    case RunStore(b) => s.(blocks := s.blocks[b.number := b], process := Finish(p, StoreBlock(b)))
    case RunRead(n) =>
      if Mark(s.latest) >= n then s.(process := Finish(p, ReadLatest(n)))
      else s.(process := p.(tasks := p.tasks - multiset{ReadLatest(n)} + multiset{WriteLatest(n)}))
    case RunWrite(n) => s.(latest := Some(n), process := Finish(p, WriteLatest(n)))
    case Crash => s.(process := Down, lost := s.lost + PendingStores(p))
    case Resync(n) => s.(blocks := s.blocks[n := c.chain(n)])
  }

  const FRESH := State(map[], None, Down, {}, {}, {})

  /** The state after a list of steps, if each is enabled in turn. */
  function After(c: Config, s: State, steps: seq<Step>): Option<State> {
    if steps == [] then Some(s)
    else
      match After(c, s, steps[..|steps| - 1])
      case None => None
      case Some(t) => if Enabled(c, t, steps[|steps| - 1]) then Some(Next(c, t, steps[|steps| - 1])) else None
  }

  // ----- The loop of the source, run without interruption

  /** The mark after a read-check-write that nothing interrupts. */
  function Raised(latest: Option<nat>, number: nat): Option<nat> {
    if Mark(latest) >= number then latest else Some(number)
  }

  lemma AfterOne(c: Config, s: State, steps: seq<Step>, step: Step)
    requires After(c, s, steps).Some? && Enabled(c, After(c, s, steps).value, step)
    ensures After(c, s, steps + [step]) == Some(Next(c, After(c, s, steps).value, step))
  {
    assert (steps + [step])[..|steps|] == steps;
  }

  lemma {:induction false} AfterMore(c: Config, s: State, steps: seq<Step>, more: seq<Step>)
    requires After(c, s, steps).Some? && After(c, After(c, s, steps).value, more).Some?
    ensures After(c, s, steps + more) == After(c, After(c, s, steps).value, more)
  {
    if more == [] {
      assert steps + more == steps;
    } else {
      var n := |more| - 1;
      AfterMore(c, s, steps, more[..n]);
      assert (steps + more)[..|steps + more| - 1] == steps + more[..n];
    }
  }

  lemma AfterTwo(c: Config, s: State, s1: Step, s2: Step)
    requires Enabled(c, s, s1) && Enabled(c, Next(c, s, s1), s2)
    ensures After(c, s, [s1, s2]) == Some(Next(c, Next(c, s, s1), s2))
  {
    AfterOne(c, s, [], s1);
    assert [] + [s1] == [s1] && [s1] + [s2] == [s1, s2];
    AfterOne(c, s, [s1], s2);
  }

  lemma FirstStep(c: Config, s: State, step: Step)
    requires Enabled(c, s, step)
    ensures After(c, s, [step]) == Some(Next(c, s, step))
  {
    AfterOne(c, s, [], step);
    assert [] + [step] == [step];
  }

  /** Reading the mark and, if it is smaller, writing it. */
  function Marking(latest: Option<nat>, n: nat): seq<Step> {
    if Mark(latest) < n then [RunRead(n), RunWrite(n)] else [RunRead(n)]
  }

  /** Uninterrupted, the two halves of a read-check-write raise the mark. */
  lemma MarkingRuns(c: Config, s: State, n: nat, tasks: multiset<Task>)
    requires s.process.Up? && s.process.tasks == tasks + multiset{ReadLatest(n)}
    ensures After(c, s, Marking(s.latest, n)) == Some(s.(latest := Raised(s.latest, n), process := s.process.(tasks := tasks)))
  {
    FirstStep(c, s, RunRead(n));
    assert s.process.tasks - multiset{ReadLatest(n)} == tasks;
    if Mark(s.latest) < n {
      var read := Next(c, s, RunRead(n));
      assert read.process.tasks - multiset{WriteLatest(n)} == tasks;
      AfterTwo(c, s, RunRead(n), RunWrite(n));
    }
  }

  /** Storing the block, then marking it. */
  function Storing(latest: Option<nat>, b: Block): seq<Step> {
    [RunStore(b)] + Marking(latest, b.number)
  }

  /** The state with the block stored, the mark raised, and these goroutines pending. */
  function Settled(s: State, b: Block, tasks: multiset<Task>): State
    requires s.process.Up?
  {
    s.(blocks := s.blocks[b.number := b], latest := Raised(s.latest, b.number), process := s.process.(tasks := tasks))
  }

  lemma StoringRuns(c: Config, s: State, b: Block, tasks: multiset<Task>)
    requires s.process.Up? && s.process.tasks == tasks + multiset{ReadLatest(b.number)} + multiset{StoreBlock(b)}
    ensures After(c, s, Storing(s.latest, b)) == Some(Settled(s, b, tasks))
  {
    FirstStep(c, s, RunStore(b));
    assert s.process.tasks - multiset{StoreBlock(b)} == tasks + multiset{ReadLatest(b.number)};
    var stored := Next(c, s, RunStore(b));
    MarkingRuns(c, stored, b.number, tasks);
    AfterMore(c, s, [RunStore(b)], Marking(s.latest, b.number));
  }

  /** The steps of one turn of the fetching loop whose goroutines run at once. */
  function Turn(c: Config, s: State): seq<Step>
    requires s.process.Up?
  {
    [Fetch, Hand] + Storing(s.latest, Fetched(c, s, s.process.next))
  }

  /** The state once the next block is fetched and handed over. */
  function Handed(c: Config, s: State): State
    requires s.process.Up?
  {
    var b := Fetched(c, s, s.process.next);
    s.(process := Up(s.process.next + 1, None, s.process.tasks + multiset{ReadLatest(b.number)} + multiset{StoreBlock(b)}),
       handed := s.handed + {b.number}, handedThisRun := s.handedThisRun + {b.number})
  }

  lemma HandedRuns(c: Config, s: State)
    requires s.process.Up? && s.process.offer.None?
    ensures After(c, s, [Fetch, Hand]) == Some(Handed(c, s))
  {
    var b := Fetched(c, s, s.process.next);
    AfterTwo(c, s, Fetch, Hand);
    assert s.process.tasks + multiset{StoreBlock(b), ReadLatest(b.number)} ==
           s.process.tasks + multiset{ReadLatest(b.number)} + multiset{StoreBlock(b)};
  }

  lemma TurnSplits(c: Config, s: State)
    requires s.process.Up? && s.process.offer.None?
    requires After(c, Handed(c, s), Storing(s.latest, Fetched(c, s, s.process.next))).Some?
    ensures After(c, s, Turn(c, s)) == After(c, Handed(c, s), Storing(s.latest, Fetched(c, s, s.process.next)))
  {
    HandedRuns(c, s);
    AfterMore(c, s, [Fetch, Hand], Storing(s.latest, Fetched(c, s, s.process.next)));
  }

  /** Such a turn moves on to the next block, stores this one, raises the mark, and leaves no goroutine behind. */
  lemma TurnRuns(c: Config, s: State)
    requires s.process.Up? && s.process.offer.None?
    ensures After(c, s, Turn(c, s)) == Some(Settled(Handed(c, s), Fetched(c, s, s.process.next), s.process.tasks))
    ensures var t := After(c, s, Turn(c, s)).value;
            var b := if s.process.next in s.blocks then s.blocks[s.process.next] else c.chain(s.process.next);
            && t.process == Up(s.process.next + 1, None, s.process.tasks)
            && t.blocks == s.blocks[b.number := b]
            && t.latest == if (if s.latest.Some? then s.latest.value else 0) < b.number then Some(b.number) else s.latest
  {
    StoringRuns(c, Handed(c, s), Fetched(c, s, s.process.next), s.process.tasks);
    TurnSplits(c, s);
  }

  class SynchronizerStorage {
    var blocks: map<nat, Block>
    var latest: Option<nat>

    constructor ()
      ensures blocks == map[] && latest == None
    {
      blocks, latest := map[], None;
    }

    method StoreBlock(b: Block)
      modifies this`blocks
      ensures blocks == old(blocks)[b.number := b]
    {
      blocks := blocks[b.number := b];
    }

    method GetLatestBlock() returns (number: nat)
      ensures number == Mark(latest)
    {
      if latest.None? {
        return 0;
      }
      return latest.value;
    }

    /** Alone, the read-check-write leaves the larger of the two numbers. */
    method StoreLatestBlock(number: nat)
      modifies this`latest
      ensures latest == Raised(old(latest), number)
      ensures Mark(latest) == if number > Mark(old(latest)) then number else Mark(old(latest))
    {
      var lastBlock := GetLatestBlock();
      if lastBlock >= number {
        return;
      }
      latest := Some(number);
    }

    method FetchBlock(c: Config, number: nat) returns (b: Block)
      ensures b == if number in blocks then blocks[number] else c.chain(number)
    {
      if number in blocks {
        return blocks[number];
      }
      return c.chain(number);
    }

    method SyncBlock(b: Block)
      modifies this
      ensures blocks == old(blocks)[b.number := b] && latest == Raised(old(latest), b.number)
    {
      StoreBlock(b);
      StoreLatestBlock(b.number);
    }

    /** One turn of the loop leaves storage as the steps of the state machine do when nothing comes in between. */
    method SyncNext(c: Config, number: nat, ghost s: State)
      requires s.process.Up? && s.process.offer.None? && s.process.next == number
      requires s.blocks == blocks && s.latest == latest
      modifies this
      ensures After(c, s, Turn(c, s)).Some?
      ensures blocks == After(c, s, Turn(c, s)).value.blocks && latest == After(c, s, Turn(c, s)).value.latest
      ensures number in old(blocks) && old(blocks)[number].number == number ==> blocks == old(blocks)
      ensures number !in old(blocks) ==> blocks == old(blocks)[c.chain(number).number := c.chain(number)]
    {
      TurnRuns(c, s);
      var b := FetchBlock(c, number);
      SyncBlock(b);
    }
  }

  // ----- The invariant

  predicate BlocksNumbered(s: State) {
    forall n <- s.blocks :: s.blocks[n].number == n
  }

  /** Blocks are handed over without gaps from the first one on, and the mark is one of them. */
  ghost predicate HandedSound(c: Config, s: State) {
    && (forall n <- s.handed :: c.startBlock <= n && forall k: nat :: c.startBlock <= k <= n ==> k in s.handed)
    && (s.latest.Some? ==> s.latest.value in s.handed)
    && s.handedThisRun <= s.handed
  }

  ghost predicate ProcessSound(c: Config, s: State) {
    s.process.Up? ==>
      && c.startBlock <= s.process.next
      && (forall k: nat :: c.startBlock <= k < s.process.next ==> k in s.handed)
      && (s.process.offer.Some? ==> s.process.offer.value.number == s.process.next)
      && (forall t <- s.process.tasks :: t.Number() in s.handed)
  }

  predicate Pending(s: State, n: nat) {
    s.process.Up? && n in PendingStores(s.process)
  }

  /** A block handed over is stored, about to be stored, or lost in a crash; in this run, nothing is lost. */
  ghost predicate StoresSound(s: State) {
    && (forall n <- s.handed :: n in s.blocks || Pending(s, n) || n in s.lost)
    && (s.process.Up? ==> forall n <- s.handedThisRun :: n in s.blocks || Pending(s, n))
  }

  ghost predicate Inv(c: Config, s: State) {
    BlocksNumbered(s) && HandedSound(c, s) && ProcessSound(c, s) && StoresSound(s)
  }

  lemma ProcessStepKeepsInv(c: Config, s: State, step: Step)
    requires WellFormedChain(c) && Inv(c, s) && Enabled(c, s, step)
    requires step.Start? || step.Fetch? || step.Crash? || step.Resync?
    ensures Inv(c, Next(c, s, step))
  {
    if step.Start? && s.latest.Some? {
      assert forall k: nat :: c.startBlock <= k <= s.latest.value ==> k in s.handed;
    }
  }

  lemma HandKeepsPending(c: Config, s: State)
    requires Enabled(c, s, Hand)
    ensures var s' := Next(c, s, Hand);
            && Pending(s', s.process.offer.value.number)
            && forall n :: Pending(s, n) ==> Pending(s', n)
  {
    var s' := Next(c, s, Hand);
    var b := s.process.offer.value;
    assert StoreBlock(b) in s'.process.tasks;
    assert forall t <- s.process.tasks :: t in s'.process.tasks;
  }

  lemma HandKeepsInv(c: Config, s: State)
    requires Inv(c, s) && Enabled(c, s, Hand)
    ensures Inv(c, Next(c, s, Hand))
  {
    HandKeepsPending(c, s);
    HandKeepsHanded(c, s);
    assert ProcessSound(c, Next(c, s, Hand));
  }

  lemma HandKeepsHanded(c: Config, s: State)
    requires HandedSound(c, s) && ProcessSound(c, s) && Enabled(c, s, Hand)
    ensures HandedSound(c, Next(c, s, Hand)) && ProcessSound(c, Next(c, s, Hand))
  {
    var b, s' := s.process.offer.value, Next(c, s, Hand);
    forall t | t in s'.process.tasks
      ensures t.Number() in s'.handed
    {
      assert t in s.process.tasks || t == StoreBlock(b) || t == ReadLatest(b.number);
    }
  }

  lemma StoreKeepsPending(c: Config, s: State, b: Block, n: nat)
    requires Enabled(c, s, RunStore(b)) && Pending(s, n)
    ensures n == b.number || Pending(Next(c, s, RunStore(b)), n)
  {
    var t :| t in s.process.tasks && t.StoreBlock? && t.block.number == n;
    if n != b.number {
      assert t in Next(c, s, RunStore(b)).process.tasks;
    }
  }

  lemma StoreKeepsInv(c: Config, s: State, b: Block)
    requires Inv(c, s) && Enabled(c, s, RunStore(b))
    ensures Inv(c, Next(c, s, RunStore(b)))
  {
    var s' := Next(c, s, RunStore(b));
    forall n: nat | Pending(s, n)
      ensures n in s'.blocks || Pending(s', n)
    {
      StoreKeepsPending(c, s, b, n);
    }
    assert forall t <- s'.process.tasks :: t in s.process.tasks;
  }

  lemma MarkKeepsPending(c: Config, s: State, step: Step, n: nat)
    requires Enabled(c, s, step) && (step.RunRead? || step.RunWrite?) && Pending(s, n)
    ensures Pending(Next(c, s, step), n)
  {
    var t :| t in s.process.tasks && t.StoreBlock? && t.block.number == n;
    assert t in Next(c, s, step).process.tasks;
  }

  lemma MarkKeepsStores(c: Config, s: State, step: Step)
    requires StoresSound(s) && Enabled(c, s, step) && (step.RunRead? || step.RunWrite?)
    ensures StoresSound(Next(c, s, step))
  {
    forall n: nat | Pending(s, n)
      ensures Pending(Next(c, s, step), n)
    {
      MarkKeepsPending(c, s, step, n);
    }
  }

  lemma ReadKeepsTasks(c: Config, s: State, n: nat)
    requires ProcessSound(c, s) && Enabled(c, s, RunRead(n))
    ensures ProcessSound(c, Next(c, s, RunRead(n)))
  {
    assert ReadLatest(n).Number() in s.handed;
    assert forall t <- Next(c, s, RunRead(n)).process.tasks :: t in s.process.tasks || t == WriteLatest(n);
  }

  lemma ReadKeepsInv(c: Config, s: State, n: nat)
    requires Inv(c, s) && Enabled(c, s, RunRead(n))
    ensures Inv(c, Next(c, s, RunRead(n)))
  {
    MarkKeepsStores(c, s, RunRead(n));
    ReadKeepsTasks(c, s, n);
  }

  lemma WriteKeepsInv(c: Config, s: State, n: nat)
    requires Inv(c, s) && Enabled(c, s, RunWrite(n))
    ensures Inv(c, Next(c, s, RunWrite(n)))
  {
    MarkKeepsStores(c, s, RunWrite(n));
    assert WriteLatest(n).Number() in s.handed;
    assert forall t <- Next(c, s, RunWrite(n)).process.tasks :: t in s.process.tasks;
  }

  lemma StepKeepsInv(c: Config, s: State, step: Step)
    requires WellFormedChain(c) && Inv(c, s) && Enabled(c, s, step)
    ensures Inv(c, Next(c, s, step))
  {
    match step
    case Hand => HandKeepsInv(c, s);
    case RunStore(b) => StoreKeepsInv(c, s, b);
    case RunRead(n) => ReadKeepsInv(c, s, n);
    case RunWrite(n) => WriteKeepsInv(c, s, n);
    case _ => ProcessStepKeepsInv(c, s, step);
  }

  lemma {:induction false} StepsKeepInv(c: Config, steps: seq<Step>)
    requires WellFormedChain(c) && After(c, FRESH, steps).Some?
    ensures Inv(c, After(c, FRESH, steps).value)
  {
    if steps != [] {
      var n := |steps| - 1;
      StepsKeepInv(c, steps[..n]);
      StepKeepsInv(c, After(c, FRESH, steps[..n]).value, steps[n]);
    }
  }

  // ----- Main results

  /**
   * Under every interleaving and any crashes: numbers match, the mark is a block handed over, and so is
   * every block up to it.
   */
  lemma MarkIsCovered(c: Config, steps: seq<Step>, n: nat)
    requires WellFormedChain(c) && After(c, FRESH, steps).Some?
    ensures var s := After(c, FRESH, steps).value;
            && (n in s.blocks ==> s.blocks[n].number == n)
            && (s.latest.Some? ==> s.latest.value in s.handed)
            && (s.latest.Some? && c.startBlock <= n <= s.latest.value ==> n in s.handed)
            && (c.startBlock <= n < Resume(c, s.latest) ==> n in s.handed)
  {
    StepsKeepInv(c, steps);
  }

  /** A block up to the mark is stored, about to be stored, or its store was killed by a crash. */
  lemma MissingBlocksWereLost(c: Config, steps: seq<Step>, n: nat)
    requires WellFormedChain(c) && After(c, FRESH, steps).Some?
    requires After(c, FRESH, steps).value.latest.Some?
    requires c.startBlock <= n <= After(c, FRESH, steps).value.latest.value
    ensures var s := After(c, FRESH, steps).value;
            n in s.blocks || Pending(s, n) || n in s.lost
  {
    MarkIsCovered(c, steps, n);
    StepsKeepInv(c, steps);
  }

  /** Once all goroutines of a run have finished, every block handed over in that run is stored. */
  lemma FinishedRunIsStored(c: Config, steps: seq<Step>, n: nat)
    requires WellFormedChain(c) && After(c, FRESH, steps).Some?
    requires var s := After(c, FRESH, steps).value;
             s.process.Up? && s.process.tasks == multiset{} && n in s.handedThisRun
    ensures n in After(c, FRESH, steps).value.blocks
  {
    StepsKeepInv(c, steps);
  }

  // ----- When the mark goes back

  ghost predicate Runs(c: Config, steps: seq<Step>) {
    After(c, FRESH, steps).Some?
  }

  lemma {:induction false} PrefixRuns(c: Config, steps: seq<Step>, i: nat)
    requires Runs(c, steps) && i <= |steps|
    ensures Runs(c, steps[..i])
    ensures i < |steps| ==>
      && Enabled(c, After(c, FRESH, steps[..i]).value, steps[i])
      && After(c, FRESH, steps[..i + 1]) == Some(Next(c, After(c, FRESH, steps[..i]).value, steps[i]))
    decreases |steps|
  {
    var n := |steps| - 1;
    if i < n {
      PrefixRuns(c, steps[..n], i);
      assert steps[..n][..i] == steps[..i] && steps[..n][..i + 1] == steps[..i + 1];
    } else if i == n {
      assert steps[..i + 1] == steps;
    } else {
      assert steps[..i] == steps;
    }
  }

  /** The mark before the step at `i`. */
  function MarkAt(c: Config, steps: seq<Step>, i: nat): nat
    requires i <= |steps|
  {
    match After(c, FRESH, steps[..i])
    case None => 0
    case Some(s) => Mark(s.latest)
  }

  /** A single step lowers the mark exactly when it writes a number below it. */
  lemma MarkFallsExactly(c: Config, s: State, step: Step)
    requires Enabled(c, s, step)
    ensures Mark(Next(c, s, step).latest) < Mark(s.latest) <==> step.RunWrite? && step.number < Mark(s.latest)
  {
  }

  lemma MarkSteps(c: Config, steps: seq<Step>, i: nat)
    requires Runs(c, steps) && i < |steps|
    ensures MarkAt(c, steps, i + 1) == if steps[i].RunWrite? then steps[i].number else MarkAt(c, steps, i)
  {
    PrefixRuns(c, steps, i);
  }

  /** The read at `i` finds the mark below its number, so that a write will follow. */
  predicate SchedulesWrite(c: Config, steps: seq<Step>, i: nat) {
    i < |steps| && steps[i].RunRead? && MarkAt(c, steps, i) < steps[i].number
  }

  lemma NewWrite(c: Config, s: State, step: Step, k: nat)
    requires Enabled(c, s, step)
    requires Next(c, s, step).process.Up? && WriteLatest(k) in Next(c, s, step).process.tasks
    ensures || (s.process.Up? && WriteLatest(k) in s.process.tasks)
            || (step == RunRead(k) && Mark(s.latest) < k)
  {
  }

  lemma {:induction false} WriteWasScheduled(c: Config, steps: seq<Step>, n: nat, k: nat) returns (i: nat)
    requires Runs(c, steps) && n <= |steps| && Runs(c, steps[..n])
    requires var s := After(c, FRESH, steps[..n]).value; s.process.Up? && WriteLatest(k) in s.process.tasks
    ensures i < n && SchedulesWrite(c, steps, i) && steps[i].number == k
  {
    PrefixRuns(c, steps, n - 1);
    var before := After(c, FRESH, steps[..n - 1]).value;
    NewWrite(c, before, steps[n - 1], k);
    if before.process.Up? && WriteLatest(k) in before.process.tasks {
      i := WriteWasScheduled(c, steps, n - 1, k);
    } else {
      i := n - 1;
    }
  }

  lemma {:induction false} RaisingWrite(c: Config, steps: seq<Step>, from: nat, to: nat, k: nat) returns (m: nat)
    requires Runs(c, steps) && from <= to <= |steps|
    requires MarkAt(c, steps, from) <= k < MarkAt(c, steps, to)
    ensures from <= m < to && steps[m].RunWrite? && steps[m].number > k
  {
    MarkSteps(c, steps, to - 1);
    if MarkAt(c, steps, to - 1) > k {
      m := RaisingWrite(c, steps, from, to - 1, k);
    } else {
      m := to - 1;
    }
  }

  ghost predicate FallsAt(c: Config, steps: seq<Step>, j: nat) {
    j < |steps| && MarkAt(c, steps, j + 1) < MarkAt(c, steps, j)
  }

  lemma {:induction false} FallsBetween(c: Config, steps: seq<Step>, from: nat, to: nat) returns (j: nat)
    requires from <= to <= |steps| && MarkAt(c, steps, to) < MarkAt(c, steps, from)
    ensures FallsAt(c, steps, j)
  {
    if FallsAt(c, steps, to - 1) {
      j := to - 1;
    } else {
      j := FallsBetween(c, steps, from, to - 1);
    }
  }

  /** Between the read at `i` and the write at `j` of one number, the write at `m` stores a larger one. */
  ghost predicate Overtaken(c: Config, steps: seq<Step>, i: nat, m: nat, j: nat) {
    && i < m < j < |steps| && SchedulesWrite(c, steps, i)
    && steps[j] == RunWrite(steps[i].number)
    && steps[m].RunWrite? && steps[m].number > steps[i].number
  }

  lemma FallWasOvertaken(c: Config, steps: seq<Step>, j: nat) returns (i: nat, m: nat)
    requires Runs(c, steps) && FallsAt(c, steps, j)
    ensures Overtaken(c, steps, i, m, j)
  {
    PrefixRuns(c, steps, j);
    MarkFallsExactly(c, After(c, FRESH, steps[..j]).value, steps[j]);
    i := WriteWasScheduled(c, steps, j, steps[j].number);
    MarkSteps(c, steps, i);
    m := RaisingWrite(c, steps, i + 1, j, steps[j].number);
  }

  lemma OvertakenFalls(c: Config, steps: seq<Step>, i: nat, m: nat, j: nat) returns (f: nat)
    requires Runs(c, steps) && Overtaken(c, steps, i, m, j)
    ensures FallsAt(c, steps, f)
  {
    MarkSteps(c, steps, m);
    MarkSteps(c, steps, j);
    f := FallsBetween(c, steps, m + 1, j + 1);
  }

  /** In a whole run the mark goes back if and only if some read-check-write is overtaken by a larger write. */
  lemma MarkFallsExactlyWhenOvertaken(c: Config, steps: seq<Step>)
    requires Runs(c, steps)
    ensures (exists j: nat :: FallsAt(c, steps, j)) <==> (exists i: nat, m: nat, j: nat :: Overtaken(c, steps, i, m, j))
  {
    if j: nat :| FallsAt(c, steps, j) {
      var i, m := FallWasOvertaken(c, steps, j);
    }
    if i: nat, m: nat, j: nat :| Overtaken(c, steps, i, m, j) {
      var f := OvertakenFalls(c, steps, i, m, j);
    }
  }

  /** The write at `j` follows its read with no other write in between. */
  ghost predicate Uninterrupted(c: Config, steps: seq<Step>, j: nat)
    requires j < |steps| && steps[j].RunWrite?
  {
    exists i :: 0 <= i < j && SchedulesWrite(c, steps, i) && steps[i].number == steps[j].number &&
      forall m :: i < m < j ==> !steps[m].RunWrite?
  }

  lemma {:induction false} MarkStays(c: Config, steps: seq<Step>, from: nat, to: nat)
    requires Runs(c, steps) && from <= to <= |steps| && forall m :: from <= m < to ==> !steps[m].RunWrite?
    ensures MarkAt(c, steps, to) == MarkAt(c, steps, from)
  {
    if from < to {
      MarkSteps(c, steps, to - 1);
      MarkStays(c, steps, from, to - 1);
    }
  }

  /** So the mark never goes back while no write comes between another write and its read. */
  lemma UninterruptedNeverFalls(c: Config, steps: seq<Step>, j: nat)
    requires Runs(c, steps) && j < |steps|
    requires forall k :: 0 <= k < |steps| && steps[k].RunWrite? ==> Uninterrupted(c, steps, k)
    ensures !FallsAt(c, steps, j)
  {
    MarkSteps(c, steps, j);
    if steps[j].RunWrite? {
      var i :| 0 <= i < j && SchedulesWrite(c, steps, i) && steps[i].number == steps[j].number &&
        forall m :: i < m < j ==> !steps[m].RunWrite?;
      MarkStays(c, steps, i, j);
    }
  }

  // ----- What a crash leaves missing

  /** The block is missing and everything the synchronizer may still do is about later blocks. */
  predicate Stranded(s: State, n: nat) {
    && n !in s.blocks && n < Mark(s.latest)
    && (s.process.Up? ==>
          && n < s.process.next
          && (s.process.offer.Some? ==> n < s.process.offer.value.number)
          && forall t <- s.process.tasks :: n < t.Number())
  }

  lemma StrandedStore(c: Config, s: State, b: Block, n: nat)
    requires Stranded(s, n) && Enabled(c, s, RunStore(b))
    ensures Stranded(Next(c, s, RunStore(b)), n)
  {
    assert n < StoreBlock(b).Number();
    assert forall t <- Next(c, s, RunStore(b)).process.tasks :: t in s.process.tasks;
  }

  lemma StrandedRead(c: Config, s: State, k: nat, n: nat)
    requires Stranded(s, n) && Enabled(c, s, RunRead(k))
    ensures Stranded(Next(c, s, RunRead(k)), n)
  {
    assert n < ReadLatest(k).Number();
    assert forall t <- Next(c, s, RunRead(k)).process.tasks :: t in s.process.tasks || t == WriteLatest(k);
  }

  lemma StrandedWrite(c: Config, s: State, k: nat, n: nat)
    requires Stranded(s, n) && Enabled(c, s, RunWrite(k))
    ensures Stranded(Next(c, s, RunWrite(k)), n)
  {
    assert n < WriteLatest(k).Number();
    assert forall t <- Next(c, s, RunWrite(k)).process.tasks :: t in s.process.tasks;
  }

  lemma StrandedHand(c: Config, s: State, n: nat)
    requires Stranded(s, n) && Enabled(c, s, Hand)
    ensures Stranded(Next(c, s, Hand), n)
  {
    var b := s.process.offer.value;
    assert forall t <- Next(c, s, Hand).process.tasks ::
      t in s.process.tasks || t == StoreBlock(b) || t == ReadLatest(b.number);
  }

  /** No step of the synchronizer brings a stranded block back. */
  lemma StrandedStaysMissing(c: Config, s: State, step: Step, n: nat)
    requires WellFormedChain(c) && Inv(c, s) && Stranded(s, n) && Enabled(c, s, step) && step != Resync(n)
    ensures Stranded(Next(c, s, step), n)
  {
    match step
    case Hand => StrandedHand(c, s, n);
    case RunStore(b) => StrandedStore(c, s, b, n);
    case RunRead(k) => StrandedRead(c, s, k, n);
    case RunWrite(k) => StrandedWrite(c, s, k, n);
    case _ =>
  }

  /** A stranded block stays missing until the indexer fetches it itself: the synchronizer never asks for it again. */
  lemma {:induction false} StrandedForGood(c: Config, steps: seq<Step>, more: seq<Step>, n: nat)
    requires WellFormedChain(c) && After(c, FRESH, steps).Some? && Stranded(After(c, FRESH, steps).value, n)
    requires After(c, FRESH, steps + more).Some? && Resync(n) !in more
    ensures Stranded(After(c, FRESH, steps + more).value, n)
  {
    if more == [] {
      assert steps + more == steps;
    } else {
      var k := |more| - 1;
      assert (steps + more)[..|steps + more| - 1] == steps + more[..k];
      StrandedForGood(c, steps, more[..k], n);
      StepsKeepInv(c, steps + more[..k]);
      StrandedStaysMissing(c, After(c, FRESH, steps + more[..k]).value, more[k], n);
    }
  }

  /** A crash strands the missing blocks below the mark whose store it kills or an earlier crash has killed. */
  predicate StrandedByCrash(s: State, n: nat) {
    n < Mark(s.latest) && n !in s.blocks && (Pending(s, n) || n in s.lost)
  }

  /** Exactly those: no other block below the mark is missing after a crash. */
  lemma CrashStrands(c: Config, steps: seq<Step>, n: nat)
    requires WellFormedChain(c) && Runs(c, steps) && After(c, FRESH, steps).value.process.Up? && c.startBlock <= n
    ensures var s := After(c, FRESH, steps).value;
            Stranded(Next(c, s, Crash), n) <==> StrandedByCrash(s, n)
  {
    StepsKeepInv(c, steps);
  }

  /** A crash leaves nothing missing before the point of resumption if and only if it strands no block. */
  lemma CrashLeavesNothingMissing(c: Config, steps: seq<Step>)
    requires WellFormedChain(c) && Runs(c, steps) && After(c, FRESH, steps).value.process.Up?
    ensures var s := After(c, FRESH, steps).value;
            var s' := Next(c, s, Crash);
            (forall n :: c.startBlock <= n < Resume(c, s'.latest) ==> n in s'.blocks) <==>
            (forall n: nat :: c.startBlock <= n ==> !StrandedByCrash(s, n))
  {
    var s := After(c, FRESH, steps).value;
    forall n: nat | c.startBlock <= n
      ensures Stranded(Next(c, s, Crash), n) <==> StrandedByCrash(s, n)
    {
      CrashStrands(c, steps, n);
    }
    forall n: nat | c.startBlock <= n
      ensures Stranded(Next(c, s, Crash), n) <==> n < Resume(c, s.latest) && n !in s.blocks
    {
    }
    StepsKeepInv(c, steps);
  }

  lemma OneMore(c: Config, steps: seq<Step>, step: Step)
    requires Runs(c, steps) && Enabled(c, After(c, FRESH, steps).value, step)
    ensures After(c, FRESH, steps + [step]) == Some(Next(c, After(c, FRESH, steps).value, step))
  {
    AfterOne(c, FRESH, steps, step);
  }

  /** Fetches, hands over and stores the next block. */
  lemma StoreNext(c: Config, steps: seq<Step>) returns (more: seq<Step>)
    requires WellFormedChain(c) && Runs(c, steps)
    requires var s := After(c, FRESH, steps).value; s.process.Up? && s.process.offer.None?
    ensures Runs(c, steps + more) && forall step <- more :: !step.Resync?
    ensures var s, s' := After(c, FRESH, steps).value, After(c, FRESH, steps + more).value;
            && s'.process.Up? && s'.process.offer.None? && s'.process.next == s.process.next + 1
            && s.process.next in s'.blocks
  {
    StepsKeepInv(c, steps);
    var s := After(c, FRESH, steps).value;
    var b := Fetched(c, s, s.process.next);
    OneMore(c, steps, Fetch);
    OneMore(c, steps + [Fetch], Hand);
    assert StoreBlock(b) in After(c, FRESH, steps + [Fetch] + [Hand]).value.process.tasks;
    OneMore(c, steps + [Fetch] + [Hand], RunStore(b));
    more := [Fetch, Hand, RunStore(b)];
    assert steps + more == steps + [Fetch] + [Hand] + [RunStore(b)];
  }

  /** Continuations without a re-fetch can be put one after the other. */
  lemma AppendAssoc(a: seq<Step>, b: seq<Step>, d: seq<Step>)
    ensures a + (b + d) == a + b + d
    ensures (forall step <- b :: !step.Resync?) && (forall step <- d :: !step.Resync?) ==>
      forall step <- b + d :: !step.Resync?
  {
  }

  lemma {:induction false} StoreUpTo(c: Config, steps: seq<Step>, n: nat) returns (more: seq<Step>)
    requires WellFormedChain(c) && Runs(c, steps)
    requires var s := After(c, FRESH, steps).value; s.process.Up? && s.process.offer.None? && s.process.next <= n
    ensures Runs(c, steps + more) && n in After(c, FRESH, steps + more).value.blocks
    ensures forall step <- more :: !step.Resync?
    decreases n - After(c, FRESH, steps).value.process.next
  {
    var first := StoreNext(c, steps);
    if After(c, FRESH, steps).value.process.next == n {
      more := first;
    } else {
      var rest := StoreUpTo(c, steps + first, n);
      more := first + rest;
      AppendAssoc(steps, first, rest);
    }
  }

  ghost predicate StoredWithoutHelp(c: Config, steps: seq<Step>, more: seq<Step>, n: nat) {
    Resync(n) !in more && Runs(c, steps + more) && n in After(c, FRESH, steps + more).value.blocks
  }

  /**
   * When the process is down, the synchronizer can still come to store a missing block by itself
   * if and only if the block is not stranded.
   */
  lemma StrandedMeansUnrecoverable(c: Config, steps: seq<Step>, n: nat)
    requires WellFormedChain(c) && Runs(c, steps) && c.startBlock <= n
    requires After(c, FRESH, steps).value.process.Down? && n !in After(c, FRESH, steps).value.blocks
    ensures (exists more :: StoredWithoutHelp(c, steps, more, n)) <==> !Stranded(After(c, FRESH, steps).value, n)
  {
    if Stranded(After(c, FRESH, steps).value, n) {
      forall more | StoredWithoutHelp(c, steps, more, n)
        ensures false
      {
        StrandedForGood(c, steps, more, n);
      }
    } else {
      OneMore(c, steps, Start);
      var more := StoreUpTo(c, steps + [Start], n);
      AppendAssoc(steps, [Start], more);
      assert StoredWithoutHelp(c, steps, [Start] + more, n);
    }
  }

  // ----- Both do happen, whatever the first block

  /** Nothing is stored, no mark is set, and the process waits to fetch. */
  predicate Waiting(s: State) {
    s.process.Up? && s.process.offer.None? && s.blocks == map[] && s.latest == None
  }

  predicate BothPending(c: Config, s: State, n: nat) {
    s.process.Up? && StoreBlock(c.chain(n)) in s.process.tasks && ReadLatest(n) in s.process.tasks
  }

  lemma HandOne(c: Config, before: seq<Step>) returns (steps: seq<Step>)
    requires WellFormedChain(c) && Runs(c, before) && Waiting(After(c, FRESH, before).value)
    ensures Runs(c, steps) && Waiting(After(c, FRESH, steps).value)
    ensures var s, s' := After(c, FRESH, before).value, After(c, FRESH, steps).value;
            && s'.process.next == s.process.next + 1 && BothPending(c, s', s.process.next)
            && forall t <- s.process.tasks :: t in s'.process.tasks
  {
    OneMore(c, before, Fetch);
    OneMore(c, before + [Fetch], Hand);
    steps := before + [Fetch] + [Hand];
  }

  /** After a fresh start, some blocks are handed over and all their goroutines are pending. */
  lemma {:induction false} HandSome(c: Config, count: nat) returns (steps: seq<Step>)
    requires WellFormedChain(c)
    ensures Runs(c, steps) && Waiting(After(c, FRESH, steps).value)
    ensures var s := After(c, FRESH, steps).value;
            && s.process.next == c.startBlock + count
            && forall n: nat :: c.startBlock <= n < c.startBlock + count ==> BothPending(c, s, n)
  {
    if count == 0 {
      OneMore(c, [], Start);
      steps := [] + [Start];
    } else {
      var before := HandSome(c, count - 1);
      steps := HandOne(c, before);
      var s, s' := After(c, FRESH, before).value, After(c, FRESH, steps).value;
      forall n: nat | c.startBlock <= n < c.startBlock + count
        ensures BothPending(c, s', n)
      {
        if n != s.process.next {
          assert BothPending(c, s, n);
        }
      }
    }
  }

  /** Two goroutines have read the mark before either of them writes it. */
  lemma TwoScheduled(c: Config, k: nat) returns (steps: seq<Step>)
    requires WellFormedChain(c) && k == c.startBlock + 1
    ensures Runs(c, steps)
    ensures var p := After(c, FRESH, steps).value.process;
            p.Up? && WriteLatest(k) in p.tasks && WriteLatest(k + 1) in p.tasks
  {
    var three := HandSome(c, 3);
    var s0 := After(c, FRESH, three).value;
    assert BothPending(c, s0, k) && BothPending(c, s0, k + 1);
    var one := Schedule(c, three, k, ReadLatest(k + 1));
    steps := Schedule(c, one, k + 1, WriteLatest(k));
  }

  /** A pending read finds no mark and schedules its write; another goroutine stays pending. */
  lemma Schedule(c: Config, before: seq<Step>, k: nat, other: Task) returns (steps: seq<Step>)
    requires Runs(c, before) && k > 0 && other != ReadLatest(k)
    requires var s := After(c, FRESH, before).value;
             s.process.Up? && s.latest == None && ReadLatest(k) in s.process.tasks && other in s.process.tasks
    ensures Runs(c, steps)
    ensures var s := After(c, FRESH, steps).value;
            s.process.Up? && s.latest == None && WriteLatest(k) in s.process.tasks && other in s.process.tasks
  {
    OneMore(c, before, RunRead(k));
    steps := before + [RunRead(k)];
  }

  /** The smaller of two scheduled numbers is written last. */
  lemma MarkCanRegress(c: Config) returns (steps: seq<Step>)
    requires WellFormedChain(c)
    ensures Runs(c, steps) && steps != []
    ensures MarkAt(c, steps, |steps| - 1) == c.startBlock + 2 && MarkAt(c, steps, |steps|) == c.startBlock + 1
  {
    var k := c.startBlock + 1;
    var both := TwoScheduled(c, k);
    OneMore(c, both, RunWrite(k + 1));
    var larger := both + [RunWrite(k + 1)];
    assert WriteLatest(k) in After(c, FRESH, larger).value.process.tasks;
    OneMore(c, larger, RunWrite(k));
    steps := larger + [RunWrite(k)];
    assert steps[..|steps| - 1] == larger && steps[..|steps|] == steps;
  }

  /** A crash kills the store of the first block after the mark has passed it. */
  lemma CrashCanLoseABlock(c: Config) returns (steps: seq<Step>)
    requires WellFormedChain(c)
    ensures Runs(c, steps) && After(c, FRESH, steps).value.process.Up?
    ensures StrandedByCrash(After(c, FRESH, steps).value, c.startBlock)
  {
    var k := c.startBlock + 1;
    var two := HandSome(c, 2);
    assert BothPending(c, After(c, FRESH, two).value, k) && BothPending(c, After(c, FRESH, two).value, c.startBlock);
    OneMore(c, two, RunRead(k));
    var read := two + [RunRead(k)];
    assert StoreBlock(c.chain(c.startBlock)) in After(c, FRESH, read).value.process.tasks;
    OneMore(c, read, RunWrite(k));
    steps := read + [RunWrite(k)];
    assert StoreBlock(c.chain(c.startBlock)) in After(c, FRESH, steps).value.process.tasks;
  }
}
