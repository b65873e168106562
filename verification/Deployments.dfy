/**
 * All indexers of a deployment, each with its own two producers and consumer, interleaved over one
 * store that the synchronizer fills (internal/indexer/indexer.go, lines 23 to 35). Seen from one
 * contract, such a run is a run of its own indexer: the others only write keys it does not own.
 */
module Deployments {
  import opened Wrappers
  import opened Events
  import opened Chain
  import opened IndexPlan
  import IM = IndexerMachine

  datatype Deployment = Deployment(addresses: set<string>, startBlock: nat, chain: nat -> Block)

  function ConfigOf(d: Deployment, a: string): IM.Config {
    IM.Config(a, d.startBlock, d.chain)
  }

  ghost predicate WellFormed(d: Deployment) {
    forall a <- d.addresses :: IM.WellFormedChain(ConfigOf(d, a))
  }

  /** The shared store, and for each contract what its indexer published and where its process is. */
  datatype Whole = Whole(disk: Disk, published: map<string, seq<EventId>>, processes: map<string, IM.Process>)

  predicate Covers(d: Deployment, s: Whole) {
    s.published.Keys == d.addresses && s.processes.Keys == d.addresses
  }

  function Seen(s: Whole, a: string): IM.State
    requires a in s.published && a in s.processes
  {
    IM.State(World(s.disk, s.published[a]), s.processes[a])
  }

  /** A step of one indexer, or a block stored by the synchronizer or by a re-fetch. */
  datatype Step = Indexer(address: string, step: IM.Step) | Sync(number: nat)

  ghost predicate Enabled(d: Deployment, s: Whole, step: Step) {
    match step
    case Indexer(a, st) =>
      a in d.addresses && Covers(d, s) && !st.Outside? && IM.Enabled(ConfigOf(d, a), Seen(s, a), st)
    case Sync(_) => true
  }

  ghost function Next(d: Deployment, s: Whole, step: Step): Whole
    requires Enabled(d, s, step)
  {
    match step
    case Indexer(a, st) =>
      var v := IM.Next(ConfigOf(d, a), Seen(s, a), st);
      Whole(v.world.disk, s.published[a := v.world.published], s.processes[a := v.process])
    case Sync(n) => s.(disk := s.disk[BlockKey(n) := BlockValue(d.chain(n))])
  }

  ghost predicate Steps(d: Deployment, s: Whole, s': Whole) {
    exists step :: Enabled(d, s, step) && s' == Next(d, s, step)
  }

  ghost predicate Initial(d: Deployment, s: Whole) {
    Covers(d, s) && forall a <- d.addresses :: IM.Initial(ConfigOf(d, a), Seen(s, a))
  }

  ghost predicate IsRun(d: Deployment, run: seq<Whole>) {
    && run != [] && Initial(d, run[0])
    && forall i :: 0 <= i < |run| - 1 ==> Steps(d, run[i], run[i + 1])
  }

  function Final(run: seq<Whole>): Whole
    requires run != []
  {
    run[|run| - 1]
  }

  /** An empty store, nothing published, no process running. */
  function Fresh(d: Deployment): Whole {
    Whole(map[], map a | a in d.addresses :: [], map a | a in d.addresses :: IM.Down)
  }

  /** Every deployment has a run: it may start on an empty store. */
  lemma FreshRuns(d: Deployment)
    ensures IsRun(d, [Fresh(d)])
  {
  }

  lemma {:induction false} RunCovers(d: Deployment, run: seq<Whole>)
    requires IsRun(d, run)
    ensures Covers(d, Final(run))
  {
    if |run| > 1 {
      var n := |run| - 1;
      RunCovers(d, run[..n]);
      assert Steps(d, run[n - 1], run[n]);
    }
  }

  // ----- One contract's view of a step of another

  /** The key a write changes, if it changes storage. */
  function KeyOf(address: string, op: Op): Option<Key> {
    match op
    case PutTx(hash, _) => Some(TxKey(address, hash))
    case PutAddressEvent(id, _) => Some(AddressEventKey(address, id))
    case PutEvent(id, _) => Some(EventKey(id))
    case Publish(_) => None
    case NoteBlock(_) => Some(IndexKey(address))
    case NoteLatest(_) => Some(IndexKey(address))
  }

  lemma OneKeyChanges(address: string, w: World, op: Op)
    ensures var w' := ExecOp(address, w, op);
            match KeyOf(address, op)
            case None => w'.disk == w.disk
            case Some(k) => k in w'.disk && w'.disk == w.disk[k := w'.disk[k]]
  {
  }

  /** An event matches one contract only, so no two contracts write the same event key. */
  lemma EventKeysAreSeparate(d: Deployment, a: string, b: string, n: nat, op: Op)
    requires WellFormed(d) && a in d.addresses && b in d.addresses && a != b
    requires op in IM.PlanOf(ConfigOf(d, a), n) && KeyOf(a, op).Some?
    ensures !IM.Owned(ConfigOf(d, b), KeyOf(a, op).value) && !KeyOf(a, op).value.BlockKey?
  {
    if op.PutEvent? {
      PlanContains(a, d.chain(n), op);
      var r: nat, i: nat :| EventWrites(a, d.chain(n), r, i, op);
      if IM.Owned(ConfigOf(d, b), EventKey(op.id)) {
        var n': nat, r': nat, i': nat :| MatchingEvent(b, d.chain(n'), r', i') && IdAt(d.chain(n'), r', i') == op.id;
        assert IM.SameReceiptHash(ConfigOf(d, a), n, r, n', r');
      }
    }
  }

  lemma SyncIsOutside(d: Deployment, s: Whole, n: nat, b: string)
    requires Covers(d, s) && b in d.addresses
    ensures IM.Steps(ConfigOf(d, b), Seen(s, b), Seen(Next(d, s, Sync(n)), b))
  {
    var step := IM.Outside(BlockKey(n), BlockValue(d.chain(n)));
    assert IM.Enabled(ConfigOf(d, b), Seen(s, b), step);
    assert Seen(Next(d, s, Sync(n)), b) == IM.Next(ConfigOf(d, b), Seen(s, b), step);
  }

  lemma OtherIsOutside(d: Deployment, s: Whole, a: string, st: IM.Step, b: string)
    requires WellFormed(d) && Covers(d, s) && b in d.addresses && a != b && Enabled(d, s, Indexer(a, st))
    requires IM.Inv(ConfigOf(d, a), Seen(s, a))
    ensures var s' := Next(d, s, Indexer(a, st));
            Seen(s', b) == Seen(s, b) || IM.Steps(ConfigOf(d, b), Seen(s, b), Seen(s', b))
  {
    var s' := Next(d, s, Indexer(a, st));
    if st.Write? {
      var v := Seen(s, a);
      var op := v.process.work[0];
      IM.WriteKeepsIndex(ConfigOf(d, a), v.world, v.process);
      OneKeyChanges(a, v.world, op);
      if KeyOf(a, op).Some? {
        var k := KeyOf(a, op).value;
        EventKeysAreSeparate(d, a, b, v.process.current, op);
        var step := IM.Outside(k, s'.disk[k]);
        assert IM.Enabled(ConfigOf(d, b), Seen(s, b), step);
        assert Seen(s', b) == IM.Next(ConfigOf(d, b), Seen(s, b), step);
      }
    }
  }

  lemma OwnStep(d: Deployment, s: Whole, a: string, st: IM.Step)
    requires Enabled(d, s, Indexer(a, st))
    ensures IM.Steps(ConfigOf(d, a), Seen(s, a), Seen(Next(d, s, Indexer(a, st)), a))
  {
    assert Seen(Next(d, s, Indexer(a, st)), a) == IM.Next(ConfigOf(d, a), Seen(s, a), st);
  }

  lemma ExtendRun(c: IM.Config, run: seq<IM.State>, s: IM.State) returns (longer: seq<IM.State>)
    requires IM.IsRun(c, run) && (s == run[|run| - 1] || IM.Steps(c, run[|run| - 1], s))
    ensures IM.IsRun(c, longer) && longer[|longer| - 1] == s
  {
    if s == run[|run| - 1] {
      longer := run;
    } else {
      longer := run + [s];
      forall i | 0 <= i < |longer| - 1
        ensures IM.Steps(c, longer[i], longer[i + 1])
      {
        if i < |run| - 1 {
          assert IM.Steps(c, run[i], run[i + 1]);
        }
      }
    }
  }

  /** One step of the deployment, seen from one contract, is a step of its indexer or nothing. */
  lemma SeenStep(d: Deployment, s: Whole, step: Step, b: string)
    requires WellFormed(d) && Covers(d, s) && b in d.addresses && Enabled(d, s, step)
    requires step.Indexer? && step.address != b ==> IM.Inv(ConfigOf(d, step.address), Seen(s, step.address))
    ensures var s' := Next(d, s, step);
            Covers(d, s') && (Seen(s', b) == Seen(s, b) || IM.Steps(ConfigOf(d, b), Seen(s, b), Seen(s', b)))
  {
    if step.Sync? {
      SyncIsOutside(d, s, step.number, b);
    } else if step.address == b {
      OwnStep(d, s, b, step.step);
    } else {
      OtherIsOutside(d, s, step.address, step.step, b);
    }
  }

  lemma LastStep(d: Deployment, run: seq<Whole>) returns (before: seq<Whole>, step: Step)
    requires IsRun(d, run) && |run| > 1
    ensures before == run[..|run| - 1] && IsRun(d, before) && Covers(d, Final(before))
    ensures Enabled(d, Final(before), step) && Final(run) == Next(d, Final(before), step)
  {
    var n := |run| - 1;
    before := run[..n];
    RunCovers(d, before);
    assert Steps(d, run[n - 1], run[n]);
    step :| Enabled(d, run[n - 1], step) && run[n] == Next(d, run[n - 1], step);
  }

  /** The invariant of every contract's own indexer. */
  ghost predicate AllInv(d: Deployment, s: Whole) {
    Covers(d, s) && forall a :: a in d.addresses ==> IM.Inv(ConfigOf(d, a), Seen(s, a))
  }

  lemma LastSeen(d: Deployment, run: seq<Whole>, before: seq<Whole>, b: string)
    requires WellFormed(d) && IsRun(d, run) && |run| > 1 && b in d.addresses
    requires before == run[..|run| - 1] && AllInv(d, Final(before))
    ensures Covers(d, Final(run))
    ensures || Seen(Final(run), b) == Seen(Final(before), b)
            || IM.Steps(ConfigOf(d, b), Seen(Final(before), b), Seen(Final(run), b))
  {
    var _, step := LastStep(d, run);
    SeenStep(d, Final(before), step, b);
  }

  lemma PrefixIsRun(d: Deployment, run: seq<Whole>)
    requires IsRun(d, run) && |run| > 1
    ensures IsRun(d, run[..|run| - 1])
  {
  }

  /** What the deployment does is, seen from one contract, a run of that contract's indexer. */
  lemma {:induction false} Project(d: Deployment, run: seq<Whole>, b: string) returns (own: seq<IM.State>)
    requires WellFormed(d) && IsRun(d, run) && b in d.addresses
    ensures Covers(d, Final(run))
    ensures IM.IsRun(ConfigOf(d, b), own) && own[|own| - 1] == Seen(Final(run), b)
    decreases |run|
  {
    if |run| == 1 {
      own := [Seen(run[0], b)];
    } else {
      var before := run[..|run| - 1];
      PrefixIsRun(d, run);
      RunCovers(d, before);
      forall a | a in d.addresses
        ensures IM.Inv(ConfigOf(d, a), Seen(Final(before), a))
      {
        var other := Project(d, before, a);
        IM.RunKeepsInv(ConfigOf(d, a), other);
      }
      LastSeen(d, run, before, b);
      own := Project(d, before, b);
      own := ExtendRun(ConfigOf(d, b), own, Seen(Final(run), b));
    }
  }
}
