/**
 * The indexer of one contract as a state machine: the replaying producer, the ascending producer
 * and the consumer interleave freely, storage is written one key at a time, and the process may
 * crash and restart between any two steps.
 */
module IndexerMachine {
  import opened Wrappers
  import opened Sequences
  import opened Chain
  import opened IndexPlan

  /** The contract, the configured first block, and the fixed chain. */
  datatype Config = Config(address: string, startBlock: nat, chain: nat -> Block)

  /** Blocks carry their own number, and a transaction hash occurs once among transactions and once among receipts. */
  ghost predicate WellFormedChain(c: Config) {
    && (forall n: nat :: c.chain(n).number == n)
    && (forall n1: nat, i1: nat, n2: nat, i2: nat :: SameTxHash(c, n1, i1, n2, i2) ==> n1 == n2 && i1 == i2)
    && (forall n1: nat, r1: nat, n2: nat, r2: nat :: SameReceiptHash(c, n1, r1, n2, r2) ==> n1 == n2 && r1 == r2)
  }

  predicate SameTxHash(c: Config, n1: nat, i1: nat, n2: nat, i2: nat) {
    && i1 < |c.chain(n1).transactions| && i2 < |c.chain(n2).transactions|
    && c.chain(n1).transactions[i1].hash == c.chain(n2).transactions[i2].hash
  }

  predicate SameReceiptHash(c: Config, n1: nat, r1: nat, n2: nat, r2: nat) {
    && r1 < |c.chain(n1).receipts| && r2 < |c.chain(n2).receipts|
    && c.chain(n1).receipts[r1].transactionHash == c.chain(n2).receipts[r2].transactionHash
  }

  function PlanOf(c: Config, n: nat): seq<Op> {
    Plan(c.address, c.chain(n))
  }

  // ----- States and steps

  /**
   * The running process: blocks still to replay and the block the replaying producer offers; the
   * block the ascending producer is at and the block it offers; the block being indexed and the
   * writes it still takes.
   */
  datatype Process =
    | Down
    | Up(replay: seq<nat>, replayOffer: Option<Block>, next: nat, nextOffer: Option<Block>, current: nat, work: seq<Op>)

  datatype State = State(world: World, process: Process)

  datatype Step =
    | Boot
    | FetchReplay
    | SkipReplay
    | FetchNext
    | ReceiveReplay
    | ReceiveNext
    | Write
    | Crash
    | Outside(key: Key, value: Value)

  /** Storage holds the block under its number. */
  predicate Available(w: World, n: nat) {
    StoredBlock(w.disk, n).Some?
  }

  /** The keys only this contract's indexer writes. */
  ghost predicate Owned(c: Config, k: Key) {
    match k
    case TxKey(a, _) => a == c.address
    case AddressEventKey(a, _) => a == c.address
    case IndexKey(a) => a == c.address
    case EventKey(id) => exists n: nat, r: nat, i: nat :: MatchingEvent(c.address, c.chain(n), r, i) && IdAt(c.chain(n), r, i) == id
    case BlockKey(_) => false
  }

  ghost predicate Enabled(c: Config, s: State, step: Step) {
    match step
    case Boot => s.process.Down?
    case FetchReplay =>
      s.process.Up? && s.process.replayOffer.None? && s.process.replay != [] && Available(s.world, s.process.replay[0])
    case SkipReplay => s.process.Up? && s.process.replayOffer.None? && s.process.replay != []
    case FetchNext => s.process.Up? && s.process.nextOffer.None? && Available(s.world, s.process.next)
    case ReceiveReplay => s.process.Up? && s.process.work == [] && s.process.replayOffer.Some?
    case ReceiveNext => s.process.Up? && s.process.work == [] && s.process.nextOffer.Some?
    case Write => s.process.Up? && s.process.work != []
    case Crash => s.process.Up?
    case Outside(k, v) => !Owned(c, k) && (k.BlockKey? ==> v == BlockValue(c.chain(k.number)))
  }

  function Resume(c: Config, disk: Disk): nat {
    var idx := StoredIndex(disk, c.address, c.startBlock);
    if c.startBlock > idx.latestBlock then c.startBlock else idx.latestBlock
  }

  ghost function Next(c: Config, s: State, step: Step): State
    requires Enabled(c, s, step)
  {
    var w, p := s.world, s.process;
    match step
    case Boot =>
      State(w, Up(StoredIndex(w.disk, c.address, c.startBlock).blocks, None, Resume(c, w.disk), None, 0, []))
    case FetchReplay =>
      State(w, p.(replay := p.replay[1..], replayOffer := StoredBlock(w.disk, p.replay[0])))
    case SkipReplay => State(w, p.(replay := p.replay[1..]))
    case FetchNext => State(w, p.(nextOffer := StoredBlock(w.disk, p.next)))
    case ReceiveReplay =>
      var b := p.replayOffer.value;
      State(w, p.(replayOffer := None, current := b.number, work := Plan(c.address, b)))
    case ReceiveNext =>
      var b := p.nextOffer.value;
      State(w, p.(nextOffer := None, next := p.next + 1, current := b.number, work := Plan(c.address, b)))
    case Write => State(ExecOp(c.address, w, p.work[0]), p.(work := p.work[1..]))
    case Crash => State(w, Down)
    case Outside(k, v) => State(w.(disk := w.disk[k := v]), p)
  }

  /** A fresh deployment: nothing owned is stored, nothing is published, stored blocks are the chain's. */
  ghost predicate Initial(c: Config, s: State) {
    && s.process.Down? && s.world.published == []
    && (forall k <- s.world.disk :: !Owned(c, k))
    && BlocksAgree(c, s.world)
  }

  ghost predicate IsRun(c: Config, run: seq<State>) {
    && run != [] && Initial(c, run[0])
    && forall i :: 0 <= i < |run| - 1 ==> Steps(c, run[i], run[i + 1])
  }

  ghost predicate Steps(c: Config, s: State, s': State) {
    exists step :: Enabled(c, s, step) && s' == Next(c, s, step)
  }

  // ----- What is true of storage

  ghost predicate BlocksAgree(c: Config, w: World) {
    forall n: nat :: BlockKey(n) in w.disk ==> w.disk[BlockKey(n)] == BlockValue(c.chain(n))
  }

  function IndexOf(c: Config, w: World): Index {
    StoredIndex(w.disk, c.address, c.startBlock)
  }

  /** The effect of a write of the plan can be seen in storage. */
  predicate Holds(c: Config, w: World, op: Op) {
    match op
    case PutTx(hash, tx) => TxKey(c.address, hash) in w.disk && w.disk[TxKey(c.address, hash)] == TxValue(tx)
    case PutAddressEvent(id, e) =>
      AddressEventKey(c.address, id) in w.disk && w.disk[AddressEventKey(c.address, id)] == EventValue(e)
    case PutEvent(id, e) => EventKey(id) in w.disk && w.disk[EventKey(id)] == EventValue(e)
    case Publish(id) => id in w.published
    case NoteBlock(b) => b in IndexOf(c, w).blocks
    case NoteLatest(_) => true
  }

  ghost predicate Done(c: Config, w: World, n: nat) {
    forall op <- PlanOf(c, n) :: Holds(c, w, op)
  }

  ghost predicate DoneBelow(c: Config, w: World, limit: nat) {
    forall n: nat :: c.startBlock <= n < limit ==> Done(c, w, n)
  }

  /** The index is decodable; everything before its latest block and before each noted block is done. */
  ghost predicate IndexSound(c: Config, w: World) {
    && (IndexKey(c.address) in w.disk ==> w.disk[IndexKey(c.address)].IndexValue?)
    && Distinct(IndexOf(c, w).blocks)
    && DoneBelow(c, w, IndexOf(c, w).latestBlock)
    && (forall m <- IndexOf(c, w).blocks :: c.startBlock <= m && DoneBelow(c, w, m))
  }

  /** The rest of the current plan is what the executed part leaves, and that part holds. */
  ghost predicate WorkSound(c: Config, w: World, p: Process)
    requires p.Up?
  {
    p.work != [] ==>
      && c.startBlock <= p.current && DoneBelow(c, w, p.current)
      && |p.work| <= |PlanOf(c, p.current)|
      && var done := |PlanOf(c, p.current)| - |p.work|;
         && p.work == PlanOf(c, p.current)[done..]
         && forall i :: 0 <= i < done ==> Holds(c, w, PlanOf(c, p.current)[i])
  }

  ghost predicate ProducersSound(c: Config, w: World, p: Process)
    requires p.Up?
  {
    && c.startBlock <= p.next
    && (forall n: nat :: c.startBlock <= n < p.next ==> Done(c, w, n) || (p.work != [] && n == p.current))
    && (p.nextOffer.Some? ==> p.nextOffer.value == c.chain(p.next))
    && (forall m <- p.replay :: m in IndexOf(c, w).blocks)
    && (p.replayOffer.Some? ==>
          p.replayOffer.value == c.chain(p.replayOffer.value.number) &&
          p.replayOffer.value.number in IndexOf(c, w).blocks)
  }

  ghost predicate Inv(c: Config, s: State) {
    && BlocksAgree(c, s.world)
    && IndexSound(c, s.world)
    && (s.process.Up? ==> WorkSound(c, s.world, s.process) && ProducersSound(c, s.world, s.process))
  }

  // ----- One write

  /** Writes of two plans of one chain never disagree about a key. */
  ghost predicate Agree(op1: Op, op2: Op) {
    && (op1.PutTx? && op2.PutTx? && op1.hash == op2.hash ==> op1 == op2)
    && (op1.PutAddressEvent? && op2.PutAddressEvent? && op1.id == op2.id ==> op1 == op2)
    && (op1.PutEvent? && op2.PutEvent? && op1.id == op2.id ==> op1 == op2)
  }

  lemma TxWritesAgree(c: Config, n1: nat, i1: nat, op1: Op, n2: nat, i2: nat, op2: Op)
    requires WellFormedChain(c) && TxWrites(c.address, c.chain(n1), i1, op1) && TxWrites(c.address, c.chain(n2), i2, op2)
    ensures Agree(op1, op2)
  {
    assert op1.PutTx? && op2.PutTx? && op1.hash == op2.hash ==> SameTxHash(c, n1, i1, n2, i2);
  }

  lemma EventWritesAgree(c: Config, n1: nat, r1: nat, i1: nat, op1: Op, n2: nat, r2: nat, i2: nat, op2: Op)
    requires WellFormedChain(c)
    requires EventWrites(c.address, c.chain(n1), r1, i1, op1) && EventWrites(c.address, c.chain(n2), r2, i2, op2)
    ensures Agree(op1, op2)
  {
    var h1, h2 := IdAt(c.chain(n1), r1, i1), IdAt(c.chain(n2), r2, i2);
    assert h1 == h2 ==> SameReceiptHash(c, n1, r1, n2, r2);
  }

  lemma PlansAgree(c: Config, n1: nat, op1: Op, n2: nat, op2: Op)
    requires WellFormedChain(c) && op1 in PlanOf(c, n1) && op2 in PlanOf(c, n2)
    ensures Agree(op1, op2)
  {
    PlanContains(c.address, c.chain(n1), op1);
    PlanContains(c.address, c.chain(n2), op2);
    if i1: nat, i2: nat :| TxWrites(c.address, c.chain(n1), i1, op1) && TxWrites(c.address, c.chain(n2), i2, op2) {
      TxWritesAgree(c, n1, i1, op1, n2, i2, op2);
    } else if r1: nat, i1: nat, r2: nat, i2: nat :|
      EventWrites(c.address, c.chain(n1), r1, i1, op1) && EventWrites(c.address, c.chain(n2), r2, i2, op2) {
      EventWritesAgree(c, n1, r1, i1, op1, n2, r2, i2, op2);
    }
  }

  /** A write keeps whatever a plan has achieved, and achieves its own effect. */
  lemma WriteKeepsEffects(c: Config, w: World, op: Op, other: Op)
    requires Agree(op, other)
    ensures Holds(c, w, other) ==> Holds(c, ExecOp(c.address, w, op), other)
    ensures Holds(c, ExecOp(c.address, w, op), op)
  {
  }

  lemma WriteKeepsDone(c: Config, w: World, m: nat, op: Op, n: nat)
    requires WellFormedChain(c) && op in PlanOf(c, m) && Done(c, w, n)
    ensures Done(c, ExecOp(c.address, w, op), n)
  {
    forall other | other in PlanOf(c, n)
      ensures Holds(c, ExecOp(c.address, w, op), other)
    {
      PlansAgree(c, m, op, n, other);
      WriteKeepsEffects(c, w, op, other);
    }
  }

  lemma WriteKeepsDoneBelow(c: Config, w: World, m: nat, op: Op, limit: nat)
    requires WellFormedChain(c) && op in PlanOf(c, m) && DoneBelow(c, w, limit)
    ensures DoneBelow(c, ExecOp(c.address, w, op), limit)
  {
    forall n: nat | c.startBlock <= n < limit
      ensures Done(c, ExecOp(c.address, w, op), n)
    {
      WriteKeepsDone(c, w, m, op, n);
    }
  }

  // ----- Every step keeps the invariant

  /** Noting a block keeps the index sound when everything before that block is done. */
  lemma NoteBlockKeepsIndex(c: Config, w: World, b: nat)
    requires WellFormedChain(c) && IndexSound(c, w) && c.startBlock <= b && DoneBelow(c, w, b)
    requires NoteBlock(b) in PlanOf(c, b)
    ensures IndexSound(c, ExecOp(c.address, w, NoteBlock(b)))
  {
    var w' := ExecOp(c.address, w, NoteBlock(b));
    var before := StoredIndex(w.disk, c.address, b);
    assert IndexOf(c, w') == WithBlock(before, b);
    WriteKeepsDoneBelow(c, w, b, NoteBlock(b), before.latestBlock);
    forall m | m in IndexOf(c, w').blocks
      ensures c.startBlock <= m && DoneBelow(c, w', m)
    {
      WriteKeepsDoneBelow(c, w, b, NoteBlock(b), m);
    }
  }

  /** Setting the latest block keeps the index sound, although the value may go down. */
  lemma NoteLatestKeepsIndex(c: Config, w: World, b: nat)
    requires WellFormedChain(c) && IndexSound(c, w) && c.startBlock <= b && DoneBelow(c, w, b)
    requires NoteLatest(b) in PlanOf(c, b)
    ensures IndexSound(c, ExecOp(c.address, w, NoteLatest(b)))
  {
    var w' := ExecOp(c.address, w, NoteLatest(b));
    var before := StoredIndex(w.disk, c.address, b);
    assert IndexOf(c, w') == WithLatest(before, b);
    if before.blocks != [] {
      MaxOfIsMax(before.blocks);
    }
    WriteKeepsDoneBelow(c, w, b, NoteLatest(b), IndexOf(c, w').latestBlock);
    forall m | m in IndexOf(c, w').blocks
      ensures c.startBlock <= m && DoneBelow(c, w', m)
    {
      WriteKeepsDoneBelow(c, w, b, NoteLatest(b), m);
    }
  }

  /** The other writes leave the index as it is. */
  lemma PutKeepsIndex(c: Config, w: World, b: nat, op: Op)
    requires WellFormedChain(c) && IndexSound(c, w) && op in PlanOf(c, b) && !op.NoteBlock? && !op.NoteLatest?
    ensures IndexSound(c, ExecOp(c.address, w, op))
  {
    var w' := ExecOp(c.address, w, op);
    assert IndexOf(c, w') == IndexOf(c, w);
    WriteKeepsDoneBelow(c, w, b, op, IndexOf(c, w).latestBlock);
    forall m | m in IndexOf(c, w').blocks
      ensures c.startBlock <= m && DoneBelow(c, w', m)
    {
      WriteKeepsDoneBelow(c, w, b, op, m);
    }
  }

  lemma NotesAreOfTheBlock(c: Config, n: nat, op: Op)
    requires WellFormedChain(c) && op in PlanOf(c, n) && (op.NoteBlock? || op.NoteLatest?)
    ensures op.block == n
  {
    PlanContains(c.address, c.chain(n), op);
  }

  lemma WriteKeepsIndex(c: Config, w: World, p: Process)
    requires WellFormedChain(c) && IndexSound(c, w) && p.Up? && WorkSound(c, w, p) && p.work != []
    ensures p.work[0] in PlanOf(c, p.current)
    ensures IndexSound(c, ExecOp(c.address, w, p.work[0]))
  {
    var op := p.work[0];
    assert op == PlanOf(c, p.current)[|PlanOf(c, p.current)| - |p.work|];
    if op.NoteBlock? {
      NotesAreOfTheBlock(c, p.current, op);
      NoteBlockKeepsIndex(c, w, p.current);
    } else if op.NoteLatest? {
      NotesAreOfTheBlock(c, p.current, op);
      NoteLatestKeepsIndex(c, w, p.current);
    } else {
      PutKeepsIndex(c, w, p.current, op);
    }
  }

  lemma WriteKeepsWork(c: Config, w: World, p: Process)
    requires WellFormedChain(c) && p.Up? && WorkSound(c, w, p) && p.work != [] && p.work[0] in PlanOf(c, p.current)
    ensures WorkSound(c, ExecOp(c.address, w, p.work[0]), p.(work := p.work[1..]))
    ensures |p.work| == 1 ==> Done(c, ExecOp(c.address, w, p.work[0]), p.current)
  {
    var plan, op := PlanOf(c, p.current), p.work[0];
    var w' := ExecOp(c.address, w, op);
    var done := |plan| - |p.work|;
    assert op == plan[done];
    WriteKeepsDoneBelow(c, w, p.current, op, p.current);
    forall i | 0 <= i < done + 1
      ensures Holds(c, w', plan[i])
    {
      PlansAgree(c, p.current, op, p.current, plan[i]);
      WriteKeepsEffects(c, w, op, plan[i]);
    }
  }

  lemma WriteKeepsNotedBlocks(c: Config, w: World, op: Op)
    ensures forall m <- IndexOf(c, w).blocks :: m in IndexOf(c, ExecOp(c.address, w, op)).blocks
  {
  }

  lemma WriteKeepsProducers(c: Config, w: World, p: Process)
    requires WellFormedChain(c) && p.Up? && WorkSound(c, w, p) && ProducersSound(c, w, p)
    requires p.work != [] && p.work[0] in PlanOf(c, p.current)
    ensures ProducersSound(c, ExecOp(c.address, w, p.work[0]), p.(work := p.work[1..]))
  {
    var op := p.work[0];
    var w' := ExecOp(c.address, w, op);
    WriteKeepsWork(c, w, p);
    WriteKeepsNotedBlocks(c, w, op);
    forall n: nat | c.startBlock <= n < p.next && Done(c, w, n)
      ensures Done(c, w', n)
    {
      WriteKeepsDone(c, w, p.current, op, n);
    }
  }

  lemma WriteKeepsBlocks(c: Config, w: World, op: Op)
    requires BlocksAgree(c, w)
    ensures BlocksAgree(c, ExecOp(c.address, w, op))
  {
  }

  lemma WriteKeepsInv(c: Config, s: State)
    requires WellFormedChain(c) && Inv(c, s) && Enabled(c, s, Write)
    ensures Inv(c, Next(c, s, Write))
  {
    var w, p := s.world, s.process;
    WriteKeepsIndex(c, w, p);
    WriteKeepsWork(c, w, p);
    WriteKeepsProducers(c, w, p);
    WriteKeepsBlocks(c, w, p.work[0]);
  }

  /** `w'` is `w` after a write to a key this contract does not own. */
  ghost predicate OutsideWrite(c: Config, w: World, k: Key, v: Value, w': World) {
    !Owned(c, k) && w' == World(w.disk[k := v], w.published)
  }

  lemma OutsideKeepsEffect(c: Config, w: World, k: Key, v: Value, w': World, n: nat, op: Op)
    requires OutsideWrite(c, w, k, v, w') && op in PlanOf(c, n)
    ensures Holds(c, w', op) == Holds(c, w, op)
  {
    PlanContains(c.address, c.chain(n), op);
    if r: nat, i: nat :| EventWrites(c.address, c.chain(n), r, i, op) {
      assert Owned(c, EventKey(IdAt(c.chain(n), r, i)));
    }
  }

  lemma OutsideKeepsDone(c: Config, w: World, k: Key, v: Value, w': World, n: nat)
    requires OutsideWrite(c, w, k, v, w')
    ensures Done(c, w', n) == Done(c, w, n)
  {
    forall op | op in PlanOf(c, n)
      ensures Holds(c, w', op) == Holds(c, w, op)
    {
      OutsideKeepsEffect(c, w, k, v, w', n, op);
    }
  }

  lemma OutsideKeepsDoneBelow(c: Config, w: World, k: Key, v: Value, w': World, limit: nat)
    requires OutsideWrite(c, w, k, v, w') && DoneBelow(c, w, limit)
    ensures DoneBelow(c, w', limit)
  {
    forall n: nat | c.startBlock <= n < limit
      ensures Done(c, w', n)
    {
      OutsideKeepsDone(c, w, k, v, w', n);
    }
  }

  lemma OutsideKeepsIndex(c: Config, w: World, k: Key, v: Value, w': World)
    requires OutsideWrite(c, w, k, v, w') && IndexSound(c, w)
    ensures IndexSound(c, w') && IndexOf(c, w') == IndexOf(c, w)
  {
    assert Owned(c, IndexKey(c.address));
    OutsideKeepsDoneBelow(c, w, k, v, w', IndexOf(c, w).latestBlock);
    forall m | m in IndexOf(c, w').blocks
      ensures c.startBlock <= m && DoneBelow(c, w', m)
    {
      OutsideKeepsDoneBelow(c, w, k, v, w', m);
    }
  }

  lemma OutsideKeepsWork(c: Config, w: World, k: Key, v: Value, w': World, p: Process)
    requires OutsideWrite(c, w, k, v, w') && p.Up? && WorkSound(c, w, p)
    ensures WorkSound(c, w', p)
  {
    if p.work != [] {
      OutsideKeepsDoneBelow(c, w, k, v, w', p.current);
      var plan := PlanOf(c, p.current);
      forall i | 0 <= i < |plan| - |p.work|
        ensures Holds(c, w', plan[i])
      {
        OutsideKeepsEffect(c, w, k, v, w', p.current, plan[i]);
      }
    }
  }

  lemma OutsideKeepsProducers(c: Config, w: World, k: Key, v: Value, w': World, p: Process)
    requires OutsideWrite(c, w, k, v, w') && IndexSound(c, w) && p.Up? && ProducersSound(c, w, p)
    ensures ProducersSound(c, w', p)
  {
    OutsideKeepsIndex(c, w, k, v, w');
    forall n: nat | c.startBlock <= n < p.next && Done(c, w, n)
      ensures Done(c, w', n)
    {
      OutsideKeepsDone(c, w, k, v, w', n);
    }
  }

  lemma OutsideKeepsInv(c: Config, s: State, k: Key, v: Value)
    requires Inv(c, s) && Enabled(c, s, Outside(k, v))
    ensures Inv(c, Next(c, s, Outside(k, v)))
  {
    var w' := Next(c, s, Outside(k, v)).world;
    OutsideKeepsIndex(c, s.world, k, v, w');
    if s.process.Up? {
      OutsideKeepsWork(c, s.world, k, v, w', s.process);
      OutsideKeepsProducers(c, s.world, k, v, w', s.process);
    }
  }

  lemma BootKeepsInv(c: Config, s: State)
    requires Inv(c, s) && Enabled(c, s, Boot)
    ensures Inv(c, Next(c, s, Boot))
    ensures DoneBelow(c, s.world, Resume(c, s.world.disk))
  {
  }

  /** Receiving a block starts its plan from the beginning. */
  lemma FreshWork(c: Config, w: World, p: Process)
    requires p.Up? && p.work == PlanOf(c, p.current) && c.startBlock <= p.current && DoneBelow(c, w, p.current)
    ensures WorkSound(c, w, p)
  {
    assert p.work == PlanOf(c, p.current)[0..];
  }

  lemma ReceiveReplayKeepsInv(c: Config, s: State)
    requires WellFormedChain(c) && Inv(c, s) && Enabled(c, s, ReceiveReplay)
    ensures Inv(c, Next(c, s, ReceiveReplay))
  {
    FreshWork(c, s.world, Next(c, s, ReceiveReplay).process);
  }

  lemma ReceiveNextKeepsInv(c: Config, s: State)
    requires WellFormedChain(c) && Inv(c, s) && Enabled(c, s, ReceiveNext)
    ensures Inv(c, Next(c, s, ReceiveNext))
  {
    var p := Next(c, s, ReceiveNext).process;
    assert p.current == s.process.next;
    FreshWork(c, s.world, p);
  }

  lemma FetchKeepsInv(c: Config, s: State, step: Step)
    requires WellFormedChain(c) && Inv(c, s) && Enabled(c, s, step)
    requires step.FetchReplay? || step.SkipReplay? || step.FetchNext? || step.Crash?
    ensures Inv(c, Next(c, s, step))
  {
  }

  lemma StepKeepsInv(c: Config, s: State, step: Step)
    requires WellFormedChain(c) && Inv(c, s) && Enabled(c, s, step)
    ensures Inv(c, Next(c, s, step))
  {
    match step
    case Boot => BootKeepsInv(c, s);
    case Write => WriteKeepsInv(c, s);
    case Outside(k, v) => OutsideKeepsInv(c, s, k, v);
    case ReceiveReplay => ReceiveReplayKeepsInv(c, s);
    case ReceiveNext => ReceiveNextKeepsInv(c, s);
    case _ => FetchKeepsInv(c, s, step);
  }

  lemma {:induction false} RunKeepsInv(c: Config, run: seq<State>)
    requires WellFormedChain(c) && IsRun(c, run)
    ensures Inv(c, run[|run| - 1])
  {
    var n := |run| - 1;
    if n == 0 {
      assert Owned(c, IndexKey(c.address));
    } else {
      RunKeepsInv(c, run[..n]);
      assert Steps(c, run[n - 1], run[n]);
      var step :| Enabled(c, run[n - 1], step) && run[n] == Next(c, run[n - 1], step);
      StepKeepsInv(c, run[n - 1], step);
    }
  }
}
