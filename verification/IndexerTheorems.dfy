/** What holds in every reachable state of the indexer. */
module IndexerTheorems {
  import opened Events
  import opened Sequences
  import opened Chain
  import opened Felt
  import opened IndexPlan
  import opened IndexerMachine

  // ----- Fully indexed blocks, told in terms of the chain

  ghost predicate HasMatch(c: Config, n: nat) {
    || (exists i: nat :: MatchingTx(c.address, c.chain(n), i))
    || (exists r: nat, i: nat :: MatchingEvent(c.address, c.chain(n), r, i))
  }

  predicate TxStored(c: Config, w: World, n: nat, i: nat)
    requires i < |c.chain(n).transactions|
  {
    var tx := c.chain(n).transactions[i];
    TxKey(c.address, tx.hash) in w.disk && w.disk[TxKey(c.address, tx.hash)] == TxValue(tx)
  }

  /** Both keys hold the event with the block's time and its id, and it was published. */
  predicate EventStored(c: Config, w: World, n: nat, r: nat, i: nat)
    requires r < |c.chain(n).receipts| && i < |c.chain(n).receipts[r].events|
  {
    var id, found := EventId(c.chain(n).receipts[r].transactionHash, i), c.chain(n).receipts[r].events[i];
    var e := StarknetEvent(c.chain(n).timestamp * 1_000_000_000, id, found.fromAddress, found.keys, found.data);
    && AddressEventKey(c.address, id) in w.disk && w.disk[AddressEventKey(c.address, id)] == EventValue(e)
    && EventKey(id) in w.disk && w.disk[EventKey(id)] == EventValue(e)
    && id in w.published
  }

  ghost predicate FullyIndexed(c: Config, w: World, n: nat) {
    && (forall i: nat :: MatchingTx(c.address, c.chain(n), i) ==> TxStored(c, w, n, i))
    && (forall r: nat, i: nat :: MatchingEvent(c.address, c.chain(n), r, i) ==> EventStored(c, w, n, r, i))
    && (HasMatch(c, n) ==> n in IndexOf(c, w).blocks)
  }

  lemma DoneStores(c: Config, w: World, n: nat)
    requires WellFormedChain(c) && Done(c, w, n)
    ensures FullyIndexed(c, w, n)
  {
    forall i: nat | MatchingTx(c.address, c.chain(n), i)
      ensures TxStored(c, w, n, i) && n in IndexOf(c, w).blocks
    {
      DoneStoresTx(c, w, n, i);
    }
    forall r: nat, i: nat | MatchingEvent(c.address, c.chain(n), r, i)
      ensures EventStored(c, w, n, r, i) && n in IndexOf(c, w).blocks
    {
      DoneStoresEvent(c, w, n, r, i);
    }
  }

  lemma DoneStoresTx(c: Config, w: World, n: nat, i: nat)
    requires WellFormedChain(c) && Done(c, w, n) && MatchingTx(c.address, c.chain(n), i)
    ensures TxStored(c, w, n, i) && n in IndexOf(c, w).blocks
  {
    var b := c.chain(n);
    var put, note := PutTx(b.transactions[i].hash, b.transactions[i]), NoteBlock(n);
    assert TxWrites(c.address, b, i, put) && TxWrites(c.address, b, i, note);
    PlanContains(c.address, b, put);
    PlanContains(c.address, b, note);
    assert Holds(c, w, put) && Holds(c, w, note);
  }

  lemma DoneStoresEvent(c: Config, w: World, n: nat, r: nat, i: nat)
    requires WellFormedChain(c) && Done(c, w, n) && MatchingEvent(c.address, c.chain(n), r, i)
    ensures EventStored(c, w, n, r, i) && n in IndexOf(c, w).blocks
  {
    var b := c.chain(n);
    var id, e := IdAt(b, r, i), StampedAt(b, r, i);
    EventIsPlanned(c, n, r, i, PutAddressEvent(id, e));
    EventIsPlanned(c, n, r, i, PutEvent(id, e));
    EventIsPlanned(c, n, r, i, Publish(id));
    EventIsPlanned(c, n, r, i, NoteBlock(n));
  }

  lemma EventIsPlanned(c: Config, n: nat, r: nat, i: nat, op: Op)
    requires EventWrites(c.address, c.chain(n), r, i, op)
    ensures op in PlanOf(c, n)
  {
    PlanContains(c.address, c.chain(n), op);
  }

  /**
   * Told by felts alone: an event whose emitter denotes the number of the contract's address lies, in every
   * fully indexed block, under both keys, with the block's time in nanoseconds, its own id, and emitter,
   * keys and data as found.
   */
  lemma EventOfContractIsStored(c: Config, w: World, n: nat, r: nat, i: nat)
    requires FullyIndexed(c, w, n) && r < |c.chain(n).receipts| && i < |c.chain(n).receipts[r].events|
    requires IsFeltText(c.address) && |c.address| == 66 && IsFeltText(c.chain(n).receipts[r].events[i].fromAddress)
    requires FeltValue(c.chain(n).receipts[r].events[i].fromAddress) == FeltValue(c.address)
    ensures var hash, found := c.chain(n).receipts[r].transactionHash, c.chain(n).receipts[r].events[i];
            && AddressEventKey(c.address, EventId(hash, i)) in w.disk && EventKey(EventId(hash, i)) in w.disk
            && w.disk[AddressEventKey(c.address, EventId(hash, i))] == w.disk[EventKey(EventId(hash, i))]
            && w.disk[EventKey(EventId(hash, i))].EventValue?
            && var e := w.disk[EventKey(EventId(hash, i))].event;
               && e.recordedAt == c.chain(n).timestamp * 1_000_000_000 && e.eventId == EventId(hash, i)
               && e.fromAddress == found.fromAddress && e.keys == found.keys && e.data == found.data
    ensures EventId(c.chain(n).receipts[r].transactionHash, i) in w.published && n in IndexOf(c, w).blocks
  {
    MatchingMeans(c.address, c.chain(n), i, r);
    assert HasMatch(c, n) && EventStored(c, w, n, r, i);
  }

  /** And nothing else is: what is published can be read back as such an event of a block from the first on. */
  lemma PublishedIsOfContract(c: Config, run: seq<State>, id: EventId) returns (n: nat, r: nat)
    requires WellFormedChain(c) && IsRun(c, run) && id in run[|run| - 1].world.published && IsFeltText(c.address)
    requires forall m: nat, s: nat, i: nat :: s < |c.chain(m).receipts| && i < |c.chain(m).receipts[s].events| ==>
               IsFeltText(c.chain(m).receipts[s].events[i].fromAddress)
    ensures c.startBlock <= n && r < |c.chain(n).receipts| && id.index < |c.chain(n).receipts[r].events|
    ensures id.txHash == c.chain(n).receipts[r].transactionHash
    ensures FeltValue(c.chain(n).receipts[r].events[id.index].fromAddress) == FeltValue(c.address)
    ensures var disk, found := run[|run| - 1].world.disk, c.chain(n).receipts[r].events[id.index];
            && EventKey(id) in disk && disk[EventKey(id)].EventValue?
            && var e := disk[EventKey(id)].event;
               && e.recordedAt == c.chain(n).timestamp * 1_000_000_000 && e.eventId == id
               && e.fromAddress == found.fromAddress && e.keys == found.keys && e.data == found.data
  {
    RunKeepsContent(c, run);
    var v := run[|run| - 1].world.disk[EventKey(id)];
    assert AccountedEvent(c, id, v);
    var m: nat, s: nat, i: nat :| c.startBlock <= m && MatchingEvent(c.address, c.chain(m), s, i) &&
      id == EventId(c.chain(m).receipts[s].transactionHash, i) &&
      var found := c.chain(m).receipts[s].events[i];
      v == EventValue(StarknetEvent(c.chain(m).timestamp * 1_000_000_000, id, found.fromAddress, found.keys, found.data));
    MatchingMeans(c.address, c.chain(m), i, s);
    n, r := m, s;
  }

  lemma StoredIsDone(c: Config, w: World, n: nat)
    requires WellFormedChain(c) && FullyIndexed(c, w, n)
    ensures Done(c, w, n)
  {
    var b := c.chain(n);
    forall op | op in PlanOf(c, n)
      ensures Holds(c, w, op)
    {
      PlanContains(c.address, b, op);
      if i: nat :| TxWrites(c.address, b, i, op) {
        assert MatchingTx(c.address, b, i) && TxStored(c, w, n, i);
      } else if r: nat, i: nat :| EventWrites(c.address, b, r, i, op) {
        assert MatchingEvent(c.address, b, r, i) && EventStored(c, w, n, r, i);
      }
    }
  }

  // ----- No block is ever skipped

  /**
   * In every reachable state: every block from the first to the stored latest block is fully
   * indexed, so is every block before any noted one, and so is everything a restart would pass over.
   */
  lemma NoBlockIsSkipped(c: Config, run: seq<State>, n: nat)
    requires WellFormedChain(c) && IsRun(c, run) && c.startBlock <= n
    ensures var w := run[|run| - 1].world;
            && (n < IndexOf(c, w).latestBlock ==> FullyIndexed(c, w, n))
            && (forall m <- IndexOf(c, w).blocks :: n < m ==> FullyIndexed(c, w, n))
            && (n < Resume(c, w.disk) ==> FullyIndexed(c, w, n))
  {
    RunKeepsInv(c, run);
    var w := run[|run| - 1].world;
    if Done(c, w, n) {
      DoneStores(c, w, n);
    }
  }

  /**
   * While the process runs, everything the ascending producer has passed is fully indexed but for the
   * block in hand.
   */
  lemma NothingLeftBehind(c: Config, run: seq<State>, n: nat)
    requires WellFormedChain(c) && IsRun(c, run) && run[|run| - 1].process.Up?
    requires c.startBlock <= n < run[|run| - 1].process.next
    ensures var s := run[|run| - 1];
            FullyIndexed(c, s.world, n) || (s.process.work != [] && s.process.current == n)
  {
    RunKeepsInv(c, run);
    var w := run[|run| - 1].world;
    if Done(c, w, n) {
      DoneStores(c, w, n);
    }
  }

  /** The latest block moves backwards exactly when neither the block nor any noted one reaches it. */
  lemma {:induction false} LatestMayMoveBack(idx: Index, block: nat)
    ensures WithLatest(idx, block).latestBlock < idx.latestBlock <==>
            block < idx.latestBlock && forall m <- idx.blocks :: m < idx.latestBlock
  {
    if idx.blocks != [] {
      MaxOfIsMax(idx.blocks);
    }
  }

  // ----- Nothing but the chain's matches is stored

  /** The value under an owned key is the matching item of some block from the first on. */
  ghost predicate Accounted(c: Config, k: Key, v: Value) {
    match k
    case TxKey(_, hash) =>
      exists n: nat, i: nat :: c.startBlock <= n && MatchingTx(c.address, c.chain(n), i) &&
        c.chain(n).transactions[i].hash == hash && v == TxValue(c.chain(n).transactions[i])
    case AddressEventKey(_, id) => AccountedEvent(c, id, v)
    case EventKey(id) => AccountedEvent(c, id, v)
    case _ => true
  }

  ghost predicate AccountedEvent(c: Config, id: EventId, v: Value) {
    exists n: nat, r: nat, i: nat :: c.startBlock <= n && MatchingEvent(c.address, c.chain(n), r, i) &&
      id == EventId(c.chain(n).receipts[r].transactionHash, i) &&
      var found := c.chain(n).receipts[r].events[i];
      v == EventValue(StarknetEvent(c.chain(n).timestamp * 1_000_000_000, id, found.fromAddress, found.keys, found.data))
  }

  /** A write that leaves a trace of a matching item. */
  predicate IsRecord(op: Op) {
    !op.NoteBlock? && !op.NoteLatest?
  }

  /** A matching transaction or event of the block has been recorded. */
  ghost predicate Recorded(c: Config, w: World, n: nat) {
    exists op <- PlanOf(c, n) :: IsRecord(op) && Holds(c, w, op)
  }

  /** A published event can be read back by its id. */
  ghost predicate PublishedSound(c: Config, w: World) {
    forall id <- w.published :: EventKey(id) in w.disk && AccountedEvent(c, id, w.disk[EventKey(id)])
  }

  ghost predicate ContentSound(c: Config, w: World) {
    && (forall k <- w.disk :: Owned(c, k) ==> Accounted(c, k, w.disk[k]))
    && PublishedSound(c, w)
    && (forall m <- IndexOf(c, w).blocks :: Recorded(c, w, m))
  }

  // ----- The order of writes within a plan

  /**
   * A block is noted right after a record; an event is stored under its second key right after the first,
   * and published right after that.
   */
  predicate ChainedAt(ops: seq<Op>, j: nat)
    requires j < |ops|
  {
    && (ops[j].NoteBlock? ==> j > 0 && IsRecord(ops[j - 1]))
    && (ops[j].PutEvent? ==> j > 0 && ops[j - 1] == PutAddressEvent(ops[j].id, ops[j].event))
    && (ops[j].Publish? ==> j > 0 && ops[j - 1].PutEvent? && ops[j - 1].id == ops[j].id)
  }

  predicate Chained(ops: seq<Op>) {
    forall j: nat :: j < |ops| ==> ChainedAt(ops, j)
  }

  lemma ChainedConcat(a: seq<Op>, b: seq<Op>)
    requires Chained(a) && Chained(b)
    ensures Chained(a + b)
  {
    forall j: nat | j < |a + b|
      ensures ChainedAt(a + b, j)
    {
      if j < |a| {
        assert ChainedAt(a, j);
      } else {
        assert ChainedAt(b, j - |a|);
      }
    }
  }

  lemma {:induction false} TxOpsChained(address: string, b: Block, txs: seq<Transaction>)
    ensures Chained(TxOps(address, b, txs))
  {
    if txs != [] {
      TxOpsChained(address, b, txs[..|txs| - 1]);
      ChainedConcat(TxOps(address, b, txs[..|txs| - 1]), TxStep(address, b, txs[|txs| - 1]));
    }
  }

  lemma {:induction false} EventOpsChained(address: string, b: Block, hash: string, events: seq<StarknetEvent>)
    ensures Chained(EventOps(address, b, hash, events))
  {
    if events != [] {
      var n := |events| - 1;
      EventOpsChained(address, b, hash, events[..n]);
      ChainedConcat(EventOps(address, b, hash, events[..n]), EventStep(address, b, hash, n, events[n]));
    }
  }

  lemma {:induction false} ReceiptOpsChained(address: string, b: Block, receipts: seq<Receipt>)
    ensures Chained(ReceiptOps(address, b, receipts))
  {
    if receipts != [] {
      var last := receipts[|receipts| - 1];
      ReceiptOpsChained(address, b, receipts[..|receipts| - 1]);
      EventOpsChained(address, b, last.transactionHash, last.events);
      ChainedConcat(ReceiptOps(address, b, receipts[..|receipts| - 1]), EventOps(address, b, last.transactionHash, last.events));
    }
  }

  lemma PlanChained(address: string, b: Block)
    ensures Chained(Plan(address, b))
  {
    var txs, receipts := TxOps(address, b, b.transactions), ReceiptOps(address, b, b.receipts);
    TxOpsChained(address, b, b.transactions);
    ReceiptOpsChained(address, b, b.receipts);
    ChainedConcat(txs, receipts);
    ChainedConcat(txs + receipts, [NoteLatest(b.number)]);
  }

  /** All transactions are stored before any event, and the latest block is set last. */
  lemma TransactionsFirst(address: string, b: Block, p: nat, q: nat)
    requires p < |Plan(address, b)| && q < |Plan(address, b)|
    ensures var ops := Plan(address, b);
            && (ops[p].PutTx? && (ops[q].PutAddressEvent? || ops[q].PutEvent? || ops[q].Publish?) ==> p < q)
            && (ops[q].NoteLatest? ==> q == |ops| - 1 && ops[q].block == b.number)
  {
    var txs, receipts := TxOps(address, b, b.transactions), ReceiptOps(address, b, b.receipts);
    var ops := Plan(address, b);
    assert p < |txs| ==> ops[p] in txs;
    assert |txs| <= p < |ops| - 1 ==> ops[p] in receipts;
    assert q < |txs| ==> ops[q] in txs;
    assert |txs| <= q < |ops| - 1 ==> ops[q] in receipts;
    BodyKinds(address, b, ops[p]);
    BodyKinds(address, b, ops[q]);
  }

  lemma BodyKinds(address: string, b: Block, op: Op)
    ensures op in TxOps(address, b, b.transactions) ==> op.PutTx? || op.NoteBlock?
    ensures op in ReceiptOps(address, b, b.receipts) ==> !op.PutTx? && !op.NoteLatest?
  {
    TxOpsAre(address, b, |b.transactions|, op);
    ReceiptOpsAre(address, b, |b.receipts|, op);
    assert b.transactions[..|b.transactions|] == b.transactions && b.receipts[..|b.receipts|] == b.receipts;
  }

  // ----- Writes keep the content sound

  lemma WriteIsAccounted(c: Config, n: nat, op: Op)
    requires c.startBlock <= n && op in PlanOf(c, n)
    ensures op.PutTx? ==> Accounted(c, TxKey(c.address, op.hash), TxValue(op.tx))
    ensures op.PutAddressEvent? || op.PutEvent? ==> AccountedEvent(c, op.id, EventValue(op.event))
  {
    PlanContains(c.address, c.chain(n), op);
    if i: nat :| TxWrites(c.address, c.chain(n), i, op) {
      assert MatchingTx(c.address, c.chain(n), i);
    } else if r: nat, i: nat :| EventWrites(c.address, c.chain(n), r, i, op) {
      assert MatchingEvent(c.address, c.chain(n), r, i);
    }
  }

  lemma WriteKeepsAccounts(c: Config, w: World, n: nat, op: Op, k: Key)
    requires c.startBlock <= n && op in PlanOf(c, n)
    requires k in ExecOp(c.address, w, op).disk && (k in w.disk ==> Accounted(c, k, w.disk[k]))
    ensures Accounted(c, k, ExecOp(c.address, w, op).disk[k])
  {
    WriteIsAccounted(c, n, op);
  }

  lemma WriteKeepsRecorded(c: Config, w: World, n: nat, op: Op, m: nat)
    requires WellFormedChain(c) && op in PlanOf(c, n) && Recorded(c, w, m)
    ensures Recorded(c, ExecOp(c.address, w, op), m)
  {
    var record :| record in PlanOf(c, m) && IsRecord(record) && Holds(c, w, record);
    PlansAgree(c, n, op, m, record);
    WriteKeepsEffects(c, w, op, record);
  }

  /** The write before a note or a publication has already happened. */
  lemma PreviousWrite(c: Config, w: World, p: Process) returns (previous: Op)
    requires p.Up? && WorkSound(c, w, p) && p.work != [] && (p.work[0].NoteBlock? || p.work[0].Publish?)
    ensures previous in PlanOf(c, p.current) && Holds(c, w, previous)
    ensures p.work[0].NoteBlock? ==> IsRecord(previous)
    ensures p.work[0].Publish? ==> previous.PutEvent? && previous.id == p.work[0].id
  {
    var plan := PlanOf(c, p.current);
    var done := |plan| - |p.work|;
    assert p.work[0] == plan[done];
    PlanChained(c.address, c.chain(p.current));
    assert ChainedAt(plan, done);
    previous := plan[done - 1];
  }

  lemma PutKeepsPublished(c: Config, w: World, n: nat, op: Op)
    requires PublishedSound(c, w) && c.startBlock <= n && op in PlanOf(c, n) && !op.Publish?
    ensures PublishedSound(c, ExecOp(c.address, w, op))
  {
    WriteIsAccounted(c, n, op);
  }

  lemma WriteKeepsPublished(c: Config, w: World, p: Process)
    requires PublishedSound(c, w) && p.Up? && WorkSound(c, w, p) && p.work != []
    requires p.work[0] in PlanOf(c, p.current)
    ensures PublishedSound(c, ExecOp(c.address, w, p.work[0]))
  {
    if p.work[0].Publish? {
      var previous := PreviousWrite(c, w, p);
      WriteIsAccounted(c, p.current, previous);
    } else {
      PutKeepsPublished(c, w, p.current, p.work[0]);
    }
  }

  lemma NotedBlocksAfter(c: Config, w: World, op: Op, m: nat)
    requires m in IndexOf(c, ExecOp(c.address, w, op)).blocks
    ensures m in IndexOf(c, w).blocks || op == NoteBlock(m)
  {
  }

  lemma WriteKeepsNotes(c: Config, w: World, p: Process, m: nat)
    requires WellFormedChain(c) && p.Up? && WorkSound(c, w, p) && p.work != [] && p.work[0] in PlanOf(c, p.current)
    requires m in IndexOf(c, w).blocks ==> Recorded(c, w, m)
    requires m in IndexOf(c, ExecOp(c.address, w, p.work[0])).blocks
    ensures Recorded(c, ExecOp(c.address, w, p.work[0]), m)
  {
    var op := p.work[0];
    NotedBlocksAfter(c, w, op, m);
    if op == NoteBlock(m) {
      NotesAreOfTheBlock(c, p.current, op);
      var previous := PreviousWrite(c, w, p);
      assert Recorded(c, w, m);
    }
    WriteKeepsRecorded(c, w, p.current, op, m);
  }

  lemma WriteKeepsContent(c: Config, s: State)
    requires WellFormedChain(c) && Inv(c, s) && ContentSound(c, s.world) && Enabled(c, s, Write)
    ensures ContentSound(c, Next(c, s, Write).world)
  {
    var w, p := s.world, s.process;
    WriteKeepsIndex(c, w, p);
    forall k | k in ExecOp(c.address, w, p.work[0]).disk && Owned(c, k)
      ensures Accounted(c, k, ExecOp(c.address, w, p.work[0]).disk[k])
    {
      WriteKeepsAccounts(c, w, p.current, p.work[0], k);
    }
    WriteKeepsPublished(c, w, p);
    forall m | m in IndexOf(c, ExecOp(c.address, w, p.work[0])).blocks
      ensures Recorded(c, ExecOp(c.address, w, p.work[0]), m)
    {
      WriteKeepsNotes(c, w, p, m);
    }
  }

  lemma AccountedIsOwned(c: Config, id: EventId, v: Value)
    requires AccountedEvent(c, id, v)
    ensures Owned(c, EventKey(id))
  {
  }

  lemma OutsideKeepsContent(c: Config, w: World, k: Key, v: Value, w': World)
    requires OutsideWrite(c, w, k, v, w') && IndexSound(c, w) && ContentSound(c, w)
    ensures ContentSound(c, w')
  {
    OutsideKeepsIndex(c, w, k, v, w');
    forall id | id in w'.published
      ensures EventKey(id) in w'.disk && AccountedEvent(c, id, w'.disk[EventKey(id)])
    {
      AccountedIsOwned(c, id, w.disk[EventKey(id)]);
    }
    forall m | m in IndexOf(c, w').blocks
      ensures Recorded(c, w', m)
    {
      var record :| record in PlanOf(c, m) && IsRecord(record) && Holds(c, w, record);
      OutsideKeepsEffect(c, w, k, v, w', m, record);
    }
  }

  lemma StepKeepsContent(c: Config, s: State, step: Step)
    requires WellFormedChain(c) && Inv(c, s) && ContentSound(c, s.world) && Enabled(c, s, step)
    ensures ContentSound(c, Next(c, s, step).world)
  {
    match step
    case Write => WriteKeepsContent(c, s);
    case Outside(k, v) => OutsideKeepsContent(c, s.world, k, v, Next(c, s, step).world);
    case _ =>
  }

  lemma {:induction false} RunKeepsContent(c: Config, run: seq<State>)
    requires WellFormedChain(c) && IsRun(c, run)
    ensures ContentSound(c, run[|run| - 1].world)
  {
    var n := |run| - 1;
    if n == 0 {
      assert Owned(c, IndexKey(c.address));
    } else {
      RunKeepsContent(c, run[..n]);
      RunKeepsInv(c, run[..n]);
      assert Steps(c, run[n - 1], run[n]);
      var step :| Enabled(c, run[n - 1], step) && run[n] == Next(c, run[n - 1], step);
      StepKeepsContent(c, run[n - 1], step);
    }
  }

  // ----- Main results about content

  /**
   * Whatever is stored under this contract's keys is a matching item of the chain, and what is published
   * can be read.
   */
  lemma NothingElseIsStored(c: Config, run: seq<State>, k: Key, id: EventId)
    requires WellFormedChain(c) && IsRun(c, run)
    ensures var w := run[|run| - 1].world;
            && (k in w.disk && Owned(c, k) ==> Accounted(c, k, w.disk[k]))
            && (id in w.published ==> EventKey(id) in w.disk && AccountedEvent(c, id, w.disk[EventKey(id)]))
  {
    RunKeepsContent(c, run);
  }

  lemma RecordsMatch(c: Config, n: nat, op: Op)
    requires op in PlanOf(c, n) && IsRecord(op)
    ensures HasMatch(c, n)
  {
    PlanContains(c.address, c.chain(n), op);
    if i: nat :| TxWrites(c.address, c.chain(n), i, op) {
      assert MatchingTx(c.address, c.chain(n), i);
    } else if r: nat, i: nat :| EventWrites(c.address, c.chain(n), r, i, op) {
      assert MatchingEvent(c.address, c.chain(n), r, i);
    }
  }

  /**
   * The noted blocks are duplicate-free; each has a matching item that is recorded; and among the
   * blocks a restart passes over they are exactly the blocks with a match.
   */
  lemma NotedBlocksAreExact(c: Config, run: seq<State>, m: nat)
    requires WellFormedChain(c) && IsRun(c, run)
    ensures var w := run[|run| - 1].world;
            && Distinct(IndexOf(c, w).blocks)
            && (m in IndexOf(c, w).blocks ==> c.startBlock <= m && HasMatch(c, m) && Recorded(c, w, m))
            && (c.startBlock <= m < Resume(c, w.disk) ==> (m in IndexOf(c, w).blocks <==> HasMatch(c, m)))
  {
    RunKeepsInv(c, run);
    RunKeepsContent(c, run);
    var w := run[|run| - 1].world;
    if m in IndexOf(c, w).blocks {
      var record :| record in PlanOf(c, m) && IsRecord(record) && Holds(c, w, record);
      RecordsMatch(c, m, record);
    }
    if c.startBlock <= m {
      NoBlockIsSkipped(c, run, m);
    }
  }

  // ----- Indexing again

  lemma HeldWriteChangesNothing(c: Config, w: World, op: Op)
    requires Holds(c, w, op) && !op.NoteLatest?
    ensures ExecOp(c.address, w, op).disk == w.disk
  {
  }

  lemma {:induction false} HeldWritesChangeNothing(c: Config, w: World, n: nat, ops: seq<Op>)
    requires WellFormedChain(c) && Done(c, w, n)
    requires forall op <- ops :: op in PlanOf(c, n) && !op.NoteLatest?
    ensures ExecAll(c.address, w, ops).disk == w.disk
    ensures w.published <= ExecAll(c.address, w, ops).published
  {
    if ops != [] {
      var k := |ops| - 1;
      HeldWritesChangeNothing(c, w, n, ops[..k]);
      var before := ExecAll(c.address, w, ops[..k]);
      assert ops[k] in PlanOf(c, n) && Holds(c, w, ops[k]);
      assert Holds(c, before, ops[k]);
      HeldWriteChangesNothing(c, before, ops[k]);
    }
  }

  lemma PlanEndsWithLatest(c: Config, n: nat)
    requires WellFormedChain(c)
    ensures var plan := PlanOf(c, n);
            && plan != [] && plan[|plan| - 1] == NoteLatest(n)
            && forall op <- plan[..|plan| - 1] :: op in plan && !op.NoteLatest?
  {
    var b := c.chain(n);
    var body := TxOps(c.address, b, b.transactions) + ReceiptOps(c.address, b, b.receipts);
    assert PlanOf(c, n)[..|PlanOf(c, n)| - 1] == body;
    forall op | op in body
      ensures !op.NoteLatest?
    {
      BodyHasNoLatest(c.address, b, op);
    }
  }

  lemma BodyHasNoLatest(address: string, b: Block, op: Op)
    requires op in TxOps(address, b, b.transactions) || op in ReceiptOps(address, b, b.receipts)
    ensures !op.NoteLatest?
  {
    BodyKinds(address, b, op);
  }

  /** Indexing a fully indexed block again changes nothing in storage but the latest block. */
  lemma IndexingAgainIsIdempotent(c: Config, w: World, n: nat)
    requires WellFormedChain(c) && FullyIndexed(c, w, n)
    ensures var w' := ExecAll(c.address, w, PlanOf(c, n));
            && w'.disk == w.disk[IndexKey(c.address) := IndexValue(WithLatest(StoredIndex(w.disk, c.address, n), n))]
            && w.published <= w'.published
  {
    StoredIsDone(c, w, n);
    PlanEndsWithLatest(c, n);
    var plan := PlanOf(c, n);
    HeldWritesChangeNothing(c, w, n, plan[..|plan| - 1]);
  }

  // ----- The steps of the machine are the steps of the indexer

  /** The state after `k` uninterrupted writes. */
  ghost function AfterWrites(c: Config, s: State, k: nat): State
    requires s.process.Up? && k <= |s.process.work|
    decreases k
  {
    if k == 0 then s else AfterWrites(c, Next(c, s, Write), k - 1)
  }

  /** Uninterrupted, the write steps of a received block do what the method `Index` does. */
  lemma {:induction false} WritesAmountToIndexing(c: Config, s: State)
    requires s.process.Up?
    ensures var end := AfterWrites(c, s, |s.process.work|);
            && end.world == ExecAll(c.address, s.world, s.process.work)
            && end.process == s.process.(work := [])
    decreases |s.process.work|
  {
    var work := s.process.work;
    if work != [] {
      WritesAmountToIndexing(c, Next(c, s, Write));
      ExecConcat(c.address, s.world, [work[0]], work[1..]);
      assert [work[0]] + work[1..] == work;
      assert [work[0]][..0] == [];
      assert ExecAll(c.address, s.world, [work[0]]) == ExecOp(c.address, ExecAll(c.address, s.world, []), work[0]);
    }
  }
}
