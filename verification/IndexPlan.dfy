/** The writes that indexing one block performs, one storage write or publication at a time. */
module IndexPlan {
  import opened Wrappers
  import opened Events
  import opened Chain
  import opened Felt

  // ----- Storage

  datatype Key =
    | TxKey(address: string, hash: string)
    | AddressEventKey(address: string, id: EventId)
    | EventKey(id: EventId)
    | IndexKey(address: string)
    | BlockKey(number: nat)

  /** What is known about a contract: its blocks of interest and where to resume. */
  datatype Index = Index(blocks: seq<nat>, latestBlock: nat)

  datatype Value =
    | TxValue(tx: Transaction)
    | EventValue(event: StarknetEvent)
    | IndexValue(index: Index)
    | BlockValue(block: Block)

  type Disk = map<Key, Value>

  /** Storage, and everything published so far. */
  datatype World = World(disk: Disk, published: seq<EventId>)

  /** The stored index; a missing or undecodable one is a fresh index at the given block. */
  function StoredIndex(disk: Disk, address: string, block: nat): Index {
    if IndexKey(address) in disk && disk[IndexKey(address)].IndexValue? then disk[IndexKey(address)].index
    else Index([], block)
  }

  /** The block stored under the number, if it can be decoded. */
  function StoredBlock(disk: Disk, number: nat): Option<Block> {
    if BlockKey(number) in disk && disk[BlockKey(number)].BlockValue? then Some(disk[BlockKey(number)].block) else None
  }

  function WithBlock(idx: Index, block: nat): Index {
    if block in idx.blocks then idx else idx.(blocks := idx.blocks + [block])
  }

  function MaxOf(xs: seq<nat>): nat
    requires xs != []
  {
    if |xs| == 1 then xs[0]
    else
      var m := MaxOf(xs[..|xs| - 1]);
      if xs[|xs| - 1] > m then xs[|xs| - 1] else m
  }

  lemma {:induction false} MaxOfIsMax(xs: seq<nat>)
    requires xs != []
    ensures MaxOf(xs) in xs && forall x <- xs :: x <= MaxOf(xs)
  {
    if |xs| > 1 {
      MaxOfIsMax(xs[..|xs| - 1]);
      assert xs == xs[..|xs| - 1] + [xs[|xs| - 1]];
    }
  }

  /** The latest block never falls below a block of interest, but may fall. */
  function WithLatest(idx: Index, block: nat): Index {
    idx.(latestBlock := if idx.blocks != [] && MaxOf(idx.blocks) > block then MaxOf(idx.blocks) else block)
  }

  /** Noting a block adds that block alone, at the end and once; the latest block becomes the largest of all. */
  lemma {:induction false} IndexUpdates(idx: Index, block: nat)
    ensures var noted := WithBlock(idx, block);
            && noted.latestBlock == idx.latestBlock && idx.blocks <= noted.blocks
            && (forall m :: m in noted.blocks <==> m in idx.blocks || m == block)
            && |noted.blocks| == |idx.blocks| + if block in idx.blocks then 0 else 1
    ensures var raised := WithLatest(idx, block);
            && raised.blocks == idx.blocks && (raised.latestBlock == block || raised.latestBlock in idx.blocks)
            && block <= raised.latestBlock && forall m <- idx.blocks :: m <= raised.latestBlock
  {
    if idx.blocks != [] {
      MaxOfIsMax(idx.blocks);
    }
  }

  // ----- Single writes

  datatype Op =
    | PutTx(hash: string, tx: Transaction)
    | PutAddressEvent(id: EventId, event: StarknetEvent)
    | PutEvent(id: EventId, event: StarknetEvent)
    | Publish(id: EventId)
    | NoteBlock(block: nat)
    | NoteLatest(block: nat)

  function ExecOp(address: string, w: World, op: Op): World {
    match op
    case PutTx(hash, tx) => w.(disk := w.disk[TxKey(address, hash) := TxValue(tx)])
    case PutAddressEvent(id, e) => w.(disk := w.disk[AddressEventKey(address, id) := EventValue(e)])
    case PutEvent(id, e) => w.(disk := w.disk[EventKey(id) := EventValue(e)])
    case Publish(id) => w.(published := w.published + [id])
    case NoteBlock(b) =>
      w.(disk := w.disk[IndexKey(address) := IndexValue(WithBlock(StoredIndex(w.disk, address, b), b))])
    case NoteLatest(b) =>
      w.(disk := w.disk[IndexKey(address) := IndexValue(WithLatest(StoredIndex(w.disk, address, b), b))])
  }

  function ExecAll(address: string, w: World, ops: seq<Op>): World {
    if ops == [] then w else ExecOp(address, ExecAll(address, w, ops[..|ops| - 1]), ops[|ops| - 1])
  }

  lemma {:induction false} ExecConcat(address: string, w: World, a: seq<Op>, b: seq<Op>)
    ensures ExecAll(address, w, a + b) == ExecAll(address, ExecAll(address, w, a), b)
  {
    if b == [] {
      assert a + b == a;
    } else {
      var n := |b| - 1;
      assert (a + b)[..|a + b| - 1] == a + b[..n];
      ExecConcat(address, w, a, b[..n]);
    }
  }

  /** A contract without a readable index gets one that starts at the block in hand. */
  lemma FirstIndex(address: string, w: World, block: nat)
    requires IndexKey(address) in w.disk ==> !w.disk[IndexKey(address)].IndexValue?
    ensures ExecOp(address, w, NoteBlock(block)) == World(w.disk[IndexKey(address) := IndexValue(Index([block], block))], w.published)
    ensures ExecOp(address, w, NoteLatest(block)) == World(w.disk[IndexKey(address) := IndexValue(Index([], block))], w.published)
  {
    assert [] + [block] == [block];
  }

  // ----- The plan of a block

  predicate Concerns(address: string, felt: string) {
    EnsureStarkFelt(felt) == address
  }

  function Stamp(b: Block, hash: string, index: nat, e: StarknetEvent): StarknetEvent {
    e.(eventId := EventId(hash, index), recordedAt := b.timestamp * NANOS_PER_SECOND)
  }

  function TxStep(address: string, b: Block, tx: Transaction): seq<Op> {
    if Concerns(address, tx.senderAddress) then [PutTx(tx.hash, tx), NoteBlock(b.number)] else []
  }

  function TxOps(address: string, b: Block, txs: seq<Transaction>): seq<Op> {
    if txs == [] then []
    else TxOps(address, b, txs[..|txs| - 1]) + TxStep(address, b, txs[|txs| - 1])
  }

  function EventStep(address: string, b: Block, hash: string, index: nat, e: StarknetEvent): seq<Op> {
    if Concerns(address, e.fromAddress) then
      var id, stamped := EventId(hash, index), Stamp(b, hash, index, e);
      [PutAddressEvent(id, stamped), PutEvent(id, stamped), Publish(id), NoteBlock(b.number)]
    else []
  }

  function EventOps(address: string, b: Block, hash: string, events: seq<StarknetEvent>): seq<Op> {
    if events == [] then []
    else EventOps(address, b, hash, events[..|events| - 1]) +
         EventStep(address, b, hash, |events| - 1, events[|events| - 1])
  }

  function ReceiptOps(address: string, b: Block, receipts: seq<Receipt>): seq<Op> {
    if receipts == [] then []
    else
      var last := receipts[|receipts| - 1];
      ReceiptOps(address, b, receipts[..|receipts| - 1]) + EventOps(address, b, last.transactionHash, last.events)
  }

  function Plan(address: string, b: Block): seq<Op> {
    TxOps(address, b, b.transactions) + ReceiptOps(address, b, b.receipts) + [NoteLatest(b.number)]
  }

  // ----- What a plan contains

  predicate MatchingTx(address: string, b: Block, i: nat) {
    i < |b.transactions| && Concerns(address, b.transactions[i].senderAddress)
  }

  predicate MatchingEvent(address: string, b: Block, r: nat, i: nat) {
    && r < |b.receipts| && i < |b.receipts[r].events|
    && Concerns(address, b.receipts[r].events[i].fromAddress)
  }

  function IdAt(b: Block, r: nat, i: nat): EventId
    requires r < |b.receipts|
  {
    EventId(b.receipts[r].transactionHash, i)
  }

  /** An event as it is to be stored: the block's time in nanoseconds, its id, and what the receipt says. */
  function StampedAt(b: Block, r: nat, i: nat): StarknetEvent
    requires r < |b.receipts| && i < |b.receipts[r].events|
  {
    var found := b.receipts[r].events[i];
    StarknetEvent(b.timestamp * 1_000_000_000, EventId(b.receipts[r].transactionHash, i), found.fromAddress, found.keys, found.data)
  }

  /** The write stems from the `i`-th transaction. */
  predicate TxWrites(address: string, b: Block, i: nat, op: Op) {
    MatchingTx(address, b, i) && (op == PutTx(b.transactions[i].hash, b.transactions[i]) || op == NoteBlock(b.number))
  }

  /** The write stems from the `i`-th event of the `r`-th receipt. */
  predicate EventWrites(address: string, b: Block, r: nat, i: nat, op: Op) {
    && MatchingEvent(address, b, r, i)
    && (|| op == PutAddressEvent(IdAt(b, r, i), StampedAt(b, r, i))
        || op == PutEvent(IdAt(b, r, i), StampedAt(b, r, i))
        || op == Publish(IdAt(b, r, i))
        || op == NoteBlock(b.number))
  }

  ghost predicate FromTx(address: string, b: Block, n: nat, op: Op) {
    exists i: nat :: i < n && TxWrites(address, b, i, op)
  }

  ghost predicate FromEvents(address: string, b: Block, r: nat, n: nat, op: Op) {
    exists i: nat :: i < n && EventWrites(address, b, r, i, op)
  }

  ghost predicate FromReceipts(address: string, b: Block, n: nat, op: Op) {
    exists r: nat :: r < n && r < |b.receipts| && FromEvents(address, b, r, |b.receipts[r].events|, op)
  }

  lemma InConcat<T>(a: seq<T>, b: seq<T>, x: T)
    ensures x in a + b <==> x in a || x in b
  {
  }

  lemma TxStepIs(address: string, b: Block, i: nat, op: Op)
    requires i < |b.transactions|
    ensures op in TxStep(address, b, b.transactions[i]) <==> TxWrites(address, b, i, op)
  {
  }

  lemma FromTxStep(address: string, b: Block, n: nat, op: Op)
    ensures FromTx(address, b, n + 1, op) <==> FromTx(address, b, n, op) || TxWrites(address, b, n, op)
  {
  }

  lemma TxOpsSnoc(address: string, b: Block, n: nat, op: Op)
    requires n < |b.transactions|
    ensures op in TxOps(address, b, b.transactions[..n + 1]) <==>
            op in TxOps(address, b, b.transactions[..n]) || TxWrites(address, b, n, op)
  {
    var before, now := b.transactions[..n], b.transactions[..n + 1];
    assert now[..|now| - 1] == before && now[|now| - 1] == b.transactions[n];
    TxStepIs(address, b, n, op);
    InConcat(TxOps(address, b, before), TxStep(address, b, b.transactions[n]), op);
  }

  lemma {:induction false} TxOpsAre(address: string, b: Block, n: nat, op: Op)
    requires n <= |b.transactions|
    ensures op in TxOps(address, b, b.transactions[..n]) <==> FromTx(address, b, n, op)
  {
    if n > 0 {
      TxOpsAre(address, b, n - 1, op);
      TxOpsSnoc(address, b, n - 1, op);
      FromTxStep(address, b, n - 1, op);
    }
  }

  lemma EventStepIs(address: string, b: Block, r: nat, i: nat, op: Op)
    requires r < |b.receipts| && i < |b.receipts[r].events|
    ensures op in EventStep(address, b, b.receipts[r].transactionHash, i, b.receipts[r].events[i]) <==>
            EventWrites(address, b, r, i, op)
  {
  }

  lemma FromEventsStep(address: string, b: Block, r: nat, n: nat, op: Op)
    ensures FromEvents(address, b, r, n + 1, op) <==> FromEvents(address, b, r, n, op) || EventWrites(address, b, r, n, op)
  {
  }

  lemma EventOpsSnoc(address: string, b: Block, r: nat, n: nat, op: Op)
    requires r < |b.receipts| && n < |b.receipts[r].events|
    ensures var hash, events := b.receipts[r].transactionHash, b.receipts[r].events;
            op in EventOps(address, b, hash, events[..n + 1]) <==>
            op in EventOps(address, b, hash, events[..n]) || EventWrites(address, b, r, n, op)
  {
    var hash, events := b.receipts[r].transactionHash, b.receipts[r].events;
    var before, now := events[..n], events[..n + 1];
    assert now[..|now| - 1] == before && now[|now| - 1] == events[n];
    EventStepIs(address, b, r, n, op);
    InConcat(EventOps(address, b, hash, before), EventStep(address, b, hash, n, events[n]), op);
  }

  lemma {:induction false} EventOpsAre(address: string, b: Block, r: nat, n: nat, op: Op)
    requires r < |b.receipts| && n <= |b.receipts[r].events|
    ensures op in EventOps(address, b, b.receipts[r].transactionHash, b.receipts[r].events[..n]) <==>
            FromEvents(address, b, r, n, op)
  {
    if n > 0 {
      EventOpsAre(address, b, r, n - 1, op);
      EventOpsSnoc(address, b, r, n - 1, op);
      FromEventsStep(address, b, r, n - 1, op);
    }
  }

  lemma FromReceiptsStep(address: string, b: Block, n: nat, op: Op)
    requires n < |b.receipts|
    ensures FromReceipts(address, b, n + 1, op) <==>
            FromReceipts(address, b, n, op) || FromEvents(address, b, n, |b.receipts[n].events|, op)
  {
  }

  lemma {:induction false} ReceiptOpsAre(address: string, b: Block, n: nat, op: Op)
    requires n <= |b.receipts|
    ensures op in ReceiptOps(address, b, b.receipts[..n]) <==> FromReceipts(address, b, n, op)
  {
    if n > 0 {
      var before, now, last := b.receipts[..n - 1], b.receipts[..n], b.receipts[n - 1];
      ReceiptOpsAre(address, b, n - 1, op);
      EventOpsAre(address, b, n - 1, |last.events|, op);
      assert last.events[..|last.events|] == last.events;
      FromReceiptsStep(address, b, n - 1, op);
      assert now[..|now| - 1] == before && now[|now| - 1] == last;
      InConcat(ReceiptOps(address, b, before), EventOps(address, b, last.transactionHash, last.events), op);
    }
  }

  ghost predicate Planned(address: string, b: Block, op: Op) {
    || (exists i: nat :: TxWrites(address, b, i, op))
    || (exists r: nat, i: nat :: EventWrites(address, b, r, i, op))
    || op == NoteLatest(b.number)
  }

  /**
   * A plan stores matching transactions, stores and publishes stamped matching events, notes the block,
   * and nothing else.
   */
  lemma PlanContains(address: string, b: Block, op: Op)
    ensures op in Plan(address, b) <==> Planned(address, b, op)
  {
    TxOpsAre(address, b, |b.transactions|, op);
    assert b.transactions[..|b.transactions|] == b.transactions;
    ReceiptOpsAre(address, b, |b.receipts|, op);
    assert b.receipts[..|b.receipts|] == b.receipts;
    if r: nat, i: nat :| EventWrites(address, b, r, i, op) {
      assert FromEvents(address, b, r, |b.receipts[r].events|, op);
    }
  }

  /**
   * What matches, told by the numbers felts denote: a sender or emitter equal to an address written with
   * all its digits. Another address matches nothing.
   */
  lemma MatchingMeans(address: string, b: Block, i: nat, r: nat)
    requires IsFeltText(address)
    ensures i < |b.transactions| && IsFeltText(b.transactions[i].senderAddress) ==>
      (MatchingTx(address, b, i) <==> |address| == 66 && FeltValue(b.transactions[i].senderAddress) == FeltValue(address))
    ensures r < |b.receipts| && i < |b.receipts[r].events| && IsFeltText(b.receipts[r].events[i].fromAddress) ==>
      (MatchingEvent(address, b, r, i) <==> |address| == 66 && FeltValue(b.receipts[r].events[i].fromAddress) == FeltValue(address))
  {
    if i < |b.transactions| && IsFeltText(b.transactions[i].senderAddress) {
      AddressTest(address, b.transactions[i].senderAddress);
    }
    if r < |b.receipts| && i < |b.receipts[r].events| && IsFeltText(b.receipts[r].events[i].fromAddress) {
      AddressTest(address, b.receipts[r].events[i].fromAddress);
    }
  }
}
