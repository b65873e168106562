/** The indexer of one contract, in its own form (internal/indexer/indexer.go). */
module Indexer {
  import opened Wrappers
  import opened Events
  import opened Chain
  import opened Felt
  import opened IndexPlan
  import opened PlanEffects

  class ContractIndex {
    var blocks: seq<nat>
    var latestBlock: nat

    constructor (startBlock: nat)
      ensures Encode() == Index([], startBlock)
    {
      blocks, latestBlock := [], startBlock;
    }

    function Encode(): Index
      reads this
    {
      Index(blocks, latestBlock)
    }

    method Decode(idx: Index)
      modifies this
      ensures Encode() == idx
    {
      blocks, latestBlock := idx.blocks, idx.latestBlock;
    }

    method SetLatestBlock(block: nat)
      modifies this`latestBlock
      ensures latestBlock == block
    {
      latestBlock := block;
    }

    method AddBlock(block: nat)
      modifies this`blocks
      ensures Encode() == WithBlock(old(Encode()), block)
    {
      if block !in blocks {
        blocks := blocks + [block];
      }
    }
  }

  class EventIndexer {
    const address: string
    var disk: Disk
    var published: seq<EventId>

    constructor (address: string, disk: Disk)
      ensures this.address == address && State() == World(disk, [])
    {
      this.address, this.disk, published := address, disk, [];
    }

    function State(): World
      reads this
    {
      World(disk, published)
    }

    method Set(key: Key, value: Value)
      modifies this`disk
      ensures disk == old(disk)[key := value]
    {
      disk := disk[key := value];
    }

    /** None is the "block not found" error; an undecodable value is an error as well. */
    method FetchBlock(number: nat) returns (block: Option<Block>)
      ensures block == StoredBlock(disk, number)
    {
      if BlockKey(number) in disk && disk[BlockKey(number)].BlockValue? {
        return Some(disk[BlockKey(number)].block);
      }
      return None;
    }

    method GetContractIdx(block: nat) returns (idx: ContractIndex)
      ensures fresh(idx) && idx.Encode() == StoredIndex(disk, address, block)
    {
      idx := new ContractIndex(block);
      if IndexKey(address) in disk && disk[IndexKey(address)].IndexValue? {
        idx.Decode(disk[IndexKey(address)].index);
      }
    }

    method SaveContractIndexInterestingBlock(block: nat)
      modifies this`disk
      ensures State() == ExecOp(address, old(State()), NoteBlock(block))
    {
      var idx := GetContractIdx(block);
      idx.AddBlock(block);
      Set(IndexKey(address), IndexValue(idx.Encode()));
    }

    method SaveContractIndexLatestBlock(block: nat)
      modifies this`disk
      ensures State() == ExecOp(address, old(State()), NoteLatest(block))
    {
      var idx := GetContractIdx(block);
      var latest := block;
      if |idx.blocks| > 0 {
        var maxBlock := MaxOf(idx.blocks);
        if maxBlock > latest {
          latest := maxBlock;
        }
      }
      idx.SetLatestBlock(latest);
      Set(IndexKey(address), IndexValue(idx.Encode()));
    }

    method IndexOneTransaction(b: Block, tx: Transaction)
      modifies this`disk
      ensures State() == ExecAll(address, old(State()), TxStep(address, b, tx))
    {
      if EnsureStarkFelt(tx.senderAddress) != address {
        return;
      }
      ghost var start := State();
      Set(TxKey(address, tx.hash), TxValue(tx));
      SaveContractIndexInterestingBlock(b.number);
      ExecTwo(address, start, PutTx(tx.hash, tx), NoteBlock(b.number));
    }

    method IndexTransaction(b: Block)
      modifies this`disk
      ensures State() == ExecAll(address, old(State()), TxOps(address, b, b.transactions))
    {
      ghost var start := State();
      for i := 0 to |b.transactions|
        invariant State() == ExecAll(address, start, TxOps(address, b, b.transactions[..i]))
      {
        IndexOneTransaction(b, b.transactions[i]);
        NextTx(address, start, b, i);
      }
      assert b.transactions[..|b.transactions|] == b.transactions;
    }

    method IndexOneEvent(b: Block, hash: string, index: nat, e: StarknetEvent)
      modifies this`disk, this`published
      ensures State() == ExecAll(address, old(State()), EventStep(address, b, hash, index, e))
    {
      if EnsureStarkFelt(e.fromAddress) != address {
        return;
      }
      ghost var start := State();
      var eventId := EventId(hash, index);
      var stamped := e.(eventId := eventId, recordedAt := b.timestamp * NANOS_PER_SECOND);
      Set(AddressEventKey(address, eventId), EventValue(stamped));
      Set(EventKey(eventId), EventValue(stamped));
      published := published + [eventId];
      SaveContractIndexInterestingBlock(b.number);
      ExecTwo(address, start, PutAddressEvent(eventId, stamped), PutEvent(eventId, stamped));
      ghost var middle := ExecAll(address, start, [PutAddressEvent(eventId, stamped), PutEvent(eventId, stamped)]);
      ExecTwo(address, middle, Publish(eventId), NoteBlock(b.number));
      ExecConcat(address, start, [PutAddressEvent(eventId, stamped), PutEvent(eventId, stamped)],
                 [Publish(eventId), NoteBlock(b.number)]);
      assert EventStep(address, b, hash, index, e) ==
             [PutAddressEvent(eventId, stamped), PutEvent(eventId, stamped)] + [Publish(eventId), NoteBlock(b.number)];
    }

    method IndexReceipt(b: Block, receipt: Receipt)
      modifies this`disk, this`published
      ensures State() == ExecAll(address, old(State()), EventOps(address, b, receipt.transactionHash, receipt.events))
    {
      var hash := receipt.transactionHash;
      ghost var start := State();
      for i := 0 to |receipt.events|
        invariant State() == ExecAll(address, start, EventOps(address, b, hash, receipt.events[..i]))
      {
        IndexOneEvent(b, hash, i, receipt.events[i]);
        NextEvent(address, start, b, hash, receipt.events, i);
      }
      assert receipt.events[..|receipt.events|] == receipt.events;
    }

    method IndexEvent(b: Block)
      modifies this`disk, this`published
      ensures State() == ExecAll(address, old(State()), ReceiptOps(address, b, b.receipts))
      ensures forall r: nat, i: nat :: MatchingEvent(address, b, r, i) ==>
        IsIndexed(address, State(), b, EventId(b.receipts[r].transactionHash, i))
    {
      ghost var start := State();
      for r := 0 to |b.receipts|
        invariant State() == ExecAll(address, start, ReceiptOps(address, b, b.receipts[..r]))
      {
        IndexReceipt(b, b.receipts[r]);
        NextReceipt(address, start, b, r);
      }
      assert b.receipts[..|b.receipts|] == b.receipts;
      ReceiptOpsWriteEvents(address, b);
      EventsIndexed(address, start, b, ReceiptOps(address, b, b.receipts));
    }

    /** Indexing a block performs exactly the writes of its plan, in order. */
    method Index(b: Block)
      modifies this`disk, this`published
      ensures State() == ExecAll(address, old(State()), Plan(address, b))
      ensures forall r: nat, i: nat :: MatchingEvent(address, b, r, i) ==>
        IsIndexed(address, State(), b, EventId(b.receipts[r].transactionHash, i))
    {
      ghost var start := State();
      IndexTransaction(b);
      IndexEvent(b);
      SaveContractIndexLatestBlock(b.number);
      var txs, receipts := TxOps(address, b, b.transactions), ReceiptOps(address, b, b.receipts);
      ExecConcat(address, start, txs, receipts);
      assert Plan(address, b)[..|Plan(address, b)| - 1] == txs + receipts;
      PlanWritesEvents(address, b);
      EventsIndexed(address, start, b, Plan(address, b));
    }

    /**
     * One turn of the ascending loop with the consumer: a stored block is fetched and indexed, any other
     * is left for later.
     */
    method IndexStored(number: nat) returns (found: bool)
      modifies this`disk, this`published
      ensures found <==> StoredBlock(old(disk), number).Some?
      ensures State() == if found then ExecAll(address, old(State()), Plan(address, StoredBlock(old(disk), number).value))
                         else old(State())
    {
      var block := FetchBlock(number);
      if block.None? {
        return false;
      }
      Index(block.value);
      return true;
    }
  }

  lemma EventsIndexed(address: string, w: World, b: Block, ops: seq<Op>)
    requires WritesEventsOf(address, b, ops)
    ensures forall r: nat, i: nat :: MatchingEvent(address, b, r, i) ==>
      IsIndexed(address, ExecAll(address, w, ops), b, EventId(b.receipts[r].transactionHash, i))
  {
    forall r: nat, i: nat | MatchingEvent(address, b, r, i)
      ensures IsIndexed(address, ExecAll(address, w, ops), b, EventId(b.receipts[r].transactionHash, i))
    {
      WritesIndexEvents(address, w, b, ops, r, i);
    }
  }

  lemma ExecTwo(address: string, w: World, a: Op, b: Op)
    ensures ExecAll(address, w, [a, b]) == ExecOp(address, ExecOp(address, w, a), b)
  {
    assert [a, b][..1] == [a] && [a][..0] == [];
    assert ExecAll(address, w, [a]) == ExecOp(address, ExecAll(address, w, []), a);
  }

  lemma NextTx(address: string, start: World, b: Block, i: nat)
    requires i < |b.transactions|
    ensures ExecAll(address, start, TxOps(address, b, b.transactions[..i + 1])) ==
            ExecAll(address, ExecAll(address, start, TxOps(address, b, b.transactions[..i])), TxStep(address, b, b.transactions[i]))
  {
    var before, next := b.transactions[..i], b.transactions[..i + 1];
    assert next[..|next| - 1] == before && next[|next| - 1] == b.transactions[i];
    assert TxOps(address, b, next) == TxOps(address, b, before) + TxStep(address, b, b.transactions[i]);
    ExecConcat(address, start, TxOps(address, b, before), TxStep(address, b, b.transactions[i]));
  }

  lemma NextEvent(address: string, start: World, b: Block, hash: string, events: seq<StarknetEvent>, i: nat)
    requires i < |events|
    ensures ExecAll(address, start, EventOps(address, b, hash, events[..i + 1])) ==
            ExecAll(address, ExecAll(address, start, EventOps(address, b, hash, events[..i])), EventStep(address, b, hash, i, events[i]))
  {
    var before, next := events[..i], events[..i + 1];
    assert next[..|next| - 1] == before && next[|next| - 1] == events[i];
    assert EventOps(address, b, hash, next) == EventOps(address, b, hash, before) + EventStep(address, b, hash, i, events[i]);
    ExecConcat(address, start, EventOps(address, b, hash, before), EventStep(address, b, hash, i, events[i]));
  }

  lemma NextReceipt(address: string, start: World, b: Block, r: nat)
    requires r < |b.receipts|
    ensures var last := b.receipts[r];
            ExecAll(address, start, ReceiptOps(address, b, b.receipts[..r + 1])) ==
            ExecAll(address, ExecAll(address, start, ReceiptOps(address, b, b.receipts[..r])),
                    EventOps(address, b, last.transactionHash, last.events))
  {
    var before, next, last := b.receipts[..r], b.receipts[..r + 1], b.receipts[r];
    assert next[..|next| - 1] == before && next[|next| - 1] == last;
    var ops := EventOps(address, b, last.transactionHash, last.events);
    assert ReceiptOps(address, b, next) == ReceiptOps(address, b, before) + ops;
    ExecConcat(address, start, ReceiptOps(address, b, before), ops);
  }
}
