/** What the writes of one block leave in storage and in the stream of published messages. */
module PlanEffects {
  import opened Events
  import opened Chain
  import opened IndexPlan

  // ----- What the writes of a block leave in storage

  /** The write puts an event under the key. */
  predicate Puts(address: string, op: Op, k: Key) {
    (op.PutAddressEvent? && k == AddressEventKey(address, op.id)) || (op.PutEvent? && k == EventKey(op.id))
  }

  lemma {:induction false} SomePutStays(address: string, w: World, ops: seq<Op>, k: Key) returns (op: Op)
    requires exists o <- ops :: Puts(address, o, k)
    ensures op in ops && Puts(address, op, k)
    ensures var disk := ExecAll(address, w, ops).disk; k in disk && disk[k] == EventValue(op.event)
  {
    var front, last := ops[..|ops| - 1], ops[|ops| - 1];
    assert ops == front + [last];
    if Puts(address, last, k) {
      op := last;
    } else {
      op := SomePutStays(address, w, front, k);
    }
  }

  lemma {:induction false} PublicationStays(address: string, w: World, ops: seq<Op>, id: EventId)
    requires Publish(id) in ops
    ensures id in ExecAll(address, w, ops).published
  {
    var front, last := ops[..|ops| - 1], ops[|ops| - 1];
    assert ops == front + [last];
    if last != Publish(id) {
      PublicationStays(address, w, front, id);
    }
  }

  /**
   * Under the key lies an event of the block, from a receipt of that hash: the id, the block's time in
   * nanoseconds, and emitter, keys and data as found in the receipt.
   */
  ghost predicate HoldsEventOf(disk: Disk, k: Key, b: Block, id: EventId) {
    && k in disk && disk[k].EventValue?
    && disk[k].event.eventId == id && disk[k].event.recordedAt == b.timestamp * 1_000_000_000
    && exists r: nat :: r < |b.receipts| && FoundIn(b.receipts[r], id, disk[k].event)
  }

  predicate FoundIn(receipt: Receipt, id: EventId, e: StarknetEvent) {
    && receipt.transactionHash == id.txHash && id.index < |receipt.events|
    && e.fromAddress == receipt.events[id.index].fromAddress
    && e.keys == receipt.events[id.index].keys && e.data == receipt.events[id.index].data
  }

  /** Both keys of the event hold it, and it is published. */
  ghost predicate IsIndexed(address: string, w: World, b: Block, id: EventId) {
    && HoldsEventOf(w.disk, AddressEventKey(address, id), b, id) && HoldsEventOf(w.disk, EventKey(id), b, id)
    && id in w.published
  }

  /** The writes of events among these are those of the block. */
  ghost predicate WritesEventsOf(address: string, b: Block, ops: seq<Op>) {
    && (forall op <- ops :: op.PutAddressEvent? || op.PutEvent? ==> exists r: nat, i: nat :: EventWrites(address, b, r, i, op))
    && (forall op: Op, r: nat, i: nat :: EventWrites(address, b, r, i, op) ==> op in ops)
  }

  lemma PutIsFound(address: string, b: Block, op: Op, r: nat, i: nat)
    requires EventWrites(address, b, r, i, op) && (op.PutAddressEvent? || op.PutEvent?)
    ensures op.event.eventId == op.id && op.event.recordedAt == b.timestamp * 1_000_000_000
    ensures FoundIn(b.receipts[r], op.id, op.event)
  {
  }

  lemma EventIsHeld(address: string, w: World, b: Block, ops: seq<Op>, k: Key, id: EventId)
    requires WritesEventsOf(address, b, ops) && (k == AddressEventKey(address, id) || k == EventKey(id))
    requires exists o <- ops :: Puts(address, o, k)
    ensures HoldsEventOf(ExecAll(address, w, ops).disk, k, b, id)
  {
    var op := SomePutStays(address, w, ops, k);
    var r: nat, i: nat :| EventWrites(address, b, r, i, op);
    PutIsFound(address, b, op, r, i);
  }

  /** Once its writes are executed, every matching event of the block is indexed. */
  lemma WritesIndexEvents(address: string, w: World, b: Block, ops: seq<Op>, r: nat, i: nat)
    requires WritesEventsOf(address, b, ops) && MatchingEvent(address, b, r, i)
    ensures IsIndexed(address, ExecAll(address, w, ops), b, EventId(b.receipts[r].transactionHash, i))
  {
    var id := EventId(b.receipts[r].transactionHash, i);
    var one, other := PutAddressEvent(id, StampedAt(b, r, i)), PutEvent(id, StampedAt(b, r, i));
    assert EventWrites(address, b, r, i, one) && EventWrites(address, b, r, i, other);
    assert Puts(address, one, AddressEventKey(address, id)) && Puts(address, other, EventKey(id));
    EventIsHeld(address, w, b, ops, AddressEventKey(address, id), id);
    EventIsHeld(address, w, b, ops, EventKey(id), id);
    assert EventWrites(address, b, r, i, Publish(id));
    PublicationStays(address, w, ops, id);
  }

  lemma ReceiptOpsWriteEvents(address: string, b: Block)
    ensures WritesEventsOf(address, b, ReceiptOps(address, b, b.receipts))
  {
    assert b.receipts[..|b.receipts|] == b.receipts;
    forall op: Op
      ensures op in ReceiptOps(address, b, b.receipts) <==> FromReceipts(address, b, |b.receipts|, op)
    {
      ReceiptOpsAre(address, b, |b.receipts|, op);
    }
    forall op: Op, r: nat, i: nat | EventWrites(address, b, r, i, op)
      ensures FromReceipts(address, b, |b.receipts|, op)
    {
      assert FromEvents(address, b, r, |b.receipts[r].events|, op);
    }
  }

  lemma PlanWritesEvents(address: string, b: Block)
    ensures WritesEventsOf(address, b, Plan(address, b))
  {
    forall op: Op
      ensures op in Plan(address, b) <==> Planned(address, b, op)
    {
      PlanContains(address, b, op);
    }
  }

  // ----- The order of publication

  predicate EarlierAt<T(==)>(xs: seq<T>, x: T, p: nat, y: T, q: nat) {
    p < q < |xs| && xs[p] == x && xs[q] == y
  }

  /** Both occur, the one before the other. */
  ghost predicate Earlier<T>(xs: seq<T>, x: T, y: T) {
    exists p: nat, q: nat :: EarlierAt(xs, x, p, y, q)
  }

  lemma EarlierConcat<T>(a: seq<T>, b: seq<T>, x: T, y: T)
    ensures Earlier(a, x, y) || Earlier(b, x, y) ==> Earlier(a + b, x, y)
    ensures x in a && y in b ==> Earlier(a + b, x, y)
  {
    if p: nat, q: nat :| EarlierAt(a, x, p, y, q) {
      assert EarlierAt(a + b, x, p, y, q);
    }
    if p: nat, q: nat :| EarlierAt(b, x, p, y, q) {
      assert EarlierAt(a + b, x, |a| + p, y, |a| + q);
    }
    if x in a && y in b {
      var p, q :| 0 <= p < |a| && a[p] == x && 0 <= q < |b| && b[q] == y;
      assert EarlierAt(a + b, x, p, y, |a| + q);
    }
  }

  lemma StepPublishes(address: string, b: Block, r: nat, i: nat)
    requires MatchingEvent(address, b, r, i)
    ensures Publish(IdAt(b, r, i)) in EventStep(address, b, b.receipts[r].transactionHash, i, b.receipts[r].events[i])
  {
    EventStepIs(address, b, r, i, Publish(IdAt(b, r, i)));
  }

  lemma EventPublished(address: string, b: Block, r: nat, i: nat, n: nat)
    requires MatchingEvent(address, b, r, i) && i < n <= |b.receipts[r].events|
    ensures Publish(IdAt(b, r, i)) in EventOps(address, b, b.receipts[r].transactionHash, b.receipts[r].events[..n])
  {
    var x := Publish(IdAt(b, r, i));
    EventOpsAre(address, b, r, n, x);
    assert EventWrites(address, b, r, i, x);
  }

  lemma ReceiptPublished(address: string, b: Block, r: nat, i: nat, n: nat)
    requires MatchingEvent(address, b, r, i) && r < n <= |b.receipts|
    ensures Publish(IdAt(b, r, i)) in ReceiptOps(address, b, b.receipts[..n])
  {
    var x := Publish(IdAt(b, r, i));
    ReceiptOpsAre(address, b, n, x);
    assert EventWrites(address, b, r, i, x);
    assert FromEvents(address, b, r, |b.receipts[r].events|, x);
  }

  lemma EventOpsSplit(address: string, b: Block, hash: string, events: seq<StarknetEvent>, n: nat)
    requires 0 < n <= |events|
    ensures EventOps(address, b, hash, events[..n]) ==
            EventOps(address, b, hash, events[..n - 1]) + EventStep(address, b, hash, n - 1, events[n - 1])
  {
    var before, now := events[..n - 1], events[..n];
    assert now[..|now| - 1] == before && now[|now| - 1] == events[n - 1];
  }

  lemma ReceiptOpsSplit(address: string, b: Block, n: nat)
    requires 0 < n <= |b.receipts|
    ensures var last := b.receipts[n - 1];
            ReceiptOps(address, b, b.receipts[..n]) ==
            ReceiptOps(address, b, b.receipts[..n - 1]) + EventOps(address, b, last.transactionHash, last.events)
  {
    var before, now := b.receipts[..n - 1], b.receipts[..n];
    assert now[..|now| - 1] == before && now[|now| - 1] == b.receipts[n - 1];
  }

  /** What is in order in the writes of some events stays so when those of more follow. */
  lemma {:induction false} MoreEventsKeepOrder(address: string, b: Block, hash: string, events: seq<StarknetEvent>, m: nat, n: nat,
                                               x: Op, y: Op)
    requires m <= n <= |events| && Earlier(EventOps(address, b, hash, events[..m]), x, y)
    ensures Earlier(EventOps(address, b, hash, events[..n]), x, y)
    decreases n
  {
    if m < n {
      MoreEventsKeepOrder(address, b, hash, events, m, n - 1, x, y);
      EventOpsSplit(address, b, hash, events, n);
      EarlierConcat(EventOps(address, b, hash, events[..n - 1]), EventStep(address, b, hash, n - 1, events[n - 1]), x, y);
    }
  }

  lemma StepComesLater(address: string, b: Block, hash: string, events: seq<StarknetEvent>, j: nat, x: Op, y: Op)
    requires j < |events| && x in EventOps(address, b, hash, events[..j]) && y in EventStep(address, b, hash, j, events[j])
    ensures Earlier(EventOps(address, b, hash, events[..j + 1]), x, y)
  {
    EventOpsSplit(address, b, hash, events, j + 1);
    EarlierConcat(EventOps(address, b, hash, events[..j]), EventStep(address, b, hash, j, events[j]), x, y);
  }

  /** The writes up to an event put its publication after that of any matching event before it. */
  lemma NextEventInOrder(address: string, b: Block, r: nat, i: nat, j: nat)
    requires MatchingEvent(address, b, r, i) && MatchingEvent(address, b, r, j) && i < j
    ensures Earlier(EventOps(address, b, b.receipts[r].transactionHash, b.receipts[r].events[..j + 1]),
                    Publish(IdAt(b, r, i)), Publish(IdAt(b, r, j)))
  {
    EventPublished(address, b, r, i, j);
    StepPublishes(address, b, r, j);
    StepComesLater(address, b, b.receipts[r].transactionHash, b.receipts[r].events, j, Publish(IdAt(b, r, i)), Publish(IdAt(b, r, j)));
  }

  lemma EventOpsInOrder(address: string, b: Block, r: nat, i: nat, j: nat)
    requires MatchingEvent(address, b, r, i) && MatchingEvent(address, b, r, j) && i < j
    ensures Earlier(EventOps(address, b, b.receipts[r].transactionHash, b.receipts[r].events),
                    Publish(IdAt(b, r, i)), Publish(IdAt(b, r, j)))
  {
    var hash, events := b.receipts[r].transactionHash, b.receipts[r].events;
    NextEventInOrder(address, b, r, i, j);
    MoreEventsKeepOrder(address, b, hash, events, j + 1, |events|, Publish(IdAt(b, r, i)), Publish(IdAt(b, r, j)));
    assert events[..|events|] == events;
  }

  lemma SameReceiptInOrder(address: string, b: Block, r: nat, i: nat, j: nat)
    requires MatchingEvent(address, b, r, i) && MatchingEvent(address, b, r, j) && i < j
    ensures Earlier(ReceiptOps(address, b, b.receipts[..r + 1]), Publish(IdAt(b, r, i)), Publish(IdAt(b, r, j)))
  {
    var last := b.receipts[r];
    EventOpsInOrder(address, b, r, i, j);
    ReceiptOpsSplit(address, b, r + 1);
    EarlierConcat(ReceiptOps(address, b, b.receipts[..r]), EventOps(address, b, last.transactionHash, last.events),
                  Publish(IdAt(b, r, i)), Publish(IdAt(b, r, j)));
  }

  lemma OtherReceiptInOrder(address: string, b: Block, r: nat, i: nat, s: nat, j: nat)
    requires MatchingEvent(address, b, r, i) && MatchingEvent(address, b, s, j) && r < s
    ensures Earlier(ReceiptOps(address, b, b.receipts[..s + 1]), Publish(IdAt(b, r, i)), Publish(IdAt(b, s, j)))
  {
    var last := b.receipts[s];
    ReceiptPublished(address, b, r, i, s);
    EventPublished(address, b, s, j, |last.events|);
    assert last.events[..|last.events|] == last.events;
    ReceiptOpsSplit(address, b, s + 1);
    EarlierConcat(ReceiptOps(address, b, b.receipts[..s]), EventOps(address, b, last.transactionHash, last.events),
                  Publish(IdAt(b, r, i)), Publish(IdAt(b, s, j)));
  }

  /** What is in order in the writes of some receipts stays so when those of more follow. */
  lemma {:induction false} MoreReceiptsKeepOrder(address: string, b: Block, m: nat, n: nat, x: Op, y: Op)
    requires m <= n <= |b.receipts| && Earlier(ReceiptOps(address, b, b.receipts[..m]), x, y)
    ensures Earlier(ReceiptOps(address, b, b.receipts[..n]), x, y)
    decreases n
  {
    if m < n {
      var last := b.receipts[n - 1];
      MoreReceiptsKeepOrder(address, b, m, n - 1, x, y);
      ReceiptOpsSplit(address, b, n);
      EarlierConcat(ReceiptOps(address, b, b.receipts[..n - 1]), EventOps(address, b, last.transactionHash, last.events), x, y);
    }
  }

  lemma AllReceiptsKeepOrder(address: string, b: Block, m: nat, x: Op, y: Op)
    requires m <= |b.receipts| && Earlier(ReceiptOps(address, b, b.receipts[..m]), x, y)
    ensures Earlier(ReceiptOps(address, b, b.receipts), x, y)
  {
    MoreReceiptsKeepOrder(address, b, m, |b.receipts|, x, y);
    assert b.receipts[..|b.receipts|] == b.receipts;
  }

  lemma ReceiptOpsInOrder(address: string, b: Block, r: nat, i: nat, s: nat, j: nat)
    requires MatchingEvent(address, b, r, i) && MatchingEvent(address, b, s, j) && (r < s || (r == s && i < j))
    ensures Earlier(ReceiptOps(address, b, b.receipts), Publish(IdAt(b, r, i)), Publish(IdAt(b, s, j)))
  {
    if r < s {
      OtherReceiptInOrder(address, b, r, i, s, j);
    } else {
      SameReceiptInOrder(address, b, r, i, j);
    }
    AllReceiptsKeepOrder(address, b, s + 1, Publish(IdAt(b, r, i)), Publish(IdAt(b, s, j)));
  }

  /** The published messages that a list of writes adds. */
  function Published(ops: seq<Op>): seq<EventId> {
    if ops == [] then []
    else Published(ops[..|ops| - 1]) + if ops[|ops| - 1].Publish? then [ops[|ops| - 1].id] else []
  }

  lemma {:induction false} WritesPublish(address: string, w: World, ops: seq<Op>)
    ensures ExecAll(address, w, ops).published == w.published + Published(ops)
  {
    if ops != [] {
      WritesPublish(address, w, ops[..|ops| - 1]);
    }
  }

  lemma {:induction false} PublishedInOrder(ops: seq<Op>, x: EventId, y: EventId)
    requires Earlier(ops, Publish(x), Publish(y))
    ensures Earlier(Published(ops), x, y)
  {
    var p: nat, q: nat :| EarlierAt(ops, Publish(x), p, Publish(y), q);
    var front, last := ops[..|ops| - 1], ops[|ops| - 1];
    EarlierConcat(Published(front), if last.Publish? then [last.id] else [], x, y);
    if q < |front| {
      assert EarlierAt(front, Publish(x), p, Publish(y), q);
      PublishedInOrder(front, x, y);
    } else {
      assert front[p] == Publish(x) && last == Publish(y);
      PublishedMember(front, x);
    }
  }

  lemma {:induction false} PublishedMember(ops: seq<Op>, x: EventId)
    requires Publish(x) in ops
    ensures x in Published(ops)
  {
    var front, last := ops[..|ops| - 1], ops[|ops| - 1];
    assert ops == front + [last];
    if last != Publish(x) {
      PublishedMember(front, x);
    }
  }

  /** Indexing a block publishes its matching events in the order of the receipts, and within one in the order of its events. */
  lemma EventsArePublishedInOrder(address: string, w: World, b: Block, r: nat, i: nat, s: nat, j: nat)
    requires MatchingEvent(address, b, r, i) && MatchingEvent(address, b, s, j) && (r < s || (r == s && i < j))
    ensures w.published <= ExecAll(address, w, Plan(address, b)).published
    ensures Earlier(ExecAll(address, w, Plan(address, b)).published[|w.published|..],
                    EventId(b.receipts[r].transactionHash, i), EventId(b.receipts[s].transactionHash, j))
  {
    var txs, receipts := TxOps(address, b, b.transactions), ReceiptOps(address, b, b.receipts);
    ReceiptOpsInOrder(address, b, r, i, s, j);
    EarlierConcat(txs, receipts, Publish(IdAt(b, r, i)), Publish(IdAt(b, s, j)));
    EarlierConcat(txs + receipts, [NoteLatest(b.number)], Publish(IdAt(b, r, i)), Publish(IdAt(b, s, j)));
    PublishedInOrder(Plan(address, b), IdAt(b, r, i), IdAt(b, s, j));
    WritesPublish(address, w, Plan(address, b));
  }
}
