/**
 * The table of domain events and the handlers that fill it (internal/subscriber,
 * internal/leaderboard/leaderboard.go).
 */
module DomainEventTable {
  import opened Wrappers
  import opened U256
  import opened Events
  import opened Chain

  // ----- From a stored event to a row

  datatype Kind =
    | ProjectTransfer
    | ProjectTransferValue
    | ProjectSlotChanged
    | MinterBuy
    | MinterAirdrop
    | Migration
    | YielderDeposit
    | YielderWithdraw
    | YielderClaim
    | OffseterDeposit
    | OffseterWithdraw
    | OffseterClaim

  /** What handlers read: the events in storage, and the subject (if any) an event is published under. */
  datatype Source = Source(stored: map<EventId, StarknetEvent>, subject: StarknetEvent -> Option<Kind>)
  {
    /** Every event is stored under its own id. */
    ghost predicate Faithful() {
      forall id <- stored :: stored[id].eventId == id
    }
  }

  function KindName(k: Kind): string {
    match k
    case ProjectTransfer => "project:transfer"
    case ProjectTransferValue => "project:transfer-value"
    case ProjectSlotChanged => "project:slot-changed"
    case MinterBuy => "minter:buy"
    case MinterAirdrop => "minter:airdrop"
    case Migration => "migrator:migration"
    case YielderDeposit => "yielder:deposit"
    case YielderWithdraw => "yielder:withdraw"
    case YielderClaim => "yielder:claim"
    case OffseterDeposit => "offseter:deposit"
    case OffseterWithdraw => "offseter:withdraw"
    case OffseterClaim => "offseter:claim"
  }

  /** The event has every field its handler reads; otherwise the handler panics on an index. */
  predicate WellFormed(k: Kind, e: StarknetEvent) {
    match k
    case ProjectTransfer => |e.keys| >= 4
    case ProjectTransferValue => e.keys != [] && |e.data| >= 5
    case ProjectSlotChanged => e.keys != [] && |e.data| >= 5
    case Migration => e.keys != [] && |e.data| >= 8
    case _ => e.keys != [] && |e.data| >= 4
  }

  /** The fields a handler keeps. */
  function DataOf(k: Kind, e: StarknetEvent): Attributes
    requires WellFormed(k, e)
  {
    match k
    case ProjectTransfer => map["from" := e.keys[1], "to" := e.keys[2], "token_id" := e.keys[3]]
    case ProjectTransferValue => map["from_token_id" := e.data[0], "to_token_id" := e.data[2], "value" := e.data[4]]
    case ProjectSlotChanged => map["token_id" := e.data[0], "old_slot" := e.data[2], "new_slot" := e.data[4]]
    case MinterAirdrop => map["to" := e.data[0], "value" := e.data[1], "time" := e.data[3]]
    case Migration =>
      map["address" := e.data[0], "token_id" := e.data[1], "new_token_id" := e.data[3],
          "slot" := e.data[5], "value" := e.data[7]]
    case YielderClaim => map["address" := e.data[0], "amount" := e.data[1], "time" := e.data[3]]
    case OffseterClaim => map["address" := e.data[0], "amount" := e.data[1], "time" := e.data[3]]
    case _ => map["address" := e.data[0], "value" := e.data[1], "time" := e.data[3]]
  }

  /** The token whose owner a handler looks up in the table, for the two kinds of event that do not name a wallet. */
  function TokenOf(k: Kind, e: StarknetEvent): Option<string>
    requires WellFormed(k, e)
  {
    match k
    case ProjectTransferValue => Some(e.data[2])
    case ProjectSlotChanged => Some(e.data[0])
    case _ => None
  }

  /** The wallet an event names itself. */
  function OwnWallet(k: Kind, e: StarknetEvent): string
    requires WellFormed(k, e) && TokenOf(k, e).None?
  {
    if k == ProjectTransfer then e.keys[2] else e.data[0]
  }

  function Translate(k: Kind, e: StarknetEvent, metadata: Attributes, wallet: string): DomainEvent
    requires WellFormed(k, e)
  {
    DomainEvent(e.recordedAt, DataOf(k, e), metadata, e.eventId, e.keys[0], KindName(k),
                e.fromAddress, wallet, e.keys[1..])
  }

  /** The kind of row an event makes; None if it is not stored, has no subscriber or is malformed. */
  function KindOf(src: Source, id: EventId): Option<Kind> {
    if id !in src.stored then None
    else
      match src.subject(src.stored[id])
      case None => None
      case Some(k) => if WellFormed(k, src.stored[id]) then Some(k) else None
  }

  /** Row ids are time-ordered identifiers. */
  datatype Row = Row(id: nat, event: DomainEvent)

  predicate IsTransferOf(e: DomainEvent, token: string, slot: string) {
    && e.eventName == "project:transfer"
    && "token_id" in e.data && e.data["token_id"] == token
    && "slot" in e.metadata && e.metadata["slot"] == slot
  }

  /** The matching transfer of least id, which is what the database returns first. */
  function FirstTransfer(rows: seq<Row>, token: string, slot: string): Option<Row> {
    if rows == [] then None
    else
      var best, last := FirstTransfer(rows[..|rows| - 1], token, slot), rows[|rows| - 1];
      if IsTransferOf(last.event, token, slot) && (best.None? || last.id < best.value.id) then Some(last) else best
  }

  /** The wallet of that transfer; without one, or when it is empty, the handler asks again later. */
  function OwnerIn(rows: seq<Row>, token: string, slot: string): Option<string> {
    match FirstTransfer(rows, token, slot)
    case None => None
    case Some(r) => if r.event.walletAddress == "" then None else Some(r.event.walletAddress)
  }

  /** One delivery that is handled: the event, the row id drawn for it, and the metadata its remote calls answered. */
  datatype Delivery = Delivery(eventId: EventId, rowId: nat, metadata: Attributes)
  {
    function Slot(): string {
      Lookup(metadata, "slot")
    }
  }

  /** The row a handler creates; None if it creates none, or still waits for an owner. */
  function EventFor(src: Source, rows: seq<Row>, d: Delivery): Option<DomainEvent> {
    match KindOf(src, d.eventId)
    case None => None
    case Some(k) =>
      var e := src.stored[d.eventId];
      match TokenOf(k, e)
      case None => Some(Translate(k, e, d.metadata, OwnWallet(k, e)))
      case Some(token) =>
        match OwnerIn(rows, token, d.Slot())
        case None => None
        case Some(wallet) => Some(Translate(k, e, d.metadata, wallet))
  }

  predicate HasEventId(rows: seq<Row>, id: EventId) {
    exists r <- rows :: r.event.eventId == id
  }

  /** Creating a row fails, and changes nothing, when its event id is taken. */
  function Inserted(rows: seq<Row>, row: Row): seq<Row> {
    if HasEventId(rows, row.event.eventId) then rows else rows + [row]
  }

  function Delivered(src: Source, rows: seq<Row>, d: Delivery): seq<Row> {
    match EventFor(src, rows, d)
    case None => rows
    case Some(e) => Inserted(rows, Row(d.rowId, e))
  }

  function RowsAfter(src: Source, ds: seq<Delivery>): seq<Row> {
    if ds == [] then [] else Delivered(src, RowsAfter(src, ds[..|ds| - 1]), ds[|ds| - 1])
  }

  // ----- The per-minter counter, which scoring does not use

  type CounterKey = (string, string)

  function KeyOf(e: DomainEvent): CounterKey {
    (Lookup(e.metadata, "project_name"), Lookup(e.metadata, "slot"))
  }

  /** The counter after one more funding event; only the low 64 bits are written back. */
  function Bumped(counters: map<CounterKey, u64>, e: DomainEvent, value: u256): map<CounterKey, u64> {
    var before := if KeyOf(e) in counters then counters[KeyOf(e)] else 0;
    counters[KeyOf(e) := Add(before, value) % TWO_64]
  }

  /** What one delivery makes of the counters: every funding event with a readable value adds to one of them. */
  function Counted(src: Source, parse: string -> Option<u256>, rows: seq<Row>, counters: map<CounterKey, u64>, d: Delivery)
    : map<CounterKey, u64>
  {
    match EventFor(src, rows, d)
    case None => counters
    case Some(e) =>
      match parse(Lookup(e.data, "value"))
      case None => counters
      case Some(value) => if e.IsFunding() then Bumped(counters, e, value) else counters
  }

  predicate Funds(k: Kind) {
    k.MinterBuy? || k.MinterAirdrop? || k.Migration?
  }

  class DomainEventStore {
    var rows: seq<Row>
    var counters: map<CounterKey, u64>

    constructor ()
      ensures rows == [] && counters == map[]
    {
      rows, counters := [], map[];
    }

    method Create(row: Row)
      modifies this`rows
      ensures rows == Inserted(old(rows), row)
    {
      if !HasEventId(rows, row.event.eventId) {
        rows := rows + [row];
      }
    }

    /** None means that the handler sleeps and asks again. */
    method GetTransferWallet(token: string, slot: string) returns (wallet: Option<string>)
      ensures wallet == OwnerIn(rows, token, slot)
    {
      var best: Option<Row> := None;
      for i := 0 to |rows|
        invariant best == FirstTransfer(rows[..i], token, slot)
      {
        assert rows[..i + 1][..i] == rows[..i];
        if IsTransferOf(rows[i].event, token, slot) && (best.None? || rows[i].id < best.value.id) {
          best := Some(rows[i]);
        }
      }
      assert rows[..|rows|] == rows;
      if best.None? || best.value.event.walletAddress == "" {
        return None;
      }
      return Some(best.value.event.walletAddress);
    }

    /**
     * Reads the counter, adds and writes back, creating it when it is missing; `ok` is false on the panic
     * of a nil value.
     */
    method UpdateMinterBoughtValue(parse: string -> Option<u256>, e: DomainEvent) returns (ok: bool)
      modifies this`counters
      ensures ok <==> parse(Lookup(e.data, "value")).Some?
      ensures counters == if ok then Bumped(old(counters), e, parse(Lookup(e.data, "value")).value) else old(counters)
    {
      var stored: u256 := 0;
      if KeyOf(e) in counters {
        stored := counters[KeyOf(e)];
      }
      var value := parse(Lookup(e.data, "value"));
      if value.None? {
        return false;
      }
      counters := counters[KeyOf(e) := Add(stored, value.value) % TWO_64];
      return true;
    }

    /** One message handled by the subscriber of its kind. */
    method Handle(src: Source, parse: string -> Option<u256>, d: Delivery)
      modifies this
      ensures rows == Delivered(src, old(rows), d)
      ensures counters == Counted(src, parse, old(rows), old(counters), d)
    {
      var kind := KindOf(src, d.eventId);
      if kind.None? {
        return;
      }
      var event := src.stored[d.eventId];
      var token := TokenOf(kind.value, event);
      var wallet: string;
      if token.Some? {
        var owner := GetTransferWallet(token.value, d.Slot());
        if owner.None? {
          return;
        }
        wallet := owner.value;
      } else {
        wallet := OwnWallet(kind.value, event);
      }
      var row := Translate(kind.value, event, d.metadata, wallet);
      Create(Row(d.rowId, row));
      KindNames(kind.value);
      if Funds(kind.value) {
        var _ := UpdateMinterBoughtValue(parse, row);
      }
    }
  }

  lemma KindNames(k: Kind)
    ensures KindName(k) == "project:transfer" <==> k == ProjectTransfer
    ensures KindName(k) in ["minter:buy", "minter:airdrop", "migrator:migration"] <==> Funds(k)
    ensures KindName(k) in ["minter:buy", "minter:airdrop"] <==> k.MinterBuy? || k.MinterAirdrop?
    ensures KindName(k) == "yielder:claim" <==> k == YielderClaim
    ensures KindName(k) == "offseter:claim" <==> k == OffseterClaim
  {
    assert |"project:transfer"| == 16 && |"project:transfer-value"| == 22 && |"project:slot-changed"| == 20;
    assert |"minter:buy"| == 10 && |"minter:airdrop"| == 14 && |"migrator:migration"| == 18;
    assert |"yielder:deposit"| == 15 && |"yielder:withdraw"| == 16 && |"yielder:claim"| == 13;
    assert |"offseter:deposit"| == 16 && |"offseter:withdraw"| == 17 && |"offseter:claim"| == 14;
    assert "project:transfer"[0] == 'p' && "yielder:withdraw"[0] == 'y' && "offseter:deposit"[0] == 'o';
    assert "minter:airdrop"[0] == 'm' && "offseter:claim"[0] == 'o';
  }
}
