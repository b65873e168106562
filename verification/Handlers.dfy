/** What the handler of each kind reads from its event, field by field (internal/subscriber). */
module Handlers {
  import opened Wrappers
  import opened U256
  import opened Events
  import opened Chain
  import opened DomainEventTable
  import opened Redelivery
  import opened BoostLaws
  import opened Bonuses

  /**
   * A message leaves a row exactly when its event is stored, has a subscriber, and has every field its
   * handler reads.
   */
  lemma RowExistsExactly(src: Source, ds: seq<Delivery>, id: EventId)
    requires Handling(src, ds)
    ensures (exists e <- EventsOf(RowsAfter(src, ds)) :: e.eventId == id) <==>
      && Mentions(ds, id) && id in src.stored
      && var keys, fields := |src.stored[id].keys|, |src.stored[id].data|;
         match src.subject(src.stored[id])
         case None => false
         case Some(ProjectTransfer) => keys > 3
         case Some(ProjectTransferValue) => keys > 0 && fields > 4
         case Some(ProjectSlotChanged) => keys > 0 && fields > 4
         case Some(Migration) => keys > 0 && fields > 7
         case Some(_) => keys > 0 && fields > 3
  {
    ExpectedExists(src, ds, id);
    if Expected(src, ds, id).Some? {
      EventInTable(src, ds, Expected(src, ds, id).value);
    }
    if e :| e in EventsOf(RowsAfter(src, ds)) && e.eventId == id {
      EventInTable(src, ds, e);
    }
  }

  /** The row of a delivered event. */
  lemma RowOf(src: Source, ds: seq<Delivery>, id: EventId) returns (row: DomainEvent, first: Delivery)
    requires Handling(src, ds) && Mentions(ds, id) && KindOf(src, id).Some?
    ensures row in EventsOf(RowsAfter(src, ds)) && forall e <- EventsOf(RowsAfter(src, ds)) :: e.eventId == id ==> e == row
    ensures first in ds && FirstDelivery(ds, id) == Some(first) && first.eventId == id && WalletOf(src, ds, first).Some?
    ensures row == Translate(KindOf(src, id).value, src.stored[id], first.metadata, WalletOf(src, ds, first).value)
  {
    ExpectedExists(src, ds, id);
    row := Expected(src, ds, id).value;
    EventInTable(src, ds, row);
    FirstDeliveryIs(ds, id);
    first := FirstDelivery(ds, id).value;
    forall e | e in EventsOf(RowsAfter(src, ds)) && e.eventId == id
      ensures e == row
    {
      EventInTable(src, ds, e);
    }
  }

  /** The part of a row that does not depend on the kind of event. */
  predicate Carries(row: DomainEvent, e: StarknetEvent, first: Delivery, name: string) {
    && row.eventName == name && row.recordedAt == e.recordedAt && row.eventId == e.eventId && row.fromAddress == e.fromAddress
    && e.keys == [row.eventNameFelt] + row.keys && row.metadata == first.metadata
  }

  /**
   * The only row of a delivered event, by position of the fields: deposits, withdrawals, claims, mints
   * and migrations belong to the wallet in the first data field, transfers to the one in the third key.
   */
  lemma NamedRowByField(src: Source, ds: seq<Delivery>, id: EventId, k: Kind) returns (row: DomainEvent, first: Delivery)
    requires Handling(src, ds) && Mentions(ds, id) && KindOf(src, id) == Some(k)
    requires k != ProjectTransferValue && k != ProjectSlotChanged
    ensures row in EventsOf(RowsAfter(src, ds)) && forall e <- EventsOf(RowsAfter(src, ds)) :: e.eventId == id ==> e == row
    ensures first in ds && FirstDelivery(ds, id) == Some(first)
    ensures var e := src.stored[id];
      && (k == ProjectTransfer ==> row.walletAddress == e.keys[2])
      && (k != ProjectTransfer ==> row.walletAddress == e.data[0])
      && match k
         case ProjectTransfer =>
           Carries(row, e, first, "project:transfer") &&
           row.data == map["from" := e.keys[1], "to" := e.keys[2], "token_id" := e.keys[3]]
         case MinterBuy =>
           Carries(row, e, first, "minter:buy") &&
           row.data == map["address" := e.data[0], "value" := e.data[1], "time" := e.data[3]]
         case MinterAirdrop =>
           Carries(row, e, first, "minter:airdrop") &&
           row.data == map["to" := e.data[0], "value" := e.data[1], "time" := e.data[3]]
         case Migration =>
           Carries(row, e, first, "migrator:migration") &&
           row.data == map["address" := e.data[0], "token_id" := e.data[1], "new_token_id" := e.data[3],
                           "slot" := e.data[5], "value" := e.data[7]]
         case YielderDeposit =>
           Carries(row, e, first, "yielder:deposit") &&
           row.data == map["address" := e.data[0], "value" := e.data[1], "time" := e.data[3]]
         case YielderWithdraw =>
           Carries(row, e, first, "yielder:withdraw") &&
           row.data == map["address" := e.data[0], "value" := e.data[1], "time" := e.data[3]]
         case YielderClaim =>
           Carries(row, e, first, "yielder:claim") &&
           row.data == map["address" := e.data[0], "amount" := e.data[1], "time" := e.data[3]]
         case OffseterDeposit =>
           Carries(row, e, first, "offseter:deposit") &&
           row.data == map["address" := e.data[0], "value" := e.data[1], "time" := e.data[3]]
         case OffseterWithdraw =>
           Carries(row, e, first, "offseter:withdraw") &&
           row.data == map["address" := e.data[0], "value" := e.data[1], "time" := e.data[3]]
         case OffseterClaim =>
           Carries(row, e, first, "offseter:claim") &&
           row.data == map["address" := e.data[0], "amount" := e.data[1], "time" := e.data[3]]
         case _ => true
  {
    row, first := RowOf(src, ds, id);
  }

  /** The delivery is of a transfer of the token that answers with this slot. */
  predicate Transfers(src: Source, d: Delivery, token: string, slot: string) {
    && d.eventId in src.stored && src.subject(src.stored[d.eventId]) == Some(ProjectTransfer)
    && |src.stored[d.eventId].keys| > 3 && src.stored[d.eventId].keys[3] == token
    && "slot" in d.metadata && d.metadata["slot"] == slot
  }

  /** The first delivery of its event, and no transfer of the token was delivered before it in the same way. */
  ghost predicate TransfersFirst(src: Source, ds: seq<Delivery>, i: nat, token: string, slot: string) {
    && i < |ds| && Transfers(src, ds[i], token, slot) && !Mentions(ds[..i], ds[i].eventId)
    && forall j: nat :: j < i && Transfers(src, ds[j], token, slot) ==> Mentions(ds[..j], ds[j].eventId)
  }

  lemma {:induction false} RecipientIs(src: Source, ds: seq<Delivery>, token: string, slot: string) returns (i: nat)
    requires FirstRecipient(src, ds, token, slot).Some?
    ensures TransfersFirst(src, ds, i, token, slot)
    ensures FirstRecipient(src, ds, token, slot) == Some(src.stored[ds[i].eventId].keys[2])
  {
    var n := |ds| - 1;
    var before := ds[..n];
    MentionedFirst(before, ds[n].eventId);
    if FirstRecipient(src, before, token, slot).Some? {
      i := RecipientIs(src, before, token, slot);
      assert before[..i] == ds[..i] && forall j: nat :: j < i ==> before[..j] == ds[..j];
    } else {
      i := n;
      NoRecipient(src, before, token, slot);
      assert forall j: nat :: j < n ==> before[..j] == ds[..j];
    }
  }

  lemma {:induction false} NoRecipient(src: Source, ds: seq<Delivery>, token: string, slot: string)
    requires FirstRecipient(src, ds, token, slot).None?
    ensures forall j: nat :: j < |ds| && Transfers(src, ds[j], token, slot) ==> Mentions(ds[..j], ds[j].eventId)
  {
    if ds != [] {
      var n := |ds| - 1;
      var before := ds[..n];
      NoRecipient(src, before, token, slot);
      MentionedFirst(before, ds[n].eventId);
      assert forall j: nat :: j < n ==> before[..j] == ds[..j];
    }
  }

  /**
   * The only row of a value transfer or slot change, by position of the fields: it belongs to whoever
   * received the token in the third data field (of a slot change, in the first) in the transfer that
   * was delivered first.
   */
  lemma OwnedRowByField(src: Source, ds: seq<Delivery>, id: EventId, k: Kind) returns (row: DomainEvent, first: Delivery, i: nat)
    requires Handling(src, ds) && Mentions(ds, id) && KindOf(src, id) == Some(k)
    requires k == ProjectTransferValue || k == ProjectSlotChanged
    ensures row in EventsOf(RowsAfter(src, ds)) && forall e <- EventsOf(RowsAfter(src, ds)) :: e.eventId == id ==> e == row
    ensures first in ds && FirstDelivery(ds, id) == Some(first)
    ensures var e := src.stored[id];
      && TransfersFirst(src, ds, i, if k == ProjectTransferValue then e.data[2] else e.data[0], Lookup(first.metadata, "slot"))
      && row.walletAddress == src.stored[ds[i].eventId].keys[2] != ""
      && (k == ProjectTransferValue ==>
            Carries(row, e, first, "project:transfer-value") &&
            row.data == map["from_token_id" := e.data[0], "to_token_id" := e.data[2], "value" := e.data[4]])
      && (k == ProjectSlotChanged ==>
            Carries(row, e, first, "project:slot-changed") &&
            row.data == map["token_id" := e.data[0], "old_slot" := e.data[2], "new_slot" := e.data[4]])
  {
    row, first := RowOf(src, ds, id);
    var e := src.stored[id];
    i := RecipientIs(src, ds, if k == ProjectTransferValue then e.data[2] else e.data[0], Lookup(first.metadata, "slot"));
  }

  // ----- The owner of a token in the table

  /** The owner is the wallet of the matching transfer of least row id; without one, or when it is empty, there is none yet. */
  lemma {:induction false} OwnerIsLeast(rows: seq<Row>, token: string, slot: string)
    ensures match FirstTransfer(rows, token, slot)
      case None => OwnerIn(rows, token, slot).None? && forall r <- rows :: !IsTransferRow(r.event, token, slot)
      case Some(first) =>
        && first in rows && IsTransferRow(first.event, token, slot)
        && (forall r <- rows :: IsTransferRow(r.event, token, slot) ==> first.id <= r.id)
        && OwnerIn(rows, token, slot) == if first.event.walletAddress == "" then None else Some(first.event.walletAddress)
  {
    if rows != [] {
      OwnerIsLeast(rows[..|rows| - 1], token, slot);
      assert rows == rows[..|rows| - 1] + [rows[|rows| - 1]];
    }
  }

  predicate IsTransferRow(e: DomainEvent, token: string, slot: string) {
    && e.eventName == "project:transfer" && "token_id" in e.data && "slot" in e.metadata
    && e.data["token_id"] == token && e.metadata["slot"] == slot
  }

  // ----- What handlers count

  /**
   * The counter takes the second data field of mints and the eighth of migrations, and nothing else; it is
   * kept by project and slot.
   */
  lemma FundedByField(src: Source, parse: string -> Option<u256>, d: Delivery)
    ensures var k, value := KindOf(src, d.eventId), FundedValue(src, parse, d);
      && (k == Some(MinterBuy) || k == Some(MinterAirdrop) ==> ReadAs(parse, src.stored[d.eventId].data[1], value))
      && (k == Some(Migration) ==> ReadAs(parse, src.stored[d.eventId].data[7], value))
      && (k != Some(MinterBuy) && k != Some(MinterAirdrop) && k != Some(Migration) ==> value == 0)
    ensures forall key: CounterKey ::
      Adds(src, parse, key)(d) ==
      if key.0 == Lookup(d.metadata, "project_name") && key.1 == Lookup(d.metadata, "slot") then FundedValue(src, parse, d) else 0
  {
    assert |"address"| == 7 && |"to"| == 2 && |"value"| == 5 && |"time"| == 4;
    assert "slot"[0] == 's' && "token_id"[0] == 't' && "new_token_id"[0] == 'n';
  }

  predicate ReadAs(parse: string -> Option<u256>, text: string, value: u256) {
    parse(text) == Some(value) || (parse(text).None? && value == 0)
  }

  /** A migration is worth its eighth data field, without boost, to the wallet in the first. */
  lemma MigrationIsWorth(src: Source, rows: seq<Row>, d: Delivery, env: Env, value: u256)
    requires KindOf(src, d.eventId) == Some(Migration) && env.parse(src.stored[d.eventId].data[7]) == Some(value)
    ensures EventFor(src, rows, d).Some?
    ensures var e := EventFor(src, rows, d).value;
            && e.walletAddress == src.stored[d.eventId].data[0]
            && e.IsFunding() && Readable(env, e) && FundingScore(env, e) == Score(value, AmountFunded, [], e)
  {
    KindNames(Migration);
    var e := EventFor(src, rows, d).value;
    assert Lookup(e.data, "value") == src.stored[d.eventId].data[7];
    OthersAreNotBoosted(env, e, Score(value, AmountFunded, [], e));
  }
}
