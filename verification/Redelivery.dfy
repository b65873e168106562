/** What duplicates and the order of deliveries do to the table of domain events. */
module Redelivery {
  import opened Wrappers
  import opened U256
  import opened Sequences
  import opened Events
  import opened DomainEventTable

  function EventsOf(rows: seq<Row>): seq<DomainEvent> {
    seq(|rows|, i requires 0 <= i < |rows| => rows[i].event)
  }

  ghost predicate UniqueIds(rows: seq<Row>) {
    forall i, j :: 0 <= i < j < |rows| ==> rows[i].event.eventId != rows[j].event.eventId
  }

  // ----- What counts in a list of deliveries

  function FirstDelivery(ds: seq<Delivery>, id: EventId): Option<Delivery> {
    if ds == [] then None
    else
      match FirstDelivery(ds[..|ds| - 1], id)
      case Some(d) => Some(d)
      case None => if ds[|ds| - 1].eventId == id then Some(ds[|ds| - 1]) else None
  }

  /** The delivery is of a transfer of the token in the slot. */
  predicate IsTransfer(src: Source, d: Delivery, token: string, slot: string) {
    && KindOf(src, d.eventId) == Some(ProjectTransfer)
    && src.stored[d.eventId].keys[3] == token
    && "slot" in d.metadata && d.metadata["slot"] == slot
  }

  /** The recipient of the transfer of the token that is delivered first. */
  function FirstRecipient(src: Source, ds: seq<Delivery>, token: string, slot: string): Option<string> {
    if ds == [] then None
    else
      var before, d := ds[..|ds| - 1], ds[|ds| - 1];
      match FirstRecipient(src, before, token, slot)
      case Some(w) => Some(w)
      case None =>
        if FirstDelivery(before, d.eventId).None? && IsTransfer(src, d, token, slot)
        then Some(src.stored[d.eventId].keys[2]) else None
  }

  function Owner(src: Source, ds: seq<Delivery>, token: string, slot: string): Option<string> {
    var w := FirstRecipient(src, ds, token, slot);
    if w == Some("") then None else w
  }

  /** The token this delivery looks up, if its event's kind does. */
  function LookupOf(src: Source, id: EventId): Option<string> {
    match KindOf(src, id)
    case None => None
    case Some(k) => TokenOf(k, src.stored[id])
  }

  /** Transfers are handled one after the other, so that their time-ordered row ids ascend. */
  ghost predicate Ascending(src: Source, ds: seq<Delivery>) {
    forall i, j :: 0 <= i < j < |ds| && KindOf(src, ds[i].eventId) == KindOf(src, ds[j].eventId) == Some(ProjectTransfer) ==>
      ds[i].rowId < ds[j].rowId
  }

  /** The list is in the order in which handlers finish: one that looks up an owner has found it. */
  ghost predicate Finished(src: Source, ds: seq<Delivery>) {
    forall i :: 0 <= i < |ds| && LookupOf(src, ds[i].eventId).Some? ==>
      Owner(src, ds[..i], LookupOf(src, ds[i].eventId).value, ds[i].Slot()).Some?
  }

  /** The wallet of the row of an event: its own, or the one looked up. */
  function WalletOf(src: Source, ds: seq<Delivery>, d: Delivery): Option<string>
    requires KindOf(src, d.eventId).Some?
  {
    match LookupOf(src, d.eventId)
    case None => Some(OwnWallet(KindOf(src, d.eventId).value, src.stored[d.eventId]))
    case Some(token) => Owner(src, ds, token, d.Slot())
  }

  /** The event's row, told from the deliveries alone. */
  function Expected(src: Source, ds: seq<Delivery>, id: EventId): Option<DomainEvent> {
    match FirstDelivery(ds, id)
    case None => None
    case Some(d) =>
      if d.eventId != id || KindOf(src, id).None? || WalletOf(src, ds, d).None? then None
      else Some(Translate(KindOf(src, id).value, src.stored[id], d.metadata, WalletOf(src, ds, d).value))
  }

  lemma {:induction false} FirstDeliveryIs(ds: seq<Delivery>, id: EventId)
    ensures match FirstDelivery(ds, id)
            case None => forall d <- ds :: d.eventId != id
            case Some(d) => d in ds && d.eventId == id
  {
    if ds != [] {
      FirstDeliveryIs(ds[..|ds| - 1], id);
      assert ds == ds[..|ds| - 1] + [ds[|ds| - 1]];
    }
  }

  // ----- One delivery

  lemma InsertedRows(rows: seq<Row>, row: Row, id: EventId)
    requires UniqueIds(rows)
    ensures UniqueIds(Inserted(rows, row))
    ensures HasEventId(Inserted(rows, row), id) <==> HasEventId(rows, id) || id == row.event.eventId
  {
    assert row in rows + [row];
    if HasEventId(rows, id) {
      var r :| r in rows && r.event.eventId == id;
      assert r in rows + [row];
    }
  }

  /** The table agrees with what the deliveries say. */
  ghost predicate TableSound(src: Source, ds: seq<Delivery>, rows: seq<Row>) {
    && UniqueIds(rows)
    && (forall r <- rows :: exists d <- ds :: r.id == d.rowId && r.event.eventId == d.eventId)
    && (forall r <- rows :: Expected(src, ds, r.event.eventId) == Some(r.event))
    && (forall id :: HasEventId(rows, id) <==> FirstDelivery(ds, id).Some? && KindOf(src, id).Some?)
  }

  /** The first transfer row of a token is that of the transfer delivered first. */
  ghost predicate OwnersAgree(src: Source, ds: seq<Delivery>, rows: seq<Row>) {
    forall token, slot :: RecipientIn(rows, token, slot) == FirstRecipient(src, ds, token, slot)
  }

  function RecipientIn(rows: seq<Row>, token: string, slot: string): Option<string> {
    match FirstTransfer(rows, token, slot)
    case None => None
    case Some(r) => Some(r.event.walletAddress)
  }

  lemma {:induction false} FirstTransferIsRow(rows: seq<Row>, token: string, slot: string)
    ensures FirstTransfer(rows, token, slot).Some? ==>
      FirstTransfer(rows, token, slot).value in rows && IsTransferOf(FirstTransfer(rows, token, slot).value.event, token, slot)
  {
    if rows != [] {
      FirstTransferIsRow(rows[..|rows| - 1], token, slot);
    }
  }

  lemma TransferRow(src: Source, d: Delivery, k: Kind, wallet: string, token: string, slot: string)
    requires KindOf(src, d.eventId) == Some(k)
    ensures IsTransferOf(Translate(k, src.stored[d.eventId], d.metadata, wallet), token, slot) <==> IsTransfer(src, d, token, slot)
  {
    KindNames(k);
    assert |"from"| == 4 && |"to"| == 2 && |"token_id"| == 8;
  }

  /** Every transfer row has a smaller id. */
  ghost predicate NewestTransfer(rows: seq<Row>, id: nat) {
    forall r <- rows :: r.event.eventName == "project:transfer" ==> r.id < id
  }

  lemma AppendedTransfer(rows: seq<Row>, row: Row, token: string, slot: string)
    requires row.event.eventName == "project:transfer" ==> NewestTransfer(rows, row.id)
    ensures RecipientIn(rows + [row], token, slot) ==
            if RecipientIn(rows, token, slot).Some? then RecipientIn(rows, token, slot)
            else if IsTransferOf(row.event, token, slot) then Some(row.event.walletAddress) else None
  {
    assert (rows + [row])[..|rows|] == rows;
    FirstTransferIsRow(rows, token, slot);
  }

  /** Owners found stay found, and so do expected rows. */
  lemma MoreDeliveries(src: Source, ds: seq<Delivery>, d: Delivery, id: EventId, token: string, slot: string)
    ensures FirstDelivery(ds, id).Some? ==> FirstDelivery(ds + [d], id) == FirstDelivery(ds, id)
    ensures FirstDelivery(ds, id).None? ==> FirstDelivery(ds + [d], id) == if d.eventId == id then Some(d) else None
    ensures Owner(src, ds, token, slot).Some? ==> Owner(src, ds + [d], token, slot) == Owner(src, ds, token, slot)
  {
    assert (ds + [d])[..|ds|] == ds;
  }

  lemma ExpectedStays(src: Source, ds: seq<Delivery>, d: Delivery, id: EventId)
    requires Expected(src, ds, id).Some?
    ensures Expected(src, ds + [d], id) == Expected(src, ds, id)
  {
    var first := FirstDelivery(ds, id).value;
    var token := LookupOf(src, id);
    MoreDeliveries(src, ds, d, id, if token.Some? then token.value else "", first.Slot());
  }

  lemma ExpectedNew(src: Source, ds: seq<Delivery>, d: Delivery, rows: seq<Row>)
    requires FirstDelivery(ds, d.eventId).None? && OwnersAgree(src, ds, rows)
    requires KindOf(src, d.eventId).Some?
    requires LookupOf(src, d.eventId).Some? ==> Owner(src, ds, LookupOf(src, d.eventId).value, d.Slot()).Some?
    ensures EventFor(src, rows, d).Some? && Expected(src, ds + [d], d.eventId) == EventFor(src, rows, d)
  {
    var token := LookupOf(src, d.eventId);
    var text := if token.Some? then token.value else "";
    MoreDeliveries(src, ds, d, d.eventId, text, d.Slot());
    assert RecipientIn(rows, text, d.Slot()) == FirstRecipient(src, ds, text, d.Slot());
    assert token.Some? ==> OwnerIn(rows, text, d.Slot()) == Owner(src, ds, text, d.Slot());
  }

  lemma TranslatedId(src: Source, rows: seq<Row>, d: Delivery)
    requires src.Faithful() && EventFor(src, rows, d).Some?
    ensures EventFor(src, rows, d).value.eventId == d.eventId
  {
  }

  /** A delivery of an event that was delivered before changes nothing. */
  lemma RepeatedDelivery(src: Source, ds: seq<Delivery>, d: Delivery, rows: seq<Row>)
    requires src.Faithful() && TableSound(src, ds, rows) && FirstDelivery(ds, d.eventId).Some?
    ensures Delivered(src, rows, d) == rows
  {
    if EventFor(src, rows, d).Some? {
      TranslatedId(src, rows, d);
    }
  }

  lemma RepeatedKeepsSound(src: Source, ds: seq<Delivery>, d: Delivery, rows: seq<Row>)
    requires src.Faithful() && TableSound(src, ds, rows) && OwnersAgree(src, ds, rows)
    requires FirstDelivery(ds, d.eventId).Some? || KindOf(src, d.eventId).None?
    ensures TableSound(src, ds + [d], rows) && OwnersAgree(src, ds + [d], rows)
  {
    forall r | r in rows
      ensures Expected(src, ds + [d], r.event.eventId) == Some(r.event)
      ensures exists d' <- ds + [d] :: r.id == d'.rowId && r.event.eventId == d'.eventId
    {
      ExpectedStays(src, ds, d, r.event.eventId);
      var d' :| d' in ds && r.id == d'.rowId && r.event.eventId == d'.eventId;
      assert d' in ds + [d];
    }
    forall id: EventId
      ensures HasEventId(rows, id) <==> FirstDelivery(ds + [d], id).Some? && KindOf(src, id).Some?
    {
      MoreDeliveries(src, ds, d, id, "", "");
    }
    assert (ds + [d])[..|ds|] == ds;
  }

  lemma NewKeepsRows(src: Source, ds: seq<Delivery>, d: Delivery, rows: seq<Row>, e: DomainEvent)
    requires src.Faithful() && TableSound(src, ds, rows) && OwnersAgree(src, ds, rows)
    requires FirstDelivery(ds, d.eventId).None? && KindOf(src, d.eventId).Some?
    requires Expected(src, ds + [d], d.eventId) == Some(e) && e.eventId == d.eventId
    ensures TableSound(src, ds + [d], rows + [Row(d.rowId, e)])
    ensures Inserted(rows, Row(d.rowId, e)) == rows + [Row(d.rowId, e)]
  {
    var row := Row(d.rowId, e);
    forall r | r in rows + [row]
      ensures Expected(src, ds + [d], r.event.eventId) == Some(r.event)
      ensures exists d' <- ds + [d] :: r.id == d'.rowId && r.event.eventId == d'.eventId
    {
      if r in rows {
        ExpectedStays(src, ds, d, r.event.eventId);
        var d' :| d' in ds && r.id == d'.rowId && r.event.eventId == d'.eventId;
        assert d' in ds + [d];
      } else {
        assert d in ds + [d];
      }
    }
    assert !HasEventId(rows, d.eventId);
    forall id: EventId
      ensures HasEventId(rows + [row], id) <==> FirstDelivery(ds + [d], id).Some? && KindOf(src, id).Some?
    {
      MoreDeliveries(src, ds, d, id, "", "");
      InsertedRows(rows, row, id);
    }
  }

  lemma NewKeepsOwners(src: Source, ds: seq<Delivery>, d: Delivery, rows: seq<Row>, k: Kind, wallet: string)
    requires OwnersAgree(src, ds, rows) && (k == ProjectTransfer ==> NewestTransfer(rows, d.rowId))
    requires FirstDelivery(ds, d.eventId).None? && KindOf(src, d.eventId) == Some(k)
    requires k == ProjectTransfer ==> wallet == src.stored[d.eventId].keys[2]
    ensures OwnersAgree(src, ds + [d], rows + [Row(d.rowId, Translate(k, src.stored[d.eventId], d.metadata, wallet))])
  {
    var row := Row(d.rowId, Translate(k, src.stored[d.eventId], d.metadata, wallet));
    assert (ds + [d])[..|ds|] == ds;
    KindNames(k);
    forall token: string, slot: string
      ensures RecipientIn(rows + [row], token, slot) == FirstRecipient(src, ds + [d], token, slot)
    {
      assert RecipientIn(rows, token, slot) == FirstRecipient(src, ds, token, slot);
      AppendedTransfer(rows, row, token, slot);
      TransferRow(src, d, k, wallet, token, slot);
    }
  }

  lemma TransfersAscend(src: Source, ds: seq<Delivery>, d: Delivery, rows: seq<Row>)
    requires TableSound(src, ds, rows) && Ascending(src, ds + [d]) && KindOf(src, d.eventId) == Some(ProjectTransfer)
    ensures NewestTransfer(rows, d.rowId)
  {
    forall r | r in rows && r.event.eventName == "project:transfer"
      ensures r.id < d.rowId
    {
      assert Expected(src, ds, r.event.eventId) == Some(r.event);
      KindNames(KindOf(src, r.event.eventId).value);
      var d' :| d' in ds && r.id == d'.rowId && r.event.eventId == d'.eventId;
      var i :| 0 <= i < |ds| && ds[i] == d';
      assert (ds + [d])[i] == d' && (ds + [d])[|ds|] == d;
    }
  }

  lemma NewKeepsSound(src: Source, ds: seq<Delivery>, d: Delivery, rows: seq<Row>)
    requires src.Faithful() && TableSound(src, ds, rows) && OwnersAgree(src, ds, rows) && Ascending(src, ds + [d])
    requires FirstDelivery(ds, d.eventId).None? && KindOf(src, d.eventId).Some?
    requires LookupOf(src, d.eventId).Some? ==> Owner(src, ds, LookupOf(src, d.eventId).value, d.Slot()).Some?
    ensures TableSound(src, ds + [d], Delivered(src, rows, d)) && OwnersAgree(src, ds + [d], Delivered(src, rows, d))
  {
    ExpectedNew(src, ds, d, rows);
    var e := EventFor(src, rows, d).value;
    TranslatedId(src, rows, d);
    NewKeepsRows(src, ds, d, rows, e);
    if KindOf(src, d.eventId) == Some(ProjectTransfer) {
      TransfersAscend(src, ds, d, rows);
    }
    NewKeepsOwners(src, ds, d, rows, KindOf(src, d.eventId).value, e.walletAddress);
  }

  lemma DeliveryKeepsSound(src: Source, ds: seq<Delivery>, d: Delivery, rows: seq<Row>)
    requires src.Faithful() && TableSound(src, ds, rows) && OwnersAgree(src, ds, rows) && Ascending(src, ds + [d])
    requires LookupOf(src, d.eventId).Some? ==> Owner(src, ds, LookupOf(src, d.eventId).value, d.Slot()).Some?
    ensures TableSound(src, ds + [d], Delivered(src, rows, d)) && OwnersAgree(src, ds + [d], Delivered(src, rows, d))
  {
    if FirstDelivery(ds, d.eventId).Some? {
      RepeatedDelivery(src, ds, d, rows);
      RepeatedKeepsSound(src, ds, d, rows);
    } else if KindOf(src, d.eventId).None? {
      RepeatedKeepsSound(src, ds, d, rows);
    } else {
      NewKeepsSound(src, ds, d, rows);
    }
  }

  lemma ShorterList(src: Source, ds: seq<Delivery>)
    requires ds != [] && Ascending(src, ds) && Finished(src, ds)
    ensures Ascending(src, ds[..|ds| - 1]) && Finished(src, ds[..|ds| - 1])
  {
    assert forall i :: 0 <= i < |ds| - 1 ==> ds[..|ds| - 1][..i] == ds[..i];
  }

  /** The table holds one row per delivered event, the one its first delivery makes. */
  lemma {:induction false} RowsAreDeliveries(src: Source, ds: seq<Delivery>)
    requires src.Faithful() && Ascending(src, ds) && Finished(src, ds)
    ensures TableSound(src, ds, RowsAfter(src, ds)) && OwnersAgree(src, ds, RowsAfter(src, ds))
  {
    if ds != [] {
      var before, d := ds[..|ds| - 1], ds[|ds| - 1];
      ShorterList(src, ds);
      RowsAreDeliveries(src, before);
      assert before + [d] == ds;
      DeliveryKeepsSound(src, before, d, RowsAfter(src, before));
    }
  }

  // ----- Main results

  /**
   * Whatever its row id and whatever its remote calls answer this time, a second delivery leaves the
   * table as it is.
   */
  lemma DuplicatesAreIgnored(src: Source, ds: seq<Delivery>, d: Delivery)
    requires src.Faithful() && Ascending(src, ds) && Finished(src, ds) && FirstDelivery(ds, d.eventId).Some?
    ensures RowsAfter(src, ds + [d]) == RowsAfter(src, ds)
  {
    assert (ds + [d])[..|ds|] == ds;
    RowsAreDeliveries(src, ds);
    RepeatedDelivery(src, ds, d, RowsAfter(src, ds));
  }

  ghost predicate Mentions(ds: seq<Delivery>, id: EventId) {
    exists d <- ds :: d.eventId == id
  }

  ghost predicate SameEvents(ds1: seq<Delivery>, ds2: seq<Delivery>) {
    forall id :: Mentions(ds1, id) <==> Mentions(ds2, id)
  }

  lemma MentionedFirst(ds: seq<Delivery>, id: EventId)
    ensures FirstDelivery(ds, id).Some? <==> Mentions(ds, id)
    ensures FirstDelivery(ds, id).Some? ==> FirstDelivery(ds, id).value.eventId == id
  {
    FirstDeliveryIs(ds, id);
  }

  /**
   * The first deliveries of the event got the same metadata, and if it looks up an owner, the first
   * transfers of its token went to the same wallet.
   */
  ghost predicate AnswersAgreeOn(src: Source, ds1: seq<Delivery>, ds2: seq<Delivery>, id: EventId) {
    var d1, d2 := FirstDelivery(ds1, id), FirstDelivery(ds2, id);
    d1.Some? && d2.Some? && KindOf(src, id).Some? ==>
      && d1.value.metadata == d2.value.metadata
      && (LookupOf(src, id).Some? ==>
            Owner(src, ds1, LookupOf(src, id).value, d1.value.Slot()) == Owner(src, ds2, LookupOf(src, id).value, d1.value.Slot()))
  }

  ghost predicate AnswersAgree(src: Source, ds1: seq<Delivery>, ds2: seq<Delivery>) {
    forall id :: AnswersAgreeOn(src, ds1, ds2, id)
  }

  /**
   * Delivery lists as they occur: events stored under their ids, row ids in time order, handlers in the
   * order they finish.
   */
  ghost predicate Handling(src: Source, ds: seq<Delivery>) {
    src.Faithful() && Ascending(src, ds) && Finished(src, ds)
  }

  lemma RowIsEvent(rows: seq<Row>, r: Row)
    requires r in rows
    ensures r.event in EventsOf(rows)
  {
    var i :| 0 <= i < |rows| && rows[i] == r;
    assert EventsOf(rows)[i] == r.event;
  }

  lemma EventIsRow(rows: seq<Row>, e: DomainEvent) returns (r: Row)
    requires e in EventsOf(rows)
    ensures r in rows && r.event == e
  {
    var i :| 0 <= i < |rows| && EventsOf(rows)[i] == e;
    r := rows[i];
  }

  lemma EventInTable(src: Source, ds: seq<Delivery>, e: DomainEvent)
    requires Handling(src, ds)
    ensures e in EventsOf(RowsAfter(src, ds)) <==> Expected(src, ds, e.eventId) == Some(e)
  {
    var rows := RowsAfter(src, ds);
    RowsAreDeliveries(src, ds);
    if e in EventsOf(rows) {
      var r := EventIsRow(rows, e);
    }
    if Expected(src, ds, e.eventId) == Some(e) {
      assert HasEventId(rows, e.eventId);
      var r :| r in rows && r.event.eventId == e.eventId;
      RowIsEvent(rows, r);
    }
  }

  lemma TableIsDistinct(src: Source, ds: seq<Delivery>)
    requires Handling(src, ds)
    ensures Distinct(EventsOf(RowsAfter(src, ds)))
  {
    RowsAreDeliveries(src, ds);
  }

  /** Every mentioned event that makes a row has one expected. */
  lemma ExpectedExists(src: Source, ds: seq<Delivery>, id: EventId)
    requires Handling(src, ds)
    ensures Expected(src, ds, id).Some? <==> Mentions(ds, id) && KindOf(src, id).Some?
    ensures Expected(src, ds, id).Some? ==> Expected(src, ds, id).value.eventId == id
  {
    MentionedFirst(ds, id);
    RowsAreDeliveries(src, ds);
    var rows := RowsAfter(src, ds);
    if HasEventId(rows, id) {
      var r :| r in rows && r.event.eventId == id;
      assert Expected(src, ds, id) == Some(r.event);
    }
  }

  /** The answers for an event agree exactly when its rows do. */
  lemma AgreeingRows(src: Source, ds1: seq<Delivery>, ds2: seq<Delivery>, id: EventId)
    requires Handling(src, ds1) && Handling(src, ds2) && Mentions(ds1, id) && Mentions(ds2, id)
    ensures AnswersAgreeOn(src, ds1, ds2, id) <==> Expected(src, ds1, id) == Expected(src, ds2, id)
  {
    MentionedFirst(ds1, id);
    MentionedFirst(ds2, id);
    ExpectedExists(src, ds1, id);
    ExpectedExists(src, ds2, id);
    var d1, d2 := FirstDelivery(ds1, id).value, FirstDelivery(ds2, id).value;
    if KindOf(src, id).Some? {
      var k, e := KindOf(src, id).value, src.stored[id];
      var w1, w2 := WalletOf(src, ds1, d1).value, WalletOf(src, ds2, d2).value;
      assert Translate(k, e, d1.metadata, w1) == Translate(k, e, d2.metadata, w2) <==> d1.metadata == d2.metadata && w1 == w2;
    }
  }

  lemma SameExpectedSameTable(src: Source, ds1: seq<Delivery>, ds2: seq<Delivery>)
    requires Handling(src, ds1) && Handling(src, ds2)
    requires forall id :: Expected(src, ds1, id) == Expected(src, ds2, id)
    ensures Permutation(EventsOf(RowsAfter(src, ds1)), EventsOf(RowsAfter(src, ds2)))
  {
    var a, b := EventsOf(RowsAfter(src, ds1)), EventsOf(RowsAfter(src, ds2));
    forall e: DomainEvent
      ensures e in a <==> e in b
    {
      EventInTable(src, ds1, e);
      EventInTable(src, ds2, e);
    }
    TableIsDistinct(src, ds1);
    TableIsDistinct(src, ds2);
    DistinctPermutation(a, b);
  }

  lemma SameTableSameExpected(src: Source, ds1: seq<Delivery>, ds2: seq<Delivery>, id: EventId)
    requires Handling(src, ds1) && Handling(src, ds2) && SameEvents(ds1, ds2)
    requires Permutation(EventsOf(RowsAfter(src, ds1)), EventsOf(RowsAfter(src, ds2)))
    ensures Expected(src, ds1, id) == Expected(src, ds2, id)
  {
    ExpectedExists(src, ds1, id);
    ExpectedExists(src, ds2, id);
    if Expected(src, ds1, id).Some? {
      var e := Expected(src, ds1, id).value;
      EventInTable(src, ds1, e);
      EventInTable(src, ds2, e);
      PermutationMember(EventsOf(RowsAfter(src, ds1)), EventsOf(RowsAfter(src, ds2)), e);
    }
  }

  /**
   * Two delivery lists over the same events, with any duplicates and in any order, leave the same
   * table up to row ids and row order if and only if their answers agree.
   */
  lemma RedeliveryKeepsTable(src: Source, ds1: seq<Delivery>, ds2: seq<Delivery>)
    requires Handling(src, ds1) && Handling(src, ds2) && SameEvents(ds1, ds2)
    ensures Permutation(EventsOf(RowsAfter(src, ds1)), EventsOf(RowsAfter(src, ds2))) <==> AnswersAgree(src, ds1, ds2)
  {
    forall id: EventId
      ensures AnswersAgreeOn(src, ds1, ds2, id) <==> Expected(src, ds1, id) == Expected(src, ds2, id)
    {
      MentionedFirst(ds1, id);
      MentionedFirst(ds2, id);
      if Mentions(ds1, id) {
        AgreeingRows(src, ds1, ds2, id);
      }
    }
    if AnswersAgree(src, ds1, ds2) {
      SameExpectedSameTable(src, ds1, ds2);
    } else if Permutation(EventsOf(RowsAfter(src, ds1)), EventsOf(RowsAfter(src, ds2))) {
      forall id: EventId
        ensures AnswersAgreeOn(src, ds1, ds2, id)
      {
        SameTableSameExpected(src, ds1, ds2, id);
      }
    }
  }

  // ----- Order does matter for events that look up an owner

  /** Two transfers of one token to different wallets, and an event that looks up the owner of the token. */
  ghost predicate Contested(src: Source, t1: Delivery, t2: Delivery, v: Delivery, token: string) {
    && src.Faithful() && t1.eventId != t2.eventId && LookupOf(src, v.eventId) == Some(token)
    && IsTransfer(src, t1, token, v.Slot()) && IsTransfer(src, t2, token, v.Slot())
    && src.stored[t1.eventId].keys[2] != src.stored[t2.eventId].keys[2]
    && src.stored[t1.eventId].keys[2] != "" && src.stored[t2.eventId].keys[2] != ""
  }

  /** The deliveries with row ids drawn in order. */
  function Numbered(a: Delivery, b: Delivery, c: Delivery): seq<Delivery> {
    [a.(rowId := 0), b.(rowId := 1), c.(rowId := 2)]
  }

  lemma FirstOfThree(src: Source, a: Delivery, b: Delivery, c: Delivery, token: string)
    requires IsTransfer(src, a, token, b.Slot()) && LookupOf(src, b.eventId) == Some(token)
    requires LookupOf(src, c.eventId).None? && src.Faithful() && src.stored[a.eventId].keys[2] != ""
    ensures var ds := Numbered(a, b, c);
            && Handling(src, ds) && FirstRecipient(src, ds, token, b.Slot()) == Some(src.stored[a.eventId].keys[2])
  {
    var ds := Numbered(a, b, c);
    assert ds[..2][..1] == ds[..1] && ds[..1][..0] == [] && ds[..2] == ds[..|ds| - 1];
    assert FirstRecipient(src, ds[..1], token, b.Slot()) == Some(src.stored[a.eventId].keys[2]);
    assert FirstRecipient(src, ds[..2], token, b.Slot()) == Some(src.stored[a.eventId].keys[2]);
    assert ds[0].eventId == a.eventId && ds[1].eventId == b.eventId && ds[2].eventId == c.eventId && ds[1].Slot() == b.Slot();
  }

  lemma SecondOfThree(a: Delivery, b: Delivery, c: Delivery)
    requires a.eventId != b.eventId && b.eventId != c.eventId
    ensures FirstDelivery(Numbered(a, b, c), b.eventId) == Some(b.(rowId := 1))
  {
    var ds := Numbered(a, b, c);
    assert ds[..2][..1] == ds[..1] && ds[..1][..0] == [] && ds[..2] == ds[..|ds| - 1];
    assert FirstDelivery(ds[..1], b.eventId) == None;
    assert FirstDelivery(ds[..2], b.eventId) == Some(ds[1]);
  }

  /**
   * Whichever transfer is delivered first decides the wallet of the event in between, so the two orders
   * leave different tables.
   */
  lemma TransferOrderMatters(src: Source, t1: Delivery, t2: Delivery, v: Delivery, token: string)
    requires Contested(src, t1, t2, v, token)
    ensures var ds1, ds2 := Numbered(t1, v, t2), Numbered(t2, v, t1);
            && Handling(src, ds1) && Handling(src, ds2) && SameEvents(ds1, ds2)
            && !Permutation(EventsOf(RowsAfter(src, ds1)), EventsOf(RowsAfter(src, ds2)))
  {
    var ds1, ds2 := Numbered(t1, v, t2), Numbered(t2, v, t1);
    assert LookupOf(src, t1.eventId).None? && LookupOf(src, t2.eventId).None?;
    FirstOfThree(src, t1, v, t2, token);
    FirstOfThree(src, t2, v, t1, token);
    SecondOfThree(t1, v, t2);
    SecondOfThree(t2, v, t1);
    ThreeMentioned(t1, v, t2);
    ThreeMentioned(t2, v, t1);
    assert !AnswersAgreeOn(src, ds1, ds2, v.eventId);
    RedeliveryKeepsTable(src, ds1, ds2);
  }

  lemma ThreeMentioned(a: Delivery, b: Delivery, c: Delivery)
    ensures forall id :: Mentions(Numbered(a, b, c), id) <==> id == a.eventId || id == b.eventId || id == c.eventId
  {
    var ds := Numbered(a, b, c);
    assert ds[0] in ds && ds[1] in ds && ds[2] in ds;
  }

  // ----- The counter adds on every delivery

  /** The counters after a list of deliveries. */
  function CountersAfter(src: Source, parse: string -> Option<u256>, ds: seq<Delivery>): map<CounterKey, u64> {
    if ds == [] then map[]
    else
      var before := ds[..|ds| - 1];
      Counted(src, parse, RowsAfter(src, before), CountersAfter(src, parse, before), ds[|ds| - 1])
  }

  function CounterAt(counters: map<CounterKey, u64>, key: CounterKey): u64 {
    if key in counters then counters[key] else 0
  }

  function CounterKeyOf(d: Delivery): CounterKey {
    (Lookup(d.metadata, "project_name"), d.Slot())
  }

  /** The value a delivery of a funding event carries; 0 for other events and unreadable values. */
  function FundedValue(src: Source, parse: string -> Option<u256>, d: Delivery): u256 {
    match KindOf(src, d.eventId)
    case None => 0
    case Some(k) =>
      if !Funds(k) then 0
      else
        match parse(Lookup(DataOf(k, src.stored[d.eventId]), "value"))
        case None => 0
        case Some(value) => value
  }

  function Adds(src: Source, parse: string -> Option<u256>, key: CounterKey): Delivery -> nat {
    (d: Delivery) => if CounterKeyOf(d) == key then FundedValue(src, parse, d) else 0
  }

  /** Addition on 64 bits. */
  function LowSum(counter: u64, value: nat): u64 {
    (counter + value) % TWO_64
  }

  lemma BumpedLow(counters: map<CounterKey, u64>, e: DomainEvent, value: u256, key: CounterKey)
    ensures CounterAt(Bumped(counters, e, value), key) ==
            if key == KeyOf(e) then LowSum(CounterAt(counters, key), value) else CounterAt(counters, key)
  {
    LowOfWrapped(CounterAt(counters, key) + value);
  }

  lemma LowOfWrapped(n: nat)
    ensures Wrap(n) % TWO_64 == n % TWO_64
  {
    assert TWO_256 % TWO_64 == 0;
  }

  lemma LowSumOfNothing(counter: u64, value: nat)
    ensures LowSum(counter, value) == counter <==> value % TWO_64 == 0
  {
  }

  lemma LowSumOfSum(sum: nat, value: nat)
    ensures LowSum(sum % TWO_64, value) == (sum + value) % TWO_64
  {
  }

  lemma RowCarriesValue(src: Source, parse: string -> Option<u256>, rows: seq<Row>, d: Delivery)
    ensures match EventFor(src, rows, d)
            case None => FundedValue(src, parse, d) == 0
            case Some(e) =>
              && KeyOf(e) == CounterKeyOf(d)
              && FundedValue(src, parse, d) ==
                 match parse(Lookup(e.data, "value"))
                 case None => 0
                 case Some(value) => if e.IsFunding() then value else 0
  {
    if KindOf(src, d.eventId).Some? {
      KindNames(KindOf(src, d.eventId).value);
    }
  }

  lemma CountedAdds(src: Source, parse: string -> Option<u256>, rows: seq<Row>, counters: map<CounterKey, u64>,
                    d: Delivery, key: CounterKey)
    ensures CounterAt(Counted(src, parse, rows, counters, d), key) ==
            LowSum(CounterAt(counters, key), Adds(src, parse, key)(d))
  {
    LowSumOfNothing(CounterAt(counters, key), 0);
    RowCarriesValue(src, parse, rows, d);
    var e := EventFor(src, rows, d);
    if e.Some? && parse(Lookup(e.value.data, "value")).Some? {
      BumpedLow(counters, e.value, parse(Lookup(e.value.data, "value")).value, key);
    }
  }

  lemma OneMoreCounted(src: Source, parse: string -> Option<u256>, ds: seq<Delivery>, d: Delivery, key: CounterKey)
    ensures CounterAt(CountersAfter(src, parse, ds + [d]), key) ==
            LowSum(CounterAt(CountersAfter(src, parse, ds), key), Adds(src, parse, key)(d))
  {
    var more := ds + [d];
    assert more[..|more| - 1] == ds && more[|more| - 1] == d;
    CountedAdds(src, parse, RowsAfter(src, ds), CountersAfter(src, parse, ds), d, key);
  }

  /** What adds the same on every step adds up to the sum. */
  lemma {:induction false} StepsAddUp<D(!new)>(count: seq<D> -> u64, adds: D -> nat, ds: seq<D>)
    requires count([]) == 0 && forall before, d :: count(before + [d]) == LowSum(count(before), adds(d))
    ensures count(ds) == SumBy(adds, ds) % TWO_64
  {
    if ds != [] {
      var before, d := ds[..|ds| - 1], ds[|ds| - 1];
      StepsAddUp(count, adds, before);
      assert ds == before + [d];
      LowSumOfSum(SumBy(adds, before), adds(d));
    }
  }

  function CountOf(src: Source, parse: string -> Option<u256>, key: CounterKey): seq<Delivery> -> u64 {
    (ds: seq<Delivery>) => CounterAt(CountersAfter(src, parse, ds), key)
  }

  /**
   * A counter is the sum of the values of all deliveries of its funding events, repeated ones included,
   * in its low 64 bits.
   */
  lemma CounterIsSum(src: Source, parse: string -> Option<u256>, ds: seq<Delivery>, key: CounterKey)
    ensures CounterAt(CountersAfter(src, parse, ds), key) == SumBy(Adds(src, parse, key), ds) % TWO_64
  {
    var count, adds := CountOf(src, parse, key), Adds(src, parse, key);
    forall before: seq<Delivery>, d: Delivery
      ensures count(before + [d]) == LowSum(count(before), adds(d))
    {
      OneMoreCounted(src, parse, before, d, key);
    }
    StepsAddUp(count, adds, ds);
  }

  /** So the order of deliveries does not matter to the counters. */
  lemma CountersIgnoreOrder(src: Source, parse: string -> Option<u256>, ds1: seq<Delivery>, ds2: seq<Delivery>, key: CounterKey)
    requires Permutation(ds1, ds2)
    ensures CounterAt(CountersAfter(src, parse, ds1), key) == CounterAt(CountersAfter(src, parse, ds2), key)
  {
    CounterIsSum(src, parse, ds1, key);
    CounterIsSum(src, parse, ds2, key);
    SumPermutation(Adds(src, parse, key), ds1, ds2);
  }

  /**
   * But repeating one does: a second delivery leaves the table as it is and moves the counter of its
   * funding event, unless the value vanishes in 64 bits.
   */
  lemma CounterIsNotIdempotent(src: Source, parse: string -> Option<u256>, ds: seq<Delivery>, d: Delivery)
    requires Handling(src, ds) && Mentions(ds, d.eventId)
    ensures RowsAfter(src, ds + [d]) == RowsAfter(src, ds)
    ensures var key := CounterKeyOf(d);
            CounterAt(CountersAfter(src, parse, ds + [d]), key) == CounterAt(CountersAfter(src, parse, ds), key) <==>
            FundedValue(src, parse, d) % TWO_64 == 0
  {
    MentionedFirst(ds, d.eventId);
    DuplicatesAreIgnored(src, ds, d);
    CounterMoves(src, parse, ds, d);
  }

  lemma CounterMoves(src: Source, parse: string -> Option<u256>, ds: seq<Delivery>, d: Delivery)
    ensures var key := CounterKeyOf(d);
            CounterAt(CountersAfter(src, parse, ds + [d]), key) == CounterAt(CountersAfter(src, parse, ds), key) <==>
            FundedValue(src, parse, d) % TWO_64 == 0
  {
    var key := CounterKeyOf(d);
    OneMoreCounted(src, parse, ds, d, key);
    LowSumOfNothing(CounterAt(CountersAfter(src, parse, ds), key), FundedValue(src, parse, d));
  }
}
