/** From blocks to scores: crashes, restarts and redelivery leave no trace in what a wallet is worth. */
module Pipeline {
  import opened Wrappers
  import opened U256
  import opened Sequences
  import opened Events
  import opened Chain
  import opened IndexPlan
  import opened Deployments
  import opened CatchingUp
  import opened Bonuses
  import T = DomainEventTable
  import R = Redelivery
  import A = Aggregation
  import BL = BoostLaws
  import Ties

  // ----- What a deployment has published

  function AllPublished(w: Whole): set<EventId> {
    set a, id | a in w.published && id in w.published[a] :: id
  }

  /** The events a subscriber finds in storage for the messages published by all indexers. */
  function StoredEvents(w: Whole): map<EventId, StarknetEvent> {
    map id | id in AllPublished(w) && EventKey(id) in w.disk && w.disk[EventKey(id)].EventValue? ::
      w.disk[EventKey(id)].event
  }

  /** A run that ends where every indexer has indexed all blocks below the height and published nothing beyond. */
  ghost predicate RunCaughtUp(d: Deployment, run: seq<Whole>, n: nat) {
    WellFormed(d) && IsRun(d, run) && CaughtUp(d, Final(run), n)
  }

  /** The event is the stamped match of some contract in some block below the height. */
  ghost predicate ChainEvent(d: Deployment, n: nat, id: EventId, e: StarknetEvent) {
    exists a: string, m: nat, r: nat, i: nat :: a in d.addresses && m < n && StampedIn(ConfigOf(d, a), m, r, i, id, e)
  }

  ghost predicate StampedIn(c: IM.Config, m: nat, r: nat, i: nat, id: EventId, e: StarknetEvent) {
    && c.startBlock <= m && MatchingEvent(c.address, c.chain(m), r, i)
    && id == EventId(c.chain(m).receipts[r].transactionHash, i)
    && var found := c.chain(m).receipts[r].events[i];
       e == StarknetEvent(c.chain(m).timestamp * 1_000_000_000, id, found.fromAddress, found.keys, found.data)
  }

  /** One indexer: what it published is stored, and is a matching event of a block below the height. */
  lemma OnePublished(c: IM.Config, own: seq<IM.State>, n: nat, id: EventId) returns (m: nat, e: StarknetEvent)
    requires IM.WellFormedChain(c) && IM.IsRun(c, own) && id in own[|own| - 1].world.published && IP.FromBelow(c, n, id)
    ensures var disk := own[|own| - 1].world.disk; EventKey(id) in disk && disk[EventKey(id)] == EventValue(e)
    ensures m < n && exists r: nat, i: nat :: StampedIn(c, m, r, i, id, e)
  {
    var disk := own[|own| - 1].world.disk;
    IT.NothingElseIsStored(c, own, EventKey(id), id);
    var v := disk[EventKey(id)];
    assert IT.AccountedEvent(c, id, v);
    var k: nat, r: nat, i: nat :| c.startBlock <= k && MatchingEvent(c.address, c.chain(k), r, i) &&
      id == EventId(c.chain(k).receipts[r].transactionHash, i) &&
      var found := c.chain(k).receipts[r].events[i];
      v == EventValue(StarknetEvent(c.chain(k).timestamp * 1_000_000_000, id, found.fromAddress, found.keys, found.data));
    var k': nat, r': nat, i': nat :| k' < n && MatchingEvent(c.address, c.chain(k'), r', i') && IdAt(c.chain(k'), r', i') == id;
    assert IM.SameReceiptHash(c, k, r, k', r');
    m, e := k, v.event;
    assert StampedIn(c, m, r, i, id, e);
  }

  /** One indexer: a matching event of a fully indexed block is stored and published. */
  lemma OneStored(c: IM.Config, w: World, m: nat, r: nat, i: nat, id: EventId, e: StarknetEvent)
    requires IT.FullyIndexed(c, w, m) && StampedIn(c, m, r, i, id, e)
    ensures id in w.published && EventKey(id) in w.disk && w.disk[EventKey(id)] == EventValue(e)
  {
    assert IT.EventStored(c, w, m, r, i);
  }

  /** What has been published can be read back, and is a matching event of the chain below the height. */
  lemma PublishedIsChainEvent(d: Deployment, run: seq<Whole>, n: nat, id: EventId)
    requires RunCaughtUp(d, run, n) && id in AllPublished(Final(run))
    ensures id in StoredEvents(Final(run)) && ChainEvent(d, n, id, StoredEvents(Final(run))[id])
  {
    RunCovers(d, run);
    var a :| a in Final(run).published && id in Final(run).published[a];
    var own := Project(d, run, a);
    assert IP.PublishedBelow(ConfigOf(d, a), WorldOf(Final(run), a), n);
    var m, e := OnePublished(ConfigOf(d, a), own, n, id);
    var r: nat, i: nat :| StampedIn(ConfigOf(d, a), m, r, i, id, e);
    assert StoredEvents(Final(run))[id] == e;
  }

  /**
   * Every matching event below a height all indexers have reached was published and can be read back,
   * whatever else they did.
   */
  lemma ChainEventIsPublished(d: Deployment, run: seq<Whole>, n: nat, id: EventId, e: StarknetEvent)
    requires WellFormed(d) && IsRun(d, run) && Reached(d, Final(run), n) && ChainEvent(d, n, id, e)
    ensures id in StoredEvents(Final(run)) && StoredEvents(Final(run))[id] == e
  {
    RunCovers(d, run);
    var a: string, m: nat, r: nat, i: nat :| a in d.addresses && m < n && StampedIn(ConfigOf(d, a), m, r, i, id, e);
    OneStored(ConfigOf(d, a), WorldOf(Final(run), a), m, r, i, id, e);
    assert id in AllPublished(Final(run));
  }

  lemma PublishedInBoth(d: Deployment, run1: seq<Whole>, run2: seq<Whole>, n: nat, id: EventId)
    requires RunCaughtUp(d, run1, n) && RunCaughtUp(d, run2, n) && id in AllPublished(Final(run1))
    ensures id in StoredEvents(Final(run1)) && id in StoredEvents(Final(run2))
    ensures StoredEvents(Final(run1))[id] == StoredEvents(Final(run2))[id]
  {
    PublishedIsChainEvent(d, run1, n, id);
    ChainEventIsPublished(d, run2, n, id, StoredEvents(Final(run1))[id]);
  }

  /** All that the one has published, the other has stored with the same content. */
  ghost predicate Includes(w1: Whole, w2: Whole) {
    forall id <- AllPublished(w1) ::
      id in StoredEvents(w1) && id in StoredEvents(w2) && StoredEvents(w1)[id] == StoredEvents(w2)[id]
  }

  lemma HistoryIncluded(d: Deployment, run1: seq<Whole>, run2: seq<Whole>, n: nat)
    requires RunCaughtUp(d, run1, n) && RunCaughtUp(d, run2, n)
    ensures Includes(Final(run1), Final(run2))
  {
    forall id | id in AllPublished(Final(run1))
      ensures id in StoredEvents(Final(run1)) && id in StoredEvents(Final(run2))
      ensures StoredEvents(Final(run1))[id] == StoredEvents(Final(run2))[id]
    {
      PublishedInBoth(d, run1, run2, n, id);
    }
  }

  lemma IncludedBothWays(w1: Whole, w2: Whole)
    requires Includes(w1, w2) && Includes(w2, w1)
    ensures StoredEvents(w1) == StoredEvents(w2) && AllPublished(w1) == AllPublished(w2)
  {
    assert StoredEvents(w1).Keys == AllPublished(w1) && StoredEvents(w2).Keys == AllPublished(w2);
  }

  /**
   * Two crash histories that have caught up with the same height have published the same events, with
   * the same contents.
   */
  lemma CrashHistoriesAgree(d: Deployment, run1: seq<Whole>, run2: seq<Whole>, n: nat)
    requires RunCaughtUp(d, run1, n) && RunCaughtUp(d, run2, n)
    ensures StoredEvents(Final(run1)) == StoredEvents(Final(run2))
    ensures AllPublished(Final(run1)) == AllPublished(Final(run2))
  {
    HistoryIncluded(d, run1, run2, n);
    HistoryIncluded(d, run2, run1, n);
    IncludedBothWays(Final(run1), Final(run2));
  }

  function SourceOf(w: Whole, subject: StarknetEvent -> Option<T.Kind>): T.Source {
    T.Source(StoredEvents(w), subject)
  }

  lemma SourceIsFaithful(d: Deployment, run: seq<Whole>, n: nat, subject: StarknetEvent -> Option<T.Kind>)
    requires RunCaughtUp(d, run, n)
    ensures SourceOf(Final(run), subject).Faithful()
  {
    forall id | id in StoredEvents(Final(run))
      ensures StoredEvents(Final(run))[id].eventId == id
    {
      PublishedIsChainEvent(d, run, n, id);
    }
  }

  /** The messages delivered are the messages published, with any duplicates and in any order. */
  ghost predicate DeliversAll(w: Whole, ds: seq<T.Delivery>) {
    forall id :: R.Mentions(ds, id) <==> id in AllPublished(w)
  }

  /** Deliveries as they occur: transfers in time order, handlers in the order they finish. */
  ghost predicate InOrder(src: T.Source, ds: seq<T.Delivery>) {
    R.Ascending(src, ds) && R.Finished(src, ds)
  }

  /** The domain events that these deliveries leave in the table. */
  function Table(w: Whole, subject: StarknetEvent -> Option<T.Kind>, ds: seq<T.Delivery>): seq<DomainEvent> {
    R.EventsOf(T.RowsAfter(SourceOf(w, subject), ds))
  }

  /**
   * End to end, for all contracts of a deployment at once: two runs of its indexers over one chain,
   * whatever their interleavings and crashes, and two deliveries of what they published, whatever
   * the duplicates and the order, show a settled wallet the same, if the deliveries' answers agree.
   */
  lemma CrashesAndRedeliveryKeepScores(
    d: Deployment, run1: seq<Whole>, run2: seq<Whole>, n: nat,
    subject: StarknetEvent -> Option<T.Kind>, parse: A.Parser,
    ds1: seq<T.Delivery>, ds2: seq<T.Delivery>, wallet: string, log1: seq<DomainEvent>, log2: seq<DomainEvent>)
    requires RunCaughtUp(d, run1, n) && RunCaughtUp(d, run2, n)
    requires DeliversAll(Final(run1), ds1) && DeliversAll(Final(run2), ds2)
    requires InOrder(SourceOf(Final(run1), subject), ds1) && InOrder(SourceOf(Final(run2), subject), ds2)
    requires R.AnswersAgree(SourceOf(Final(run1), subject), ds1, ds2)
    requires A.WalletLog(Table(Final(run1), subject, ds1), wallet, log1)
    requires A.WalletLog(Table(Final(run2), subject, ds2), wallet, log2)
    requires A.OrderSettled(A.EnvOf(parse, Table(Final(run1), subject, ds1)),
                            Filter(A.InWallet(wallet), Table(Final(run1), subject, ds1)))
    ensures Ties.Shown(A.EnvOf(parse, Table(Final(run1), subject, ds1)), log1) ==
            Ties.Shown(A.EnvOf(parse, Table(Final(run2), subject, ds2)), log2)
  {
    CrashHistoriesAgree(d, run1, run2, n);
    SourceIsFaithful(d, run1, n, subject);
    A.RedeliveryKeepsScores(SourceOf(Final(run1), subject), parse, ds1, ds2, wallet, log1, log2);
  }

  // ----- What a delivered event is worth

  /** From the fields of a mint event to points: the second data field, boosted, for the wallet in the first. */
  lemma MintIsWorth(src: T.Source, rows: seq<T.Row>, d: T.Delivery, env: Env, value: u256)
    requires T.KindOf(src, d.eventId) == Some(T.MinterBuy) || T.KindOf(src, d.eventId) == Some(T.MinterAirdrop)
    requires env.parse(src.stored[d.eventId].data[1]) == Some(value)
    ensures T.EventFor(src, rows, d).Some?
    ensures var e := T.EventFor(src, rows, d).value;
            && e.IsFunding() && e.IsMint() && Readable(env, e)
            && FundingScore(env, e).points == BL.BoostedPoints(env, e, value)
            && (BL.Fits(value) && !BL.OfKarathuru(d.metadata) ==>
                  FundingScore(env, e).points == value * BL.PurchaseTier(value) / 100)
            && (BL.Fits(value) && BL.OfKarathuru(d.metadata) ==>
                  var raised := value * BL.MilestoneTier(env.minterValue("Karathuru", e.recordedAt)) / 100;
                  FundingScore(env, e).points == raised * BL.PurchaseTier(raised) / 100)
            && e.walletAddress == src.stored[d.eventId].data[0] && e.recordedAt == src.stored[d.eventId].recordedAt
  {
    T.KindNames(T.KindOf(src, d.eventId).value);
    assert Lookup(T.EventFor(src, rows, d).value.data, "value") == src.stored[d.eventId].data[1] by {
      assert |"address"| == 7 && |"to"| == 2 && |"value"| == 5 && |"time"| == 4;
    }
    MintTiers(env, T.EventFor(src, rows, d).value, value);
  }

  lemma MintTiers(env: Env, e: DomainEvent, value: u256)
    requires e.IsMint()
    ensures BL.Fits(value) && !BL.OfKarathuru(e.metadata) ==>
              BL.BoostedPoints(env, e, value) == value * BL.PurchaseTier(value) / 100
    ensures BL.Fits(value) && BL.OfKarathuru(e.metadata) ==>
              var raised := value * BL.MilestoneTier(env.minterValue("Karathuru", e.recordedAt)) / 100;
              BL.BoostedPoints(env, e, value) == raised * BL.PurchaseTier(raised) / 100
  {
    if BL.Fits(value) && BL.OfKarathuru(e.metadata) {
      BL.KarathuruMintIsBoosted(env, e, value);
    } else if BL.Fits(value) {
      BL.PlainMintIsBoosted(env, e, value);
    }
  }

  /** A yield claim is worth its second data field, an offset claim a hundred times that, never boosted. */
  lemma ClaimIsWorth(src: T.Source, rows: seq<T.Row>, d: T.Delivery, env: Env, amount: u256)
    requires T.KindOf(src, d.eventId) == Some(T.YielderClaim) || T.KindOf(src, d.eventId) == Some(T.OffseterClaim)
    requires env.parse(src.stored[d.eventId].data[1]) == Some(amount)
    ensures T.EventFor(src, rows, d).Some? && !T.EventFor(src, rows, d).value.IsFunding()
    ensures ClaimScore(env, T.EventFor(src, rows, d).value).Some?
    ensures var s := ClaimScore(env, T.EventFor(src, rows, d).value).value;
            && s.boosts == []
            && (T.KindOf(src, d.eventId) == Some(T.YielderClaim) ==> s.rule == Resaler && s.points == amount)
            && (T.KindOf(src, d.eventId) == Some(T.OffseterClaim) ==> s.rule == Offseter && s.points == Wrap(100 * amount))
  {
    T.KindNames(T.KindOf(src, d.eventId).value);
    assert Lookup(T.EventFor(src, rows, d).value.data, "amount") == src.stored[d.eventId].data[1] by {
      assert |"address"| == 7 && |"amount"| == 6 && |"time"| == 4;
    }
  }

  /**
   * Transfers, slot changes, deposits and withdrawals carry neither funds nor claims; they count by
   * their project alone.
   */
  lemma OtherEventsCountByProject(src: T.Source, rows: seq<T.Row>, d: T.Delivery, env: Env)
    requires T.EventFor(src, rows, d).Some?
    requires var k := T.KindOf(src, d.eventId).value; !T.Funds(k) && !k.YielderClaim? && !k.OffseterClaim?
    ensures var e := T.EventFor(src, rows, d).value;
            !e.IsFunding() && ClaimScore(env, e).None? && e.metadata == d.metadata
  {
    T.KindNames(T.KindOf(src, d.eventId).value);
  }
}
