/** Reading the table back: minter values and wallet logs (internal/leaderboard/aggregator.go). */
module Aggregation {
  import opened Wrappers
  import opened U256
  import opened Sequences
  import opened Events
  import opened Boosts
  import opened BoostLaws
  import opened Scoring
  import opened Game
  import opened Ties
  import opened DomainEventTable
  import opened Redelivery

  type Parser = string -> Option<u256>

  /** The rows the query keeps: mints of the project recorded at or before the time. */
  predicate IsSelected(name: string, t: Time, e: DomainEvent) {
    e.IsMint() && e.ProjectName() == Some(name) && e.recordedAt <= t
  }

  function Selected(name: string, t: Time): DomainEvent -> bool {
    (e: DomainEvent) => IsSelected(name, t, e)
  }

  function ValueOf(parse: Parser, e: DomainEvent): nat {
    match parse(Lookup(e.data, "value"))
    case None => 0
    case Some(v) => v
  }

  /** What a row adds to the minter value: its own value if the query keeps it. */
  function Worth(parse: Parser, name: string, t: Time): DomainEvent -> nat {
    (e: DomainEvent) => if IsSelected(name, t, e) then ValueOf(parse, e) else 0
  }

  predicate Parses(parse: Parser, e: DomainEvent) {
    parse(Lookup(e.data, "value")).Some?
  }

  ghost predicate AllParse(parse: Parser, table: seq<DomainEvent>, name: string, t: Time) {
    forall e <- table :: IsSelected(name, t, e) ==> Parses(parse, e)
  }

  /** The exact sum of what a project has collected up to a time, in token units. */
  function CollectedUnits(parse: Parser, table: seq<DomainEvent>, name: string, t: Time): nat {
    SumBy(Worth(parse, name, t), table)
  }

  /** The value a project has collected up to a time, in whole dollars. */
  function CollectedValue(parse: Parser, table: seq<DomainEvent>, name: string, t: Time): u256 {
    Div(Wrap(CollectedUnits(parse, table, name, t)), MILLION)
  }

  /**
   * One more row adds its value exactly when it is a mint of the project recorded by then; the rows
   * before it count as before.
   */
  lemma OneMoreRow(parse: Parser, table: seq<DomainEvent>, e: DomainEvent, name: string, t: Time)
    ensures var counts := && (e.eventName == "minter:buy" || e.eventName == "minter:airdrop")
                          && "project_name" in e.metadata && e.metadata["project_name"] == name && e.recordedAt <= t;
            var value := parse(if "value" in e.data then e.data["value"] else "");
            && CollectedUnits(parse, table + [e], name, t) ==
               CollectedUnits(parse, table, name, t) + (if counts && value.Some? then value.value else 0)
            && (AllParse(parse, table + [e], name, t) <==> AllParse(parse, table, name, t) && (counts ==> value.Some?))
  {
    SumSnoc(Worth(parse, name, t), table, e);
    assert e in table + [e] && forall x <- table :: x in table + [e];
  }

  /** An empty table is worth nothing, and what is collected is counted in dollars, on 256 bits. */
  lemma NoRows(parse: Parser, table: seq<DomainEvent>, name: string, t: Time)
    ensures CollectedUnits(parse, [], name, t) == 0 && AllParse(parse, [], name, t)
    ensures CollectedValue(parse, table, name, t) == CollectedUnits(parse, table, name, t) % TWO_256 / 1_000_000
  {
  }

  function RawValue(parse: Parser): DomainEvent -> nat {
    (e: DomainEvent) => ValueOf(parse, e)
  }

  lemma {:induction false} SelectedSum(parse: Parser, table: seq<DomainEvent>, name: string, t: Time)
    ensures SumBy(RawValue(parse), Filter(Selected(name, t), table)) == SumBy(Worth(parse, name, t), table)
  {
    if table != [] {
      var n := |table| - 1;
      SelectedSum(parse, table[..n], name, t);
      var rest := Filter(Selected(name, t), table[..n]);
      assert (rest + [table[n]])[..|rest|] == rest;
    }
  }

  lemma WrapStep(sum: nat, value: u256)
    ensures Add(value, Wrap(sum)) == Wrap(sum + value)
  {
  }

  /** The loop over the query's rows, in whatever order they come; None is the panic on an unreadable value. */
  method GetMinterCurrentValue(parse: Parser, rows: seq<DomainEvent>, ghost table: seq<DomainEvent>,
                               ghost name: string, ghost t: Time)
    returns (value: Option<u256>)
    requires Permutation(rows, Filter(Selected(name, t), table))
    ensures value.Some? <==> AllParse(parse, table, name, t)
    ensures value.Some? ==> value.value == CollectedValue(parse, table, name, t)
    ensures value == if AllParse(parse, table, name, t) then EnvOf(parse, table).minterValue(name, t) else None
  {
    RowsParse(parse, rows, table, name, t);
    var sum := SumValues(parse, rows);
    if sum.None? {
      return None;
    }
    SumPermutation(RawValue(parse), rows, Filter(Selected(name, t), table));
    SelectedSum(parse, table, name, t);
    return Some(Div(sum.value, MILLION));
  }

  method SumValues(parse: Parser, rows: seq<DomainEvent>) returns (sum: Option<u256>)
    ensures sum.Some? <==> forall j :: 0 <= j < |rows| ==> Parses(parse, rows[j])
    ensures sum.Some? ==> sum.value == Wrap(SumBy(RawValue(parse), rows))
  {
    var total: u256 := 0;
    for i := 0 to |rows|
      invariant forall j :: 0 <= j < i ==> Parses(parse, rows[j])
      invariant total == Wrap(SumBy(RawValue(parse), rows[..i]))
    {
      var line := parse(Lookup(rows[i].data, "value"));
      if line.None? {
        return None;
      }
      SumTake(RawValue(parse), rows, i, total, line.value);
      total := Add(line.value, total);
    }
    assert rows[..|rows|] == rows;
    return Some(total);
  }

  lemma SumTake(f: DomainEvent -> nat, rows: seq<DomainEvent>, i: nat, total: u256, value: u256)
    requires i < |rows| && f(rows[i]) == value && total == Wrap(SumBy(f, rows[..i]))
    ensures Add(value, total) == Wrap(SumBy(f, rows[..i + 1]))
  {
    assert rows[..i + 1][..i] == rows[..i];
    WrapStep(SumBy(f, rows[..i]), value);
  }

  lemma RowsParse(parse: Parser, rows: seq<DomainEvent>, table: seq<DomainEvent>, name: string, t: Time)
    requires Permutation(rows, Filter(Selected(name, t), table))
    ensures AllParse(parse, table, name, t) <==> forall j :: 0 <= j < |rows| ==> Parses(parse, rows[j])
  {
    forall e: DomainEvent
      ensures e in rows <==> e in table && IsSelected(name, t, e)
    {
      PermutationMember(rows, Filter(Selected(name, t), table), e);
      FilterMember(Selected(name, t), table, e);
    }
    assert forall j :: 0 <= j < |rows| ==> rows[j] in rows;
  }

  // ----- The value only grows, so the coefficient only falls

  lemma WorthGrows(parse: Parser, table: seq<DomainEvent>, name: string, t1: Time, t2: Time)
    requires t1 <= t2
    ensures SumBy(Worth(parse, name, t1), table) <= SumBy(Worth(parse, name, t2), table)
  {
    forall e: DomainEvent
      ensures Worth(parse, name, t1)(e) <= Worth(parse, name, t2)(e)
    {
      assert IsSelected(name, t1, e) ==> IsSelected(name, t2, e);
    }
    SumMonotone(Worth(parse, name, t1), Worth(parse, name, t2), table);
  }

  lemma DollarsGrow(a: nat, b: nat)
    requires a <= b < TWO_256
    ensures Div(Wrap(a), MILLION) <= Div(Wrap(b), MILLION)
  {
  }

  /** Over a fixed table a later time never shows a smaller value, nor earns a better coefficient. */
  lemma CoefficientNeverRises(parse: Parser, table: seq<DomainEvent>, name: string, t1: Time, t2: Time)
    requires t1 <= t2 && CollectedUnits(parse, table, name, t2) < TWO_256
    ensures var v1, v2 := CollectedValue(parse, table, name, t1), CollectedValue(parse, table, name, t2);
            && v1 <= v2
            && Par(MilestoneCoefficient(KARATHURU_STEPS, v2)) <= Par(MilestoneCoefficient(KARATHURU_STEPS, v1))
  {
    WorthGrows(parse, table, name, t1, t2);
    DollarsGrow(SumBy(Worth(parse, name, t1), table), SumBy(Worth(parse, name, t2), table));
    TablesAreTiered();
    MilestoneNeverRises(KARATHURU_STEPS, CollectedValue(parse, table, name, t1), CollectedValue(parse, table, name, t2));
  }

  // ----- From deliveries to scores

  /** The outside world of the scoring engine, answered from the table. */
  function EnvOf(parse: Parser, table: seq<DomainEvent>): Env {
    Env(parse, (name, t) => Some(CollectedValue(parse, table, name, t)))
  }

  /** Over a fixed table, of two Karathuru mints of one value the later never earns more points. */
  lemma LaterMintsEarnNoMore(parse: Parser, table: seq<DomainEvent>, early: DomainEvent, late: DomainEvent, value: u256)
    requires Fits(value) && early.recordedAt <= late.recordedAt
    requires IsMintName(early.eventName) && OfKarathuru(early.metadata) && IsMintName(late.eventName) && OfKarathuru(late.metadata)
    requires CollectedUnits(parse, table, "Karathuru", late.recordedAt) < TWO_256
    ensures BoostedPoints(EnvOf(parse, table), late, value) <= BoostedPoints(EnvOf(parse, table), early, value)
  {
    var env := EnvOf(parse, table);
    KarathuruMintIsBoosted(env, early, value);
    KarathuruMintIsBoosted(env, late, value);
    CoefficientNeverRises(parse, table, "Karathuru", early.recordedAt, late.recordedAt);
    var t1, t2 := MilestoneTier(env.minterValue("Karathuru", early.recordedAt)), MilestoneTier(env.minterValue("Karathuru", late.recordedAt));
    ScaledMonotone(value, value, t2, t1);
    ScaledMonotone(Scaled(value, t2), Scaled(value, t1), PurchaseTier(Scaled(value, t2)), PurchaseTier(Scaled(value, t1)));
  }

  lemma PermutedTablesAlike(parse: Parser, a: seq<DomainEvent>, b: seq<DomainEvent>)
    requires Permutation(a, b)
    ensures Alike(EnvOf(parse, a), EnvOf(parse, b))
  {
    forall name: string, t: Time
      ensures CollectedValue(parse, a, name, t) == CollectedValue(parse, b, name, t)
    {
      SumPermutation(Worth(parse, name, t), a, b);
    }
  }

  function InWallet(wallet: string): DomainEvent -> bool {
    (e: DomainEvent) => e.walletAddress == wallet
  }

  function IsMintEvent(): DomainEvent -> bool {
    (e: DomainEvent) => e.IsMint()
  }

  predicate MakesMint(src: Source, id: EventId) {
    KindOf(src, id) == Some(MinterBuy) || KindOf(src, id) == Some(MinterAirdrop)
  }

  lemma MintRows(src: Source, ds: seq<Delivery>, e: DomainEvent)
    requires Handling(src, ds)
    ensures e in Filter(IsMintEvent(), EventsOf(RowsAfter(src, ds))) <==>
            MakesMint(src, e.eventId) && Expected(src, ds, e.eventId) == Some(e)
  {
    FilterMember(IsMintEvent(), EventsOf(RowsAfter(src, ds)), e);
    EventInTable(src, ds, e);
    ExpectedExists(src, ds, e.eventId);
    if KindOf(src, e.eventId).Some? {
      KindNames(KindOf(src, e.eventId).value);
    }
  }

  /** Minter values need only the metadata of mints to agree; who owns which token does not touch them. */
  lemma RedeliveryKeepsValues(src: Source, parse: Parser, ds1: seq<Delivery>, ds2: seq<Delivery>, name: string, t: Time)
    requires Handling(src, ds1) && Handling(src, ds2) && SameEvents(ds1, ds2)
    requires forall id :: MakesMint(src, id) ==> AnswersAgreeOn(src, ds1, ds2, id)
    ensures CollectedValue(parse, EventsOf(RowsAfter(src, ds1)), name, t) ==
            CollectedValue(parse, EventsOf(RowsAfter(src, ds2)), name, t)
  {
    var a, b := EventsOf(RowsAfter(src, ds1)), EventsOf(RowsAfter(src, ds2));
    var mints1, mints2 := Filter(IsMintEvent(), a), Filter(IsMintEvent(), b);
    forall e: DomainEvent
      ensures e in mints1 <==> e in mints2
    {
      MintRows(src, ds1, e);
      MintRows(src, ds2, e);
      ExpectedExists(src, ds1, e.eventId);
      ExpectedExists(src, ds2, e.eventId);
      if MakesMint(src, e.eventId) && Mentions(ds1, e.eventId) {
        AgreeingRows(src, ds1, ds2, e.eventId);
      }
    }
    TableIsDistinct(src, ds1);
    TableIsDistinct(src, ds2);
    FilterDistinct(IsMintEvent(), a);
    FilterDistinct(IsMintEvent(), b);
    DistinctPermutation(mints1, mints2);
    var worth := Worth(parse, name, t);
    SumPermutation(worth, mints1, mints2);
    SumFilter(worth, IsMintEvent(), a);
    SumFilter(worth, IsMintEvent(), b);
  }

  ghost predicate SameWallets(a: seq<DomainEvent>, b: seq<DomainEvent>) {
    forall wallet :: Permutation(Filter(InWallet(wallet), a), Filter(InWallet(wallet), b))
  }

  lemma SameWalletsSameTable(a: seq<DomainEvent>, b: seq<DomainEvent>)
    ensures SameWallets(a, b) <==> Permutation(a, b)
  {
    if SameWallets(a, b) {
      forall e: DomainEvent
        ensures multiset(a)[e] == multiset(b)[e]
      {
        assert Permutation(Filter(InWallet(e.walletAddress), a), Filter(InWallet(e.walletAddress), b));
        FilterCount(InWallet(e.walletAddress), a, e);
        FilterCount(InWallet(e.walletAddress), b, e);
      }
    }
    if Permutation(a, b) {
      forall wallet: string
        ensures Permutation(Filter(InWallet(wallet), a), Filter(InWallet(wallet), b))
      {
        FilterPermutation(InWallet(wallet), a, b);
      }
    }
  }

  /** Redelivery leaves every wallet with the same events if and only if the answers agree. */
  lemma RedeliveryKeepsWallets(src: Source, ds1: seq<Delivery>, ds2: seq<Delivery>)
    requires Handling(src, ds1) && Handling(src, ds2) && SameEvents(ds1, ds2)
    ensures SameWallets(EventsOf(RowsAfter(src, ds1)), EventsOf(RowsAfter(src, ds2))) <==> AnswersAgree(src, ds1, ds2)
  {
    RedeliveryKeepsTable(src, ds1, ds2);
    SameWalletsSameTable(EventsOf(RowsAfter(src, ds1)), EventsOf(RowsAfter(src, ds2)));
  }

  /** A log a wallet may be ranked on: its rows of the table, sorted. */
  ghost predicate WalletLog(table: seq<DomainEvent>, wallet: string, log: seq<DomainEvent>) {
    SortOutcome(Filter(InWallet(wallet), table), log)
  }

  /** The order of a wallet's events is fixed, or cannot change what they are worth. */
  ghost predicate OrderSettled(env: Env, events: seq<DomainEvent>) {
    || (forall x, y :: x in events && y in events && SameKey(x, y) ==> x == y)
    || TiesSettled(env, events)
  }

  /** Such a log holds the rows of the wallet, each as often as the table does, and nothing else. */
  lemma WalletLogHolds(table: seq<DomainEvent>, wallet: string, log: seq<DomainEvent>, e: DomainEvent)
    requires WalletLog(table, wallet, log)
    ensures InOrder(log) && multiset(log)[e] == if e.walletAddress == wallet then multiset(table)[e] else 0
  {
    FilterCount(InWallet(wallet), table, e);
  }

  lemma SortOutcomePermuted(x: seq<DomainEvent>, y: seq<DomainEvent>, log: seq<DomainEvent>)
    requires Permutation(x, y) && SortOutcome(y, log)
    ensures SortOutcome(x, log)
  {
  }

  /** Two tables with the same rows show the same for a settled wallet, whatever the sort does with ties. */
  lemma PermutedTablesShow(parse: Parser, a: seq<DomainEvent>, b: seq<DomainEvent>,
                           wallet: string, log1: seq<DomainEvent>, log2: seq<DomainEvent>)
    requires Permutation(a, b) && WalletLog(a, wallet, log1) && WalletLog(b, wallet, log2)
    requires OrderSettled(EnvOf(parse, a), Filter(InWallet(wallet), a))
    ensures Shown(EnvOf(parse, a), log1) == Shown(EnvOf(parse, b), log2)
  {
    FilterPermutation(InWallet(wallet), a, b);
    SortOutcomePermuted(Filter(InWallet(wallet), a), Filter(InWallet(wallet), b), log2);
    PermutedTablesAlike(parse, a, b);
    AlikeLogs(EnvOf(parse, a), EnvOf(parse, b), FULL_MANAGER, log2, []);
    SettledScores(EnvOf(parse, a), Filter(InWallet(wallet), a), log1, log2);
  }

  lemma SettledScores(env: Env, events: seq<DomainEvent>, log1: seq<DomainEvent>, log2: seq<DomainEvent>)
    requires SortOutcome(events, log1) && SortOutcome(events, log2) && OrderSettled(env, events)
    ensures Shown(env, log1) == Shown(env, log2)
  {
    if TiesSettled(env, events) {
      TiesDoNotMatter(env, events, log1, log2);
    } else {
      DistinctKeysFixTheOrder(events, log1, log2);
    }
  }

  /**
   * From deliveries to the leaderboard: however often and in whatever order the same events are
   * delivered, if the answers agree, a settled wallet is shown the same, whatever the sort does with ties.
   */
  lemma RedeliveryKeepsScores(src: Source, parse: Parser, ds1: seq<Delivery>, ds2: seq<Delivery>,
                              wallet: string, log1: seq<DomainEvent>, log2: seq<DomainEvent>)
    requires Handling(src, ds1) && Handling(src, ds2) && SameEvents(ds1, ds2) && AnswersAgree(src, ds1, ds2)
    requires var a, b := EventsOf(RowsAfter(src, ds1)), EventsOf(RowsAfter(src, ds2));
             && WalletLog(a, wallet, log1) && WalletLog(b, wallet, log2)
             && OrderSettled(EnvOf(parse, a), Filter(InWallet(wallet), a))
    ensures Shown(EnvOf(parse, EventsOf(RowsAfter(src, ds1))), log1) == Shown(EnvOf(parse, EventsOf(RowsAfter(src, ds2))), log2)
  {
    RedeliveryKeepsTable(src, ds1, ds2);
    PermutedTablesShow(parse, EventsOf(RowsAfter(src, ds1)), EventsOf(RowsAfter(src, ds2)), wallet, log1, log2);
  }
}
