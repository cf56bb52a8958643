/** Turning an approved signal into an order for the venue. */
module OrderBuilder {
  import opened Prelude
  import Ledger
  import LedgerLaws
  import opened MarketData
  import OrderBook
  import Stamps

  datatype SignalType = SpotAccumulation | TrendEntry | TrendExit | Rebalance

  datatype Sleeve = CryptoSpot | CryptoLeverage | Etf | CashYield

  datatype Signal = Signal(id: nat, symbol: string, side: Side, kind: SignalType, sleeve: Sleeve,
                           notionalChf: real, metadata: Metadata)

  datatype OrderType = Market | PostOnly

  datatype Order = Order(symbol: string, side: Side, cli: string, orderType: OrderType,
                         quantity: real, limit: Option<real>, reduceOnly: bool)

  datatype BuildError =
    | InvalidFxRate | BelowMinimumContractSize | AboveMaximumContractSize | NoLimitPrice
    | ExitWithoutOpenPosition | ExitSideMismatch | ExitQuantityBelowMinimum

  datatype OpenPosition = OpenPosition(symbol: string, sleeve: Sleeve, quantity: real)

  const MAX_CONTRACTS: real := 10_000.0

  /** The deterministic client id: it depends on the signal id only. */
  function ClientId(signal: nat): string {
    "rt-s" + Stamps.Decimal(signal)
  }

  /** "rt-s" and the signal's number. */
  lemma ClientIdReads(signal: nat)
    ensures ClientId(signal)[..4] == "rt-s" && Stamps.ReadDecimal(ClientId(signal)[4..]) == signal
  {
    assert ClientId(signal)[4..] == Stamps.Decimal(signal);
    Stamps.DecimalReads(signal);
  }

  lemma ClientIdInjective(a: nat, b: nat)
    requires ClientId(a) == ClientId(b)
    ensures a == b
  {
    assert ClientId(a)[4..] == Stamps.Decimal(a) && ClientId(b)[4..] == Stamps.Decimal(b);
    Stamps.DecimalInjective(a, b);
  }

  // ---------------------------------------------------------------------------
  // Entries
  // ---------------------------------------------------------------------------

  function LimitPrice(side: Side, market: MarketSnapshot): Option<real> {
    var own := if side == Buy then market.bids else market.asks;
    if own == [] then None else Some(own[0].price)
  }

  /** Whole contracts of one dollar. */
  function Contracts(s: Signal, fx: real): real {
    (s.notionalChf * fx).Floor as real
  }

  function BuildEntry(s: Signal, market: MarketSnapshot): Result<Order, BuildError> {
    if market.fx <= 0.0 then Err(InvalidFxRate)
    else
      var contracts := Contracts(s, market.fx);
      if contracts < 1.0 then Err(BelowMinimumContractSize)
      else if contracts > MAX_CONTRACTS then Err(AboveMaximumContractSize)
      else
        match LimitPrice(s.side, market)
        case None => Err(NoLimitPrice)
        case Some(p) =>
          if p <= 0.0 then Err(NoLimitPrice)
          else Ok(Order(s.symbol, s.side, ClientId(s.id), PostOnly, contracts, Some(p), false))
  }

  /** What must not change between two submissions of the same signal. */
  datatype Terms = Terms(symbol: string, side: Side, cli: string, quantity: real)

  function TermsOf(o: Order): Terms {
    Terms(o.symbol, o.side, o.cli, o.quantity)
  }

  /** The contract count is the whole-dollar notional, within the venue's bounds. */
  lemma EntrySize(s: Signal, market: MarketSnapshot)
    requires BuildEntry(s, market).Ok?
    ensures var q := BuildEntry(s, market).value.quantity;
            && 1.0 <= q <= 10_000.0
            && q <= s.notionalChf * market.fx < q + 1.0
            && q == q.Floor as real
  {
  }

  /** Two builds of one entry agree on the terms exactly when their rates buy the same whole number of contracts. */
  lemma EntryTermsAgreeIff(s: Signal, before: MarketSnapshot, after: MarketSnapshot)
    requires BuildEntry(s, before).Ok? && BuildEntry(s, after).Ok?
    ensures TermsOf(BuildEntry(s, before).value) == TermsOf(BuildEntry(s, after).value)
            <==> Contracts(s, before.fx) == Contracts(s, after.fx)
  {
  }

  /**
   However the feeds move between two attempts, an entry keeps its terms: the snapshot takes its rate from the
   signal. Only the limit price may move.
   */
  lemma EntryTermsAreStable(s: Signal, before: Feeds, after: Feeds)
    ensures var m, n := SnapshotForSignal(s.symbol, s.metadata, before), SnapshotForSignal(s.symbol, s.metadata, after);
            m.Ok? && n.Ok? && BuildEntry(s, m.value).Ok? && BuildEntry(s, n.value).Ok? ==>
              && TermsOf(BuildEntry(s, m.value).value) == TermsOf(BuildEntry(s, n.value).value)
              && BuildEntry(s, n.value).value
                 == BuildEntry(s, m.value).value.(limit := BuildEntry(s, n.value).value.limit)
  {
    SnapshotIff(s.symbol, s.metadata, before);
    SnapshotIff(s.symbol, s.metadata, after);
  }

  /** The limit of the entry built now stays clear of every price on the other side of the book. */
  ghost predicate PassiveOn(s: Signal, feeds: Feeds) {
    var m := SnapshotForSignal(s.symbol, s.metadata, feeds);
    m.Ok? && BuildEntry(s, m.value).Ok? ==>
      var o, book := BuildEntry(s, m.value).value, feeds.books[s.symbol];
      && o.limit.Some?
      && (s.side == Buy ==> forall q :: q in book.asks ==> o.limit.value < q)
      && (s.side == Sell ==> forall p :: p in book.bids ==> p < o.limit.value)
  }

  /** An entry priced off an uncrossed book can never take. */
  lemma EntryIsPassive(s: Signal, feeds: Feeds)
    requires s.symbol in feeds.books && !OrderBook.IsCrossed(feeds.books[s.symbol].bids, feeds.books[s.symbol].asks)
    ensures PassiveOn(s, feeds)
  {
    var m := SnapshotForSignal(s.symbol, s.metadata, feeds);
    if m.Ok? {
      SnapshotIff(s.symbol, s.metadata, feeds);
      OrderBook.ExportIsPassive(feeds.books[s.symbol], DEPTH);
    }
  }

  /** An entry is a post-only order, not reduce-only, at the best price of its own side of the book. */
  lemma EntryJoinsTheBest(s: Signal, feeds: Feeds)
    ensures var m := SnapshotForSignal(s.symbol, s.metadata, feeds);
            m.Ok? && BuildEntry(s, m.value).Ok? ==>
              var o, book := BuildEntry(s, m.value).value, feeds.books[s.symbol];
              && o.orderType == PostOnly && !o.reduceOnly && o.limit.Some?
              && (s.side == Buy ==> o.limit.value in book.bids && forall p :: p in book.bids ==> p <= o.limit.value)
              && (s.side == Sell ==> o.limit.value in book.asks && forall q :: q in book.asks ==> o.limit.value <= q)
  {
    var m := SnapshotForSignal(s.symbol, s.metadata, feeds);
    if m.Ok? {
      SnapshotIff(s.symbol, s.metadata, feeds);
      var book := feeds.books[s.symbol];
      FirstIsBest(Buy, book.bids);
      FirstIsBest(Sell, book.asks);
    }
  }

  lemma FirstIsBest(side: Side, ladder: OrderBook.Ladder)
    ensures var top := OrderBook.BestFirst(side, ladder, DEPTH);
            top != [] ==> top[0].price in ladder && forall q :: q in ladder ==> q == top[0].price || OrderBook.Better(side, top[0].price, q)
  {
    var top := OrderBook.BestFirst(side, ladder, DEPTH);
    OrderBook.BestFirstIsTop(side, ladder, DEPTH);
    if top != [] {
      forall q | q in ladder ensures q == top[0].price || OrderBook.Better(side, top[0].price, q) {
        if OrderBook.Lists(top, q) {
          var k :| 0 <= k < |top| && top[k].price == q;
          assert k > 0 ==> OrderBook.Better(side, top[0].price, top[k].price);
        }
      }
    }
  }

  lemma FloorAtBounds(x: real)
    ensures x.Floor as real < 1.0 <==> x < 1.0
    ensures x.Floor as real > MAX_CONTRACTS <==> x >= 10_001.0
  {
    var n := x.Floor;
    assert n as real <= x < n as real + 1.0;
    assert n >= 10_001 <==> n as real > 10_000.0;
    assert n < 1 <==> n as real < 1.0;
  }

  /** When an entry cannot be built, and why; the first reason counts. */
  lemma EntryIsBuiltIff(s: Signal, market: MarketSnapshot)
    ensures var usd, own := s.notionalChf * market.fx, if s.side == Buy then market.bids else market.asks;
            var priced := own != [] && own[0].price > 0.0;
            var o := BuildEntry(s, market);
            && (o.Ok? <==> market.fx > 0.0 && 1.0 <= usd < 10_001.0 && priced)
            && (o == Err(InvalidFxRate) <==> market.fx <= 0.0)
            && (o == Err(BelowMinimumContractSize) <==> market.fx > 0.0 && usd < 1.0)
            && (o == Err(AboveMaximumContractSize) <==> market.fx > 0.0 && usd >= 10_001.0)
            && (o == Err(NoLimitPrice) <==> market.fx > 0.0 && 1.0 <= usd < 10_001.0 && !priced)
  {
    FloorAtBounds(s.notionalChf * market.fx);
  }

  /** The same over any run of messages: whatever was delivered, unless a crossed snapshot still stands. */
  lemma EntriesStayPassive(s: Signal, ms: seq<OrderBook.Message>, feeds: Feeds)
    requires s.symbol in feeds.books && feeds.books[s.symbol] == OrderBook.DeliverAll(OrderBook.Empty(s.symbol), ms)
    requires !OrderBook.CrossedSnapshotStands(s.symbol, ms)
    ensures PassiveOn(s, feeds)
  {
    OrderBook.CrossedOnlyAfterCrossedSnapshot(s.symbol, ms);
    if feeds.books[s.symbol].state == OrderBook.Synced {
      EntryIsPassive(s, feeds);
    } else {
      SnapshotIff(s.symbol, s.metadata, feeds);
    }
  }

  // ---------------------------------------------------------------------------
  // Exits
  // ---------------------------------------------------------------------------

  predicate Matches(p: OpenPosition, s: Signal) {
    p.symbol == s.symbol && p.sleeve == CryptoLeverage && p.quantity != 0.0
  }

  function FindPosition(s: Signal, positions: seq<OpenPosition>): (r: Option<OpenPosition>)
    ensures r.Some? ==> r.value in positions && Matches(r.value, s)
    ensures r.None? ==> forall p :: p in positions ==> !Matches(p, s)
  {
    if positions == [] then None
    else if Matches(positions[0], s) then Some(positions[0])
    else FindPosition(s, positions[1..])
  }

  function BuildExit(s: Signal, positions: seq<OpenPosition>): Result<Order, BuildError> {
    match FindPosition(s, positions)
    case None => Err(ExitWithoutOpenPosition)
    case Some(p) =>
      if s.side != (if p.quantity > 0.0 then Sell else Buy) then Err(ExitSideMismatch)
      else if Abs(p.quantity) < 1.0 then Err(ExitQuantityBelowMinimum)
      else Ok(Order(s.symbol, s.side, ClientId(s.id), Market, Abs(p.quantity), None, true))
  }

  function BuildOrder(s: Signal, market: MarketSnapshot, positions: seq<OpenPosition>): (r: Result<Order, BuildError>)
    ensures r.Ok? ==> r.value.cli == ClientId(s.id) && r.value.symbol == s.symbol && r.value.side == s.side
  {
    if s.kind == TrendExit then BuildExit(s, positions) else BuildEntry(s, market)
  }

  /** The size an exit would close. */
  function ClosingSize(s: Signal, positions: seq<OpenPosition>): real {
    match FindPosition(s, positions)
    case None => 0.0
    case Some(p) => Abs(p.quantity)
  }

  /** An exit's terms follow from the signal and the size of the position it is built from. */
  lemma ExitTerms(s: Signal, positions: seq<OpenPosition>)
    requires BuildExit(s, positions).Ok?
    ensures TermsOf(BuildExit(s, positions).value) == Terms(s.symbol, s.side, ClientId(s.id), ClosingSize(s, positions))
    ensures ClosingSize(s, positions) >= 1.0
  {
  }

  /** An exit is a reduce-only market order; when there is none, and why. */
  lemma ExitIsBuiltIff(s: Signal, positions: seq<OpenPosition>)
    ensures var o := BuildExit(s, positions);
            && (o == Err(ExitWithoutOpenPosition) <==> forall p :: p in positions ==> !Matches(p, s))
            && (o.Ok? ==> o.value.orderType == Market && o.value.reduceOnly && o.value.limit == None)
            && (FindPosition(s, positions).Some? ==>
                  var q := FindPosition(s, positions).value.quantity;
                  && (o.Ok? <==> (s.side == Sell && q >= 1.0) || (s.side == Buy && q <= -1.0))
                  && (o == Err(ExitSideMismatch) <==> (s.side == Sell) != (q > 0.0))
                  && (o == Err(ExitQuantityBelowMinimum) <==> (s.side == Sell) == (q > 0.0) && -1.0 < q < 1.0))
  {
  }

  /** The leverage rows the portfolio loader hands to the builder. */
  function OpenLeverage(rows: seq<Ledger.Row>): seq<OpenPosition> {
    if rows == [] then []
    else
      var r := rows[|rows| - 1];
      OpenLeverage(rows[..|rows| - 1])
      + if r.open && r.sleeve == "crypto_leverage" && r.quantity != 0.0
        then [OpenPosition(r.key.symbol, CryptoLeverage, r.quantity)] else []
  }

  lemma {:induction false} OpenLeverageComesFromRows(rows: seq<Ledger.Row>, p: OpenPosition)
    requires p in OpenLeverage(rows)
    ensures exists i :: 0 <= i < |rows| && rows[i].open && rows[i].key.symbol == p.symbol && rows[i].quantity == p.quantity
  {
    var n := |rows| - 1;
    if p in OpenLeverage(rows[..n]) {
      OpenLeverageComesFromRows(rows[..n], p);
      var i :| 0 <= i < n && rows[..n][i].open && rows[..n][i].key.symbol == p.symbol && rows[..n][i].quantity == p.quantity;
      assert rows[i] == rows[..n][i];
    } else {
      assert rows[n].open;
    }
  }

  /** The builder sees exactly the open leverage rows that hold something. */
  lemma {:induction false} OpenLeverageHasRow(rows: seq<Ledger.Row>, i: nat)
    requires i < |rows| && rows[i].open && rows[i].sleeve == "crypto_leverage" && rows[i].quantity != 0.0
    ensures OpenPosition(rows[i].key.symbol, CryptoLeverage, rows[i].quantity) in OpenLeverage(rows)
  {
    var n := |rows| - 1;
    if i < n {
      OpenLeverageHasRow(rows[..n], i);
    }
  }

  /** An open leverage position of at least one contract can be exited, and only on its own closing side. */
  lemma OpenPositionCanBeExited(s: Signal, rows: seq<Ledger.Row>, broker: string, i: nat)
    requires Ledger.Sound(rows) && forall k :: 0 <= k < |rows| ==> rows[k].key.broker == broker
    requires i < |rows| && rows[i].open && rows[i].sleeve == "crypto_leverage" && rows[i].key.symbol == s.symbol
    ensures BuildExit(s, OpenLeverage(rows)).Ok? <==>
              (s.side == Sell && rows[i].quantity >= 1.0) || (s.side == Buy && rows[i].quantity <= -1.0)
  {
    OpenLeverageHasRow(rows, i);
    var found := FindPosition(s, OpenLeverage(rows));
    assert Matches(OpenPosition(rows[i].key.symbol, CryptoLeverage, rows[i].quantity), s);
    OpenLeverageComesFromRows(rows, found.value);
    var k :| 0 <= k < |rows| && rows[k].open && rows[k].key.symbol == found.value.symbol && rows[k].quantity == found.value.quantity;
    assert rows[k].key == rows[i].key;
    ExitIsBuiltIff(s, OpenLeverage(rows));
  }

  /**
   From an open position to flat: whatever pieces an exit order is filled in, the position only shrinks,
   closes exactly once with nothing left, and never flips; no other row changes.
   */
  lemma {:induction false} ExitOrderFlattens(s: Signal, rows: seq<Ledger.Row>, broker: string, fills: seq<Ledger.Fill>)
    requires Ledger.Sound(rows) && forall i :: 0 <= i < |rows| ==> rows[i].key.broker == broker
    requires BuildExit(s, OpenLeverage(rows)).Ok?
    requires var o := BuildExit(s, OpenLeverage(rows)).value;
             && Ledger.AllPositive(fills) && fills != []
             && (forall k :: 0 <= k < |fills| ==>
                   fills[k].key == Ledger.Key(s.symbol, broker) && fills[k].isBuy == (o.side == Buy))
             && LedgerLaws.TotalQty(fills) == o.quantity
    ensures Ledger.OpenQuantity(rows, Ledger.Key(s.symbol, broker)) != 0.0
    ensures Ledger.OpenQuantity(Ledger.ApplyAll(rows, fills), Ledger.Key(s.symbol, broker)) == 0.0
    ensures |Ledger.ApplyAll(rows, fills)| == |rows|
    ensures var outs := Ledger.Outcomes(rows, fills);
            && (forall k :: 0 <= k < |fills| - 1 ==> outs[k].transition == Ledger.Reduced)
            && outs[|fills| - 1].transition == Ledger.Closed
  {
    var key := Ledger.Key(s.symbol, broker);
    var p := FindPosition(s, OpenLeverage(rows)).value;
    OpenLeverageComesFromRows(rows, p);
    var i :| 0 <= i < |rows| && rows[i].open && rows[i].key.symbol == p.symbol && rows[i].quantity == p.quantity;
    assert rows[i].key == key;
    LedgerLaws.ExitsClose(rows, i, fills);
    LedgerLaws.OpenRowIsFound(rows, key, i);
    assert forall k :: 0 <= k < |rows| && k != i && rows[k].open ==> rows[k].key != key;
  }
}
