/** The market snapshot a signal is priced from: the local book and ticker, and the rates stored with the signal. */
module MarketData {
  import opened Prelude
  import OrderBook

  /** A metadata value; `decimal` is what the decimal parser makes of a string or a number. */
  datatype Json = JsonString(decimal: Option<real>) | JsonNumber(decimal: Option<real>) | JsonOther

  /** The fields of a signal's metadata, if it has any; a value that is no object has no fields. */
  type Metadata = Option<map<string, Json>>

  datatype Ticker = Ticker(last: Option<real>, funding: Option<real>)

  /** What the feeds have delivered so far, by product. */
  datatype Feeds = Feeds(books: map<string, OrderBook.Book>, tickers: map<string, Ticker>)

  datatype MarketDataError =
    | MissingMetadata(field: string)
    | InvalidMetadata(field: string)
    | NoBook
    | NoTicker
    | BookUnavailable(error: OrderBook.BookError)

  datatype MarketSnapshot = MarketSnapshot(bids: seq<OrderBook.Level>, asks: seq<OrderBook.Level>, last: real,
                                           atrAbsolute: real, atrPct: real, funding: Option<real>, fx: real)

  /** Levels exported per side. */
  const DEPTH: nat := 5

  function Parse(field: string, value: Json): Result<real, MarketDataError> {
    match value
    case JsonString(Some(d)) => Ok(d)
    case JsonNumber(Some(d)) => Ok(d)
    case _ => Err(InvalidMetadata(field))
  }

  /** Both fields must be present before either is parsed. */
  function ExtractAtr(meta: Metadata): Result<(real, real), MarketDataError> {
    if meta.None? then Err(MissingMetadata("metadata"))
    else if "atr_absolute" !in meta.value then Err(MissingMetadata("atr_absolute"))
    else if "atr_pct" !in meta.value then Err(MissingMetadata("atr_pct"))
    else
      match (Parse("atr_absolute", meta.value["atr_absolute"]), Parse("atr_pct", meta.value["atr_pct"]))
      case (Err(e), _) => Err(e)
      case (_, Err(e)) => Err(e)
      case (Ok(a), Ok(p)) => Ok((a, p))
  }

  function ExtractFx(meta: Metadata): Result<real, MarketDataError> {
    if meta.None? then Err(MissingMetadata("metadata"))
    else if "fx_quote_per_chf" !in meta.value then Err(MissingMetadata("fx_quote_per_chf"))
    else Parse("fx_quote_per_chf", meta.value["fx_quote_per_chf"])
  }

  ghost function SnapshotForSignal(product: string, meta: Metadata, feeds: Feeds): Result<MarketSnapshot, MarketDataError> {
    match ExtractAtr(meta)
    case Err(e) => Err(e)
    case Ok(atr) =>
      match ExtractFx(meta)
      case Err(e) => Err(e)
      case Ok(fx) =>
        if product !in feeds.books then Err(NoBook)
        else if product !in feeds.tickers then Err(NoTicker)
        else if feeds.tickers[product].last.None? then Err(MissingMetadata("ticker.last"))
        else
          match OrderBook.Export(feeds.books[product], DEPTH)
          case Err(e) => Err(BookUnavailable(e))
          case Ok((bids, asks)) =>
            Ok(MarketSnapshot(bids, asks, feeds.tickers[product].last.value, atr.0, atr.1,
                              feeds.tickers[product].funding, fx))
  }

  /** The decimal stored under the field, as a string or as a number. */
  predicate Stores(meta: Metadata, field: string, d: real) {
    meta.Some? && field in meta.value && (meta.value[field] == JsonString(Some(d)) || meta.value[field] == JsonNumber(Some(d)))
  }

  /** The rates are the decimals stored under their names, and nothing else. */
  lemma RatesAreStored(meta: Metadata, d: real, a: real)
    ensures ExtractFx(meta) == Ok(d) <==> Stores(meta, "fx_quote_per_chf", d)
    ensures ExtractAtr(meta) == Ok((a, d)) <==> Stores(meta, "atr_absolute", a) && Stores(meta, "atr_pct", d)
  {
  }

  /** A field that is missing is told apart from one that cannot be read. */
  lemma RateErrors(meta: Metadata)
    ensures ExtractFx(meta) == Err(MissingMetadata("metadata")) <==> meta.None?
    ensures ExtractFx(meta) == Err(MissingMetadata("fx_quote_per_chf")) <==> meta.Some? && "fx_quote_per_chf" !in meta.value
    ensures ExtractFx(meta) == Err(InvalidMetadata("fx_quote_per_chf")) <==>
              meta.Some? && "fx_quote_per_chf" in meta.value && forall d :: !Stores(meta, "fx_quote_per_chf", d)
  {
    if meta.Some? && "fx_quote_per_chf" in meta.value {
      var v := meta.value["fx_quote_per_chf"];
      if ExtractFx(meta).Ok? {
        assert Stores(meta, "fx_quote_per_chf", ExtractFx(meta).value);
      }
    } else {
      assert |"metadata"| != |"fx_quote_per_chf"|;
    }
  }

  /** Can the rates of this metadata be read at all? */
  predicate Readable(meta: Metadata) {
    ExtractAtr(meta).Ok? && ExtractFx(meta).Ok?
  }

  /** What is missing, in the order it is looked for. */
  lemma SnapshotErrs(product: string, meta: Metadata, feeds: Feeds)
    requires Readable(meta)
    ensures var m := SnapshotForSignal(product, meta, feeds);
            && (m == Err(NoBook) <==> product !in feeds.books)
            && (m == Err(NoTicker) <==> product in feeds.books && product !in feeds.tickers)
            && (m == Err(MissingMetadata("ticker.last")) <==>
                  product in feeds.books && product in feeds.tickers && feeds.tickers[product].last.None?)
            && (m == Err(BookUnavailable(OrderBook.BookOutOfSync)) <==>
                  && product in feeds.books && product in feeds.tickers && feeds.tickers[product].last.Some?
                  && feeds.books[product].state != OrderBook.Synced)
  {
  }

  /** Exactly when there is a snapshot, and what it holds: live prices, but the signal's own rates. */
  lemma SnapshotIff(product: string, meta: Metadata, feeds: Feeds)
    ensures SnapshotForSignal(product, meta, feeds).Ok? <==>
              && Readable(meta)
              && product in feeds.books && feeds.books[product].state == OrderBook.Synced
              && product in feeds.tickers && feeds.tickers[product].last.Some?
    ensures SnapshotForSignal(product, meta, feeds).Ok? ==>
              var m := SnapshotForSignal(product, meta, feeds).value;
              && ExtractFx(meta) == Ok(m.fx) && ExtractAtr(meta) == Ok((m.atrAbsolute, m.atrPct))
              && OrderBook.Export(feeds.books[product], DEPTH) == Ok((m.bids, m.asks))
              && Some(m.last) == feeds.tickers[product].last && m.funding == feeds.tickers[product].funding
  {
  }
}
