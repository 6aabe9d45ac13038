/**
 * What the forwarders of the Alpaca adapter (src/exchanges/alpaca.ts) hand
 * to the brokerage: the guards they run on their arguments, the defaults
 * they fill in and the request they build. The remote calls themselves are
 * not part of this model; each function here returns the request that
 * would be sent, or the error thrown before anything is sent.
 */
module AlpacaRequests {
  import opened Wrappers
  import opened JsValues
  import opened AlpacaOrders

  /** The argument errors the forwarders throw. */
  datatype RequestError = SymbolRequired | OrderIdRequired

  /** The message of the `Error` thrown for each. */
  function RequestMessage(e: RequestError): string {
    match e
    case SymbolRequired => "At least one symbol required"
    case OrderIdRequired => "Order id required"
  }

  /**
   * `sendAlpacaOrder`: the order is validated first and, if it is accepted,
   * sent as it was given; otherwise the validator's error is thrown.
   */
  function OrderToSend(order: Option<Order>): (r: Result<Order, OrderError>)
    ensures r.Success? <==> CheckOrder(order) == Accepted
    ensures r.Success? ==> order == Some(r.value)
    ensures r.Failure? ==> CheckOrder(order) == Rejected(r.error)
  {
    match CheckOrder(order)
    case Accepted => Success(order.value)
    case Rejected(e) => Failure(e)
  }

  /** `cancelAlpacaOrder`: a falsy order id is refused; any other value is passed through. */
  function OrderToCancel(order: JsVal): (r: Result<JsVal, RequestError>)
    ensures r.Failure? <==> !Truthy(order)
    ensures r.Failure? ==> r.error == OrderIdRequired
    ensures r.Success? ==> r.value == order
  {
    if !Truthy(order) then Failure(OrderIdRequired) else Success(order)
  }

  /**
   * The guard and normalisation of `symbols` shared by the price and candle
   * forwarders: a falsy value is refused, an array is kept as it is and any
   * other value becomes a one-element list.
   */
  function SymbolList(symbols: JsVal): (r: Result<seq<JsVal>, RequestError>)
    ensures r.Failure? <==> !Truthy(symbols)
    ensures r.Failure? ==> r.error == SymbolRequired
    ensures r.Success? && symbols.Arr? ==> r.value == symbols.elems
    ensures r.Success? && !symbols.Arr? ==> r.value == [symbols]
  {
    if !Truthy(symbols) then Failure(SymbolRequired)
    else if symbols.Arr? then Success(symbols.elems)
    else Success([symbols])
  }

  /** Normalising an already normalised list changes nothing. */
  lemma SymbolListIdempotent(symbols: JsVal)
    requires Truthy(symbols)
    ensures SymbolList(Arr(SymbolList(symbols).value)) == SymbolList(symbols)
  {
  }

  /** The symbols as the query string carries them: the normalised list joined with ",". */
  function JoinedSymbols(symbols: JsVal): (r: Result<string, RequestError>)
    ensures r.Failure? <==> !Truthy(symbols)
    ensures r.Failure? ==> r.error == SymbolRequired
    ensures r.Success? ==> r.value == Join(SymbolList(symbols).value, ",")
  {
    match SymbolList(symbols)
    case Failure(e) => Failure(e)
    case Success(list) => Success(Join(list, ","))
  }

  /**
   * The joined symbols, split on ',', give back the normalised list when it
   * is a non-empty list of strings none of which contains a comma.
   */
  lemma JoinedSymbolsRoundTrip(symbols: JsVal)
    requires Truthy(symbols)
    requires |SymbolList(symbols).value| > 0 && CommaFreeStrings(SymbolList(symbols).value)
    ensures Split(JoinedSymbols(symbols).value, ',') == Texts(SymbolList(symbols).value)
  {
    SplitJoin(SymbolList(symbols).value);
  }

  /**
   * A single symbol is sent as it is, so a string that already holds commas
   * names several symbols.
   */
  lemma SingleSymbolUnchanged(s: string)
    requires s != ""
    ensures SymbolList(Str(s)) == Success([Str(s)])
    ensures JoinedSymbols(Str(s)) == Success(s)
  {
    assert Join([Str(s)], ",") == ElementString(Str(s)) == s;
  }

  /** An empty array is truthy and passes the guard, and joins to the empty string. */
  lemma EmptySymbolArrayPassesGuard()
    ensures SymbolList(Arr([])) == Success([])
    ensures JoinedSymbols(Arr([])) == Success("")
  {
  }

  /** The candle fields a forwarder reads from its argument; credentials and the paper flag are not modelled. */
  datatype BarsArgs = BarsArgs(symbols: JsVal, limit: JsVal, start: JsVal, end: JsVal, timeframe: JsVal)

  /** The options `getAlpacaCandles` passes to the SDK's multi-symbol bars call. */
  datatype BarsQuery = BarsQuery(symbols: seq<JsVal>, start: JsVal, end: JsVal, limit: JsVal,
                                 timeframe: JsVal, feed: string)

  /** The time frame used when none is given. */
  const DEFAULT_TIMEFRAME := Str("1day")

  /**
   * `getAlpacaCandles`: refuses falsy symbols, defaults the time frame to
   * '1day', normalises the symbols and asks for the 'iex' feed; `start`,
   * `end` and `limit` are passed on untouched.
   */
  function CandlesQuery(args: BarsArgs): (r: Result<BarsQuery, RequestError>)
    ensures r.Failure? <==> !Truthy(args.symbols)
    ensures r.Failure? ==> r.error == SymbolRequired
    ensures r.Success? ==>
      && r.value.symbols == SymbolList(args.symbols).value
      && Truthy(r.value.timeframe)
      && (Truthy(args.timeframe) ==> r.value.timeframe == args.timeframe)
      && (!Truthy(args.timeframe) ==> r.value.timeframe == DEFAULT_TIMEFRAME)
      && r.value.limit == args.limit && r.value.start == args.start && r.value.end == args.end
      && r.value.feed == "iex"
  {
    if !Truthy(args.symbols) then Failure(SymbolRequired)
    else
      var timeframe := Or(args.timeframe, DEFAULT_TIMEFRAME);
      Success(BarsQuery(SymbolList(args.symbols).value, args.start, args.end, args.limit, timeframe, "iex"))
  }

  /** `getAlpacaLatestCandles`: the symbol list passed to the SDK's latest-bars call. */
  function LatestCandlesQuery(symbols: JsVal): (r: Result<seq<JsVal>, RequestError>)
    ensures r.Failure? <==> !Truthy(symbols)
    ensures r.Failure? ==> r.error == SymbolRequired
    ensures r.Success? ==> Arr(r.value) == (if symbols.Arr? then symbols else Arr([symbols]))
  {
    SymbolList(symbols)
  }

  /** The query parameters of `getAlpacaLatestStockCandles`, after its defaults are applied. */
  datatype StockBarsQuery = StockBarsQuery(symbols: string, limit: JsVal, start: JsVal, end: JsVal, timeframe: JsVal)

  /**
   * `getAlpacaLatestStockCandles` up to the URL: refuses falsy symbols,
   * defaults the time frame to '1day', joins the symbols with ",", defaults
   * `limit` to 1, `start` to `yearAgo` and `end` to `null`. The source
   * computes `yearAgo` from the clock (the current date less 365 days, as
   * an ISO string); here the caller supplies it.
   */
  function StockBarsParams(args: BarsArgs, yearAgo: string): (r: Result<StockBarsQuery, RequestError>)
    ensures r.Failure? <==> !Truthy(args.symbols)
    ensures r.Failure? ==> r.error == SymbolRequired
    ensures r.Success? ==>
      && r.value.symbols == JoinedSymbols(args.symbols).value
      && Truthy(r.value.timeframe) && Truthy(r.value.limit)
      && r.value.limit == (if Truthy(args.limit) then args.limit else Num(1))
      && r.value.timeframe == (if Truthy(args.timeframe) then args.timeframe else DEFAULT_TIMEFRAME)
      && r.value.start == (if Truthy(args.start) then args.start else Str(yearAgo))
      && (Truthy(r.value.end) <==> Truthy(args.end))
      && (Truthy(args.end) ==> r.value.end == args.end)
      && (!Truthy(args.end) ==> r.value.end == Null)
  {
    if !Truthy(args.symbols) then Failure(SymbolRequired)
    else
      var timeframe := Or(args.timeframe, DEFAULT_TIMEFRAME);
      var symbols := JoinedSymbols(args.symbols).value;
      Success(StockBarsQuery(symbols, Or(args.limit, Num(1)), Or(args.start, Str(yearAgo)),
                             Or(args.end, Null), timeframe))
  }

  /** The fixed part of the latest stock bars URL. */
  const STOCK_BARS_BASE := "https://data.alpaca.markets/v2/stocks/bars?&adjustment=raw&feed=iex&sort=desc"

  /** The parameters of a stock bars URL up to the optional `end`. */
  function StockBarsPrefix(q: StockBarsQuery): string {
    STOCK_BARS_BASE + "&symbols=" + q.symbols + "&limit=" + ToString(q.limit)
      + "&start=" + ToString(q.start) + "&timeframe=" + ToString(q.timeframe)
  }

  /** The URL `getAlpacaLatestStockCandles` fetches: `end` is appended only when it is truthy. */
  function StockBarsUrl(q: StockBarsQuery): (url: string)
    ensures |STOCK_BARS_BASE| <= |url| && url[..|STOCK_BARS_BASE|] == STOCK_BARS_BASE
    ensures |StockBarsPrefix(q)| <= |url| && url[..|StockBarsPrefix(q)|] == StockBarsPrefix(q)
    ensures |url| > |StockBarsPrefix(q)| <==> Truthy(q.end)
    ensures Truthy(q.end) ==> url[|StockBarsPrefix(q)|..] == "&end=" + ToString(q.end)
  {
    var url := StockBarsPrefix(q);
    if Truthy(q.end) then url + "&end=" + ToString(q.end) else url
  }

  /** In `x + y + z`, `y` stands right after `x`. */
  lemma Middle(x: string, y: string, z: string)
    ensures |x| + |y| <= |x + y + z| && (x + y + z)[|x|..|x| + |y|] == y
  {
  }

  /** Where the symbols and the limit stand in a query of the stock bars shape. */
  lemma QueryLayout(base: string, syms: string, lim: string, start: string, tf: string)
    ensures
      var p := base + "&symbols=" + syms + "&limit=" + lim + "&start=" + start + "&timeframe=" + tf;
      var at := |base| + |"&symbols="|;
      var tail := "&limit=" + lim + "&start=";
      && at + |syms| + |tail| <= |p|
      && p[|base|..at] == "&symbols="
      && p[at..at + |syms|] == syms
      && p[at + |syms|..at + |syms| + |tail|] == tail
  {
    var tail := "&limit=" + lim + "&start=";
    var rest := start + "&timeframe=" + tf;
    var p := base + "&symbols=" + syms + "&limit=" + lim + "&start=" + start + "&timeframe=" + tf;
    assert p == base + "&symbols=" + syms + tail + rest;
    Middle(base, "&symbols=", syms + tail + rest);
    assert p == base + "&symbols=" + (syms + tail + rest);
    Middle(base + "&symbols=", syms, tail + rest);
    assert p == (base + "&symbols=") + syms + (tail + rest);
    Middle(base + "&symbols=" + syms, tail, rest);
  }

  /** A string that starts with `p` agrees with `p` on every slice of `p`. */
  lemma SliceOfPrefix(url: string, p: string, i: nat, j: nat)
    requires |p| <= |url| && url[..|p|] == p && i <= j <= |p|
    ensures url[i..j] == p[i..j]
  {
    forall k | 0 <= k < j - i ensures url[i..j][k] == p[i..j][k] {
      assert url[i + k] == url[..|p|][i + k];
    }
  }

  /** Where the symbols and the limit stand in a stock bars URL. */
  lemma StockBarsUrlLayout(q: StockBarsQuery)
    ensures
      var url := StockBarsUrl(q);
      var at := |STOCK_BARS_BASE| + |"&symbols="|;
      var tail := "&limit=" + ToString(q.limit) + "&start=";
      && at + |q.symbols| + |tail| <= |url|
      && url[|STOCK_BARS_BASE|..at] == "&symbols="
      && url[at..at + |q.symbols|] == q.symbols
      && url[at + |q.symbols|..at + |q.symbols| + |tail|] == tail
  {
    var url, p := StockBarsUrl(q), StockBarsPrefix(q);
    var at := |STOCK_BARS_BASE| + |"&symbols="|;
    var tail := "&limit=" + ToString(q.limit) + "&start=";
    QueryLayout(STOCK_BARS_BASE, q.symbols, ToString(q.limit), ToString(q.start), ToString(q.timeframe));
    SliceOfPrefix(url, p, |STOCK_BARS_BASE|, at);
    SliceOfPrefix(url, p, at, at + |q.symbols|);
    SliceOfPrefix(url, p, at + |q.symbols|, at + |q.symbols| + |tail|);
  }

  /**
   * The stock bars URL carries the symbols: right after the base comes
   * `&symbols=` and the joined symbols, which split back into the symbols
   * when they are comma-free strings.
   */
  lemma StockBarsUrlSymbols(args: BarsArgs, yearAgo: string)
    requires Truthy(args.symbols)
    ensures
      var q := StockBarsParams(args, yearAgo).value;
      var url := StockBarsUrl(q);
      var at := |STOCK_BARS_BASE| + |"&symbols="|;
      && at + |q.symbols| <= |url|
      && url[|STOCK_BARS_BASE|..at] == "&symbols="
      && url[at..at + |q.symbols|] == JoinedSymbols(args.symbols).value
      && (|SymbolList(args.symbols).value| > 0 && CommaFreeStrings(SymbolList(args.symbols).value) ==>
            Split(url[at..at + |q.symbols|], ',') == Texts(SymbolList(args.symbols).value))
  {
    var q := StockBarsParams(args, yearAgo).value;
    StockBarsUrlLayout(q);
    if |SymbolList(args.symbols).value| > 0 && CommaFreeStrings(SymbolList(args.symbols).value) {
      JoinedSymbolsRoundTrip(args.symbols);
    }
  }

  /** With no `limit` given, `&limit=1&start=` follows the symbols in the stock bars URL. */
  lemma StockBarsUrlDefaultLimit(args: BarsArgs, yearAgo: string)
    requires Truthy(args.symbols) && !Truthy(args.limit)
    ensures
      var q := StockBarsParams(args, yearAgo).value;
      var url := StockBarsUrl(q);
      var at := |STOCK_BARS_BASE| + |"&symbols="| + |q.symbols|;
      && at + |"&limit=1&start="| <= |url|
      && url[at..at + |"&limit=1&start="|] == "&limit=1&start="
  {
    var q := StockBarsParams(args, yearAgo).value;
    assert q.limit == Num(1);
    LimitOneTail();
    StockBarsUrlLayout(q);
  }

  /** The limit parameter that a limit of 1 gives. */
  lemma LimitOneTail()
    ensures "&limit=" + ToString(Num(1)) + "&start=" == "&limit=1&start="
  {
    assert ToString(Num(1)) == NatToString(1) == "1";
  }

  /** The stock bars URL goes on past its fixed parameters exactly when a truthy `end` was given. */
  lemma StockBarsUrlEnd(args: BarsArgs, yearAgo: string)
    requires Truthy(args.symbols)
    ensures
      var q := StockBarsParams(args, yearAgo).value;
      |StockBarsUrl(q)| > |StockBarsPrefix(q)| <==> Truthy(args.end)
  {
  }

  /** The fixed part of the latest trades URL. */
  const PRICES_BASE := "https://data.alpaca.markets/v2/stocks/trades/latest?feed=iex&symbols="

  /** `getAlpacaPrices`: the URL of the latest trades of the normalised, comma-joined symbols. */
  function PricesUrl(symbols: JsVal): (r: Result<string, RequestError>)
    ensures r.Failure? <==> !Truthy(symbols)
    ensures r.Failure? ==> r.error == SymbolRequired
    ensures r.Success? ==> |PRICES_BASE| <= |r.value| && r.value[..|PRICES_BASE|] == PRICES_BASE
    ensures r.Success? ==> r.value[|PRICES_BASE|..] == JoinedSymbols(symbols).value
  {
    match JoinedSymbols(symbols)
    case Failure(e) => Failure(e)
    case Success(joined) => Success(PRICES_BASE + joined)
  }

  /** The symbols part of the prices URL splits back into the symbols, when they are comma-free strings. */
  lemma PricesUrlRoundTrip(symbols: JsVal)
    requires Truthy(symbols)
    requires |SymbolList(symbols).value| > 0 && CommaFreeStrings(SymbolList(symbols).value)
    ensures Split(PricesUrl(symbols).value[|PRICES_BASE|..], ',') == Texts(SymbolList(symbols).value)
  {
    JoinedSymbolsRoundTrip(symbols);
  }
}
