/**
 * The option record and its market-data parts, the two decoding dialects of
 * the client, and the per-sub-object splice of a market-data snapshot.
 *
 * Go's Option is one flat struct whose market-data parts are pointers to
 * freshly allocated Bar, Greeks, Quote and Trade values that no other option
 * shares; here it is split into the contract identity (`info`) and the market
 * data (`market`), each a value.
 */
module Records {
  import opened Wrappers
  import opened Json
  import opened Library
  import opened Extract

  datatype Bar = Bar(
    close: real, high: real, low: real, numberOfTrades: int,
    open: real, timestamp: Time, volume: int, vwap: real)

  datatype Greeks = Greeks(delta: real, gamma: real, rho: real, theta: real, vega: real)

  datatype Quote = Quote(
    askPrice: real, askSize: int, askExchange: string,
    bidPrice: real, bidSize: int, bidExchange: string,
    condition: string, timestamp: Time)

  datatype Trade = Trade(condition: string, price: real, size: int, timestamp: Time, exchange: string)

  /** The contract identity and descriptive fields, set once when the contract is decoded. */
  datatype ContractInfo = ContractInfo(
    id: string, symbol: string, name: string, status: string, tradable: bool,
    expirationDate: string, rootSymbol: string, underlyingSymbol: string,
    underlyingAssetId: string, optionType: string, style: string,
    strikePrice: real, multiplier: int, size: int, openInterest: int,
    openInterestDate: string, closePrice: real, closePriceDate: string, ppind: bool)

  datatype MarketData = MarketData(
    dailyBar: Bar, prevDailyBar: Bar, minuteBar: Bar, greeks: Greeks,
    impliedVol: real, latestQuote: Quote, latestTrade: Trade)

  datatype OptionRecord = OptionRecord(info: ContractInfo, market: MarketData)

  const ZeroBar: Bar := Bar(0.0, 0.0, 0.0, 0, 0.0, ZeroTime, 0, 0.0)
  const ZeroGreeks: Greeks := Greeks(0.0, 0.0, 0.0, 0.0, 0.0)
  const ZeroQuote: Quote := Quote(0.0, 0, "", 0.0, 0, "", "", ZeroTime)
  const ZeroTrade: Trade := Trade("", 0.0, 0, ZeroTime, "")

  /** The non-nil, all-zero market data every freshly decoded option starts with. */
  const ZeroMarket: MarketData :=
    MarketData(ZeroBar, ZeroBar, ZeroBar, ZeroGreeks, 0.0, ZeroQuote, ZeroTrade)

  // ---------------------------------------------------------------------
  // Market-data sub-objects

  /**
   * A bar read from a JSON object, with its timestamp read in the given
   * layout: an empty object gives the zero bar, and a timestamp that does
   * not parse gives the zero time.
   */
  function DecodeBar(rt: Runtime, layout: Layout, m: map<string, Json>): (b: Bar)
    ensures Sound(rt) && m == map[] ==> b == ZeroBar
    ensures rt.parseTime(layout, GetString(Lookup(m, "t"))).None? ==> b.timestamp == ZeroTime
  {
    assert layout.Rfc3339? || layout.Rfc3339Nano?;
    Bar(
      close := GetFloat64(Lookup(m, "c")),
      high := GetFloat64(Lookup(m, "h")),
      low := GetFloat64(Lookup(m, "l")),
      numberOfTrades := GetInt(Lookup(m, "n")),
      open := GetFloat64(Lookup(m, "o")),
      timestamp := ParseTimestamp(rt, layout, GetString(Lookup(m, "t"))),
      volume := GetInt(Lookup(m, "v")),
      vwap := GetFloat64(Lookup(m, "vw")))
  }

  /** parseBar: a bar from a JSON object, its timestamp read as RFC3339Nano. */
  function ParseBar(rt: Runtime, m: map<string, Json>): (b: Bar)
    ensures b.timestamp == ParseTimestamp(rt, Rfc3339Nano, GetString(Lookup(m, "t")))
    ensures b == DecodeBar(rt, Rfc3339, m).(timestamp := b.timestamp)
  {
    DecodeBar(rt, Rfc3339Nano, m)
  }

  /** The greeks of a snapshot; an empty object gives all zeros. */
  function DecodeGreeks(m: map<string, Json>): (g: Greeks)
    ensures m == map[] ==> g == ZeroGreeks
  {
    Greeks(
      delta := GetFloat64(Lookup(m, "delta")),
      gamma := GetFloat64(Lookup(m, "gamma")),
      rho := GetFloat64(Lookup(m, "rho")),
      theta := GetFloat64(Lookup(m, "theta")),
      vega := GetFloat64(Lookup(m, "vega")))
  }

  /** The latest quote of a snapshot; an empty object gives the zero quote. */
  function DecodeQuote(rt: Runtime, m: map<string, Json>): (q: Quote)
    ensures Sound(rt) && m == map[] ==> q == ZeroQuote
  {
    Quote(
      askPrice := GetFloat64(Lookup(m, "ap")),
      askSize := GetInt(Lookup(m, "as")),
      askExchange := GetString(Lookup(m, "ax")),
      bidPrice := GetFloat64(Lookup(m, "bp")),
      bidSize := GetInt(Lookup(m, "bs")),
      bidExchange := GetString(Lookup(m, "bx")),
      condition := GetString(Lookup(m, "c")),
      timestamp := ParseTimestamp(rt, Rfc3339Nano, GetString(Lookup(m, "t"))))
  }

  /** The latest trade of a snapshot; an empty object gives the zero trade. */
  function DecodeTrade(rt: Runtime, m: map<string, Json>): (t: Trade)
    ensures Sound(rt) && m == map[] ==> t == ZeroTrade
  {
    Trade(
      condition := GetString(Lookup(m, "c")),
      price := GetFloat64(Lookup(m, "p")),
      size := GetInt(Lookup(m, "s")),
      timestamp := ParseTimestamp(rt, Rfc3339Nano, GetString(Lookup(m, "t"))),
      exchange := GetString(Lookup(m, "x")))
  }

  // ---------------------------------------------------------------------
  // The two contract dialects

  /**
   * The contracts-page dialect: numeric fields arrive as strings and are read
   * with parseFloat64/parseInt of getString. It is the file dialect with
   * those five numbers parsed from strings instead.
   */
  function PageInfo(rt: Runtime, m: map<string, Json>): (c: ContractInfo)
    ensures c == FileInfo(m).(
      strikePrice := ParseFloat64(rt, GetString(Lookup(m, "strike_price"))),
      multiplier := ParseInt(GetString(Lookup(m, "multiplier"))),
      size := ParseInt(GetString(Lookup(m, "size"))),
      openInterest := ParseInt(GetString(Lookup(m, "open_interest"))),
      closePrice := ParseFloat64(rt, GetString(Lookup(m, "close_price"))))
  {
    ContractInfo(
      id := GetString(Lookup(m, "id")),
      symbol := GetString(Lookup(m, "symbol")),
      name := GetString(Lookup(m, "name")),
      status := GetString(Lookup(m, "status")),
      tradable := GetBool(Lookup(m, "tradable")),
      expirationDate := GetString(Lookup(m, "expiration_date")),
      rootSymbol := GetString(Lookup(m, "root_symbol")),
      underlyingSymbol := GetString(Lookup(m, "underlying_symbol")),
      underlyingAssetId := GetString(Lookup(m, "underlying_asset_id")),
      optionType := GetString(Lookup(m, "type")),
      style := GetString(Lookup(m, "style")),
      strikePrice := ParseFloat64(rt, GetString(Lookup(m, "strike_price"))),
      multiplier := ParseInt(GetString(Lookup(m, "multiplier"))),
      size := ParseInt(GetString(Lookup(m, "size"))),
      openInterest := ParseInt(GetString(Lookup(m, "open_interest"))),
      openInterestDate := GetString(Lookup(m, "open_interest_date")),
      closePrice := ParseFloat64(rt, GetString(Lookup(m, "close_price"))),
      closePriceDate := GetString(Lookup(m, "close_price_date")),
      ppind := GetBool(Lookup(m, "ppind")))
  }

  /**
   * The file dialect of JsonToOptions: numeric fields are JSON numbers.
   * An object that carries every field of a contract decodes to exactly
   * that contract.
   */
  function FileInfo(m: map<string, Json>): (c: ContractInfo)
    ensures forall c' {:trigger CarriesFileFields(m, c')} :: CarriesFileFields(m, c') ==> c == c'
  {
    ContractInfo(
      id := GetString(Lookup(m, "id")),
      symbol := GetString(Lookup(m, "symbol")),
      name := GetString(Lookup(m, "name")),
      status := GetString(Lookup(m, "status")),
      tradable := GetBool(Lookup(m, "tradable")),
      expirationDate := GetString(Lookup(m, "expiration_date")),
      rootSymbol := GetString(Lookup(m, "root_symbol")),
      underlyingSymbol := GetString(Lookup(m, "underlying_symbol")),
      underlyingAssetId := GetString(Lookup(m, "underlying_asset_id")),
      optionType := GetString(Lookup(m, "type")),
      style := GetString(Lookup(m, "style")),
      strikePrice := GetFloat64(Lookup(m, "strike_price")),
      multiplier := GetInt(Lookup(m, "multiplier")),
      size := GetInt(Lookup(m, "size")),
      openInterest := GetInt(Lookup(m, "open_interest")),
      openInterestDate := GetString(Lookup(m, "open_interest_date")),
      closePrice := GetFloat64(Lookup(m, "close_price")),
      closePriceDate := GetString(Lookup(m, "close_price_date")),
      ppind := GetBool(Lookup(m, "ppind")))
  }

  /** A contract as the contract phase decodes it: page dialect, all-zero market data. */
  function DecodeContract(rt: Runtime, m: map<string, Json>): (o: OptionRecord)
    ensures o.market == ZeroMarket
    ensures o.info.id == GetString(Lookup(m, "id")) && o.info.symbol == GetString(Lookup(m, "symbol"))
  {
    OptionRecord(PageInfo(rt, m), ZeroMarket)
  }

  // ---------------------------------------------------------------------
  // The snapshot splice

  /**
   * Writing one snapshot object into an option: each sub-object that is a
   * JSON object replaces the whole corresponding struct, a missing or
   * non-object key leaves it as it was, and the implied volatility is always
   * reassigned. The identity part is never touched.
   */
  function ApplySnapshot(rt: Runtime, o: OptionRecord, s: map<string, Json>): (r: OptionRecord)
    ensures r.info == o.info
  {
    var was := o.market;
    var daily := Lookup(s, "dailyBar");
    var prev := Lookup(s, "prevDailyBar");
    var minute := Lookup(s, "minuteBar");
    var greeks := Lookup(s, "greeks");
    var quote := Lookup(s, "latestQuote");
    var trade := Lookup(s, "latestTrade");
    OptionRecord(o.info, MarketData(
      dailyBar := if daily.Obj? then DecodeBar(rt, Rfc3339, daily.fields) else was.dailyBar,
      prevDailyBar := if prev.Obj? then DecodeBar(rt, Rfc3339, prev.fields) else was.prevDailyBar,
      minuteBar := if minute.Obj? then DecodeBar(rt, Rfc3339, minute.fields) else was.minuteBar,
      greeks := if greeks.Obj? then DecodeGreeks(greeks.fields) else was.greeks,
      impliedVol := GetFloat64(Lookup(s, "impliedVolatility")),
      latestQuote := if quote.Obj? then DecodeQuote(rt, quote.fields) else was.latestQuote,
      latestTrade := if trade.Obj? then DecodeTrade(rt, trade.fields) else was.latestTrade))
  }

  /**
   * An option as JsonToOptions decodes it: file-dialect identity, all-zero
   * market data, then the same per-sub-object splice the merge applies.
   */
  function DecodeFileOption(rt: Runtime, m: map<string, Json>): (o: OptionRecord)
    ensures o.info == FileInfo(m)
  {
    ApplySnapshot(rt, OptionRecord(FileInfo(m), ZeroMarket), m)
  }

  // ---------------------------------------------------------------------
  // Properties of the decoders and the splice

  /**
   * A splice overwrites a present sub-object as a whole (the result does not
   * depend on what was there before) and leaves an absent or non-object one
   * alone; the implied volatility never depends on the old value and is 0
   * when the key is missing.
   */
  lemma SplicePerSubObject(rt: Runtime, o1: OptionRecord, o2: OptionRecord, s: map<string, Json>)
    ensures var r1, r2 := ApplySnapshot(rt, o1, s).market, ApplySnapshot(rt, o2, s).market;
      && (Lookup(s, "dailyBar").Obj? ==> r1.dailyBar == r2.dailyBar)
      && (!Lookup(s, "dailyBar").Obj? ==> r1.dailyBar == o1.market.dailyBar)
      && (Lookup(s, "prevDailyBar").Obj? ==> r1.prevDailyBar == r2.prevDailyBar)
      && (!Lookup(s, "prevDailyBar").Obj? ==> r1.prevDailyBar == o1.market.prevDailyBar)
      && (Lookup(s, "minuteBar").Obj? ==> r1.minuteBar == r2.minuteBar)
      && (!Lookup(s, "minuteBar").Obj? ==> r1.minuteBar == o1.market.minuteBar)
      && (Lookup(s, "greeks").Obj? ==> r1.greeks == r2.greeks)
      && (!Lookup(s, "greeks").Obj? ==> r1.greeks == o1.market.greeks)
      && (Lookup(s, "latestQuote").Obj? ==> r1.latestQuote == r2.latestQuote)
      && (!Lookup(s, "latestQuote").Obj? ==> r1.latestQuote == o1.market.latestQuote)
      && (Lookup(s, "latestTrade").Obj? ==> r1.latestTrade == r2.latestTrade)
      && (!Lookup(s, "latestTrade").Obj? ==> r1.latestTrade == o1.market.latestTrade)
      && r1.impliedVol == r2.impliedVol
      && ("impliedVolatility" !in s ==> r1.impliedVol == 0.0)
  {
  }

  /** Applying the same snapshot twice is the same as applying it once. */
  lemma SpliceIdempotent(rt: Runtime, o: OptionRecord, s: map<string, Json>)
    ensures ApplySnapshot(rt, ApplySnapshot(rt, o, s), s) == ApplySnapshot(rt, o, s)
  {
  }

  /**
   * The contracts-page dialect reads numbers only from strings: a field sent
   * as a JSON number decodes to 0.
   */
  lemma PageNumbersMustBeStrings(rt: Runtime, m: map<string, Json>)
    requires Sound(rt)
    ensures Lookup(m, "strike_price").Num? ==> PageInfo(rt, m).strikePrice == 0.0
    ensures Lookup(m, "close_price").Num? ==> PageInfo(rt, m).closePrice == 0.0
    ensures Lookup(m, "multiplier").Num? ==> PageInfo(rt, m).multiplier == 0
    ensures Lookup(m, "size").Num? ==> PageInfo(rt, m).size == 0
    ensures Lookup(m, "open_interest").Num? ==> PageInfo(rt, m).openInterest == 0
  {
    WrongKindYieldsZero(rt, Lookup(m, "strike_price"));
    WrongKindYieldsZero(rt, Lookup(m, "close_price"));
    WrongKindYieldsZero(rt, Lookup(m, "multiplier"));
    WrongKindYieldsZero(rt, Lookup(m, "size"));
    WrongKindYieldsZero(rt, Lookup(m, "open_interest"));
  }

  // ---------------------------------------------------------------------
  // Encoders, the partners of the decoders

  /**
   * `m` is a contracts-page object carrying every field of `c`: text and
   * flags as JSON strings and booleans, integers as their decimal text and
   * floats as the text `formatFloat` renders. Other keys may be present.
   */
  predicate CarriesPageFields(m: map<string, Json>, c: ContractInfo, formatFloat: real -> string)
  {
    && CarriesText(m, c)
    && Lookup(m, "strike_price") == Str(formatFloat(c.strikePrice))
    && Lookup(m, "multiplier") == Str(IntToDecimal(c.multiplier))
    && Lookup(m, "size") == Str(IntToDecimal(c.size))
    && Lookup(m, "open_interest") == Str(IntToDecimal(c.openInterest))
    && Lookup(m, "close_price") == Str(formatFloat(c.closePrice))
  }

  /** `m` is an object of the JSON file carrying every field of `c`, numbers as JSON numbers. */
  predicate CarriesFileFields(m: map<string, Json>, c: ContractInfo)
  {
    && CarriesText(m, c)
    && Lookup(m, "strike_price") == Num(c.strikePrice)
    && Lookup(m, "multiplier") == Num(c.multiplier as real)
    && Lookup(m, "size") == Num(c.size as real)
    && Lookup(m, "open_interest") == Num(c.openInterest as real)
    && Lookup(m, "close_price") == Num(c.closePrice)
  }

  /** The non-numeric fields of `c`, as both dialects carry them. */
  predicate CarriesText(m: map<string, Json>, c: ContractInfo)
  {
    && Lookup(m, "id") == Str(c.id)
    && Lookup(m, "symbol") == Str(c.symbol)
    && Lookup(m, "name") == Str(c.name)
    && Lookup(m, "status") == Str(c.status)
    && Lookup(m, "tradable") == Bool(c.tradable)
    && Lookup(m, "expiration_date") == Str(c.expirationDate)
    && Lookup(m, "root_symbol") == Str(c.rootSymbol)
    && Lookup(m, "underlying_symbol") == Str(c.underlyingSymbol)
    && Lookup(m, "underlying_asset_id") == Str(c.underlyingAssetId)
    && Lookup(m, "type") == Str(c.optionType)
    && Lookup(m, "style") == Str(c.style)
    && Lookup(m, "open_interest_date") == Str(c.openInterestDate)
    && Lookup(m, "close_price_date") == Str(c.closePriceDate)
    && Lookup(m, "ppind") == Bool(c.ppind)
  }

  /** A bar in the snapshot endpoint's JSON form, its timestamp rendered by `formatTime`. */
  function EncodeBar(b: Bar, formatTime: Time -> string): map<string, Json>
  {
    map[
      "c" := Num(b.close), "h" := Num(b.high), "l" := Num(b.low),
      "n" := Num(b.numberOfTrades as real), "o" := Num(b.open),
      "t" := Str(formatTime(b.timestamp)), "v" := Num(b.volume as real), "vw" := Num(b.vwap)]
  }

  /** The greeks in the snapshot endpoint's JSON form. */
  function EncodeGreeks(g: Greeks): map<string, Json>
  {
    map["delta" := Num(g.delta), "gamma" := Num(g.gamma), "rho" := Num(g.rho),
        "theta" := Num(g.theta), "vega" := Num(g.vega)]
  }

  /** A quote in the snapshot endpoint's JSON form, its timestamp rendered by `formatTime`. */
  function EncodeQuote(q: Quote, formatTime: Time -> string): map<string, Json>
  {
    map[
      "ap" := Num(q.askPrice), "as" := Num(q.askSize as real), "ax" := Str(q.askExchange),
      "bp" := Num(q.bidPrice), "bs" := Num(q.bidSize as real), "bx" := Str(q.bidExchange),
      "c" := Str(q.condition), "t" := Str(formatTime(q.timestamp))]
  }

  /** A trade in the snapshot endpoint's JSON form, its timestamp rendered by `formatTime`. */
  function EncodeTrade(t: Trade, formatTime: Time -> string): map<string, Json>
  {
    map[
      "c" := Str(t.condition), "p" := Num(t.price), "s" := Num(t.size as real),
      "t" := Str(formatTime(t.timestamp)), "x" := Str(t.exchange)]
  }

  /**
   * A snapshot in the endpoint's JSON form: each part under its own key as
   * an object, the implied volatility as a number.
   */
  function EncodeSnapshot(md: MarketData, formatTime: Time -> string): map<string, Json>
  {
    map[
      "dailyBar" := Obj(EncodeBar(md.dailyBar, formatTime)),
      "prevDailyBar" := Obj(EncodeBar(md.prevDailyBar, formatTime)),
      "minuteBar" := Obj(EncodeBar(md.minuteBar, formatTime)),
      "greeks" := Obj(EncodeGreeks(md.greeks)),
      "impliedVolatility" := Num(md.impliedVol),
      "latestQuote" := Obj(EncodeQuote(md.latestQuote, formatTime)),
      "latestTrade" := Obj(EncodeTrade(md.latestTrade, formatTime))]
  }

  /**
   * `m` holds the market data `md` in the endpoint's JSON form, each part
   * under its own key as EncodeSnapshot writes it; other keys may be present.
   */
  predicate CarriesSnapshot(m: map<string, Json>, md: MarketData, formatTime: Time -> string)
  {
    && Lookup(m, "dailyBar") == Obj(EncodeBar(md.dailyBar, formatTime))
    && Lookup(m, "prevDailyBar") == Obj(EncodeBar(md.prevDailyBar, formatTime))
    && Lookup(m, "minuteBar") == Obj(EncodeBar(md.minuteBar, formatTime))
    && Lookup(m, "greeks") == Obj(EncodeGreeks(md.greeks))
    && Lookup(m, "impliedVolatility") == Num(md.impliedVol)
    && Lookup(m, "latestQuote") == Obj(EncodeQuote(md.latestQuote, formatTime))
    && Lookup(m, "latestTrade") == Obj(EncodeTrade(md.latestTrade, formatTime))
  }

  /**
   * The time parser reads back every timestamp of `md` in the layout the
   * client reads it with: RFC3339 for the three bars, RFC3339Nano for the
   * quote and the trade.
   */
  predicate SnapshotTimesReadBack(rt: Runtime, md: MarketData, formatTime: Time -> string)
  {
    && rt.parseTime(Rfc3339, formatTime(md.dailyBar.timestamp)) == Some(md.dailyBar.timestamp)
    && rt.parseTime(Rfc3339, formatTime(md.prevDailyBar.timestamp)) == Some(md.prevDailyBar.timestamp)
    && rt.parseTime(Rfc3339, formatTime(md.minuteBar.timestamp)) == Some(md.minuteBar.timestamp)
    && rt.parseTime(Rfc3339Nano, formatTime(md.latestQuote.timestamp)) == Some(md.latestQuote.timestamp)
    && rt.parseTime(Rfc3339Nano, formatTime(md.latestTrade.timestamp)) == Some(md.latestTrade.timestamp)
  }

  predicate Int64Fields(c: ContractInfo)
  {
    IsInt64(c.multiplier) && IsInt64(c.size) && IsInt64(c.openInterest)
  }

  /**
   * Decoding a contracts-page object that carries every field, numbers as
   * their decimal strings, reproduces every field exactly.
   */
  lemma PageInfoRoundTrip(rt: Runtime, m: map<string, Json>, c: ContractInfo, formatFloat: real -> string)
    requires Int64Fields(c) && CarriesPageFields(m, c, formatFloat)
    requires rt.parseFloat(formatFloat(c.strikePrice)) == Some(c.strikePrice)
    requires rt.parseFloat(formatFloat(c.closePrice)) == Some(c.closePrice)
    ensures PageInfo(rt, m) == c
  {
    ParseIntRoundTrip(c.multiplier);
    ParseIntRoundTrip(c.size);
    ParseIntRoundTrip(c.openInterest);
  }

  /**
   * The same contract sent to the contracts endpoint with JSON numbers
   * decodes with every numeric field 0 and every other field exact.
   */
  lemma PageDialectZeroesJsonNumbers(rt: Runtime, m: map<string, Json>, c: ContractInfo)
    requires Sound(rt) && CarriesFileFields(m, c)
    ensures PageInfo(rt, m) == c.(strikePrice := 0.0, multiplier := 0, size := 0, openInterest := 0, closePrice := 0.0)
  {
    PageNumbersMustBeStrings(rt, m);
  }

  /**
   * parseBar, and the inline bar decoding of the merge, read back every bar
   * whose timestamp the time parser reads back.
   */
  lemma BarRoundTrip(rt: Runtime, layout: Layout, b: Bar, formatTime: Time -> string)
    requires rt.parseTime(layout, formatTime(b.timestamp)) == Some(b.timestamp)
    ensures DecodeBar(rt, layout, EncodeBar(b, formatTime)) == b
  {
  }

  /** Each greek is read from its own key, so the greeks the endpoint sends are read back. */
  lemma GreeksRoundTrip(g: Greeks)
    ensures DecodeGreeks(EncodeGreeks(g)) == g
  {
  }

  /**
   * Each quote field is read from its own key ("ap", "as", "ax", "bp", "bs",
   * "bx", "c", and "t" as RFC3339Nano), so a quote is read back whenever the
   * time parser reads back its timestamp.
   */
  lemma QuoteRoundTrip(rt: Runtime, q: Quote, formatTime: Time -> string)
    requires rt.parseTime(Rfc3339Nano, formatTime(q.timestamp)) == Some(q.timestamp)
    ensures DecodeQuote(rt, EncodeQuote(q, formatTime)) == q
  {
  }

  /**
   * Each trade field is read from its own key ("c", "p", "s", "x", and "t"
   * as RFC3339Nano), so a trade is read back whenever the time parser reads
   * back its timestamp.
   */
  lemma TradeRoundTrip(rt: Runtime, t: Trade, formatTime: Time -> string)
    requires rt.parseTime(Rfc3339Nano, formatTime(t.timestamp)) == Some(t.timestamp)
    ensures DecodeTrade(rt, EncodeTrade(t, formatTime)) == t
  {
  }

  /**
   * A snapshot object carrying the encoding of `md` replaces the whole
   * market data of the option with `md`, whatever it held before, whenever
   * the timestamps read back in the client's layouts.
   */
  lemma SnapshotSplicesMarket(rt: Runtime, o: OptionRecord, s: map<string, Json>, md: MarketData,
                              formatTime: Time -> string)
    requires CarriesSnapshot(s, md, formatTime) && SnapshotTimesReadBack(rt, md, formatTime)
    ensures ApplySnapshot(rt, o, s) == OptionRecord(o.info, md)
  {
    var r := ApplySnapshot(rt, o, s).market;
    assert r.dailyBar == md.dailyBar by { BarRoundTrip(rt, Rfc3339, md.dailyBar, formatTime); }
    assert r.prevDailyBar == md.prevDailyBar by { BarRoundTrip(rt, Rfc3339, md.prevDailyBar, formatTime); }
    assert r.minuteBar == md.minuteBar by { BarRoundTrip(rt, Rfc3339, md.minuteBar, formatTime); }
    assert r.greeks == md.greeks by { GreeksRoundTrip(md.greeks); }
    assert r.latestQuote == md.latestQuote by { QuoteRoundTrip(rt, md.latestQuote, formatTime); }
    assert r.latestTrade == md.latestTrade by { TradeRoundTrip(rt, md.latestTrade, formatTime); }
  }

  /** The splice reads back the market data of an encoded snapshot. */
  lemma SnapshotRoundTrip(rt: Runtime, o: OptionRecord, md: MarketData, formatTime: Time -> string)
    requires SnapshotTimesReadBack(rt, md, formatTime)
    ensures ApplySnapshot(rt, o, EncodeSnapshot(md, formatTime)) == OptionRecord(o.info, md)
  {
    var e := EncodeSnapshot(md, formatTime);
    assert CarriesSnapshot(e, md, formatTime);
    SnapshotSplicesMarket(rt, o, e, md, formatTime);
  }

  /**
   * An object of the JSON file that carries every field of a contract and
   * the encoding of its market data decodes to exactly that option.
   */
  lemma FileOptionRoundTrip(rt: Runtime, m: map<string, Json>, c: ContractInfo, md: MarketData,
                            formatTime: Time -> string)
    requires CarriesFileFields(m, c) && CarriesSnapshot(m, md, formatTime)
    requires SnapshotTimesReadBack(rt, md, formatTime)
    ensures DecodeFileOption(rt, m) == OptionRecord(c, md)
  {
    SnapshotSplicesMarket(rt, OptionRecord(FileInfo(m), ZeroMarket), m, md, formatTime);
  }
}
