/** The prices route: Bithumb ticker entries reshaped into a map keyed by market. The
    clock-derived fields (trade date and time, timestamps, 52-week dates) are not modelled. */
module PricesRoute {
  import opened Wrappers

  /** One element of the ticker response. Absent numbers stand for missing fields; `market`
      absent means the entry has no `market` key. */
  datatype Entry =
    | NotAnObject
    | TickerRecord(
        market: Option<string>,
        openingPrice: Option<real>,
        highPrice: Option<real>,
        maxPrice: Option<real>,
        lowPrice: Option<real>,
        minPrice: Option<real>,
        tradePrice: Option<real>,
        closingPrice: Option<real>,
        prevClosingPrice: Option<real>,
        fluctate24H: Option<real>,
        fluctateRate24H: Option<real>,
        signedChangeRate: Option<real>,
        unitsTraded: Option<real>,
        accTradeValue: Option<real>,
        accTradeValue24H: Option<real>,
        unitsTraded24H: Option<real>)

  datatype Change = Rise | Fall | Even

  datatype Quote = Quote(
    market: string,
    openingPrice: Option<real>,
    highPrice: Option<real>,
    lowPrice: Option<real>,
    tradePrice: Option<real>,
    prevClosingPrice: Option<real>,
    change: Change,
    changePrice: real,
    changeRate: real,
    signedChangePrice: real,
    signedChangeRate: real,
    tradeVolume: real,
    accTradePrice: real,
    accTradePrice24h: real,
    accTradeVolume: real,
    accTradeVolume24h: real,
    highest52WeekPrice: real,
    lowest52WeekPrice: real)

  /** The entries the loop keeps: objects that have a `market` key. */
  predicate Accepted(e: Entry) {
    e.TickerRecord? && e.market.Some?
  }

  /** `fluctate_24H > 0 ? 'RISE' : fluctate_24H < 0 ? 'FALL' : 'EVEN'`; a missing value compares
      false both ways. */
  function ChangeOf(f: Option<real>): (c: Change)
    ensures c == Rise <==> f.Some? && f.value > 0.0
    ensures c == Fall <==> f.Some? && f.value < 0.0
    ensures c == Even <==> f.None? || f.value == 0.0
  {
    if f.Some? && f.value > 0.0 then Rise else if f.Some? && f.value < 0.0 then Fall else Even
  }

  /** The record stored under `symbol` for entry `e`. */
  function FormatQuote(symbol: string, e: Entry): (q: Quote)
    requires e.TickerRecord?
    ensures q.market == "KRW-" + symbol
    ensures q.openingPrice == e.openingPrice && q.prevClosingPrice == e.prevClosingPrice
    // the 24-hour change: a missing or zero `fluctate_24H` reads as no change
    ensures q.signedChangePrice == OrZero(e.fluctate24H)
    ensures q.change == ChangeOf(e.fluctate24H)
    ensures q.changePrice >= 0.0 && q.changeRate >= 0.0
    ensures q.changePrice == Abs(q.signedChangePrice)
    ensures q.change == Rise <==> q.signedChangePrice > 0.0
    ensures q.change == Fall <==> q.signedChangePrice < 0.0
    // rates arrive as percentages and are stored as fractions
    ensures q.changeRate * 100.0 == Abs(OrZero(e.fluctateRate24H))
    ensures TruthyNum(e.signedChangeRate) ==> q.signedChangeRate == e.signedChangeRate.value
    ensures !TruthyNum(e.signedChangeRate) ==> q.signedChangeRate * 100.0 == OrZero(e.fluctateRate24H)
    // volumes and traded values: a missing or zero field reads as 0
    ensures q.tradeVolume == q.accTradeVolume == OrZero(e.unitsTraded)
    ensures q.accTradePrice == OrZero(e.accTradeValue)
    ensures q.accTradePrice24h == OrZero(e.accTradeValue24H)
    ensures q.accTradeVolume24h == OrZero(e.unitsTraded24H)
    ensures q.highest52WeekPrice == OrZero(e.maxPrice) && q.lowest52WeekPrice == OrZero(e.minPrice)
    ensures TruthyNum(e.highPrice) ==> q.highPrice == e.highPrice
    ensures !TruthyNum(e.highPrice) ==> q.highPrice == e.maxPrice
    ensures TruthyNum(e.lowPrice) ==> q.lowPrice == e.lowPrice
    ensures !TruthyNum(e.lowPrice) ==> q.lowPrice == e.minPrice
    ensures TruthyNum(e.tradePrice) ==> q.tradePrice == e.tradePrice
    ensures !TruthyNum(e.tradePrice) ==> q.tradePrice == e.closingPrice
  {
    Quote(
      "KRW-" + symbol,
      e.openingPrice,
      OrNum(e.highPrice, e.maxPrice),
      OrNum(e.lowPrice, e.minPrice),
      OrNum(e.tradePrice, e.closingPrice),
      e.prevClosingPrice,
      ChangeOf(e.fluctate24H),
      Abs(OrZero(e.fluctate24H)),
      Abs(OrZero(e.fluctateRate24H)) / 100.0,
      OrZero(e.fluctate24H),
      if TruthyNum(e.signedChangeRate) then e.signedChangeRate.value else OrZero(e.fluctateRate24H) / 100.0,
      OrZero(e.unitsTraded),
      OrZero(e.accTradeValue),
      OrZero(e.accTradeValue24H),
      OrZero(e.unitsTraded),
      OrZero(e.unitsTraded24H),
      OrZero(e.maxPrice),
      OrZero(e.minPrice))
  }

  /** The map the loop builds from `entries`, processed in order. Every stored record's `market`
      is `KRW-` followed by its key. */
  function Quotes(entries: seq<Entry>): (m: map<string, Quote>)
    ensures forall k :: k in m ==> m[k].market == "KRW-" + k
    decreases |entries|
  {
    if entries == [] then map[]
    else
      var m := Quotes(entries[..|entries| - 1]);
      var e := entries[|entries| - 1];
      if Accepted(e) then m[e.market.value := FormatQuote(e.market.value, e)] else m
  }

  /** Entry `i` is kept and carries market `k`. */
  ghost predicate KeyedAt(entries: seq<Entry>, i: int, k: string) {
    0 <= i < |entries| && Accepted(entries[i]) && entries[i].market.value == k
  }

  /** The map has a key for exactly the markets of the kept entries. */
  lemma {:induction false} QuotesKeys(entries: seq<Entry>, k: string)
    ensures k in Quotes(entries) <==> exists i :: KeyedAt(entries, i, k)
    decreases |entries|
  {
    if entries != [] {
      var n := |entries| - 1;
      var init := entries[..n];
      QuotesKeys(init, k);
      forall i | 0 <= i < n ensures KeyedAt(init, i, k) <==> KeyedAt(entries, i, k) {
        assert init[i] == entries[i];
      }
      var e := entries[n];
      assert Quotes(entries) == if Accepted(e) then Quotes(init)[e.market.value := FormatQuote(e.market.value, e)]
                                else Quotes(init);
      if Accepted(e) && e.market.value == k {
        assert KeyedAt(entries, n, k);
      } else {
        assert !KeyedAt(entries, n, k);
        if exists i :: KeyedAt(entries, i, k) {
          var i :| KeyedAt(entries, i, k);
          assert i < n && KeyedAt(init, i, k);
        }
      }
    }
  }

  /** Each key holds the record of the LAST kept entry with that market: later entries
      overwrite earlier ones. */
  lemma {:induction false} QuotesLastWins(entries: seq<Entry>, k: string)
    requires k in Quotes(entries)
    ensures exists i :: (KeyedAt(entries, i, k) && Quotes(entries)[k] == FormatQuote(k, entries[i])
                         && forall j :: i < j < |entries| ==> !KeyedAt(entries, j, k))
    decreases |entries|
  {
    var n := |entries| - 1;
    var init := entries[..n];
    var e := entries[n];
    if Accepted(e) && e.market.value == k {
      assert KeyedAt(entries, n, k);
    } else {
      QuotesLastWins(init, k);
      var i :| KeyedAt(init, i, k) && Quotes(init)[k] == FormatQuote(k, init[i])
        && forall j :: i < j < |init| ==> !KeyedAt(init, j, k);
      assert init[i] == entries[i];
      forall j | i < j < |entries| ensures !KeyedAt(entries, j, k) {
        if j < n { assert init[j] == entries[j]; assert !KeyedAt(init, j, k); }
      }
      assert KeyedAt(entries, i, k);
    }
  }

  /** Entries without a `market` key, and non-objects, leave the map as it was. */
  lemma SkippedEntry(entries: seq<Entry>, e: Entry)
    requires !Accepted(e)
    ensures Quotes(entries + [e]) == Quotes(entries)
  {
    assert (entries + [e])[..|entries|] == entries;
  }

  /** The loop over the ticker entries, filling the map in place. */
  method BuildQuotes(entries: seq<Entry>) returns (formatted: map<string, Quote>)
    ensures formatted == Quotes(entries)
  {
    formatted := map[];
    var i := 0;
    while i < |entries|
      invariant 0 <= i <= |entries|
      invariant formatted == Quotes(entries[..i])
    {
      var e := entries[i];
      assert entries[..i + 1][..i] == entries[..i];
      if e.TickerRecord? && e.market.Some? {
        formatted := formatted[e.market.value := FormatQuote(e.market.value, e)];
      }
      i := i + 1;
    }
    assert entries[..|entries|] == entries;
  }

  /** What `getTicker` yields: a thrown error with its message, if any, or the response data,
      absent when it is not an array. */
  datatype TickerFetch = FetchFailed(message: Option<string>) | Fetched(data: Option<seq<Entry>>)

  datatype Body = QuoteMap(quotes: map<string, Quote>) | ErrorBody(error: string, detail: string)
  datatype Response = Response(status: int, body: Body)

  const MissingSymbolsMessage: string := "코인 심볼 목록이 필요합니다."
  const PriceErrorMessage: string := "코인 가격 정보를 불러오는 중 오류가 발생했습니다."
  const UnknownErrorMessage: string := "알 수 없는 오류"

  /** GET. `symbols` is the query parameter; `ticker` is what `getTicker` yields for it. */
  method Get(symbols: Option<string>, ticker: TickerFetch) returns (r: Response)
    ensures !TruthyStr(symbols) ==> r == Response(400, ErrorBody(MissingSymbolsMessage, ""))
    ensures TruthyStr(symbols) && ticker.FetchFailed? ==>
      r == Response(500, ErrorBody(PriceErrorMessage,
        if TruthyStr(ticker.message) then ticker.message.value else UnknownErrorMessage))
    ensures TruthyStr(symbols) && ticker.Fetched? && ticker.data.None? ==> r == Response(200, QuoteMap(map[]))
    ensures TruthyStr(symbols) && ticker.Fetched? && ticker.data.Some? ==>
      r == Response(200, QuoteMap(Quotes(ticker.data.value)))
  {
    if !TruthyStr(symbols) {
      return Response(400, ErrorBody(MissingSymbolsMessage, ""));
    }
    match ticker
    case FetchFailed(message) =>
      r := Response(500, ErrorBody(PriceErrorMessage,
        if TruthyStr(message) then message.value else UnknownErrorMessage));
    case Fetched(data) =>
      var formatted: map<string, Quote> := map[];
      if data.Some? && |data.value| > 0 {
        formatted := BuildQuotes(data.value);
      }
      r := Response(200, QuoteMap(formatted));
  }
}
