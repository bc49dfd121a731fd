/** The pure parts of the Upbit client: the ticker reshaping and the error classifier every
    request shares. */
module UpbitApi {
  import opened Wrappers

  /** One Upbit ticker as the API returns it, including fields the reshaping drops. */
  datatype UpbitTicker = UpbitTicker(
    market: string,
    tradeDate: string,
    tradeTime: string,
    timestamp: int,
    openingPrice: real,
    highPrice: real,
    lowPrice: real,
    tradePrice: real,
    prevClosingPrice: real,
    change: string,
    changePrice: real,
    changeRate: real,
    signedChangePrice: real,
    signedChangeRate: real,
    tradeVolume: real,
    accTradePrice: real,
    accTradePrice24h: real,
    accTradeVolume: real,
    accTradeVolume24h: real,
    highest52WeekPrice: real,
    lowest52WeekPrice: real)

  /** The output record of `formatTickerData`. */
  datatype TickerView = TickerView(
    market: string,
    tradeDate: string,
    tradeTime: string,
    tradeTimestamp: int,
    openingPrice: real,
    highPrice: real,
    lowPrice: real,
    tradePrice: real,
    prevClosingPrice: real,
    change: string,
    changePrice: real,
    changeRate: real,
    signedChangePrice: real,
    signedChangeRate: real,
    tradeVolume: real,
    accTradePrice: real,
    accTradePrice24h: real,
    accTradeVolume: real,
    accTradeVolume24h: real)

  function View(t: UpbitTicker): (v: TickerView)
    ensures SameFields(t, v)
  {
    TickerView(t.market, t.tradeDate, t.tradeTime, t.timestamp, t.openingPrice, t.highPrice,
               t.lowPrice, t.tradePrice, t.prevClosingPrice, t.change, t.changePrice, t.changeRate,
               t.signedChangePrice, t.signedChangeRate, t.tradeVolume, t.accTradePrice,
               t.accTradePrice24h, t.accTradeVolume, t.accTradeVolume24h)
  }

  /** `true` when `v` carries `t`'s fields under the same names, with `trade_timestamp` taken
      from `timestamp`. */
  predicate SameFields(t: UpbitTicker, v: TickerView) {
    && v.market == t.market && v.tradeDate == t.tradeDate && v.tradeTime == t.tradeTime
    && v.tradeTimestamp == t.timestamp
    && v.openingPrice == t.openingPrice && v.highPrice == t.highPrice && v.lowPrice == t.lowPrice
    && v.tradePrice == t.tradePrice && v.prevClosingPrice == t.prevClosingPrice
    && v.change == t.change && v.changePrice == t.changePrice && v.changeRate == t.changeRate
    && v.signedChangePrice == t.signedChangePrice && v.signedChangeRate == t.signedChangeRate
    && v.tradeVolume == t.tradeVolume && v.accTradePrice == t.accTradePrice
    && v.accTradePrice24h == t.accTradePrice24h && v.accTradeVolume == t.accTradeVolume
    && v.accTradeVolume24h == t.accTradeVolume24h
  }

  function ViewAll(data: seq<UpbitTicker>): (r: seq<TickerView>)
    ensures |r| == |data|
    ensures forall i :: 0 <= i < |data| ==> SameFields(data[i], r[i])
  {
    if data == [] then [] else [View(data[0])] + ViewAll(data[1..])
  }

  /** `formatTickerData`; `data` absent stands for null, undefined or a non-array. */
  function FormatTickerData(data: Option<seq<UpbitTicker>>): (r: seq<TickerView>)
    ensures data.None? || data.value == [] ==> r == []
    ensures data.Some? ==> |r| == |data.value|
    ensures data.Some? ==> forall i :: 0 <= i < |r| ==> SameFields(data.value[i], r[i])
  {
    if data.None? || |data.value| == 0 then [] else ViewAll(data.value)
  }

  // ---- logAndThrowError ----

  /** The `response` of an HTTP error: `data?.error?.message`, absent when any link is missing. */
  datatype ErrorResponse = ErrorResponse(status: int, errorMessage: Option<string>)

  /** The error a failed request raises: a response when the server answered, `request` when a
      request went out. */
  datatype RequestError = RequestError(message: string, response: Option<ErrorResponse>, request: bool)

  /** What `logAndThrowError` throws: one of its own errors, or the original one again. */
  datatype Thrown = NewError(message: string) | Rethrown(original: RequestError)

  /** `logAndThrowError`. It has no normal return: every result is a thrown error. */
  function LogAndThrowError(error: RequestError): (t: Thrown)
    ensures error.response.Some? ==>
      t == NewError("API Error: " + (if TruthyStr(error.response.value.errorMessage)
                                     then error.response.value.errorMessage.value else error.message))
    ensures error.response.None? && error.request ==> t == NewError("Network error: " + error.message)
    ensures error.response.None? && !error.request ==> t == Rethrown(error)
  {
    if error.response.Some? then
      var detail := error.response.value.errorMessage;
      NewError("API Error: " + (if TruthyStr(detail) then detail.value else error.message))
    else if error.request then NewError("Network error: " + error.message)
    else Rethrown(error)
  }
}
