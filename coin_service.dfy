/** `CoinService`: the Binance ticker-to-coin mapping, the name tables and the search filter. */
module CoinService {
  import opened Wrappers
  import opened Seqs
  import opened Text
  import opened CoinTypes

  /** A Binance 24-hour ticker, its numeric strings already parsed. */
  datatype Ticker = Ticker(symbol: string, lastPrice: real, priceChangePercent: real, priceChange: real)

  /** `getKoreanName`: the table entry for the five listed symbols, the symbol otherwise. */
  function KoreanName(symbol: string): (r: string)
    ensures symbol == "BTCUSDT" ==> r == "비트코인"
    ensures symbol == "ETHUSDT" ==> r == "이더리움"
    ensures symbol == "BNBUSDT" ==> r == "바이낸스 코인"
    ensures symbol == "ADAUSDT" ==> r == "에이다"
    ensures symbol == "DOGEUSDT" ==> r == "도지코인"
    ensures symbol !in {"BTCUSDT", "ETHUSDT", "BNBUSDT", "ADAUSDT", "DOGEUSDT"} ==> r == symbol
  {
    var names := map["BTCUSDT" := "비트코인", "ETHUSDT" := "이더리움", "BNBUSDT" := "바이낸스 코인",
                     "ADAUSDT" := "에이다", "DOGEUSDT" := "도지코인"];
    if symbol in names && names[symbol] != "" then names[symbol] else symbol
  }

  /** `getEnglishName`: the table entry for the five listed symbols, the symbol otherwise. */
  function EnglishName(symbol: string): (r: string)
    ensures symbol == "BTCUSDT" ==> r == "Bitcoin"
    ensures symbol == "ETHUSDT" ==> r == "Ethereum"
    ensures symbol == "BNBUSDT" ==> r == "Binance Coin"
    ensures symbol == "ADAUSDT" ==> r == "Cardano"
    ensures symbol == "DOGEUSDT" ==> r == "Dogecoin"
    ensures symbol !in {"BTCUSDT", "ETHUSDT", "BNBUSDT", "ADAUSDT", "DOGEUSDT"} ==> r == symbol
  {
    var names := map["BTCUSDT" := "Bitcoin", "ETHUSDT" := "Ethereum", "BNBUSDT" := "Binance Coin",
                     "ADAUSDT" := "Cardano", "DOGEUSDT" := "Dogecoin"];
    if symbol in names && names[symbol] != "" then names[symbol] else symbol
  }

  function ToCoin(id: string, t: Ticker): Coin {
    Coin(id, t.symbol, "Binance", KoreanName(t.symbol), EnglishName(t.symbol), false,
         Some(t.lastPrice), Some(t.priceChangePercent / 100.0), Some(t.priceChange))
  }

  /** The record mapping of `fetchCoins`: one coin per requested symbol, in request order.
      `tickers[i]` is the response for `symbols[i]`, as `Promise.all` keeps the order. */
  function FetchCoins(symbols: seq<string>, tickers: seq<Ticker>): (r: seq<Coin>)
    requires |tickers| == |symbols|
    ensures |r| == |symbols|
    ensures forall i :: 0 <= i < |r| ==>
      && r[i].id == symbols[i]
      && r[i].symbol == tickers[i].symbol
      && r[i].market == "Binance"
      && r[i].koreanName == KoreanName(tickers[i].symbol)
      && r[i].englishName == EnglishName(tickers[i].symbol)
      && !r[i].isFavorite
      && r[i].currentPrice == Some(tickers[i].lastPrice)
      && r[i].changeRate == Some(tickers[i].priceChangePercent / 100.0)
      && r[i].changePrice == Some(tickers[i].priceChange)
  {
    if symbols == [] then [] else [ToCoin(symbols[0], tickers[0])] + FetchCoins(symbols[1..], tickers[1..])
  }

  /** The `searchCoins` predicate: the lower-cased query occurs in the lower-cased symbol,
      Korean name or English name. */
  predicate MatchesQuery(c: Coin, query: string) {
    var q := Lower(query);
    Contains(Lower(c.symbol), q) || Contains(Lower(c.koreanName), q) || Contains(Lower(c.englishName), q)
  }

  /** `searchCoins` over the fetched coin list. */
  function SearchCoins(coins: seq<Coin>, query: string): (r: seq<Coin>)
    ensures IsSubsequence(r, coins)
    ensures forall c :: c in r <==> c in coins && MatchesQuery(c, query)
    ensures forall c :: multiset(r)[c] == if MatchesQuery(c, query) then multiset(coins)[c] else 0
  {
    FilterCounts(coins, (c: Coin) => MatchesQuery(c, query));
    Filter(coins, (c: Coin) => MatchesQuery(c, query))
  }

  /** The empty query keeps every coin. */
  lemma SearchEmptyQuery(coins: seq<Coin>)
    ensures SearchCoins(coins, "") == coins
  {
    forall c | c in coins ensures MatchesQuery(c, "") {
      assert Lower("") == "";
    }
    FilterAll(coins, (c: Coin) => MatchesQuery(c, ""));
  }

  /** A coin matches exactly when the lower-cased query occurs at some position of one of its
      three lower-cased names. */
  lemma MatchesQueryIff(c: Coin, query: string)
    ensures MatchesQuery(c, query) <==>
      (exists i :: OccursAt(Lower(c.symbol), Lower(query), i))
      || (exists i :: OccursAt(Lower(c.koreanName), Lower(query), i))
      || (exists i :: OccursAt(Lower(c.englishName), Lower(query), i))
  {
    ContainsIff(Lower(c.symbol), Lower(query));
    ContainsIff(Lower(c.koreanName), Lower(query));
    ContainsIff(Lower(c.englishName), Lower(query));
    assert MatchesQuery(c, query) == (Contains(Lower(c.symbol), Lower(query))
      || Contains(Lower(c.koreanName), Lower(query)) || Contains(Lower(c.englishName), Lower(query)));
  }
}
