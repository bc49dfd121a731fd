/** The coin record of `types/coin.ts`, as the dashboard's pure helpers use it. */
module CoinTypes {
  import opened Wrappers

  /** `CoinData`. The id is a string: the Binance mapping fills it with the trading symbol and
      the favorites page compares it with stored string ids. `changePrice` is the extra field
      the Binance mapping sets. */
  datatype Coin = Coin(
    id: string,
    symbol: string,
    market: string,
    koreanName: string,
    englishName: string,
    isFavorite: bool,
    currentPrice: Option<real>,
    changeRate: Option<real>,
    changePrice: Option<real>)
}
