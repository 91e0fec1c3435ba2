/** The shapes of the coin list and of the sort setting. */
module Types {
  import opened Common

  /** One row of the coin list. Numbers are reals; the optional sparkline is
      the seven-day price series. */
  datatype Coin = Coin(
    id: string,
    symbol: string,
    name: string,
    image: string,
    currentPrice: real,
    priceChange24h: real,
    marketCap: real,
    marketCapRank: real,
    totalVolume: real,
    high24h: real,
    low24h: real,
    sparkline: Option<seq<real>>)

  datatype SortField = MarketCap | Price | Change24h | Volume
  {
    /** The field's name as the sort setting stores it. */
    function Name(): string {
      match this
      case MarketCap => "market_cap"
      case Price => "price"
      case Change24h => "change_24h"
      case Volume => "volume"
    }
  }

  datatype SortDirection = Asc | Desc

  datatype SortConfig = SortConfig(field: SortField, direction: SortDirection)
}
