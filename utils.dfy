/** The sort-key selector shared by the list views. */
module Utils {
  import opened Types

  /** `getSortValue`: the column a field name selects; any name other than
      the three listed selects the market cap. */
  function SortValue(coin: Coin, field: string): real {
    if field == "price" then coin.currentPrice
    else if field == "change_24h" then coin.priceChange24h
    else if field == "volume" then coin.totalVolume
    else coin.marketCap
  }

  /** Each sort field selects its own column, and every unknown name falls
      back to the market cap. */
  lemma SortValueSelectsColumn(coin: Coin, f: SortField, other: string)
    requires other != "price" && other != "change_24h" && other != "volume"
    ensures SortValue(coin, f.Name()) ==
      match f
      case MarketCap => coin.marketCap
      case Price => coin.currentPrice
      case Change24h => coin.priceChange24h
      case Volume => coin.totalVolume
    ensures SortValue(coin, other) == coin.marketCap
  {
  }
}
