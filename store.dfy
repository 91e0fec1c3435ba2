/** The app store's state and the actions that change it. The derived lists
    (`filtered`, `sorted`, `watched`) are the functions of `StoreLists`
    applied to the fields. */
module Store {
  import opened Common
  import opened Text
  import opened Types
  import opened StoreLists
  import RealtimeSpec

  const DEFAULT_SORT: SortConfig := SortConfig(MarketCap, Desc)
  const DEFAULT_WATCHLIST: seq<string> := ["bitcoin", "ethereum"]

  /** One pass over the keys, each key mapped to its position; a later
      position overwrites an earlier one for a repeated key. */
  method BuildIndex(keys: seq<string>) returns (index: map<string, nat>)
    ensures index == IndexOf(keys)
  {
    index := map[];
    var i := 0;
    while i < |keys|
      invariant 0 <= i <= |keys|
      invariant index == IndexOf(keys[..i])
    {
      assert keys[..i + 1][..i] == keys[..i];
      index := index[keys[i] := i];
      i := i + 1;
    }
    assert keys[..i] == keys;
  }

  /** After a rebuild from `coins`, every row's id resolves through the
      merged id index to a row with that id, and every symbol entry names a
      row with that upper-cased symbol. */
  lemma RebuiltIndexesResolve(previous: map<string, nat>, coins: seq<Coin>)
    ensures forall i | 0 <= i < |coins| ::
      && coins[i].id in MergedIndex(previous, coins)
      && MergedIndex(previous, coins)[coins[i].id] < |coins|
      && coins[MergedIndex(previous, coins)[coins[i].id]].id == coins[i].id
    ensures forall s | s in IndexOf(SymbolKeys(coins)) ::
      IndexOf(SymbolKeys(coins))[s] < |coins| && Upper(coins[IndexOf(SymbolKeys(coins))[s]].symbol) == s
  {
    forall i | 0 <= i < |coins|
      ensures && coins[i].id in MergedIndex(previous, coins)
              && MergedIndex(previous, coins)[coins[i].id] < |coins|
              && coins[MergedIndex(previous, coins)[coins[i].id]].id == coins[i].id
    {
      assert Ids(coins)[i] == coins[i].id;
      MergedIndexFindsCurrentIds(previous, coins, coins[i].id);
    }
    forall s | s in IndexOf(SymbolKeys(coins))
      ensures IndexOf(SymbolKeys(coins))[s] < |coins| && Upper(coins[IndexOf(SymbolKeys(coins))[s]].symbol) == s
    {
      IndexOfLastWins(SymbolKeys(coins), s);
    }
  }

  class AppStore {
    var search: string
    var sort: SortConfig
    var watchlist: seq<string>
    var watchlistOnly: bool
    var list: seq<Coin>
    /** Row position by coin id. */
    var byId: map<string, nat>
    /** Row position by upper-cased symbol, for the realtime handler. */
    var symbolIndex: map<string, nat>

    /** The id of every current row resolves to a row with that id, and
        every symbol index entry names a row with that upper-cased symbol.
        Ids of rows that are gone may stay in the id index (see README,
        Findings). */
    ghost predicate Valid()
      reads this
    {
      && (forall i | 0 <= i < |list| ::
            list[i].id in byId && byId[list[i].id] < |list| && list[byId[list[i].id]].id == list[i].id)
      && (forall s | s in symbolIndex :: symbolIndex[s] < |list| && Upper(list[symbolIndex[s]].symbol) == s)
    }

    /** A new store. `savedSort` and `savedWatchlist` are what persistent
        storage held, if anything readable; otherwise the defaults apply. */
    constructor (savedSort: Option<SortConfig>, savedWatchlist: Option<seq<string>>)
      ensures Valid()
      ensures search == "" && !watchlistOnly
      ensures sort == if savedSort.Some? then savedSort.value else DEFAULT_SORT
      ensures watchlist == if savedWatchlist.Some? then savedWatchlist.value else DEFAULT_WATCHLIST
      ensures list == [] && byId == map[] && symbolIndex == map[]
    {
      search := "";
      sort := if savedSort.Some? then savedSort.value else DEFAULT_SORT;
      watchlist := if savedWatchlist.Some? then savedWatchlist.value else DEFAULT_WATCHLIST;
      watchlistOnly := false;
      list := [];
      byId := map[];
      symbolIndex := map[];
    }

    method SetSearch(s: string)
      modifies this
      ensures search == s
      ensures sort == old(sort) && watchlist == old(watchlist) && watchlistOnly == old(watchlistOnly)
      ensures list == old(list) && byId == old(byId) && symbolIndex == old(symbolIndex)
    {
      search := s;
    }

    method ClearSearch()
      modifies this
      ensures search == ""
      ensures sort == old(sort) && watchlist == old(watchlist) && watchlistOnly == old(watchlistOnly)
      ensures list == old(list) && byId == old(byId) && symbolIndex == old(symbolIndex)
    {
      search := "";
    }

    method ToggleWatchlistOnly()
      modifies this
      ensures watchlistOnly == !old(watchlistOnly)
      ensures search == old(search) && sort == old(sort) && watchlist == old(watchlist)
      ensures list == old(list) && byId == old(byId) && symbolIndex == old(symbolIndex)
    {
      watchlistOnly := !watchlistOnly;
    }

    method SetWatchlistOnly(v: bool)
      modifies this
      ensures watchlistOnly == v
      ensures search == old(search) && sort == old(sort) && watchlist == old(watchlist)
      ensures list == old(list) && byId == old(byId) && symbolIndex == old(symbolIndex)
    {
      watchlistOnly := v;
    }

    method SetSort(field: SortField)
      modifies this
      ensures sort == NextSort(old(sort), field)
      ensures search == old(search) && watchlist == old(watchlist) && watchlistOnly == old(watchlistOnly)
      ensures list == old(list) && byId == old(byId) && symbolIndex == old(symbolIndex)
    {
      if sort.field == field {
        sort := sort.(direction := if sort.direction == Asc then Desc else Asc);
      } else {
        sort := SortConfig(field, Desc);
      }
    }

    method ToggleWatch(id: string)
      modifies this
      ensures watchlist == Toggled(old(watchlist), id)
      ensures search == old(search) && sort == old(sort) && watchlistOnly == old(watchlistOnly)
      ensures list == old(list) && byId == old(byId) && symbolIndex == old(symbolIndex)
    {
      var i := FirstIndex(watchlist, id);
      if i.Some? {
        watchlist := watchlist[..i.value] + watchlist[i.value + 1..];
      } else {
        watchlist := watchlist + [id];
      }
    }

    /** The rebuild run when a new coin list arrives: for a non-empty list it
        builds both indexes in one pass, later rows overwriting earlier ones,
        and installs the list with them; an empty list changes nothing. The
        symbol index replaces the previous one, while the new id index is
        merged into the previous one (see README, Findings). */
    method RebuildIndex(coins: seq<Coin>)
      requires Valid()
      modifies this
      ensures Valid()
      ensures |coins| == 0 ==> list == old(list) && byId == old(byId) && symbolIndex == old(symbolIndex)
      ensures |coins| > 0 ==> list == coins && byId == MergedIndex(old(byId), coins) && symbolIndex == IndexOf(SymbolKeys(coins))
      ensures search == old(search) && sort == old(sort) && watchlist == old(watchlist) && watchlistOnly == old(watchlistOnly)
    {
      if |coins| == 0 {
        return;
      }
      var ids := BuildIndex(Ids(coins));
      var syms := BuildIndex(SymbolKeys(coins));
      var merged := byId + ids;
      assert merged == MergedIndex(byId, coins);
      RebuiltIndexesResolve(byId, coins);
      list := coins;
      byId := merged;
      symbolIndex := syms;
      assert unchanged(this`search, this`sort, this`watchlist, this`watchlistOnly);
    }

    /** The realtime data handler: for a known symbol, the five market fields
        of its row take the ticker's values; an unknown symbol changes nothing. */
    method ApplyRealtime(symbol: string, data: RealtimeSpec.RealtimeData)
      requires Valid()
      modifies this
      ensures Valid()
      ensures symbol !in symbolIndex ==> list == old(list)
      ensures symbol in symbolIndex ==>
        var i := symbolIndex[symbol];
        && i < |old(list)|
        && list == old(list)[i := Patched(old(list)[i], data.price, data.change, data.volume, data.high, data.low)]
      ensures search == old(search) && sort == old(sort) && watchlist == old(watchlist) && watchlistOnly == old(watchlistOnly)
      ensures byId == old(byId) && symbolIndex == old(symbolIndex)
    {
      if symbol in symbolIndex {
        var i := symbolIndex[symbol];
        list := list[i := Patched(list[i], data.price, data.change, data.volume, data.high, data.low)];
      }
    }

    /** `getCoinById`: what it finds is a current row, and the id of a current
        row finds a row with that id. */
    method CoinById(id: string) returns (r: Option<Coin>)
      requires Valid()
      ensures r == GetCoinById(byId, list, id)
      ensures r.Some? ==> r.value in list
      ensures (exists i | 0 <= i < |list| :: list[i].id == id) ==> r.Some? && r.value.id == id
    {
      if id in byId && byId[id] < |list| {
        r := Some(list[byId[id]]);
      } else {
        r := None;
      }
    }

    /** `stats`: one pass over the list counting gainers and losers. */
    method Stats() returns (st: StoreLists.Stats)
      ensures st == StoreLists.Stats(|list|, |Filtered(list, search, watchlistOnly, watchlist)|, |watchlist|,
                                     Gainers(list), Losers(list))
      ensures st.gainers + st.losers <= st.total
    {
      var gainers, losers := 0, 0;
      var i := 0;
      while i < |list|
        invariant 0 <= i <= |list|
        invariant gainers == Gainers(list[..i]) && losers == Losers(list[..i])
      {
        assert list[..i + 1][..i] == list[..i];
        if list[i].priceChange24h > 0.0 {
          gainers := gainers + 1;
        } else if list[i].priceChange24h < 0.0 {
          losers := losers + 1;
        }
        i := i + 1;
      }
      assert list[..i] == list;
      GainersLosersPartition(list);
      st := StoreLists.Stats(|list|, |Filtered(list, search, watchlistOnly, watchlist)|, |watchlist|, gainers, losers);
    }
  }
}
