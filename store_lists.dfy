/** The list logic of the app store with the reactive wrappers removed: the
    sort toggle, the watchlist toggle, the search/watchlist filter, the
    watched-first ordering, the watched-coin lookup, the sign counts of the
    stats, and the id and symbol indexes. */
module StoreLists {
  import opened Common
  import opened Text
  import opened Types
  import opened Utils

  // ---------------------------------------------------------------------------
  // Sort setting

  /** `setSort`: the current field flips the direction; another field is
      selected with descending order. */
  function NextSort(s: SortConfig, field: SortField): (r: SortConfig)
    ensures r.field == field
    ensures s.field == field ==> r.direction != s.direction
    ensures s.field != field ==> r.direction == Desc
  {
    if s.field == field then s.(direction := if s.direction == Asc then Desc else Asc)
    else SortConfig(field, Desc)
  }

  /** Choosing the same field twice restores the setting; choosing another
      field and then this one gives descending order on this one. */
  lemma NextSortRoundTrip(s: SortConfig, f: SortField)
    ensures NextSort(NextSort(s, s.field), s.field) == s
    ensures f != s.field ==> NextSort(NextSort(s, f), s.field) == SortConfig(s.field, Desc)
  {
  }

  // ---------------------------------------------------------------------------
  // Watchlist toggle

  /** `Array.prototype.indexOf`. */
  function FirstIndex(xs: seq<string>, x: string): (r: Option<nat>)
    ensures r.None? <==> x !in xs
    ensures r.Some? ==> r.value < |xs| && xs[r.value] == x && x !in xs[..r.value]
  {
    if xs == [] then None
    else if xs[0] == x then Some(0)
    else
      match FirstIndex(xs[1..], x)
      case None => None
      case Some(i) =>
        assert xs[..i + 1] == [xs[0]] + xs[1..][..i];
        Some(i + 1)
  }

  /** `toggleWatch`: removes the first occurrence of `id`, or appends it. */
  function Toggled(list: seq<string>, id: string): seq<string> {
    match FirstIndex(list, id)
    case Some(i) => list[..i] + list[i + 1..]
    case None => list + [id]
  }

  /** Toggling removes exactly one occurrence of a present id and adds one of
      an absent id; no other id is affected. */
  lemma ToggledCounts(list: seq<string>, id: string)
    ensures multiset(Toggled(list, id))
            == if id in list then multiset(list) - multiset{id} else multiset(list) + multiset{id}
  {
    match FirstIndex(list, id)
    case Some(i) =>
      assert list == list[..i] + [id] + list[i + 1..];
      assert multiset(list) == multiset(list[..i]) + multiset{id} + multiset(list[i + 1..]);
    case None =>
  }

  /** Toggling flips membership of `id` and leaves every other id as it was. */
  lemma ToggledMembership(list: seq<string>, id: string)
    requires NoDup(list)
    ensures id in Toggled(list, id) <==> id !in list
    ensures forall y | y != id :: y in Toggled(list, id) <==> y in list
  {
    ToggledCounts(list, id);
    if id in list {
      NoDupCountsOnce(list, id);
    }
    var r := Toggled(list, id);
    forall y
      ensures y in r <==> y in multiset(r)
      ensures y in list <==> y in multiset(list)
    {
    }
  }

  /** A duplicate-free watchlist stays duplicate-free. */
  lemma ToggledNoDup(list: seq<string>, id: string)
    requires NoDup(list)
    ensures NoDup(Toggled(list, id))
  {
    var r := Toggled(list, id);
    match FirstIndex(list, id)
    case Some(i) =>
      forall a, b | 0 <= a < b < |r|
        ensures r[a] != r[b]
      {
        var a' := if a < i then a else a + 1;
        var b' := if b < i then b else b + 1;
        assert r[a] == list[a'] && r[b] == list[b'];
      }
    case None =>
  }

  /** Toggling an absent id twice gives the list back. */
  lemma ToggleTwiceRestores(list: seq<string>, id: string)
    requires id !in list
    ensures Toggled(Toggled(list, id), id) == list
  {
    var r := Toggled(list, id);
    assert r == list + [id];
    assert FirstIndex(r, id) == Some(|list|) by {
      assert r[..|list|] == list;
    }
    assert r[..|list|] + r[|list| + 1..] == list;
  }

  lemma {:induction false} NoDupCountsOnce(xs: seq<string>, x: string)
    requires NoDup(xs) && x in xs
    ensures multiset(xs)[x] == 1
  {
    if xs[0] == x {
      NoDupTail(xs);
      assert xs == [xs[0]] + xs[1..];
    } else {
      NoDupTail(xs);
      NoDupCountsOnce(xs[1..], x);
      assert xs == [xs[0]] + xs[1..];
    }
  }

  // ---------------------------------------------------------------------------
  // Filter

  /** The normalised query: lower-cased, then trimmed. */
  function Query(search: string): string {
    Trim(Lower(search))
  }

  /** The filter's test for one coin: a non-empty query must occur in the
      lower-cased name or in the symbol as stored, and with the watchlist
      filter on the id must be watched. */
  predicate Matches(c: Coin, q: string, watchlistOnly: bool, watchlist: seq<string>) {
    && (q == "" || Contains(Lower(c.name), q) || Contains(c.symbol, q))
    && (!watchlistOnly || c.id in watchlist)
  }

  /** `list.filter(...)`, in list order. */
  function FilterCoins(list: seq<Coin>, q: string, watchlistOnly: bool, watchlist: seq<string>): (r: seq<Coin>)
    ensures |r| <= |list|
  {
    if list == [] then []
    else
      var rest := FilterCoins(list[1..], q, watchlistOnly, watchlist);
      if Matches(list[0], q, watchlistOnly, watchlist) then [list[0]] + rest else rest
  }

  /** `filtered`: with an empty query and the watchlist filter off the list
      itself, otherwise the coins that match. */
  function Filtered(list: seq<Coin>, search: string, watchlistOnly: bool, watchlist: seq<string>): seq<Coin> {
    var q := Query(search);
    if q == "" && !watchlistOnly then list else FilterCoins(list, q, watchlistOnly, watchlist)
  }

  /** Filtering keeps every occurrence of a matching coin and drops every
      other coin. */
  lemma {:induction false} FilterCoinsCounts(list: seq<Coin>, q: string, watchlistOnly: bool, watchlist: seq<string>, c: Coin)
    ensures multiset(FilterCoins(list, q, watchlistOnly, watchlist))[c]
            == if Matches(c, q, watchlistOnly, watchlist) then multiset(list)[c] else 0
  {
    if list != [] {
      FilterCoinsCounts(list[1..], q, watchlistOnly, watchlist, c);
      assert list == [list[0]] + list[1..];
    }
  }

  /** Filtering keeps the list when every coin matches. */
  lemma {:induction false} FilterCoinsKeepsAll(list: seq<Coin>, q: string, watchlistOnly: bool, watchlist: seq<string>)
    requires forall i | 0 <= i < |list| :: Matches(list[i], q, watchlistOnly, watchlist)
    ensures FilterCoins(list, q, watchlistOnly, watchlist) == list
  {
    if list != [] {
      FilterCoinsKeepsAll(list[1..], q, watchlistOnly, watchlist);
      assert list == [list[0]] + list[1..];
    }
  }

  /** The short cut of `filtered` agrees with filtering, and the result holds
      exactly the matching coins, each as often as in the list. */
  lemma FilteredIsFilter(list: seq<Coin>, search: string, watchlistOnly: bool, watchlist: seq<string>, c: Coin)
    ensures Filtered(list, search, watchlistOnly, watchlist) == FilterCoins(list, Query(search), watchlistOnly, watchlist)
    ensures multiset(Filtered(list, search, watchlistOnly, watchlist))[c]
            == if Matches(c, Query(search), watchlistOnly, watchlist) then multiset(list)[c] else 0
    ensures c in Filtered(list, search, watchlistOnly, watchlist) <==> c in list && Matches(c, Query(search), watchlistOnly, watchlist)
  {
    var q := Query(search);
    if q == "" && !watchlistOnly {
      FilterCoinsKeepsAll(list, q, watchlistOnly, watchlist);
    }
    FilterCoinsCounts(list, q, watchlistOnly, watchlist, c);
    assert c in Filtered(list, search, watchlistOnly, watchlist) <==> c in multiset(Filtered(list, search, watchlistOnly, watchlist));
    assert c in list <==> c in multiset(list);
  }

  /** A filter keeps the list's order: the result is a subsequence of it. */
  predicate IsSubsequence(a: seq<Coin>, b: seq<Coin>)
    decreases |b|
  {
    a == [] || (b != [] && ((a[0] == b[0] && IsSubsequence(a[1..], b[1..])) || IsSubsequence(a, b[1..])))
  }

  lemma {:induction false} FilterCoinsKeepsOrder(list: seq<Coin>, q: string, watchlistOnly: bool, watchlist: seq<string>)
    ensures IsSubsequence(FilterCoins(list, q, watchlistOnly, watchlist), list)
  {
    if list != [] {
      var rest := FilterCoins(list[1..], q, watchlistOnly, watchlist);
      FilterCoinsKeepsOrder(list[1..], q, watchlistOnly, watchlist);
      if Matches(list[0], q, watchlistOnly, watchlist) {
        assert ([list[0]] + rest)[1..] == rest;
      }
    }
  }

  // ---------------------------------------------------------------------------
  // Watched-first ordering

  /** The comparator of `sorted`: watched coins first, then the sort value,
      ascending or descending. A result of at most 0 lets `a` come first. */
  function Compare(a: Coin, b: Coin, cfg: SortConfig, watchlist: seq<string>): real {
    var aWatched := a.id in watchlist;
    var bWatched := b.id in watchlist;
    var m := if cfg.direction == Asc then 1.0 else -1.0;
    if aWatched && !bWatched then -1.0
    else if !aWatched && bWatched then 1.0
    else (SortValue(a, cfg.field.Name()) - SortValue(b, cfg.field.Name())) * m
  }

  predicate InOrder(a: Coin, b: Coin, cfg: SortConfig, watchlist: seq<string>) {
    Compare(a, b, cfg, watchlist) <= 0.0
  }

  /** The comparator orders by the pair (unwatched, signed sort value). */
  lemma CompareMeaning(a: Coin, b: Coin, cfg: SortConfig, watchlist: seq<string>)
    ensures InOrder(a, b, cfg, watchlist) <==>
      var va, vb := SortValue(a, cfg.field.Name()), SortValue(b, cfg.field.Name());
      || (a.id in watchlist && b.id !in watchlist)
      || ((a.id in watchlist <==> b.id in watchlist) && (if cfg.direction == Asc then va <= vb else vb <= va))
  {
  }

  /** The comparator is a total preorder, which is what the sort needs. */
  lemma InOrderTotalPreorder(a: Coin, b: Coin, c: Coin, cfg: SortConfig, watchlist: seq<string>)
    ensures InOrder(a, b, cfg, watchlist) || InOrder(b, a, cfg, watchlist)
    ensures InOrder(a, b, cfg, watchlist) && InOrder(b, c, cfg, watchlist) ==> InOrder(a, c, cfg, watchlist)
  {
    CompareMeaning(a, b, cfg, watchlist);
    CompareMeaning(b, a, cfg, watchlist);
    CompareMeaning(b, c, cfg, watchlist);
    CompareMeaning(a, c, cfg, watchlist);
  }

  predicate Ordered(s: seq<Coin>, cfg: SortConfig, watchlist: seq<string>) {
    forall i, j | 0 <= i < j < |s| :: InOrder(s[i], s[j], cfg, watchlist)
  }

  /** Inserts `x` before the first element it may precede. */
  function Insert(x: Coin, s: seq<Coin>, cfg: SortConfig, watchlist: seq<string>): (r: seq<Coin>)
    ensures multiset(r) == multiset(s) + multiset{x}
  {
    if s == [] then [x]
    else if InOrder(x, s[0], cfg, watchlist) then [x] + s
    else
      assert s == [s[0]] + s[1..];
      [s[0]] + Insert(x, s[1..], cfg, watchlist)
  }

  /** The sort of `sorted` (`Array.prototype.sort` with the comparator), as an
      insertion sort. */
  function SortCoins(s: seq<Coin>, cfg: SortConfig, watchlist: seq<string>): (r: seq<Coin>)
    ensures multiset(r) == multiset(s)
  {
    if s == [] then []
    else
      assert s == [s[0]] + s[1..];
      Insert(s[0], SortCoins(s[1..], cfg, watchlist), cfg, watchlist)
  }

  /** `sorted`: the filtered list in watched-first order. */
  function Sorted(list: seq<Coin>, search: string, watchlistOnly: bool, watchlist: seq<string>, cfg: SortConfig): seq<Coin> {
    SortCoins(Filtered(list, search, watchlistOnly, watchlist), cfg, watchlist)
  }

  lemma {:induction false} InsertOrdered(x: Coin, s: seq<Coin>, cfg: SortConfig, watchlist: seq<string>)
    requires Ordered(s, cfg, watchlist)
    ensures Ordered(Insert(x, s, cfg, watchlist), cfg, watchlist)
  {
    if s == [] {
    } else if InOrder(x, s[0], cfg, watchlist) {
      var r := [x] + s;
      forall i, j | 0 <= i < j < |r|
        ensures InOrder(r[i], r[j], cfg, watchlist)
      {
        if i == 0 && j > 1 {
          InOrderTotalPreorder(x, s[0], s[j - 1], cfg, watchlist);
        }
      }
    } else {
      InOrderTotalPreorder(x, s[0], x, cfg, watchlist);
      var tail := Insert(x, s[1..], cfg, watchlist);
      InsertOrdered(x, s[1..], cfg, watchlist);
      var r := [s[0]] + tail;
      forall j | 0 < j < |r|
        ensures InOrder(s[0], r[j], cfg, watchlist)
      {
        assert r[j] in multiset(tail);
        assert r[j] in multiset(s[1..]) || r[j] == x;
        if r[j] != x {
          var k :| 0 <= k < |s[1..]| && s[1..][k] == r[j];
          assert s[k + 1] == r[j];
        }
      }
    }
  }

  lemma {:induction false} SortCoinsOrdered(s: seq<Coin>, cfg: SortConfig, watchlist: seq<string>)
    ensures Ordered(SortCoins(s, cfg, watchlist), cfg, watchlist)
  {
    if s != [] {
      SortCoinsOrdered(s[1..], cfg, watchlist);
      InsertOrdered(s[0], SortCoins(s[1..], cfg, watchlist), cfg, watchlist);
    }
  }

  /** `sorted` is a permutation of `filtered` in which every watched coin
      comes before every unwatched one, and within each group the sort value
      is non-decreasing for ascending and non-increasing for descending order. */
  lemma SortedProperties(list: seq<Coin>, search: string, watchlistOnly: bool, watchlist: seq<string>, cfg: SortConfig)
    ensures var r := Sorted(list, search, watchlistOnly, watchlist, cfg);
      && multiset(r) == multiset(Filtered(list, search, watchlistOnly, watchlist))
      && (forall i, j | 0 <= i < j < |r| :: !(r[i].id !in watchlist && r[j].id in watchlist))
      && (forall i, j | 0 <= i < j < |r| && (r[i].id in watchlist <==> r[j].id in watchlist) ::
            if cfg.direction == Asc
            then SortValue(r[i], cfg.field.Name()) <= SortValue(r[j], cfg.field.Name())
            else SortValue(r[i], cfg.field.Name()) >= SortValue(r[j], cfg.field.Name()))
  {
    var r := Sorted(list, search, watchlistOnly, watchlist, cfg);
    SortCoinsOrdered(Filtered(list, search, watchlistOnly, watchlist), cfg, watchlist);
    forall i, j | 0 <= i < j < |r|
      ensures !(r[i].id !in watchlist && r[j].id in watchlist)
      ensures (r[i].id in watchlist <==> r[j].id in watchlist) ==>
            if cfg.direction == Asc
            then SortValue(r[i], cfg.field.Name()) <= SortValue(r[j], cfg.field.Name())
            else SortValue(r[i], cfg.field.Name()) >= SortValue(r[j], cfg.field.Name())
    {
      CompareMeaning(r[i], r[j], cfg, watchlist);
    }
  }

  // ---------------------------------------------------------------------------
  // Lookups through the id index

  /** `getCoinById`: the row the index names, if the index has the id and the
      row exists. */
  function GetCoinById(byId: map<string, nat>, list: seq<Coin>, id: string): (r: Option<Coin>)
    ensures r.Some? <==> id in byId && byId[id] < |list|
    ensures r.Some? ==> r.value == list[byId[id]]
  {
    if id in byId && byId[id] < |list| then Some(list[byId[id]]) else None
  }

  /** `watched`: the watchlist mapped through the index, in watchlist order,
      without the ids that resolve to no row. */
  function Watched(watchlist: seq<string>, byId: map<string, nat>, list: seq<Coin>): (r: seq<Coin>)
    ensures |r| <= |watchlist|
  {
    if watchlist == [] then []
    else
      var rest := Watched(watchlist[1..], byId, list);
      match GetCoinById(byId, list, watchlist[0])
      case Some(c) => [c] + rest
      case None => rest
  }

  /** When every watched id resolves, `watched` has one coin per id, each the
      coin `getCoinById` returns. */
  lemma {:induction false} WatchedResolvesEachId(watchlist: seq<string>, byId: map<string, nat>, list: seq<Coin>)
    requires forall i | 0 <= i < |watchlist| :: GetCoinById(byId, list, watchlist[i]).Some?
    ensures |Watched(watchlist, byId, list)| == |watchlist|
    ensures forall i | 0 <= i < |watchlist| :: Watched(watchlist, byId, list)[i] == GetCoinById(byId, list, watchlist[i]).value
  {
    if watchlist != [] {
      WatchedResolvesEachId(watchlist[1..], byId, list);
      var r := Watched(watchlist, byId, list);
      forall i | 1 <= i < |watchlist|
        ensures r[i] == GetCoinById(byId, list, watchlist[i]).value
      {
        assert watchlist[1..][i - 1] == watchlist[i];
      }
    }
  }

  /** Every coin in `watched` is the lookup of some watched id. */
  lemma {:induction false} WatchedComesFromWatchlist(watchlist: seq<string>, byId: map<string, nat>, list: seq<Coin>, c: Coin)
    requires c in Watched(watchlist, byId, list)
    ensures exists id | id in watchlist :: GetCoinById(byId, list, id) == Some(c)
  {
    var rest := Watched(watchlist[1..], byId, list);
    if c in rest {
      WatchedComesFromWatchlist(watchlist[1..], byId, list, c);
      var id :| id in watchlist[1..] && GetCoinById(byId, list, id) == Some(c);
      assert id in watchlist;
    } else {
      assert GetCoinById(byId, list, watchlist[0]) == Some(c);
    }
  }

  /** Every watched id that resolves contributes its coin to `watched`, also
      when other watched ids resolve to nothing. */
  lemma {:induction false} WatchedContainsResolved(watchlist: seq<string>, byId: map<string, nat>, list: seq<Coin>, id: string)
    requires id in watchlist && GetCoinById(byId, list, id).Some?
    ensures GetCoinById(byId, list, id).value in Watched(watchlist, byId, list)
  {
    if watchlist[0] != id {
      WatchedContainsResolved(watchlist[1..], byId, list, id);
    }
  }

  /** `watched` holds exactly the coins the watched ids resolve to. */
  lemma WatchedIsResolvedCoins(watchlist: seq<string>, byId: map<string, nat>, list: seq<Coin>, c: Coin)
    ensures c in Watched(watchlist, byId, list) <==> exists id | id in watchlist :: GetCoinById(byId, list, id) == Some(c)
  {
    if c in Watched(watchlist, byId, list) {
      WatchedComesFromWatchlist(watchlist, byId, list, c);
    }
    if exists id | id in watchlist :: GetCoinById(byId, list, id) == Some(c) {
      var id :| id in watchlist && GetCoinById(byId, list, id) == Some(c);
      WatchedContainsResolved(watchlist, byId, list, id);
    }
  }

  // ---------------------------------------------------------------------------
  // Stats

  /** Coins whose 24-hour change is positive. */
  function Gainers(list: seq<Coin>): nat {
    if list == [] then 0
    else Gainers(list[..|list| - 1]) + (if list[|list| - 1].priceChange24h > 0.0 then 1 else 0)
  }

  /** Coins whose 24-hour change is negative. */
  function Losers(list: seq<Coin>): nat {
    if list == [] then 0
    else Losers(list[..|list| - 1]) + (if list[|list| - 1].priceChange24h < 0.0 then 1 else 0)
  }

  /** Coins whose 24-hour change is zero. */
  function Flat(list: seq<Coin>): nat {
    if list == [] then 0
    else Flat(list[..|list| - 1]) + (if list[|list| - 1].priceChange24h == 0.0 then 1 else 0)
  }

  datatype Stats = Stats(total: nat, filtered: nat, watched: nat, gainers: nat, losers: nat)

  /** Every coin is a gainer, a loser or unchanged, so gainers and losers
      together never exceed the list. */
  lemma {:induction false} GainersLosersPartition(list: seq<Coin>)
    ensures Gainers(list) + Losers(list) + Flat(list) == |list|
    ensures Gainers(list) + Losers(list) <= |list|
  {
    if list != [] {
      GainersLosersPartition(list[..|list| - 1]);
    }
  }

  // ---------------------------------------------------------------------------
  // Indexes

  /** The ids of the rows, in row order. */
  function Ids(coins: seq<Coin>): (r: seq<string>)
    ensures |r| == |coins| && forall i | 0 <= i < |coins| :: r[i] == coins[i].id
  {
    seq(|coins|, i requires 0 <= i < |coins| => coins[i].id)
  }

  /** The upper-cased symbols of the rows, in row order. */
  function SymbolKeys(coins: seq<Coin>): (r: seq<string>)
    ensures |r| == |coins| && forall i | 0 <= i < |coins| :: r[i] == Upper(coins[i].symbol)
  {
    seq(|coins|, i requires 0 <= i < |coins| => Upper(coins[i].symbol))
  }

  /** The index the rebuild loop fills: `index[keys[i]] = i` for each `i` in
      order, so a later duplicate overwrites an earlier one. */
  function IndexOf(keys: seq<string>): map<string, nat> {
    if keys == [] then map[]
    else IndexOf(keys[..|keys| - 1])[keys[|keys| - 1] := |keys| - 1]
  }

  /** The index holds exactly the keys, each mapped to its last position. */
  lemma {:induction false} IndexOfLastWins(keys: seq<string>, k: string)
    ensures k in IndexOf(keys) <==> k in keys
    ensures k in IndexOf(keys) ==>
      && IndexOf(keys)[k] < |keys|
      && keys[IndexOf(keys)[k]] == k
      && forall j | IndexOf(keys)[k] < j < |keys| :: keys[j] != k
  {
    if keys != [] {
      var init := keys[..|keys| - 1];
      IndexOfLastWins(init, k);
      assert keys == init + [keys[|keys| - 1]];
    }
  }

  /** With the index of the current rows, `getCoinById` finds exactly the
      ids present, and what it finds carries the id asked for. */
  lemma FreshIndexFindsOwnRow(list: seq<Coin>, id: string)
    ensures GetCoinById(IndexOf(Ids(list)), list, id).Some? <==> id in Ids(list)
    ensures GetCoinById(IndexOf(Ids(list)), list, id).Some? ==> GetCoinById(IndexOf(Ids(list)), list, id).value.id == id
  {
    IndexOfLastWins(Ids(list), id);
  }

  /** The id index as the rebuild leaves it when the new index is merged
      into the previous one, as a store setter given an object does: ids of
      rows that are gone keep their previous positions. */
  function MergedIndex(previous: map<string, nat>, coins: seq<Coin>): map<string, nat> {
    previous + IndexOf(Ids(coins))
  }

  /** The merged index still resolves every id of the new list to its own
      row; only ids that are gone can resolve wrongly. */
  lemma MergedIndexFindsCurrentIds(previous: map<string, nat>, coins: seq<Coin>, id: string)
    requires id in Ids(coins)
    ensures id in IndexOf(Ids(coins)) && id in MergedIndex(previous, coins)
    ensures MergedIndex(previous, coins)[id] == IndexOf(Ids(coins))[id]
    ensures GetCoinById(MergedIndex(previous, coins), coins, id).Some?
    ensures GetCoinById(MergedIndex(previous, coins), coins, id).value.id == id
  {
    IndexOfLastWins(Ids(coins), id);
  }

  /** With the merged index, a coin that left the list is looked up as
      whichever coin now sits at its old position. */
  lemma MergedIndexMisresolvesStaleId(a: Coin, b: Coin)
    requires a.id == "a" && b.id == "b"
    ensures var byId := MergedIndex(IndexOf(Ids([a, b])), [b]);
      GetCoinById(byId, [b], "a") == Some(b) && b.id != "a"
  {
    assert Ids([a, b]) == ["a", "b"];
    assert Ids([b]) == ["b"];
    assert IndexOf(["a", "b"]) == IndexOf(["a"])["b" := 1];
    assert IndexOf(["a"]) == IndexOf([])["a" := 0];
    assert IndexOf(["b"]) == IndexOf([])["b" := 0];
  }

  // ---------------------------------------------------------------------------
  // Realtime patch

  /** The realtime handler's five field updates on one row. */
  function Patched(c: Coin, price: real, change: real, volume: real, high: real, low: real): (r: Coin)
    ensures r.id == c.id && r.symbol == c.symbol && r.name == c.name && r.image == c.image
    ensures r.marketCap == c.marketCap && r.marketCapRank == c.marketCapRank && r.sparkline == c.sparkline
  {
    c.(currentPrice := price, priceChange24h := change, totalVolume := volume, high24h := high, low24h := low)
  }

  /** After a patch the price, change and volume sort keys are the ticker's
      values, the market-cap key is untouched, and a later patch wins
      entirely over an earlier one. */
  lemma PatchedSortKeys(c: Coin, p: real, ch: real, v: real, h: real, l: real,
                        p2: real, ch2: real, v2: real, h2: real, l2: real)
    ensures SortValue(Patched(c, p, ch, v, h, l), "price") == p
    ensures SortValue(Patched(c, p, ch, v, h, l), "change_24h") == ch
    ensures SortValue(Patched(c, p, ch, v, h, l), "volume") == v
    ensures SortValue(Patched(c, p, ch, v, h, l), "market_cap") == SortValue(c, "market_cap")
    ensures Patched(Patched(c, p, ch, v, h, l), p2, ch2, v2, h2, l2) == Patched(c, p2, ch2, v2, h2, l2)
  {
  }
}
