/** The small pure helpers of the REST layer: the cache freshness rule, the
    candle-interval table of the history request, and the USDT-pair filter. */
module ApiHelpers {
  import opened Common
  import opened Text

  // ---------------------------------------------------------------------------
  // Cache

  /** One cached response and the time (milliseconds) it was stored. */
  datatype CacheEntry<T> = CacheEntry(data: T, ts: int)

  type Cache<T> = map<string, CacheEntry<T>>

  /** An entry stored at `ts` is still served at `now` while less than `ttl`
      milliseconds have passed. */
  predicate IsFresh(now: int, ts: int, ttl: int) {
    now - ts < ttl
  }

  /** `getCache`: the stored data when present and fresh, otherwise nothing. */
  function GetCache<T>(cache: Cache<T>, key: string, ttl: int, now: int): (r: Option<T>)
    ensures r.Some? <==> key in cache && IsFresh(now, cache[key].ts, ttl)
    ensures r.Some? ==> r.value == cache[key].data
  {
    if key in cache && IsFresh(now, cache[key].ts, ttl) then Some(cache[key].data) else None
  }

  /** `setCache`: stores the data stamped with the current time. */
  function SetCache<T>(cache: Cache<T>, key: string, data: T, now: int): Cache<T> {
    cache[key := CacheEntry(data, now)]
  }

  /** Reading back what was just stored gives it back for exactly `ttl`
      milliseconds, and other keys are not affected. */
  lemma CacheRoundTrip<T>(cache: Cache<T>, key: string, other: string, data: T, stored: int, now: int, ttl: int)
    requires other != key
    ensures GetCache(SetCache(cache, key, data, stored), key, ttl, now)
            == if now < stored + ttl then Some(data) else None
    ensures GetCache(SetCache(cache, key, data, stored), other, ttl, now) == GetCache(cache, other, ttl, now)
  {
  }

  /** Freshness only ever runs out: an entry fresh at some time was fresh at
      every earlier time. */
  lemma FreshnessIsMonotone(ts: int, ttl: int, earlier: int, later: int)
    requires earlier <= later && IsFresh(later, ts, ttl)
    ensures IsFresh(earlier, ts, ttl)
  {
  }

  // ---------------------------------------------------------------------------
  // History request table

  /** The candle interval and candle count requested for a chart range. */
  datatype HistoryRange = HistoryRange(interval: string, limit: nat)

  function HistoryRangeFor(days: real): HistoryRange {
    if days <= 1.0 then HistoryRange("5m", 288)
    else if days <= 7.0 then HistoryRange("1h", 168)
    else if days <= 30.0 then HistoryRange("4h", 180)
    else if days <= 90.0 then HistoryRange("12h", 180)
    else HistoryRange("1d", 365)
  }

  /** Cache lifetime of a history response: one minute for the intraday
      chart, five minutes otherwise. */
  function HistoryTtl(days: real): (ttl: int)
    ensures ttl == 60000 || ttl == 300000
    ensures ttl == 60000 <==> days <= 1.0
  {
    if days <= 1.0 then 60000 else 300000
  }

  /** Length of a candle interval in minutes, for the intervals the table uses. */
  function IntervalMinutes(interval: string): nat {
    if interval == "5m" then 5
    else if interval == "1h" then 60
    else if interval == "4h" then 240
    else if interval == "12h" then 720
    else if interval == "1d" then 1440
    else 0
  }

  /** A cached history response expires before the chart's next candle
      closes: the lifetime is shorter than one candle of the tier the range
      selects. It also never shrinks as the requested range grows. */
  lemma HistoryTtlBelowCandle(days: real, longer: real)
    ensures HistoryTtl(days) < IntervalMinutes(HistoryRangeFor(days).interval) * 60000
    ensures days <= longer ==> HistoryTtl(days) <= HistoryTtl(longer)
  {
  }

  /** The number of whole days the requested candles span. */
  function SpanDays(r: HistoryRange): real {
    (IntervalMinutes(r.interval) * r.limit) as real / 1440.0
  }

  /** Each tier spans exactly its upper bound in days (1, 7, 30, 90, 365),
      so every range up to a year is covered by the candles requested. */
  lemma HistoryRangeCoversRequest(days: real)
    ensures var r := HistoryRangeFor(days);
      SpanDays(r) == (if days <= 1.0 then 1.0 else if days <= 7.0 then 7.0
                      else if days <= 30.0 then 30.0 else if days <= 90.0 then 90.0 else 365.0)
    ensures days <= 365.0 ==> days <= SpanDays(HistoryRangeFor(days))
    ensures HistoryRangeFor(days).limit <= 365
  {
  }

  // ---------------------------------------------------------------------------
  // Symbol filter

  const QUOTE: string := "USDT"

  /** Stablecoins and wrapped assets left out of the coin list. */
  const EXCLUDE: set<string> :=
    {"USDC", "BUSD", "TUSD", "FDUSD", "DAI", "USDD", "USDP", "WBTC", "WBETH", "STETH", "BETH"}

  /** `symbol.replace('USDT', '')`: removes the first occurrence only. */
  function BaseSymbol(symbol: string): string {
    ReplaceFirst(symbol, QUOTE, "")
  }

  /** The pair filter of the coin list: a USDT pair whose base asset is not excluded. */
  predicate IsListedPair(symbol: string) {
    EndsWith(symbol, QUOTE) && BaseSymbol(symbol) !in EXCLUDE
  }

  /** An occurrence of "USDT" in `sym + "USDT"` cannot straddle the seam:
      "USDT" has no proper border. */
  lemma NoOccurrenceAcrossSeam(sym: string, j: int)
    requires |sym| - 4 < j < |sym|
    ensures !OccursAt(sym + QUOTE, QUOTE, j)
  {
    var s := sym + QUOTE;
    if 0 <= j && j + 4 <= |s| {
      assert s[|sym|] == QUOTE[0] == 'U';
      assert s[j..j + 4][|sym| - j] == s[|sym|];
    }
  }

  /** Before the seam, `sym + "USDT"` has an occurrence only where `sym` has one. */
  lemma NoQuoteBeforeSeam(sym: string, j: int)
    requires forall k :: !OccursAt(sym, QUOTE, k)
    requires 0 <= j < |sym|
    ensures !OccursAt(sym + QUOTE, QUOTE, j)
  {
    if j + 4 <= |sym| {
      assert (sym + QUOTE)[j..j + 4] == sym[j..j + 4];
      assert !OccursAt(sym, QUOTE, j);
    } else {
      NoOccurrenceAcrossSeam(sym, j);
    }
  }

  lemma FirstQuoteAtSeam(sym: string)
    requires forall j :: !OccursAt(sym, QUOTE, j)
    ensures Find(sym + QUOTE, QUOTE) == Some(|sym|)
  {
    var s := sym + QUOTE;
    assert s[|sym|..|sym| + 4] == QUOTE;
    assert OccursAt(s, QUOTE, |sym|);
    var r := Find(s, QUOTE);
    assert r.Some?;
    if r.value < |sym| {
      NoQuoteBeforeSeam(sym, r.value);
    }
    assert r.value <= |sym|;
  }

  /** Appending "USDT" to a symbol that does not contain it and stripping it
      again gives the symbol back. */
  lemma BaseSymbolRoundTrip(sym: string)
    requires forall j :: !OccursAt(sym, QUOTE, j)
    ensures BaseSymbol(sym + QUOTE) == sym
    ensures IsListedPair(sym + QUOTE) <==> sym !in EXCLUDE
  {
    var s := sym + QUOTE;
    FirstQuoteAtSeam(sym);
    assert s[..|sym|] == sym;
    assert s[|sym| + 4..] == [];
    assert s[|s| - 4..] == QUOTE;
  }

  /** Only the first "USDT" is removed. */
  lemma BaseSymbolStripsFirstOnly()
    ensures BaseSymbol("XUSDTUSDT") == "XUSDT"
  {
    var s := "XUSDTUSDT";
    assert OccursAt(s, QUOTE, 1) by { assert s[1..5] == QUOTE; }
    assert !OccursAt(s, QUOTE, 0) by { assert s[0] == 'X'; }
    assert s[..1] == "X" && s[5..] == "USDT";
  }
}
