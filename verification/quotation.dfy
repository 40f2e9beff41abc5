/** The unauthenticated market-data client (src/quotation.ts). Every network fetch
    is replaced by a parameter: either the fetched list itself, or a function from
    the request URL to the list the exchange answers with, so that what the client
    asks for and what it makes of the answer can both be stated. */
module Quotation {
  import opened Wrappers
  import opened Errors
  import Text

  // ---------------------------------------------------------------- tickers

  /** One entry of the `/market/all` answer. */
  datatype MarketInfo = MarketInfo(market: string, koreanName: string, englishName: string)

  /** The quote currencies a caller may filter by. */
  datatype Fiat = KRW | BTC

  function FiatCode(f: Fiat): string
  {
    match f
    case KRW => "KRW"
    case BTC => "BTC"
  }

  /** The market codes of a market list, in order. */
  function Markets(items: seq<MarketInfo>): (r: seq<string>)
    ensures |r| == |items|
    ensures forall i :: 0 <= i < |items| ==> r[i] == items[i].market
  {
    seq(|items|, i requires 0 <= i < |items| => items[i].market)
  }

  /** `sub` can be obtained from `s` by deleting elements. */
  predicate IsSubsequence(sub: seq<string>, s: seq<string>)
    decreases |s|
  {
    sub == [] ||
    (s != [] &&
     ((sub[0] == s[0] && IsSubsequence(sub[1..], s[1..])) || IsSubsequence(sub, s[1..])))
  }

  /** The filter of getTickers: every market when no fiat is given, else the markets
      whose text before the first '-' is the fiat. */
  predicate Keeps(fiat: Option<Fiat>, market: string)
  {
    fiat.None? || FiatCode(fiat.value) == Text.FirstSegment(market)
  }

  /** getTickers: the market codes of the fetched list, keeping only those whose
      text before the first '-' is the fiat when one is given. */
  function GetTickers(items: seq<MarketInfo>, fiat: Option<Fiat>): (r: seq<string>)
    ensures fiat.None? ==> r == Markets(items)
    ensures fiat.Some? ==> forall i :: 0 <= i < |r| ==> Text.FirstSegment(r[i]) == FiatCode(fiat.value)
  {
    if items == [] then []
    else
      var item := items[0];
      var rest := GetTickers(items[1..], fiat);
      assert fiat.None? ==> Markets(items) == [item.market] + Markets(items[1..]);
      if Keeps(fiat, item.market) then [item.market] + rest
      else rest
  }

  /** Filtering a concatenation filters each part: the filter keeps the response order. */
  lemma {:induction false} GetTickersAppend(a: seq<MarketInfo>, b: seq<MarketInfo>, fiat: Option<Fiat>)
    ensures GetTickers(a + b, fiat) == GetTickers(a, fiat) + GetTickers(b, fiat)
    decreases |a|
  {
    if a == [] {
      assert a + b == b;
    } else {
      var c := a + b;
      assert c[0] == a[0] && c[1..] == a[1..] + b;
      GetTickersAppend(a[1..], b, fiat);
      var head := if Keeps(fiat, a[0].market) then [a[0].market] else [];
      assert GetTickers(c, fiat) == head + GetTickers(c[1..], fiat);
      assert GetTickers(c[1..], fiat) == GetTickers(a[1..], fiat) + GetTickers(b, fiat);
      assert GetTickers(a, fiat) == head + GetTickers(a[1..], fiat);
      ConcatAssociative(head, GetTickers(a[1..], fiat), GetTickers(b, fiat));
    }
  }

  /** The result keeps the response order: it is the market list with some entries deleted. */
  lemma {:induction false} GetTickersIsSubsequence(items: seq<MarketInfo>, fiat: Option<Fiat>)
    ensures IsSubsequence(GetTickers(items, fiat), Markets(items))
    decreases |items|
  {
    if items != [] {
      GetTickersIsSubsequence(items[1..], fiat);
      assert Markets(items)[1..] == Markets(items[1..]);
    }
  }

  lemma ConcatAssociative<T>(x: seq<T>, y: seq<T>, z: seq<T>)
    ensures x + (y + z) == (x + y) + z
  {
  }

  /** With a fiat given, a code is returned exactly when some market of the list has it
      and its first segment is the fiat. */
  lemma {:induction false} GetTickersMembership(items: seq<MarketInfo>, f: Fiat, t: string)
    ensures t in GetTickers(items, Some(f)) <==>
      (exists i :: 0 <= i < |items| && items[i].market == t) && Text.FirstSegment(t) == FiatCode(f)
    decreases |items|
  {
    if items != [] {
      GetTickersMembership(items[1..], f, t);
      if exists i :: 0 <= i < |items[1..]| && items[1..][i].market == t {
        var i :| 0 <= i < |items[1..]| && items[1..][i].market == t;
        assert items[i + 1].market == t;
      }
      if exists i :: 0 <= i < |items| && items[i].market == t {
        var i :| 0 <= i < |items| && items[i].market == t;
        if i > 0 { assert items[1..][i - 1].market == t; }
      }
    }
  }

  // ---------------------------------------------------------------- intervals

  /** The common prefix of every candle endpoint. */
  const CandlesBase := "https://api.upbit.com/v1/candles/"

  /** #getUrlOhlcv: the candle endpoint for an interval name; singular and plural
      spellings name the same endpoint, anything else names none. */
  function UrlOhlcv(interval: string): (r: Option<string>)
    ensures r.Some? ==> CandlesBase <= r.value
  {
    if interval in ["day", "days"] then Some("https://api.upbit.com/v1/candles/days")
    else if interval in ["minute1", "minutes1"] then Some("https://api.upbit.com/v1/candles/minutes/1")
    else if interval in ["minute3", "minutes3"] then Some("https://api.upbit.com/v1/candles/minutes/3")
    else if interval in ["minute5", "minutes5"] then Some("https://api.upbit.com/v1/candles/minutes/5")
    else if interval in ["minute10", "minutes10"] then Some("https://api.upbit.com/v1/candles/minutes/10")
    else if interval in ["minute15", "minutes15"] then Some("https://api.upbit.com/v1/candles/minutes/15")
    else if interval in ["minute30", "minutes30"] then Some("https://api.upbit.com/v1/candles/minutes/30")
    else if interval in ["minute60", "minutes60"] then Some("https://api.upbit.com/v1/candles/minutes/60")
    else if interval in ["minute240", "minutes240"] then Some("https://api.upbit.com/v1/candles/minutes/240")
    else if interval in ["week", "weeks"] then Some("https://api.upbit.com/v1/candles/weeks")
    else if interval in ["month", "months"] then Some("https://api.upbit.com/v1/candles/months")
    else None
  }

  /** One candle endpoint: its two spellings and its URL, as the exchange lists them. */
  datatype IntervalEntry = IntervalEntry(singular: string, plural: string, url: string)
  /** The exchange's candle endpoints, listed independently of UrlOhlcv. */
  const Intervals: seq<IntervalEntry> := [
    IntervalEntry("day", "days", "https://api.upbit.com/v1/candles/days"),
    IntervalEntry("minute1", "minutes1", "https://api.upbit.com/v1/candles/minutes/1"),
    IntervalEntry("minute3", "minutes3", "https://api.upbit.com/v1/candles/minutes/3"),
    IntervalEntry("minute5", "minutes5", "https://api.upbit.com/v1/candles/minutes/5"),
    IntervalEntry("minute10", "minutes10", "https://api.upbit.com/v1/candles/minutes/10"),
    IntervalEntry("minute15", "minutes15", "https://api.upbit.com/v1/candles/minutes/15"),
    IntervalEntry("minute30", "minutes30", "https://api.upbit.com/v1/candles/minutes/30"),
    IntervalEntry("minute60", "minutes60", "https://api.upbit.com/v1/candles/minutes/60"),
    IntervalEntry("minute240", "minutes240", "https://api.upbit.com/v1/candles/minutes/240"),
    IntervalEntry("week", "weeks", "https://api.upbit.com/v1/candles/weeks"),
    IntervalEntry("month", "months", "https://api.upbit.com/v1/candles/months")
  ]

  /** Both spellings of a table entry resolve to the entry's endpoint. */
  predicate Resolves(e: IntervalEntry)
  {
    UrlOhlcv(e.singular) == Some(e.url) && UrlOhlcv(e.plural) == Some(e.url)
  }

  // One lemma per table entry keeps each string comparison chain small.
  lemma DayResolves() ensures Resolves(Intervals[0]) { }
  lemma Minute1Resolves() ensures Resolves(Intervals[1]) { }
  lemma Minute3Resolves() ensures Resolves(Intervals[2]) { }
  lemma Minute5Resolves() ensures Resolves(Intervals[3]) { }
  lemma Minute10Resolves() ensures Resolves(Intervals[4]) { }
  lemma Minute15Resolves() ensures Resolves(Intervals[5]) { }
  lemma Minute30Resolves() ensures Resolves(Intervals[6]) { }
  lemma Minute60Resolves() ensures Resolves(Intervals[7]) { }
  lemma Minute240Resolves() ensures Resolves(Intervals[8]) { }
  lemma WeekResolves() ensures Resolves(Intervals[9]) { }
  lemma MonthResolves() ensures Resolves(Intervals[10]) { }

  /** Both spellings of every listed interval resolve to that interval's endpoint. */
  lemma IntervalsResolve(i: nat)
    requires i < |Intervals|
    ensures UrlOhlcv(Intervals[i].singular) == Some(Intervals[i].url)
    ensures UrlOhlcv(Intervals[i].plural) == Some(Intervals[i].url)
  {
    if i == 0 { DayResolves(); }
    else if i == 1 { Minute1Resolves(); }
    else if i == 2 { Minute3Resolves(); }
    else if i == 3 { Minute5Resolves(); }
    else if i == 4 { Minute10Resolves(); }
    else if i == 5 { Minute15Resolves(); }
    else if i == 6 { Minute30Resolves(); }
    else if i == 7 { Minute60Resolves(); }
    else if i == 8 { Minute240Resolves(); }
    else if i == 9 { WeekResolves(); }
    else { MonthResolves(); }
  }

  /** Only the listed spellings resolve. */
  lemma OnlyListedIntervalsResolve(interval: string)
    requires UrlOhlcv(interval).Some?
    ensures exists i :: 0 <= i < |Intervals| && interval in [Intervals[i].singular, Intervals[i].plural]
  {
    var i :=
      if interval in ["day", "days"] then 0
      else if interval in ["minute1", "minutes1"] then 1
      else if interval in ["minute3", "minutes3"] then 2
      else if interval in ["minute5", "minutes5"] then 3
      else if interval in ["minute10", "minutes10"] then 4
      else if interval in ["minute15", "minutes15"] then 5
      else if interval in ["minute30", "minutes30"] then 6
      else if interval in ["minute60", "minutes60"] then 7
      else if interval in ["minute240", "minutes240"] then 8
      else if interval in ["week", "weeks"] then 9
      else 10;
    assert interval in [Intervals[i].singular, Intervals[i].plural];
  }
  /** The eleven endpoints are pairwise distinct. */
  lemma ElevenDistinctEndpoints(i: nat, j: nat)
    requires i < j < |Intervals|
    ensures |Intervals| == 11
    ensures Intervals[i].url != Intervals[j].url
  {
    var u, v := Intervals[i].url, Intervals[j].url;
    if |u| == |v| {
      // same length: the differing character sits after the common prefix
      assert u[34..] != v[34..];
    }
  }
  /** A spelling outside the table names no endpoint. */
  lemma UnlistedIntervalMinute7()
    ensures UrlOhlcv("minute7") == None
  {
  }

  lemma UnlistedIntervalEmpty()
    ensures UrlOhlcv("") == None
  {
  }

  // ---------------------------------------------------------------- candles

  /** One candle as the exchange sends it (fields the client reads, plus the market
      and UTC time). Timestamps are kept as the exchange's text. */
  datatype Candle = Candle(
    market: string,
    candleDateTimeUtc: string,
    candleDateTimeKst: string,
    openingPrice: real,
    highPrice: real,
    lowPrice: real,
    tradePrice: real,
    candleAccTradePrice: real,
    candleAccTradeVolume: real)

  /** The normalised candle the client returns. */
  datatype Ohlcv = Ohlcv(datetime: string, open: real, high: real, low: real, close: real, volume: real, value: real)

  /** The arguments of getOhlcv; `to` is absent when the caller passes null. */
  datatype OhlcvParams = OhlcvParams(ticker: string, interval: string, count: int, to: Option<string>)

  /** The arguments getOhlcv falls back on. */
  const DefaultOhlcvParams := OhlcvParams("KRW-BTC", "day", 200, None)

  /** The exchange's page-size ceiling. */
  const MaxCallCount := 200

  /** `to` counts as given only when it is a non-empty string (JavaScript truthiness). */
  predicate ToGiven(to: Option<string>)
  {
    to.Some? && to.value != ""
  }

  /** The query getOhlcv requests from the endpoint `url`; `formatUtc` stands for the
      date library's conversion of `to` to UTC text. */
  function OhlcvQuery(url: string, p: OhlcvParams, formatUtc: string -> string): (q: string)
    ensures url + "?market=" + p.ticker + "&count=" <= q
  {
    url + "?market=" + p.ticker + "&count=" + Text.Decimal(p.count)
      + (if ToGiven(p.to) then "&to=" + formatUtc(p.to.value) else "")
  }

  /** The query carries the count intact and gains a `to` parameter only when `to` is given. */
  lemma OhlcvQueryShape(url: string, p: OhlcvParams, formatUtc: string -> string)
    ensures var head := url + "?market=" + p.ticker + "&count=" + Text.Decimal(p.count);
      && head <= OhlcvQuery(url, p, formatUtc)
      && (!ToGiven(p.to) <==> OhlcvQuery(url, p, formatUtc) == head)
      && (ToGiven(p.to) ==> OhlcvQuery(url, p, formatUtc) == head + "&to=" + formatUtc(p.to.value))
  {
  }

  /** Two queries for the same endpoint and market without `to` differ when their counts do. */
  lemma OhlcvQueryKeepsCount(url: string, p: OhlcvParams, p': OhlcvParams, formatUtc: string -> string)
    requires p.ticker == p'.ticker && !ToGiven(p.to) && !ToGiven(p'.to)
    requires OhlcvQuery(url, p, formatUtc) == OhlcvQuery(url, p', formatUtc)
    ensures p.count == p'.count
  {
    var prefix := url + "?market=" + p.ticker + "&count=";
    assert OhlcvQuery(url, p, formatUtc) == prefix + Text.Decimal(p.count);
    assert OhlcvQuery(url, p', formatUtc) == prefix + Text.Decimal(p'.count);
    assert Text.Decimal(p.count) == (prefix + Text.Decimal(p.count))[|prefix|..];
    Text.DecimalInjective(p.count, p'.count);
  }

  /** The renaming of one exchange candle into an Ohlcv. */
  predicate Normalizes(c: Candle, o: Ohlcv)
  {
    && o.datetime == c.candleDateTimeKst
    && o.open == c.openingPrice
    && o.high == c.highPrice
    && o.low == c.lowPrice
    && o.close == c.tradePrice
    && o.volume == c.candleAccTradeVolume
    && o.value == c.candleAccTradePrice
  }

  /** The renaming getOhlcv applies to each candle. */
  function ToOhlcv(c: Candle): (o: Ohlcv)
    ensures Normalizes(c, o)
  {
    Ohlcv(c.candleDateTimeKst, c.openingPrice, c.highPrice, c.lowPrice, c.tradePrice,
          c.candleAccTradeVolume, c.candleAccTradePrice)
  }

  /** `items.map(...).reverse()`: each candle renamed, the order reversed. */
  function ShapeOhlcv(items: seq<Candle>): (r: seq<Ohlcv>)
    ensures |r| == |items|
    ensures forall i :: 0 <= i < |r| ==> Normalizes(items[|items| - 1 - i], r[i])
  {
    if items == [] then [] else ShapeOhlcv(items[1..]) + [ToOhlcv(items[0])]
  }

  /** Shaping a concatenation shapes the parts and swaps them. */
  lemma {:induction false} ShapeOhlcvAppend(a: seq<Candle>, b: seq<Candle>)
    ensures ShapeOhlcv(a + b) == ShapeOhlcv(b) + ShapeOhlcv(a)
    decreases |a|
  {
    if a != [] {
      ShapeOhlcvAppend(a[1..], b);
      assert (a + b)[1..] == a[1..] + b;
    }
  }

  /** getOhlcv: checks the count first, then the interval, and only then requests
      the query and shapes the answer `fetch` gives for it. */
  function GetOhlcv(p: OhlcvParams, formatUtc: string -> string, fetch: string -> seq<Candle>): (r: Result<seq<Ohlcv>, Error>)
    ensures p.count > MaxCallCount ==> r == Failure(OverMaxCallCount)
    ensures p.count <= MaxCallCount && UrlOhlcv(p.interval).None? ==> r == Failure(BadTimeInterval)
    ensures r.Success? <==> p.count <= MaxCallCount && UrlOhlcv(p.interval).Some?
    ensures r.Success? ==>
      var items := fetch(OhlcvQuery(UrlOhlcv(p.interval).value, p, formatUtc));
      && |r.value| == |items|
      && forall i :: 0 <= i < |items| ==> Normalizes(items[|items| - 1 - i], r.value[i])
  {
    if p.count > MaxCallCount then Failure(OverMaxCallCount)
    else
      var url := UrlOhlcv(p.interval);
      if url.None? then Failure(BadTimeInterval)
      else
        var items := fetch(OhlcvQuery(url.value, p, formatUtc));
        Success(ShapeOhlcv(items))
  }

  /** A rejected call gives the same answer whatever the exchange would have said:
      no request is needed to reach it. */
  lemma RejectedWithoutRequest(p: OhlcvParams, formatUtc: string -> string, fetch: string -> seq<Candle>, fetch': string -> seq<Candle>)
    requires p.count > MaxCallCount || UrlOhlcv(p.interval).None?
    ensures GetOhlcv(p, formatUtc, fetch).Failure?
    ensures GetOhlcv(p, formatUtc, fetch) == GetOhlcv(p, formatUtc, fetch')
  {
  }

  /** With every argument defaulted, getOhlcv asks for the 200 latest daily KRW-BTC
      candles and passes both checks. */
  lemma DefaultOhlcvRequest(formatUtc: string -> string, fetch: string -> seq<Candle>)
    ensures UrlOhlcv(DefaultOhlcvParams.interval) == Some("https://api.upbit.com/v1/candles/days")
    ensures OhlcvQuery("https://api.upbit.com/v1/candles/days", DefaultOhlcvParams, formatUtc)
         == "https://api.upbit.com/v1/candles/days?market=KRW-BTC&count=200"
    ensures GetOhlcv(DefaultOhlcvParams, formatUtc, fetch).Success?
  {
    assert Text.Decimal(200) == "200" by {
      assert Text.Digits(2) == "2";
      assert Text.Digits(20) == "20";
    }
  }

  // ---------------------------------------------------------------- aggregation

  function Highs(s: seq<Ohlcv>): (r: seq<real>)
    ensures |r| == |s| && forall i :: 0 <= i < |s| ==> r[i] == s[i].high
  {
    seq(|s|, i requires 0 <= i < |s| => s[i].high)
  }

  function Lows(s: seq<Ohlcv>): (r: seq<real>)
    ensures |r| == |s| && forall i :: 0 <= i < |s| ==> r[i] == s[i].low
  {
    seq(|s|, i requires 0 <= i < |s| => s[i].low)
  }

  function Volumes(s: seq<Ohlcv>): (r: seq<real>)
    ensures |r| == |s| && forall i :: 0 <= i < |s| ==> r[i] == s[i].volume
  {
    seq(|s|, i requires 0 <= i < |s| => s[i].volume)
  }

  function Values(s: seq<Ohlcv>): (r: seq<real>)
    ensures |r| == |s| && forall i :: 0 <= i < |s| ==> r[i] == s[i].value
  {
    seq(|s|, i requires 0 <= i < |s| => s[i].value)
  }

  /** `Math.max(...xs)` of a non-empty list: the largest element. */
  function Max(xs: seq<real>): (m: real)
    requires |xs| > 0
    ensures forall i :: 0 <= i < |xs| ==> xs[i] <= m
    ensures exists i :: 0 <= i < |xs| && xs[i] == m
  {
    if |xs| == 1 then xs[0]
    else
      var m' := Max(xs[1..]);
      assert forall i :: 1 <= i < |xs| ==> xs[i] == xs[1..][i - 1];
      if xs[0] >= m' then xs[0] else m'
  }

  /** `Math.min(...xs)` of a non-empty list: the smallest element. */
  function Min(xs: seq<real>): (m: real)
    requires |xs| > 0
    ensures forall i :: 0 <= i < |xs| ==> m <= xs[i]
    ensures exists i :: 0 <= i < |xs| && xs[i] == m
  {
    if |xs| == 1 then xs[0]
    else
      var m' := Min(xs[1..]);
      assert forall i :: 1 <= i < |xs| ==> xs[i] == xs[1..][i - 1];
      if xs[0] <= m' then xs[0] else m'
  }

  /** `xs.reduce((acc, x) => acc + x, 0)`: the sum, added from the left. Sums of
      non-negative amounts (volumes, traded values) are non-negative. */
  function Sum(xs: seq<real>): (s: real)
    ensures (forall i :: 0 <= i < |xs| ==> xs[i] >= 0.0) ==> s >= 0.0
  {
    if xs == [] then 0.0 else Sum(xs[..|xs| - 1]) + xs[|xs| - 1]
  }

  /** The sum of a concatenation is the sum of the sums. */
  lemma {:induction false} SumAppend(a: seq<real>, b: seq<real>)
    ensures Sum(a + b) == Sum(a) + Sum(b)
    decreases |b|
  {
    if b != [] {
      var b', last := b[..|b| - 1], b[|b| - 1];
      SumAppend(a, b');
      assert (a + b)[..|a + b| - 1] == a + b';
      assert (a + b)[|a + b| - 1] == last;
      assert Sum(a + b) == Sum(a + b') + last;
      assert Sum(b) == Sum(b') + last;
    } else {
      assert a + b == a;
    }
  }

  /** The fold of getOhlcvRangeBase over a non-empty candle list. */
  function Aggregate(result: seq<Ohlcv>): (o: Ohlcv)
    requires |result| > 0
    ensures o.datetime == result[0].datetime && o.open == result[0].open
    ensures o.close == result[|result| - 1].close
    ensures forall i :: 0 <= i < |result| ==> o.low <= result[i].low
    ensures forall i :: 0 <= i < |result| ==> result[i].high <= o.high
    ensures (exists i :: 0 <= i < |result| && result[i].high == o.high)
         && (exists i :: 0 <= i < |result| && result[i].low == o.low)
    ensures o.volume == Sum(Volumes(result)) && o.value == Sum(Values(result))
  {
    Ohlcv(result[0].datetime, result[0].open, Max(Highs(result)), Min(Lows(result)),
          result[|result| - 1].close, Sum(Volumes(result)), Sum(Values(result)))
  }

  /** Folding a two-element list, taken in the order the list is given (that is, after
      getOhlcv's reversal): open from the first, close from the last, the extreme
      high and low, and the summed volume. */
  lemma AggregateExample()
    ensures Aggregate([Ohlcv("t0", 5.0, 10.0, 1.0, 8.0, 2.0, 0.0), Ohlcv("t1", 8.0, 12.0, 2.0, 9.0, 3.0, 0.0)])
         == Ohlcv("t0", 5.0, 12.0, 1.0, 9.0, 5.0, 0.0)
  {
    var s := [Ohlcv("t0", 5.0, 10.0, 1.0, 8.0, 2.0, 0.0), Ohlcv("t1", 8.0, 12.0, 2.0, 9.0, 3.0, 0.0)];
    assert Highs(s) == [10.0, 12.0] && Highs(s)[1..] == [12.0];
    assert Lows(s) == [1.0, 2.0] && Lows(s)[1..] == [2.0];
    assert Volumes(s) == [2.0, 3.0];
    assert Volumes(s)[..1] == [2.0];
    assert Values(s) == [0.0, 0.0];
    assert Values(s)[..1] == [0.0];
  }

  /** The candle endpoint getOhlcvRangeBase asks. */
  const HourUrl := "https://api.upbit.com/v1/candles/minutes/60"

  /** getOhlcvRangeBase: `elapse` hourly candles up to `to`, folded into one. */
  function GetOhlcvRangeBase(ticker: string, to: string, elapse: int, formatUtc: string -> string, fetch: string -> seq<Candle>): (r: Result<Ohlcv, Error>)
    ensures elapse > MaxCallCount ==> r == Failure(OverMaxCallCount)
    ensures r.Failure? ==> r.error == OverMaxCallCount || r.error == BadRange
  {
    assert UrlOhlcv("minute60") == Some(HourUrl);
    match GetOhlcv(OhlcvParams(ticker, "minute60", elapse, Some(to)), formatUtc, fetch)
    case Failure(e) => Failure(e)
    case Success(result) =>
      if |result| <= 0 then Failure(BadRange) else Success(Aggregate(result))
  }

  /** The fold over a shaped answer, in terms of the candles as the exchange sent them:
      after the reversal the aggregate opens with the last candle sent and closes
      with the first. */
  lemma AggregateOfShapedEnds(items: seq<Candle>)
    requires items != []
    ensures var o, n := Aggregate(ShapeOhlcv(items)), |items|;
      && o.datetime == items[n - 1].candleDateTimeKst
      && o.open == items[n - 1].openingPrice
      && o.close == items[0].tradePrice
  {
    var result, n := ShapeOhlcv(items), |items|;
    assert Normalizes(items[n - 1], result[0]);
    assert Normalizes(items[0], result[n - 1]);
  }

  /** After the reversal, the candle sent at position i sits at position n-1-i. */
  lemma ShapedAt(items: seq<Candle>, i: int)
    requires 0 <= i < |items|
    ensures var result := ShapeOhlcv(items);
      && Highs(result)[|items| - 1 - i] == items[i].highPrice
      && Lows(result)[|items| - 1 - i] == items[i].lowPrice
  {
    var result := ShapeOhlcv(items);
    assert Normalizes(items[i], result[|items| - 1 - i]);
  }

  /** The largest high of the shaped list bounds every candle sent and is the high
      of one of them. */
  lemma ShapedHighsMax(items: seq<Candle>)
    requires items != []
    ensures var h := Max(Highs(ShapeOhlcv(items)));
      && (forall i :: 0 <= i < |items| ==> items[i].highPrice <= h)
      && (exists i :: 0 <= i < |items| && items[i].highPrice == h)
  {
    var n, highs := |items|, Highs(ShapeOhlcv(items));
    forall i | 0 <= i < n
      ensures items[i].highPrice <= Max(highs)
    {
      ShapedAt(items, i);
    }
    var j :| 0 <= j < n && highs[j] == Max(highs);
    ShapedAt(items, n - 1 - j);
  }

  /** The smallest low of the shaped list bounds every candle sent from below and is
      the low of one of them. */
  lemma ShapedLowsMin(items: seq<Candle>)
    requires items != []
    ensures var l := Min(Lows(ShapeOhlcv(items)));
      && (forall i :: 0 <= i < |items| ==> l <= items[i].lowPrice)
      && (exists i :: 0 <= i < |items| && items[i].lowPrice == l)
  {
    var n, lows := |items|, Lows(ShapeOhlcv(items));
    forall i | 0 <= i < n
      ensures Min(lows) <= items[i].lowPrice
    {
      ShapedAt(items, i);
    }
    var j :| 0 <= j < n && lows[j] == Min(lows);
    ShapedAt(items, n - 1 - j);
  }

  /** The aggregate's high bounds every candle sent and is the high of one of them;
      its low bounds them from below and is the low of one of them. */
  lemma AggregateOfShapedExtremes(items: seq<Candle>)
    requires items != []
    ensures var o := Aggregate(ShapeOhlcv(items));
      && (forall i :: 0 <= i < |items| ==> o.low <= items[i].lowPrice && items[i].highPrice <= o.high)
      && (exists i :: 0 <= i < |items| && items[i].highPrice == o.high)
      && (exists i :: 0 <= i < |items| && items[i].lowPrice == o.low)
  {
    ShapedHighsMax(items);
    ShapedLowsMin(items);
  }

  /** What getOhlcvRangeBase returns, in terms of the candles the exchange sends for
      the hourly query of `elapse` candles up to `to`. */
  lemma RangeBaseOutcome(ticker: string, to: string, elapse: int, formatUtc: string -> string, fetch: string -> seq<Candle>)
    ensures elapse > MaxCallCount ==> GetOhlcvRangeBase(ticker, to, elapse, formatUtc, fetch) == Failure(OverMaxCallCount)
    ensures elapse <= MaxCallCount ==>
      var items := fetch(OhlcvQuery(HourUrl, OhlcvParams(ticker, "minute60", elapse, Some(to)), formatUtc));
      var r := GetOhlcvRangeBase(ticker, to, elapse, formatUtc, fetch);
      && (items == [] ==> r == Failure(BadRange))
      && (items != [] ==> r == Success(Aggregate(ShapeOhlcv(items))))
  {
    assert UrlOhlcv("minute60") == Some(HourUrl);
  }

  /** A two-candle answer [a, b] folds as the list [b, a]. */
  lemma RangeBaseOfTwo(ticker: string, to: string, elapse: int, formatUtc: string -> string, fetch: string -> seq<Candle>, a: Candle, b: Candle)
    requires elapse <= MaxCallCount
    requires fetch(OhlcvQuery(HourUrl, OhlcvParams(ticker, "minute60", elapse, Some(to)), formatUtc)) == [a, b]
    ensures GetOhlcvRangeBase(ticker, to, elapse, formatUtc, fetch) == Success(Aggregate([ToOhlcv(b), ToOhlcv(a)]))
  {
    RangeBaseOutcome(ticker, to, elapse, formatUtc, fetch);
    ShapeTwo(a, b);
  }

  /** Shaping a two-candle answer swaps the two. */
  lemma ShapeTwo(a: Candle, b: Candle)
    ensures ShapeOhlcv([a, b]) == [ToOhlcv(b), ToOhlcv(a)]
  {
    assert [a, b][1..] == [b];
    assert [b][1..] == [];
    assert ShapeOhlcv([b]) == [ToOhlcv(b)];
  }

  /** The two example candles folded with the later one first. */
  lemma AggregateLaterFirst()
    ensures Aggregate([Ohlcv("t1", 8.0, 12.0, 2.0, 9.0, 3.0, 0.0), Ohlcv("t0", 5.0, 10.0, 1.0, 8.0, 2.0, 0.0)])
         == Ohlcv("t1", 8.0, 12.0, 1.0, 8.0, 5.0, 0.0)
  {
    var s := [Ohlcv("t1", 8.0, 12.0, 2.0, 9.0, 3.0, 0.0), Ohlcv("t0", 5.0, 10.0, 1.0, 8.0, 2.0, 0.0)];
    assert Highs(s) == [12.0, 10.0] && Highs(s)[1..] == [10.0];
    assert Lows(s) == [2.0, 1.0] && Lows(s)[1..] == [1.0];
    assert Volumes(s) == [3.0, 2.0] && Volumes(s)[..1] == [3.0];
    assert Values(s) == [0.0, 0.0] && Values(s)[..1] == [0.0];
    assert Sum([3.0]) == 3.0 by { assert [3.0][..0] == []; }
    assert Sum([0.0]) == 0.0 by { assert [0.0][..0] == []; }
  }

  /** A two-candle answer, in either order. Because getOhlcv reverses what the exchange
      sends, the range opens with the candle sent last and closes with the candle sent
      first: an answer listing the earlier candle first gives open 8 and close 8, and
      only the answer listing the later candle first gives open 5 and close 9. */
  lemma RangeBaseTwoCandleAnswers(ticker: string, to: string, elapse: int, formatUtc: string -> string)
    requires elapse <= MaxCallCount
    ensures var c1 := Candle("KRW-BTC", "u0", "t0", 5.0, 10.0, 1.0, 8.0, 0.0, 2.0);
      var c2 := Candle("KRW-BTC", "u1", "t1", 8.0, 12.0, 2.0, 9.0, 0.0, 3.0);
      && GetOhlcvRangeBase(ticker, to, elapse, formatUtc, (q: string) => [c1, c2])
         == Success(Ohlcv("t1", 8.0, 12.0, 1.0, 8.0, 5.0, 0.0))
      && GetOhlcvRangeBase(ticker, to, elapse, formatUtc, (q: string) => [c2, c1])
         == Success(Ohlcv("t0", 5.0, 12.0, 1.0, 9.0, 5.0, 0.0))
  {
    var c1 := Candle("KRW-BTC", "u0", "t0", 5.0, 10.0, 1.0, 8.0, 0.0, 2.0);
    var c2 := Candle("KRW-BTC", "u1", "t1", 8.0, 12.0, 2.0, 9.0, 0.0, 3.0);
    RangeBaseOfTwo(ticker, to, elapse, formatUtc, (q: string) => [c1, c2], c1, c2);
    RangeBaseOfTwo(ticker, to, elapse, formatUtc, (q: string) => [c2, c1], c2, c1);
    AggregateLaterFirst();
    AggregateExample();
  }

  // ---------------------------------------------------------------- current price

  /** One entry of the `/ticker` snapshot answer (the fields the client reads). */
  datatype Snapshot = Snapshot(market: string, tradePrice: real)

  const TickerUrl := "https://api.upbit.com/v1/ticker"

  /** getCurrentPrice: the trade price of the first snapshot for the ticker. The source
      reads element 0 without a check; an empty answer is its runtime fault, here NoSnapshot. */
  function GetCurrentPrice(ticker: string, fetch: string -> seq<Snapshot>): (r: Result<real, Error>)
    ensures var data := fetch(TickerUrl + "?markets=" + ticker);
      && (r.Success? <==> data != [])
      && (r.Success? ==> r.value == data[0].tradePrice)
      && (r.Failure? ==> r.error == NoSnapshot)
  {
    var data := fetch(TickerUrl + "?markets=" + ticker);
    if data == [] then Failure(NoSnapshot) else Success(data[0].tradePrice)
  }
}
