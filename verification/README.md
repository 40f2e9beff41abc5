# node-upbit in Dafny

A model of the core of node-upbit, a TypeScript client for the Upbit exchange's REST
API, with proofs about it. It covers three parts of the library:

- **Price rounding** (`src/utils.ts`, module `Utils`): `getTickSize` rounds a KRW
  order price down to the tick size of its price band. The model proves:
  - the result is at most the price and less than one step below it;
  - the result lies on the step grid and stays in the same band;
  - rounding is idempotent and monotone;
  - its fixed points are exactly the multiples of the step.
- **Market data** (`src/quotation.ts`, module `Quotation`):
  - `getTickers` filters the market list by quote currency.
  - `#getUrlOhlcv` maps interval names to candle endpoints.
  - `getOhlcv` validates its arguments, builds the query and reverses and renames the
    candles.
  - `getOhlcvRangeBase` folds hourly candles into one.
  - `getCurrentPrice` reads one snapshot.

  Each of these is a pure function of what the exchange answers. The answer is
  passed in as a list, or as a function from the requested URL to a list.
- **Account and order client** (`src/upbit.ts`, module `UpbitClient`):
  - The class `Upbit` holds its access key and secret as constants.
  - `GetHeaders` builds the JWT claims step by step, as `#getHeaders` does with
    `Object.assign`, and returns the bearer header.
  - Every request method returns the request it would send: verb, URL, body or query,
    and Authorization header.
  - `getBalance`'s lookup is a pure function over the fetched account list.

Shared pieces:

- `Text` holds JavaScript's `split`/`join` on one character and the decimal text of
  an integer.
- `Errors` holds the library's error kinds.
- `Wrappers` holds `Option` and `Result`.

Where the library throws, the model returns a `Failure` carrying the error kind.

## Model

| member | source | states |
|---|---|---|
| Utils.Step | src/utils.ts:7-24 | The band table: the step for a price is one of the nine increments 1000, 500, 100, 50, 10, 5, 1, 0.1 and 0.01, chosen by the first threshold the price reaches. |
| Utils.TickSize | src/utils.ts:6-26 | The rounded price is never above the input and is less than one step of the input's band below it. |
| Utils.OnGrid | src/utils.ts:6-26 | The rounded price is a whole number of steps of the input's band. |
| Utils.StaysInBand | src/utils.ts:6-26 | From 10 up, rounding never drops below the band's threshold, so the result has the same step as the input. |
| Utils.FixedPoints | src/utils.ts:6-26 | A price is left unchanged if and only if it is a whole multiple of its band's step. |
| Utils.Idempotent | src/utils.ts:6-26 | Rounding a rounded price changes nothing. |
| Utils.Monotone | src/utils.ts:6-26 | A higher price never rounds to a lower one, also across band boundaries. |
| Utils.WholeHundredsUnchanged | src/utils.ts:19-20 | Whole prices from 100 up to 1000 are returned unchanged. |
| Utils.WorkedValues | src/utils.ts:7-24 | 2450999 becomes 2450000, 1234567 becomes 1234500, 15 stays 15 and 0.0567 becomes 0.05. |
| Text.Split | src/quotation.ts:30 | `split` on one character gives at least one piece, and no piece contains the separator. |
| Text.JoinSplit | src/quotation.ts:30 | Joining the pieces of a split with the separator gives back the original string. |
| Text.SplitJoin | src/quotation.ts:30 | Splitting a join of separator-free pieces gives back the pieces. |
| Text.FirstSegment | src/quotation.ts:30 | `split('-')[0]`; FirstSegmentIsPrefix states what it is. |
| Text.SecondSegment | src/upbit.ts:66 | `split('-')[1]`, None where JavaScript gives `undefined`; SecondSegmentFollowsFirst states what it is. |
| Text.FirstSegmentIsPrefix | src/quotation.ts:30 | `split('-')[0]` is the longest prefix without '-'. |
| Text.SecondSegmentFollowsFirst | src/upbit.ts:66 | `split('-')[1]` exists if and only if the ticker contains '-'. It is the '-'-free text right after the first '-'. |
| Text.TickerSegments | src/upbit.ts:63-66 | "KRW-BTC" has first segment "KRW". The default "KRW-KRW" has second segment "KRW". "KRW" has no second segment. |
| Text.Decimal | src/quotation.ts:91 | The text `${count}` renders for an integer count; DecimalSign and DecimalInjective state its properties. |
| Text.Digits | src/quotation.ts:91 | The decimal text of a natural number is non-empty, all digits, and has no leading zero. |
| Text.DigitsRoundTrip | src/quotation.ts:91 | Reading the decimal text back gives the number. |
| Text.DecimalSign | src/quotation.ts:91 | `${n}` starts with '-' exactly when n is negative, followed by the digits of -n. |
| Text.DecimalInjective | src/quotation.ts:91 | Distinct counts have distinct decimal text. |
| Quotation.Markets | src/quotation.ts:31 | The market codes of the list, one per entry, in order. |
| Quotation.Keeps | src/quotation.ts:30 | The filter predicate: every market when no fiat is given, else markets whose first '-' segment is the fiat. |
| Quotation.GetTickers | src/quotation.ts:25-34 | With no fiat, every market code in response order. With a fiat, only codes whose first '-' segment is that fiat. |
| Quotation.GetTickersMembership | src/quotation.ts:29-31 | With a fiat, a code is returned if and only if the list has it and its first segment is the fiat. |
| Quotation.GetTickersIsSubsequence | src/quotation.ts:29-31 | The result is the market list with entries deleted, so response order is kept. |
| Quotation.GetTickersAppend | src/quotation.ts:29-31 | Filtering a concatenation is the concatenation of the filtered parts. |
| Quotation.UrlOhlcv | src/quotation.ts:41-65 | `#getUrlOhlcv`'s if-chain over the eleven spelling pairs, None on fall-through; every URL it gives is under /v1/candles/. |
| Quotation.IntervalsResolve | src/quotation.ts:41-64 | The singular and the plural spelling of each of the eleven intervals give that interval's endpoint. |
| Quotation.OnlyListedIntervalsResolve | src/quotation.ts:41-65 | Only a spelling listed in the interval table names an endpoint. |
| Quotation.ElevenDistinctEndpoints | src/quotation.ts:41-64 | The eleven endpoints are pairwise distinct. |
| Quotation.UnlistedIntervalMinute7 | src/quotation.ts:41-65 | An interval outside the table ("minute7") names no endpoint. |
| Quotation.UnlistedIntervalEmpty | src/quotation.ts:41-65 | The empty interval names no endpoint. |
| Quotation.OhlcvQuery | src/quotation.ts:89-91 | The query template: it always starts with the endpoint, `?market=` with the ticker, and `&count=`. |
| Quotation.OhlcvQueryShape | src/quotation.ts:89-91 | The query is the endpoint, market and count text, followed by `&to=` and the UTC-formatted `to` when `to` is a non-empty string, and by nothing otherwise. |
| Quotation.OhlcvQueryKeepsCount | src/quotation.ts:89-91 | Without `to`, two queries for the same endpoint and market are equal only when their counts are. |
| Quotation.Normalizes | src/quotation.ts:95-107 | The field renaming of one candle: datetime from the KST time, open/high/low from the opening/high/low prices, close from trade_price, volume and value from the accumulated volume and trade price. |
| Quotation.ToOhlcv | src/quotation.ts:95-107 | The renamed candle satisfies Normalizes with the candle it came from. |
| Quotation.ShapeOhlcv | src/quotation.ts:93-108 | The output has the response's length, and `output[i]` renames `items[n-1-i]` (close from trade_price, value from the accumulated trade price, volume from the accumulated volume). |
| Quotation.ShapeOhlcvAppend | src/quotation.ts:93-108 | Shaping a concatenation shapes both parts and swaps them: reversal order. |
| Quotation.GetOhlcv | src/quotation.ts:72-109 | A count over 200 fails with OverMaxCallCount before the interval is checked. Otherwise an unknown interval fails with BadTimeInterval. Success holds exactly when both checks pass, and then the answer to the built query is reversed and renamed. |
| Quotation.RejectedWithoutRequest | src/quotation.ts:78-86 | A rejected call fails whatever the exchange would answer: no request is made. |
| Quotation.DefaultOhlcvRequest | src/quotation.ts:72-91 | With the defaults (KRW-BTC, day, 200, no `to`) the call passes both checks and asks for `/v1/candles/days?market=KRW-BTC&count=200`. |
| Quotation.Max | src/quotation.ts:135 | `Math.max` of a non-empty list bounds every element and is one of them. |
| Quotation.Min | src/quotation.ts:136 | `Math.min` of a non-empty list bounds every element from below and is one of them. |
| Quotation.SumAppend | src/quotation.ts:138-139 | The reduce-sum of a concatenation is the sum of the parts' sums. |
| Quotation.Sum | src/quotation.ts:138-139 | The `reduce` sum from 0, added from the left; a sum of non-negative amounts is non-negative. |
| Quotation.Aggregate | src/quotation.ts:132-140 | Datetime and open come from the first element and close from the last. High bounds every high and is attained; low bounds every low from below and is attained. Volume and value are the sums. |
| Quotation.AggregateExample | src/quotation.ts:132-140 | The fold of a list already in returned order, (5/10/1/8, vol 2) then (8/12/2/9, vol 3), gives open 5, high 12, low 1, close 9, volume 5. |
| Quotation.AggregateLaterFirst | src/quotation.ts:132-140 | The same two candles folded with the second one first give open 8, high 12, low 1, close 8, volume 5. |
| Quotation.GetOhlcvRangeBase | src/quotation.ts:116-141 | An elapse over 200 fails with OverMaxCallCount; the only other failure is BadRange, since the hourly interval always resolves. |
| Quotation.RangeBaseOutcome | src/quotation.ts:116-141 | An elapse over 200 fails with OverMaxCallCount. Otherwise the range asks for hourly candles of the given count up to `to`. An empty answer fails with BadRange; a non-empty one gives the aggregate of the shaped answer. |
| Quotation.ShapeTwo | src/quotation.ts:93-108 | Shaping a two-candle answer swaps the two candles. |
| Quotation.RangeBaseOfTwo | src/quotation.ts:116-140 | A two-candle answer [a, b] folds as the list [b, a]. |
| Quotation.RangeBaseTwoCandleAnswers | src/quotation.ts:108-140 | Because of the reversal, the exchange answer (5/10/1/8, vol 2) then (8/12/2/9, vol 3) gives open 8 and close 8. Only the answer listing the later candle first gives open 5, high 12, low 1, close 9, volume 5. |
| Quotation.AggregateOfShapedEnds | src/quotation.ts:121-139 | Measured against the candles as sent, the range opens with the last one sent and closes with the first. |
| Quotation.ShapedHighsMax | src/quotation.ts:135 | The largest high after shaping bounds the high of every candle sent and equals one of them. |
| Quotation.ShapedLowsMin | src/quotation.ts:136 | The smallest low after shaping bounds the low of every candle sent from below and equals one of them. |
| Quotation.AggregateOfShapedExtremes | src/quotation.ts:132-140 | The range's high and low bound every candle sent and are attained by some candle. |
| Quotation.GetCurrentPrice | src/quotation.ts:148-153 | Returns the trade price of the first snapshot exactly when the answer is non-empty, and NoSnapshot otherwise. |
| UpbitClient.Claims | src/upbit.ts:25-39 | The claims always hold the access key and the nonce. `query_hash` (the SHA-512 hex of the encoded data) and `query_hash_alg` = "SHA512" are present if and only if data is supplied. |
| UpbitClient.NumberText | src/upbit.ts:114 | `String(x)` is the number's text, or "undefined" when the optional amount is missing. |
| UpbitClient.BuyLimitBody | src/upbit.ts:87-93 | The keys are exactly market, side, volume, price and ord_type. Side is "bid", ord_type is "limit", and price and volume are sent as text. |
| UpbitClient.SellLimitBody | src/upbit.ts:135-141 | The same keys, with side "ask" and ord_type "limit". |
| UpbitClient.MarketBuyBody | src/upbit.ts:111-116 | The keys are market, side, price and ord_type, with no volume. Side is "bid" and ord_type is "price". |
| UpbitClient.MarketSellBody | src/upbit.ts:159-164 | The keys are market, side, volume and ord_type, with no price. Side is "ask" and ord_type is "market". |
| UpbitClient.OrderQuery | src/upbit.ts:179-181 | getOrder's data holds the uuid and nothing else. |
| UpbitClient.LimitBodiesDifferOnlyInSide | src/upbit.ts:87-141 | The sell-limit body is the buy-limit body with side set to "ask"; every other field agrees. |
| UpbitClient.MarketBodiesComplementary | src/upbit.ts:111-164 | The market buy carries only a price and the market sell only a volume; otherwise they have the same keys. |
| UpbitClient.FindCurrency | src/upbit.ts:65-67 | `find` returns the index of the first account with the currency, and nothing exactly when no account has it. |
| UpbitClient.FindBalance | src/upbit.ts:63-74 | Returns an account of the list whose currency is the ticker's second '-' segment. Fails with WrongCoin exactly when there is no such segment or no such account. |
| UpbitClient.FindBalanceIsFirst | src/upbit.ts:65-67 | The account returned is the first match in the list. |
| UpbitClient.DefaultLooksUpKrw | src/upbit.ts:63-67 | The default ticker "KRW-KRW" succeeds exactly when a KRW account exists, and then returns a KRW account. |
| UpbitClient.Upbit.constructor | src/upbit.ts:16-23 | The client keeps the given access key and secret; they are constants and never change. |
| UpbitClient.Upbit.Authorization | src/upbit.ts:41-42 | The header value is "Bearer " followed by the claims signed with the client's secret. |
| UpbitClient.Upbit.SignsTransmitted | src/upbit.ts:94-96 | A request is signed with this client's keys over exactly the object it transmits. |
| UpbitClient.Upbit.GetHeaders | src/upbit.ts:25-43 | Builds the payload and adds the hash in place when data is given. The header is "Bearer " plus the payload's claims signed with the client's secret. |
| UpbitClient.Upbit.GetBalances | src/upbit.ts:49-56 | A GET of /v1/accounts with no parameters, signed over no data, so its claims carry no query hash. |
| UpbitClient.Upbit.GetBalance | src/upbit.ts:63-74 | Issues the accounts request, then returns the lookup of the ticker in the answer. |
| UpbitClient.Upbit.BuyLimitOrder | src/upbit.ts:81-99 | A POST to /v1/orders whose body is the buy-limit body, signed over that same body. |
| UpbitClient.Upbit.BuyMarketOrder | src/upbit.ts:106-122 | A POST to /v1/orders whose body is the market-buy body, signed over that same body. |
| UpbitClient.Upbit.SellLimitOrder | src/upbit.ts:129-147 | A POST to /v1/orders whose body is the sell-limit body, signed over that same body. |
| UpbitClient.Upbit.SellMarketOrder | src/upbit.ts:154-170 | A POST to /v1/orders whose body is the market-sell body, signed over that same body. |
| UpbitClient.Upbit.GetOrder | src/upbit.ts:177-187 | A GET of /v1/order whose query is the uuid, signed over that same query. |
| UpbitClient.Transmitted | src/lib/api.ts:39-63 | The object a call sends: the body of a POST, the query parameters of a GET. |
| UpbitClient.SignedClaimsCoverTransmitted | src/upbit.ts:31-42 | A request signed over what it sends carries the client's access key. It has a query hash exactly when it sends data, and then the hash is of that data. |

## Left out

- HTTP transport (src/lib/api.ts, src/public/api.ts): axios, async/await and responses are I/O. Requests are returned as values, and answers are parameters.
  - The unguarded `err.response` destructuring (src/lib/api.ts:31-35) is not modelled. So `UpbitApiError` is declared but no model operation produces it.
  - The order methods and getOrder return the request rather than the exchange's answer.
- src/public/api.ts imports a name that src/public/error.helper.ts does not export. That is a compile defect, not behaviour.
- src/index.ts is a demo script (environment variables, `console.log`) and is not part of this model.
- Error messages: the error classes only carry fixed texts, so errors are a datatype of kinds.
  - getOhlcv throws plain `Error`s with the same texts as OverMaxCallCount and BadTimeInterval. The model uses those kinds.
- Quotation.GetOhlcvRangeBase: the empty-range error is modelled as the code has it. It is its own error ("invalid range", `BadRange`), distinct from BadTimeInterval.
- Quotation.GetCurrentPrice: the source reads `data[0]` without a check. An empty answer is a runtime fault there, and the model turns it into the `NoSnapshot` error.
- Cryptography and encoding are uninterpreted function fields of `Primitives`: SHA-512, `jwt.sign`, `querystring.encode` and `String(number)`. The model proves what is signed, not how.
- Nonce: `uuidv4()` is a parameter of each call. Freshness and uniqueness of nonces are not modelled.
- Dates: moment-timezone conversion of `to` is the parameter `formatUtc`. The candle's `datetime` is kept as the exchange's KST text instead of a moment object.
- Floating point: prices, sums, `Math.max` and `Math.min` use exact `real`s instead of IEEE doubles.
- Utils.TickSize: in doubles, `Math.floor(price / 0.1)` can land one below the exact quotient. The model's bounds hold for exact arithmetic only.
- Quotation.Aggregate: double sums are rounded; the model's sums are exact.
- Object key order of JavaScript objects (claims, bodies) is not modelled: they are maps. `querystring.encode` and the JWT payload may depend on that order; here that dependence is inside the uninterpreted `encode` and `sign`.
- The two parameter serialisers (axios for GET query parameters, `querystring.encode` for the hash) are not compared. The model only shows that both receive the same object.
- `count` is modelled as an integer. Non-integer or non-numeric values reaching the template literal are not modelled.
- Text.Decimal: JavaScript writes integers of magnitude 1e21 or more in exponent form (`-1e+21`) and writes `-0` as "0". Text.Decimal renders all integers in plain digits and has no negative zero. Such counts are far outside what the exchange accepts.
