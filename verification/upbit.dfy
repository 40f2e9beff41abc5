/** The authenticated account and order client (src/upbit.ts): an `Upbit` object
    holds an access key and a secret for its whole life, signs every request with
    claims built from them, and shapes the bodies of the four order kinds.

    Nothing is sent here. Each operation returns the `Request` it would hand to the
    transport; where the source goes on to use a response (getBalance), the response
    is a function of that request passed in by the caller. SHA-512, JWT signing,
    query-string encoding and `String(number)` are the uninterpreted fields of a
    `Primitives` value, and the nonce that `uuidv4()` would draw is a parameter. */
module UpbitClient {
  import opened Wrappers
  import opened Errors
  import Text

  /** A flat JavaScript object of string fields: a request body, query parameters or
      a set of JWT claims. */
  type Params = map<string, string>

  /** The library functions the client calls but that are not part of this model. */
  datatype Primitives = Primitives(
    encode: Params -> string,            // querystring.encode
    sha512Hex: string -> string,         // crypto sha512 of the UTF-8 text, hex digest
    sign: (Params, string) -> string,    // jwt.sign(payload, secret)
    numberText: real -> string           // String(n) for a number n
  )

  datatype Verb = Get | Post

  /** One HTTP call as the transport receives it: GET carries `params`, POST `body`. */
  datatype Request = Request(
    verb: Verb,
    url: string,
    params: Option<Params>,
    body: Option<Params>,
    authorization: string
  )

  /** The object the call signs and sends: the body of a POST, the query of a GET. */
  function Transmitted(req: Request): Option<Params>
  {
    if req.verb == Post then req.body else req.params
  }

  const AccountsUrl := "https://api.upbit.com/v1/accounts"
  const OrdersUrl := "https://api.upbit.com/v1/orders"
  const OrderUrl := "https://api.upbit.com/v1/order"

  /** The claims #getHeaders signs: the access key and a fresh nonce, plus the hex
      SHA-512 of the encoded data and the algorithm's name when data is supplied (any
      object counts, even an empty one, since objects are truthy). */
  function Claims(access: string, nonce: string, data: Option<Params>, prim: Primitives): (c: Params)
    ensures "access_key" in c && c["access_key"] == access
    ensures "nonce" in c && c["nonce"] == nonce
    ensures "query_hash" in c <==> data.Some?
    ensures "query_hash_alg" in c <==> data.Some?
    ensures data.Some? ==>
      c["query_hash"] == prim.sha512Hex(prim.encode(data.value)) && c["query_hash_alg"] == "SHA512"
    ensures c.Keys <= {"access_key", "nonce", "query_hash", "query_hash_alg"}
  {
    var payload := map["access_key" := access, "nonce" := nonce];
    if data.Some? then
      payload + map["query_hash" := prim.sha512Hex(prim.encode(data.value)), "query_hash_alg" := "SHA512"]
    else payload
  }

  /** A limit or market order as the caller describes it. The market variant's
      price and volume are optional in the source's payload type. */
  datatype LimitOrderPayload = LimitOrderPayload(ticker: string, price: real, volume: real)
  datatype MarketOrderPayload = MarketOrderPayload(ticker: string, price: Option<real>, volume: Option<real>)

  /** `String(x)` for a number that may be `undefined`. */
  function NumberText(x: Option<real>, prim: Primitives): (s: string)
    ensures x.None? ==> s == "undefined"
    ensures x.Some? ==> s == prim.numberText(x.value)
  {
    if x.Some? then prim.numberText(x.value) else "undefined"
  }

  /** buyLimitOrder's body: bid `volume` at `price`. */
  function BuyLimitBody(order: LimitOrderPayload, prim: Primitives): (b: Params)
    ensures b.Keys == {"market", "side", "volume", "price", "ord_type"}
    ensures b["market"] == order.ticker && b["side"] == "bid" && b["ord_type"] == "limit"
    ensures b["volume"] == prim.numberText(order.volume) && b["price"] == prim.numberText(order.price)
  {
    map[
      "market" := order.ticker,
      "side" := "bid",
      "volume" := prim.numberText(order.volume),
      "price" := prim.numberText(order.price),
      "ord_type" := "limit"
    ]
  }

  /** sellLimitOrder's body: ask `volume` at `price`. */
  function SellLimitBody(order: LimitOrderPayload, prim: Primitives): (b: Params)
    ensures b.Keys == {"market", "side", "volume", "price", "ord_type"}
    ensures b["market"] == order.ticker && b["side"] == "ask" && b["ord_type"] == "limit"
    ensures b["volume"] == prim.numberText(order.volume) && b["price"] == prim.numberText(order.price)
  {
    map[
      "market" := order.ticker,
      "side" := "ask",
      "volume" := prim.numberText(order.volume),
      "price" := prim.numberText(order.price),
      "ord_type" := "limit"
    ]
  }

  /** buyMarketOrder's body: spend `price` in the quote currency; no volume. */
  function MarketBuyBody(order: MarketOrderPayload, prim: Primitives): (b: Params)
    ensures b.Keys == {"market", "side", "price", "ord_type"}
    ensures "volume" !in b
    ensures b["market"] == order.ticker && b["side"] == "bid" && b["ord_type"] == "price"
    ensures b["price"] == NumberText(order.price, prim)
  {
    map[
      "market" := order.ticker,
      "side" := "bid",
      "price" := NumberText(order.price, prim),
      "ord_type" := "price"
    ]
  }

  /** sellMarketOrder's body: sell `volume` of the coin; no price. */
  function MarketSellBody(order: MarketOrderPayload, prim: Primitives): (b: Params)
    ensures b.Keys == {"market", "side", "volume", "ord_type"}
    ensures "price" !in b
    ensures b["market"] == order.ticker && b["side"] == "ask" && b["ord_type"] == "market"
    ensures b["volume"] == NumberText(order.volume, prim)
  {
    map[
      "market" := order.ticker,
      "side" := "ask",
      "volume" := NumberText(order.volume, prim),
      "ord_type" := "market"
    ]
  }

  /** getOrder's query: the order's uuid and nothing else. */
  function OrderQuery(uuid: string): (q: Params)
    ensures q.Keys == {"uuid"} && q["uuid"] == uuid
  {
    map["uuid" := uuid]
  }

  /** Buying and selling at a limit send the same body except for the side. */
  lemma LimitBodiesDifferOnlyInSide(order: LimitOrderPayload, prim: Primitives)
    ensures SellLimitBody(order, prim) == BuyLimitBody(order, prim)["side" := "ask"]
    ensures forall k :: k in BuyLimitBody(order, prim) && k != "side" ==>
      SellLimitBody(order, prim)[k] == BuyLimitBody(order, prim)[k]
  {
  }

  /** The two market orders carry complementary amounts: the buy names only a price,
      the sell only a volume. */
  lemma MarketBodiesComplementary(order: MarketOrderPayload, prim: Primitives)
    ensures MarketBuyBody(order, prim).Keys - {"price"} == MarketSellBody(order, prim).Keys - {"volume"}
    ensures "price" in MarketBuyBody(order, prim) && "price" !in MarketSellBody(order, prim)
    ensures "volume" !in MarketBuyBody(order, prim) && "volume" in MarketSellBody(order, prim)
  {
  }

  /** One entry of the account list `/accounts` returns. */
  datatype Account = Account(
    currency: string,
    balance: string,
    locked: string,
    avgBuyPrice: string,
    avgBuyPriceModified: bool,
    unitCurrency: string
  )

  /** `Array.prototype.find` by currency: the index of the first account holding
      `currency`, or None. */
  function FindCurrency(accounts: seq<Account>, currency: string): (r: Option<nat>)
    ensures r.Some? ==>
      && r.value < |accounts|
      && accounts[r.value].currency == currency
      && forall j :: 0 <= j < r.value ==> accounts[j].currency != currency
    ensures r.None? <==> forall j :: 0 <= j < |accounts| ==> accounts[j].currency != currency
  {
    if accounts == [] then None
    else if accounts[0].currency == currency then Some(0)
    else
      match FindCurrency(accounts[1..], currency)
      case None => None
      case Some(k) => Some(k + 1)
  }

  /** getBalance once the accounts are in: the first account whose currency is the
      ticker's second '-' segment. A ticker without '-' has no such segment (it is
      `undefined`, equal to no currency), so it fails like an unknown coin. */
  function FindBalance(accounts: seq<Account>, ticker: string): (r: Result<Account, Error>)
    ensures r.Failure? ==> r.error == WrongCoin
    ensures r.Failure? <==>
      || Text.SecondSegment(ticker).None?
      || forall j :: 0 <= j < |accounts| ==> accounts[j].currency != Text.SecondSegment(ticker).value
    ensures r.Success? ==> exists i :: 0 <= i < |accounts| && accounts[i] == r.value
    ensures r.Success? ==> r.value.currency == Text.SecondSegment(ticker).value
  {
    match Text.SecondSegment(ticker)
    case None => Failure(WrongCoin)
    case Some(currency) =>
      match FindCurrency(accounts, currency)
      case None => Failure(WrongCoin)
      case Some(i) => Success(accounts[i])
  }

  /** The found account is the first one with that currency. */
  lemma FindBalanceIsFirst(accounts: seq<Account>, ticker: string, i: nat)
    requires FindBalance(accounts, ticker).Success?
    requires i < |accounts| && accounts[i].currency == Text.SecondSegment(ticker).value
    ensures FindCurrency(accounts, Text.SecondSegment(ticker).value).Some?
    ensures var k := FindCurrency(accounts, Text.SecondSegment(ticker).value).value;
      k <= i && FindBalance(accounts, ticker) == Success(accounts[k])
  {
  }

  /** getBalance's default ticker. */
  const DefaultBalanceTicker := "KRW-KRW"

  /** The default ticker looks up the KRW cash account. */
  lemma DefaultLooksUpKrw(accounts: seq<Account>)
    ensures FindBalance(accounts, DefaultBalanceTicker).Success? <==>
      exists j :: 0 <= j < |accounts| && accounts[j].currency == "KRW"
    ensures FindBalance(accounts, DefaultBalanceTicker).Success? ==>
      FindBalance(accounts, DefaultBalanceTicker).value.currency == "KRW"
  {
    Text.TickerSegments();
  }

  /** A client bound to one key pair. The credentials and the primitives are fixed at
      construction and no method can change them. */
  class Upbit {
    const access: string
    const secret: string
    const prim: Primitives

    constructor(access: string, secret: string, prim: Primitives)
      ensures this.access == access && this.secret == secret && this.prim == prim
    {
      this.access := access;
      this.secret := secret;
      this.prim := prim;
    }

    /** The Authorization header of a call that signs `data` with nonce `nonce`. */
    function Authorization(data: Option<Params>, nonce: string): (a: string)
      ensures "Bearer " <= a && a[|"Bearer "|..] == prim.sign(Claims(access, nonce, data, prim), secret)
    {
      "Bearer " + prim.sign(Claims(access, nonce, data, prim), secret)
    }

    /** The request is signed with this client's keys over exactly what it sends. */
    predicate SignsTransmitted(req: Request, nonce: string)
    {
      req.authorization == Authorization(Transmitted(req), nonce)
    }

    /** #getHeaders: builds the claims, adds the query hash in place when data is
        given, and returns the bearer token signed with the secret. */
    method GetHeaders(data: Option<Params>, nonce: string) returns (authorization: string)
      ensures authorization == "Bearer " + prim.sign(Claims(access, nonce, data, prim), secret)
    {
      var payload := map["access_key" := access, "nonce" := nonce];
      if data.Some? {
        var query := prim.encode(data.value);
        var queryHash := prim.sha512Hex(query);
        payload := payload + map["query_hash" := queryHash, "query_hash_alg" := "SHA512"];
      }
      var token := prim.sign(payload, secret);
      authorization := "Bearer " + token;
    }

    /** getBalances: a GET of /accounts with no parameters, signed without data, so
        its claims carry no query hash. */
    method GetBalances(nonce: string) returns (req: Request)
      ensures req.verb == Get && req.url == AccountsUrl
      ensures req.params.None? && req.body.None?
      ensures SignsTransmitted(req, nonce)
      ensures "query_hash" !in Claims(access, nonce, Transmitted(req), prim)
    {
      var headers := GetHeaders(None, nonce);
      req := Request(Get, AccountsUrl, None, None, headers);
    }

    /** getBalance: fetches the account list, then picks the ticker's currency from it.
        `fetch` stands for the exchange's answer to the request. */
    method GetBalance(ticker: string, nonce: string, fetch: Request -> seq<Account>)
      returns (req: Request, r: Result<Account, Error>)
      ensures req.verb == Get && req.url == AccountsUrl && req.params.None? && req.body.None?
      ensures SignsTransmitted(req, nonce)
      ensures r == FindBalance(fetch(req), ticker)
    {
      req := GetBalances(nonce);
      var balances := fetch(req);
      r := FindBalance(balances, ticker);
    }

    /** buyLimitOrder: POSTs the limit-bid body to /orders, signed over that body. */
    method BuyLimitOrder(order: LimitOrderPayload, nonce: string) returns (req: Request)
      ensures req.verb == Post && req.url == OrdersUrl && req.params.None?
      ensures req.body == Some(BuyLimitBody(order, prim))
      ensures SignsTransmitted(req, nonce)
    {
      var data := BuyLimitBody(order, prim);
      var headers := GetHeaders(Some(data), nonce);
      req := Request(Post, OrdersUrl, None, Some(data), headers);
    }

    /** buyMarketOrder: POSTs the market-bid body to /orders, signed over that body. */
    method BuyMarketOrder(order: MarketOrderPayload, nonce: string) returns (req: Request)
      ensures req.verb == Post && req.url == OrdersUrl && req.params.None?
      ensures req.body == Some(MarketBuyBody(order, prim))
      ensures SignsTransmitted(req, nonce)
    {
      var data := MarketBuyBody(order, prim);
      var headers := GetHeaders(Some(data), nonce);
      req := Request(Post, OrdersUrl, None, Some(data), headers);
    }

    /** sellLimitOrder: POSTs the limit-ask body to /orders, signed over that body. */
    method SellLimitOrder(order: LimitOrderPayload, nonce: string) returns (req: Request)
      ensures req.verb == Post && req.url == OrdersUrl && req.params.None?
      ensures req.body == Some(SellLimitBody(order, prim))
      ensures SignsTransmitted(req, nonce)
    {
      var data := SellLimitBody(order, prim);
      var headers := GetHeaders(Some(data), nonce);
      req := Request(Post, OrdersUrl, None, Some(data), headers);
    }

    /** sellMarketOrder: POSTs the market-ask body to /orders, signed over that body. */
    method SellMarketOrder(order: MarketOrderPayload, nonce: string) returns (req: Request)
      ensures req.verb == Post && req.url == OrdersUrl && req.params.None?
      ensures req.body == Some(MarketSellBody(order, prim))
      ensures SignsTransmitted(req, nonce)
    {
      var data := MarketSellBody(order, prim);
      var headers := GetHeaders(Some(data), nonce);
      req := Request(Post, OrdersUrl, None, Some(data), headers);
    }

    /** getOrder: a GET of /order whose query is the uuid, signed over that query. */
    method GetOrder(uuid: string, nonce: string) returns (req: Request)
      ensures req.verb == Get && req.url == OrderUrl && req.body.None?
      ensures req.params == Some(OrderQuery(uuid))
      ensures SignsTransmitted(req, nonce)
    {
      var data := OrderQuery(uuid);
      var headers := GetHeaders(Some(data), nonce);
      req := Request(Get, OrderUrl, Some(data), None, headers);
    }
  }

  /** Every signed call of a client carries the client's access key in its claims,
      and a query hash exactly when it transmits data, namely the hash of that data. */
  lemma SignedClaimsCoverTransmitted(u: Upbit, req: Request, nonce: string)
    requires u.SignsTransmitted(req, nonce)
    ensures var c := Claims(u.access, nonce, Transmitted(req), u.prim);
      && req.authorization == "Bearer " + u.prim.sign(c, u.secret)
      && c["access_key"] == u.access
      && ("query_hash" in c <==> Transmitted(req).Some?)
      && (Transmitted(req).Some? ==> c["query_hash"] == u.prim.sha512Hex(u.prim.encode(Transmitted(req).value)))
  {
  }
}
