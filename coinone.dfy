/**
 * The Coinone client (class `Coinone < Exchange`, exchange.rb): how it signs a
 * private request, how it tells an accepted response from a rejected one,
 * and how it turns an accepted body into the uniform result Hash.
 */
module Coinone {
  import opened Wrappers
  import opened RubyHash
  import opened RubyString
  import opened RubyValue
  import opened Exchange

  /** `Coinone::SERVER`. */
  const Server: string := "https://api.coinone.co.kr"

  /** The body has `"result": "success"`, Coinone's mark of success. */
  predicate ResultOk(body: Value) {
    body.Hash? && Get(body.entries, "result") == Some(Str("success"))
  }

  /**
   * `{access_token: @api_key, nonce: nonce}.merge(params)`: the Hash Coinone
   * signs. The two credentials come first; a parameter of the same name
   * overrides one of them in place; the other parameters follow in order.
   */
  function Payload(accessToken: string, nonce: string, params: Entries): (p: Entries)
    ensures |p| >= 2 && p[0].0 == "access_token" && p[1].0 == "nonce"
    ensures DistinctKeys(p)
    ensures DistinctKeys(params) ==>
      Keys(p) == ["access_token", "nonce"] + Missing(Keys(params), ["access_token", "nonce"])
    ensures DistinctKeys(params) ==> Get(p, "nonce") == Some(Get(params, "nonce").GetOr(Str(nonce)))
    ensures DistinctKeys(params) ==>
      Get(p, "access_token") == Some(Get(params, "access_token").GetOr(Str(accessToken)))
    ensures DistinctKeys(params) && "access_token" !in Keys(params) && "nonce" !in Keys(params) ==>
      p == [("access_token", Str(accessToken)), ("nonce", Str(nonce))] + params
  {
    var seed := [("access_token", Str(accessToken)), ("nonce", Str(nonce))];
    assert Keys(seed) == ["access_token", "nonce"];
    assert DistinctKeys(seed) by {
      assert Keys(seed[1..]) == ["nonce"];
    }
    MergeKeepsReceiverKeys(seed, params);
    if !DistinctKeys(params) then Merge(seed, params)
    else
      MergeKeys(seed, params);
      MergeGet(seed, params, "nonce");
      MergeGet(seed, params, "access_token");
      if "access_token" in Keys(params) || "nonce" in Keys(params) then Merge(seed, params)
      else
        MergeDisjoint(seed, params);
        Merge(seed, params)
  }

  /** The parameters of `buy` and of `sell` (exchange.rb:253 and 267). */
  function LimitOrder(coin: string, price: Value, quantity: Value): (o: Entries)
    ensures Keys(o) == ["currency", "qty", "price"] && DistinctKeys(o)
  {
    PairwiseDistinctKeys([("currency", Str(coin)), ("qty", quantity), ("price", price)]);
    [("currency", Str(coin)), ("qty", quantity), ("price", price)]
  }

  /** An order's payload is the two credentials followed by the order parameters, unchanged. */
  lemma OrderPayload(accessToken: string, nonce: string, coin: string, price: Value, quantity: Value)
    ensures Payload(accessToken, nonce, LimitOrder(coin, price, quantity))
         == [("access_token", Str(accessToken)), ("nonce", Str(nonce))] + LimitOrder(coin, price, quantity)
  {
    PairwiseDistinctKeys(LimitOrder(coin, price, quantity));
  }

  /** The headers `private_api` sends, in order. */
  const HeaderNames: seq<string> := ["Content-Type", "X-COINONE-PAYLOAD", "X-COINONE-SIGNATURE"]

  class Coinone {
    const apiKey: string
    const secretKey: string

    /** `initialize`: the client keeps its credentials for its whole life. */
    constructor (apiKey: string, secretKey: string)
      ensures this.apiKey == apiKey && this.secretKey == secretKey
    {
      this.apiKey := apiKey;
      this.secretKey := secretKey;
    }

    /**
     * The block `body['result'] != 'success'`. It answers false exactly for
     * a Hash whose result is "success"; a String body is always flagged;
     * other bodies have no such `[]`.
     */
    static function IsError(body: Value): (r: Outcome<bool>)
      ensures r == Ok(false) <==> ResultOk(body)
      ensures r.Raised? <==> !(body.Hash? || body.Str?)
    {
      var result :- Index(body, "result");
      Ok(result != Str("success"))
    }

    /** `check_and_get_response_body`: the shared classifier with Coinone's block. */
    function CheckAndGetResponseBody(res: HttpResponse, parse: string -> Outcome<Value>): (r: Outcome<Option<Value>>)
      ensures res.code != "200" ==> r == Ok(None)
      ensures Accepted(r) <==> res.code == "200" && parse(res.body).Ok? && ResultOk(parse(res.body).value)
      ensures (res.code == "200" && parse(res.body).Ok? && (parse(res.body).value.Hash? || parse(res.body).value.Str?)
        && !ResultOk(parse(res.body).value)) ==> r == Ok(None)
      ensures Accepted(r) ==> r.value.value == parse(res.body).value
    {
      Exchange.CheckAndGetResponseBody(res, parse, IsError)
    }

    /**
     * The request `private_api` sends: the body is the Base64 of the JSON
     * payload, the payload header repeats the body, and the signature is the
     * HMAC of that very body under the upper-cased secret key.
     */
    function SignedRequest(millis: nat, endpoint: string, params: Entries, lib: Library): (r: Request)
      ensures r.server == Server && r.path == endpoint
      ensures r.body == lib.strictEncode64(lib.toJson(Hash(Payload(apiKey, NonceString(millis), params))))
      ensures Keys(r.headers) == HeaderNames
      ensures Get(r.headers, "Content-Type") == Some("application/json")
      ensures Get(r.headers, "X-COINONE-PAYLOAD") == Some(r.body)
      ensures Get(r.headers, "X-COINONE-SIGNATURE") == Some(lib.hmacSha512Hex(Upcase(secretKey), r.body))
    {
      var nonce := NonceString(millis);
      var jsonPayload := lib.toJson(Hash(Payload(apiKey, nonce, params)));
      var encodedPayload := lib.strictEncode64(jsonPayload);
      var sign := lib.hmacSha512Hex(Upcase(secretKey), encodedPayload);
      var header := [("Content-Type", "application/json"), ("X-COINONE-PAYLOAD", encodedPayload),
                     ("X-COINONE-SIGNATURE", sign)];
      Request(Server, endpoint, header, encodedPayload)
    }

    /**
     * What `account_info` makes of an accepted response body: once
     * `body['userInfo']['feeRate']` has been read, the subscript `coin_code`
     * names no variable or method in scope, so every accepted response
     * ends in an exception and never in a result.
     */
    static function AccountInfoFrom(body: Value): (r: Outcome<Entries>)
      ensures r.Raised?
      ensures var rate := Walk(body, [Key("userInfo"), Key("feeRate")]);
        && (rate.Raised? ==> r == Raised(rate.exception))
        && (rate.Ok? ==> r == Raised(NameError))
    {
      var rate :- Walk(body, [Key("userInfo"), Key("feeRate")]);
      Raised(NameError)
    }

    /** `account_info`: a signed POST to "/v2/account/user_info" with no parameters. */
    function AccountInfo(millis: nat, lib: Library, net: Transport): (r: Outcome<Entries>)
      ensures var c := CheckAndGetResponseBody(net.post(SignedRequest(millis, "/v2/account/user_info", [], lib)), lib.parseJson);
        && AnswersRejection(c, r)
        && (Accepted(c) ==> r.Raised? && r == AccountInfoFrom(c.value.value))
    {
      var res := net.post(SignedRequest(millis, "/v2/account/user_info", [], lib));
      var body :- CheckAndGetResponseBody(res, lib.parseJson);
      if body.None? then Ok(ErrorResult) else AccountInfoFrom(body.value)
    }

    /**
     * What `balance(coin_code)` makes of an accepted response body: the
     * total and available won and the total and available amount of the
     * coin, read from the body's entries for "krw" and for the coin.
     */
    static function BalanceFrom(coin: string, body: Value): (r: Outcome<Entries>)
      ensures var krwTotal := Walk(body, [Key("krw"), Key("balance")]);
        var krwAvail := Walk(body, [Key("krw"), Key("avail")]);
        var total := Walk(body, [Key(coin), Key("balance")]);
        var avail := Walk(body, [Key(coin), Key("avail")]);
        && (r.Ok? <==> krwTotal.Ok? && krwAvail.Ok? && total.Ok? && avail.Ok?)
        && (krwTotal.Raised? ==> r == Raised(krwTotal.exception))
        && (krwTotal.Ok? && krwAvail.Raised? ==> r == Raised(krwAvail.exception))
        && (krwTotal.Ok? && krwAvail.Ok? && total.Raised? ==> r == Raised(total.exception))
        && (krwTotal.Ok? && krwAvail.Ok? && total.Ok? && avail.Raised? ==> r == Raised(avail.exception))
        && (r.Ok? ==> r.value == BalanceEntries(coin, krwTotal.value, krwAvail.value, total.value, avail.value))
        && (r.Ok? && coin == "krw" ==> r.value == [("error", Bool(false)), ("total_krw", krwTotal.value), ("available_krw", krwAvail.value)])
    {
      var krwTotal :- Walk(body, [Key("krw"), Key("balance")]);
      var krwAvail :- Walk(body, [Key("krw"), Key("avail")]);
      var total :- Walk(body, [Key(coin), Key("balance")]);
      var avail :- Walk(body, [Key(coin), Key("avail")]);
      Ok(BalanceEntries(coin, krwTotal, krwAvail, total, avail))
    }

    /** `balance(coin_code)`: a signed POST to "/v2/account/balance"; the coin is not sent. */
    function Balance(coin: string, millis: nat, lib: Library, net: Transport): (r: Outcome<Entries>)
      ensures var c := CheckAndGetResponseBody(net.post(SignedRequest(millis, "/v2/account/balance", [], lib)), lib.parseJson);
        && AnswersRejection(c, r)
        && (Accepted(c) ==> r == BalanceFrom(coin, c.value.value))
    {
      var res := net.post(SignedRequest(millis, "/v2/account/balance", [], lib));
      var body :- CheckAndGetResponseBody(res, lib.parseJson);
      if body.None? then Ok(ErrorResult) else BalanceFrom(coin, body.value)
    }

    /**
     * What `orderbook(coin_code)` makes of an accepted response body: the
     * timestamp with "000" appended, so a count of seconds in digits reads
     * as the same instant in milliseconds, and the first bid and ask prices
     * read with `to_i`.
     */
    static function OrderbookFrom(body: Value): (r: Outcome<Entries>)
      ensures var stamp := Walk(body, [Key("timestamp")]);
        var ts := if stamp.Ok? then AppendString(stamp.value, "000") else stamp;
        var bid := WalkToI(body, [Key("bid"), Head, Key("price")]);
        var ask := WalkToI(body, [Key("ask"), Head, Key("price")]);
        && (r.Ok? <==> ts.Ok? && bid.Ok? && ask.Ok?)
        && (ts.Raised? ==> r == Raised(ts.exception))
        && (ts.Ok? && bid.Raised? ==> r == Raised(bid.exception))
        && (ts.Ok? && bid.Ok? && ask.Raised? ==> r == Raised(ask.exception))
        && (r.Ok? ==> r.value == OrderbookEntries(ts.value, bid.value, ask.value))
        && (r.Ok? ==> stamp.value.Str? && r.value[1] == ("timestamp", Str(stamp.value.s + "000")))
        && (r.Ok? ==> |r.value[1].1.s| == |stamp.value.s| + 3)
        && (r.Ok? && AllDigits(stamp.value.s) ==>
              StringToI(r.value[1].1.s) == StringToI(stamp.value.s) * 1000)
    {
      var stamp :- Walk(body, [Key("timestamp")]);
      var ts :- AppendString(stamp, "000");
      var bid :- WalkToI(body, [Key("bid"), Head, Key("price")]);
      var ask :- WalkToI(body, [Key("ask"), Head, Key("price")]);
      if AllDigits(stamp.s) then
        AppendThousandfold(stamp.s);
        Ok(OrderbookEntries(ts, bid, ask))
      else
        Ok(OrderbookEntries(ts, bid, ask))
    }

    /** `orderbook(coin_code)`: an unsigned GET of "/orderbook" with the currency as query. */
    function Orderbook(coin: string, lib: Library, net: Transport): (r: Outcome<Entries>)
      ensures var c := CheckAndGetResponseBody(net.get(Server + "/orderbook", [("currency", Str(coin))]), lib.parseJson);
        && AnswersRejection(c, r)
        && (Accepted(c) ==> r == OrderbookFrom(c.value.value))
    {
      var res := net.get(Server + "/orderbook", [("currency", Str(coin))]);
      var body :- CheckAndGetResponseBody(res, lib.parseJson);
      if body.None? then Ok(ErrorResult) else OrderbookFrom(body.value)
    }

    /**
     * `buy`, with the rejection log written through the client's logger:
     * the body of a rejected response is parsed for the log, then `{error: true}`.
     */
    function Buy(coin: string, price: Value, quantity: Value, millis: nat, lib: Library, net: Transport): (r: Outcome<Entries>)
      ensures var res := net.post(SignedRequest(millis, "/v2/order/limit_buy", LimitOrder(coin, price, quantity), lib));
        OrderAnswer(CheckAndGetResponseBody(res, lib.parseJson), lib.parseJson(res.body), r)
    {
      var res := net.post(SignedRequest(millis, "/v2/order/limit_buy", LimitOrder(coin, price, quantity), lib));
      var body :- CheckAndGetResponseBody(res, lib.parseJson);
      if body.None? then
        var logged :- lib.parseJson(res.body);
        Ok(ErrorResult)
      else
        Ok(Store([], "error", Bool(false)))
    }

    /** `sell`, with the rejection log written through the client's logger, as in Buy. */
    function Sell(coin: string, price: Value, quantity: Value, millis: nat, lib: Library, net: Transport): (r: Outcome<Entries>)
      ensures var res := net.post(SignedRequest(millis, "/v2/order/limit_sell", LimitOrder(coin, price, quantity), lib));
        OrderAnswer(CheckAndGetResponseBody(res, lib.parseJson), lib.parseJson(res.body), r)
    {
      var res := net.post(SignedRequest(millis, "/v2/order/limit_sell", LimitOrder(coin, price, quantity), lib));
      var body :- CheckAndGetResponseBody(res, lib.parseJson);
      if body.None? then
        var logged :- lib.parseJson(res.body);
        Ok(ErrorResult)
      else
        Ok(Store([], "error", Bool(false)))
    }

    /**
     * `buy` as written: on a rejected response the body is parsed for
     * `log(...)`, and then `log`, which no class in the program defines,
     * raises NoMethodError.
     */
    function BuyAsWritten(coin: string, price: Value, quantity: Value, millis: nat, lib: Library, net: Transport): (r: Outcome<Entries>)
      ensures var res := net.post(SignedRequest(millis, "/v2/order/limit_buy", LimitOrder(coin, price, quantity), lib));
        var c := CheckAndGetResponseBody(res, lib.parseJson);
        && (c == Ok(None) ==> r == Raised(if lib.parseJson(res.body).Ok? then NoMethodError else lib.parseJson(res.body).exception))
        && (c.Raised? ==> r == Raised(c.exception))
        && (Accepted(c) ==> r == Ok([("error", Bool(false))]))
    {
      var res := net.post(SignedRequest(millis, "/v2/order/limit_buy", LimitOrder(coin, price, quantity), lib));
      var body :- CheckAndGetResponseBody(res, lib.parseJson);
      if body.None? then
        var logged :- lib.parseJson(res.body);
        Raised(NoMethodError)
      else
        Ok(Store([], "error", Bool(false)))
    }

    /** `sell` as written: the same NoMethodError as in BuyAsWritten. */
    function SellAsWritten(coin: string, price: Value, quantity: Value, millis: nat, lib: Library, net: Transport): (r: Outcome<Entries>)
      ensures var res := net.post(SignedRequest(millis, "/v2/order/limit_sell", LimitOrder(coin, price, quantity), lib));
        var c := CheckAndGetResponseBody(res, lib.parseJson);
        && (c == Ok(None) ==> r == Raised(if lib.parseJson(res.body).Ok? then NoMethodError else lib.parseJson(res.body).exception))
        && (c.Raised? ==> r == Raised(c.exception))
        && (Accepted(c) ==> r == Ok([("error", Bool(false))]))
    {
      var res := net.post(SignedRequest(millis, "/v2/order/limit_sell", LimitOrder(coin, price, quantity), lib));
      var body :- CheckAndGetResponseBody(res, lib.parseJson);
      if body.None? then
        var logged :- lib.parseJson(res.body);
        Raised(NoMethodError)
      else
        Ok(Store([], "error", Bool(false)))
    }
  }

  /**
   * The hash `balance` builds by storing `:error`, "total_krw",
   * "available_krw", "total_<coin>" and "available_<coin>" in turn. For the
   * coin "krw" the last two stores overwrite the middle two in place.
   */
  function BalanceEntries(coin: string, krwTotal: Value, krwAvail: Value, total: Value, avail: Value): (h: Entries)
    ensures coin == "krw" ==> h == [("error", Bool(false)), ("total_krw", total), ("available_krw", avail)]
    ensures coin != "krw" ==> h == [("error", Bool(false)), ("total_krw", krwTotal), ("available_krw", krwAvail),
                                    ("total_" + coin, total), ("available_" + coin, avail)]
  {
    BalanceKeys(coin);
    var ret := Store([], "error", Bool(false));
    var ret := Store(ret, "total_krw", krwTotal);
    var ret := Store(ret, "available_krw", krwAvail);
    assert ret == [("error", Bool(false)), ("total_krw", krwTotal), ("available_krw", krwAvail)];
    if coin == "krw" then
      assert "total_" + coin == "total_krw" && "available_" + coin == "available_krw";
      var e, t, a := ("error", Bool(false)), ("total_krw", krwTotal), ("available_krw", krwAvail);
      assert ret == [e] + ([t] + [a]);
      StoreBehind(e, [t] + [a], "total_krw", total);
      StoreFirst(t, [a], total);
      var ret := Store(ret, "total_krw", total);
      var t' := ("total_krw", total);
      assert ret == [e] + ([t'] + [a]);
      StoreBehind(e, [t'] + [a], "available_krw", avail);
      StoreBehind(t', [a], "available_krw", avail);
      StoreFirst(a, [], avail);
      Store(ret, "available_krw", avail)
    else
      var ret := Store(ret, "total_" + coin, total);
      assert ret == [("error", Bool(false)), ("total_krw", krwTotal), ("available_krw", krwAvail), ("total_" + coin, total)];
      Store(ret, "available_" + coin, avail)
  }

  /**
   * As written, a rejected order raises NoMethodError instead of answering
   * `{error: true}`: a response with status "500" and a body that parses
   * shows it.
   */
  lemma RejectedOrderRaisesAsWritten(c: Coinone, coin: string, price: Value, quantity: Value, millis: nat)
    ensures var lib := Library((k, d) => "", s => s, f => "", v => "", s => Ok(Nil));
      var net := Transport(req => HttpResponse("500", "null"), (u, q) => HttpResponse("500", "null"));
      && c.BuyAsWritten(coin, price, quantity, millis, lib, net) == Raised(NoMethodError)
      && c.SellAsWritten(coin, price, quantity, millis, lib, net) == Raised(NoMethodError)
      && c.Buy(coin, price, quantity, millis, lib, net) == Ok(ErrorResult)
      && c.Sell(coin, price, quantity, millis, lib, net) == Ok(ErrorResult)
  {
  }

  /**
   * The corrected order still evaluates the log argument `JSON.parse(res.body)`
   * first: a rejected response whose body is not JSON, such as an HTML error
   * page, raises the parse error.
   */
  lemma RejectedNonJsonOrderRaises(c: Coinone, coin: string, price: Value, quantity: Value, millis: nat)
    ensures var lib := Library((k, d) => "", s => s, f => "", v => "", s => Raised(ParserError));
      var net := Transport(req => HttpResponse("500", "<html>"), (u, q) => HttpResponse("500", "<html>"));
      && c.Buy(coin, price, quantity, millis, lib, net) == Raised(ParserError)
      && c.Sell(coin, price, quantity, millis, lib, net) == Raised(ParserError)
  {
  }

  /** A result of "success" is accepted; any other, such as "error", is a rejection. */
  lemma ResultExamples()
    ensures Coinone.IsError(Hash([("result", Str("success"))])) == Ok(false)
    ensures Coinone.IsError(Hash([("result", Str("error"))])) == Ok(true)
  {
  }

  /** The timestamp "1620000000" becomes the string "1620000000000", by concatenation. */
  lemma TimestampExample()
    ensures AppendString(Str("1620000000"), "000") == Ok(Str("1620000000000"))
  {
    assert "1620000000" + "000" == "1620000000000";
  }

  /** A secret key is only used upper-cased: two keys that agree once upper-cased sign alike. */
  lemma SigningIgnoresKeyCase(a: Coinone, b: Coinone, millis: nat, endpoint: string, params: Entries, lib: Library)
    requires a.apiKey == b.apiKey && Upcase(a.secretKey) == Upcase(b.secretKey)
    ensures a.SignedRequest(millis, endpoint, params, lib) == b.SignedRequest(millis, endpoint, params, lib)
  {
  }
}
