/**
 * The Bithumb client (class `Bithumb < Exchange`, exchange.rb): how it signs a
 * private request, how it tells an accepted response from a rejected one,
 * and how it turns an accepted body into the uniform result Hash.
 */
module Bithumb {
  import opened Wrappers
  import opened RubyHash
  import opened RubyString
  import opened RubyValue
  import opened Exchange

  /** `Bithumb::SERVER`. */
  const Server: string := "https://api.bithumb.com"

  /** `0.chr`, the separator of the signing string. */
  const Nul: char := '\0'

  predicate NoNul(s: string) { Nul !in s }

  /** The body has `"status": "0000"`, Bithumb's mark of success. */
  predicate StatusOk(body: Value) {
    body.Hash? && Get(body.entries, "status") == Some(Str("0000"))
  }

  /**
   * Reads a signing string back: the text before its first NUL, the text
   * between its first and last NUL, and the text after its last NUL.
   */
  function SplitSigningString(data: string): Option<(string, string, string)> {
    var first, last := IndexOf(data, Nul), LastIndexOf(data, Nul);
    if first.Some? && last.Some? && first.value < last.value then
      Some((data[..first.value], data[first.value + 1..last.value], data[last.value + 1..]))
    else None
  }

  /**
   * `endpoint + 0.chr + str_data + 0.chr + nonce`, the string Bithumb signs.
   * When neither the endpoint nor the nonce holds a NUL, all three parts can
   * be read back from it, whatever the form holds.
   */
  function SigningString(endpoint: string, form: string, nonce: string): (data: string)
    ensures NoNul(endpoint) && NoNul(nonce) ==> SplitSigningString(data) == Some((endpoint, form, nonce))
  {
    var data := endpoint + [Nul] + form + [Nul] + nonce;
    if NoNul(endpoint) && NoNul(nonce) then
      SplitInverts(endpoint, form, nonce);
      data
    else
      data
  }

  lemma SplitInverts(endpoint: string, form: string, nonce: string)
    requires NoNul(endpoint) && NoNul(nonce)
    ensures SplitSigningString(endpoint + [Nul] + form + [Nul] + nonce) == Some((endpoint, form, nonce))
  {
    var head := endpoint + [Nul] + form;
    var data := head + [Nul] + nonce;
    var tail := form + [Nul] + nonce;
    var i0, j0 := |endpoint|, |head|;
    assert data == endpoint + [Nul] + tail;
    IndexOfAfter(endpoint, Nul, tail);
    LastIndexOfBefore(head, Nul, nonce);
    assert data[..i0] == endpoint;
    assert data[j0 + 1..] == nonce;
    assert data[i0 + 1..j0] == head[i0 + 1..] == form;
  }

  lemma DigitsHaveNoNul(s: string)
    requires AllDigits(s)
    ensures NoNul(s)
  {
  }

  /**
   * `{endpoint: endpoint}.merge(params)`: the parameters Bithumb form-encodes.
   * The endpoint pair comes first; the parameters follow in their order.
   */
  function FormParams(endpoint: string, params: Entries): (f: Entries)
    ensures f != [] && f[0].0 == "endpoint"
    ensures DistinctKeys(params) ==> Keys(f) == ["endpoint"] + Missing(Keys(params), ["endpoint"])
    ensures DistinctKeys(params) ==> Get(f, "endpoint") == Some(Get(params, "endpoint").GetOr(Str(endpoint)))
    ensures DistinctKeys(params) && "endpoint" !in Keys(params) ==> f == [("endpoint", Str(endpoint))] + params
  {
    var seed := [("endpoint", Str(endpoint))];
    assert Keys(seed) == ["endpoint"];
    MergeKeepsReceiverKeys(seed, params);
    if !DistinctKeys(params) then Merge(seed, params)
    else
      MergeKeys(seed, params);
      MergeGet(seed, params, "endpoint");
      if "endpoint" in Keys(params) then Merge(seed, params)
      else
        MergeDisjoint(seed, params);
        Merge(seed, params)
  }

  /** The parameters of `buy` (exchange.rb:133). */
  function BuyOrder(coin: string, price: Value, quantity: Value): (o: Entries)
    ensures Keys(o) == ["order_currency", "units", "price", "type"] && DistinctKeys(o)
  {
    PairwiseDistinctKeys([("order_currency", Str(coin)), ("units", quantity), ("price", price), ("type", Str("bid"))]);
    [("order_currency", Str(coin)), ("units", quantity), ("price", price), ("type", Str("bid"))]
  }

  /** The parameters of `sell` (exchange.rb:147). */
  function SellOrder(coin: string, price: Value, quantity: Value): (o: Entries)
    ensures Keys(o) == ["order_currency", "units", "price", "type"] && DistinctKeys(o)
  {
    PairwiseDistinctKeys([("order_currency", Str(coin)), ("units", quantity), ("price", price), ("type", Str("ask"))]);
    [("order_currency", Str(coin)), ("units", quantity), ("price", price), ("type", Str("ask"))]
  }

  /** A buy and a sell of the same coin, price and quantity differ only in `type`. */
  lemma OrdersDifferOnlyInType(coin: string, price: Value, quantity: Value)
    ensures |BuyOrder(coin, price, quantity)| == |SellOrder(coin, price, quantity)| == 4
    ensures BuyOrder(coin, price, quantity)[..3] == SellOrder(coin, price, quantity)[..3]
    ensures BuyOrder(coin, price, quantity)[3] == ("type", Str("bid"))
    ensures SellOrder(coin, price, quantity)[3] == ("type", Str("ask"))
  {
  }

  /** An order's form is the endpoint pair followed by the order parameters, unchanged. */
  lemma OrderForm(coin: string, price: Value, quantity: Value)
    ensures FormParams("/trade/place", BuyOrder(coin, price, quantity))
         == [("endpoint", Str("/trade/place"))] + BuyOrder(coin, price, quantity)
    ensures FormParams("/trade/place", SellOrder(coin, price, quantity))
         == [("endpoint", Str("/trade/place"))] + SellOrder(coin, price, quantity)
  {
    var b, s := BuyOrder(coin, price, quantity), SellOrder(coin, price, quantity);
    PairwiseDistinctKeys(b);
    PairwiseDistinctKeys(s);
  }

  /**
   * As written, a rejected order raises NameError instead of answering
   * `{error: true}`: a response with status "500" and a body that parses
   * shows it.
   */
  lemma RejectedOrderRaisesAsWritten(c: Bithumb, coin: string, price: Value, quantity: Value, millis: nat)
    ensures var lib := Library((k, d) => "", s => s, f => "", v => "", s => Ok(Nil));
      var net := Transport(req => HttpResponse("500", "null"), (u, q) => HttpResponse("500", "null"));
      && c.BuyAsWritten(coin, price, quantity, millis, lib, net) == Raised(NameError)
      && c.SellAsWritten(coin, price, quantity, millis, lib, net) == Raised(NameError)
      && c.Buy(coin, price, quantity, millis, lib, net) == Ok(ErrorResult)
      && c.Sell(coin, price, quantity, millis, lib, net) == Ok(ErrorResult)
  {
  }

  /**
   * The corrected order still evaluates the log argument `JSON.parse(res.body)`
   * first: a rejected response whose body is not JSON, such as an HTML error
   * page, raises the parse error.
   */
  lemma RejectedNonJsonOrderRaises(c: Bithumb, coin: string, price: Value, quantity: Value, millis: nat)
    ensures var lib := Library((k, d) => "", s => s, f => "", v => "", s => Raised(ParserError));
      var net := Transport(req => HttpResponse("500", "<html>"), (u, q) => HttpResponse("500", "<html>"));
      && c.Buy(coin, price, quantity, millis, lib, net) == Raised(ParserError)
      && c.Sell(coin, price, quantity, millis, lib, net) == Raised(ParserError)
  {
  }

  /**
   * The hash `balance` builds by storing "available_krw", "total_<coin>"
   * and "available_<coin>" in turn. For the coin "krw" the third store
   * overwrites the first, so only two keys remain.
   */
  function BalanceEntries(coin: string, krw: Value, total: Value, avail: Value): (h: Entries)
    ensures coin == "krw" ==> h == [("available_krw", avail), ("total_krw", total)]
    ensures coin != "krw" ==> h == [("available_krw", krw), ("total_" + coin, total), ("available_" + coin, avail)]
  {
    BalanceKeys(coin);
    var ret := Store([], "available_krw", krw);
    assert ret == [("available_krw", krw)] && ret[0].0 != "total_" + coin;
    var ret := Store(ret, "total_" + coin, total);
    assert ret == [("available_krw", krw), ("total_" + coin, total)];
    if coin == "krw" then
      assert "total_" + coin == "total_krw" && "available_" + coin == "available_krw";
      assert ret[0].0 == "available_" + coin && ret[1..] == [("total_krw", total)];
      Store(ret, "available_" + coin, avail)
    else
      Store(ret, "available_" + coin, avail)
  }

  /** On success `balance` answers without an `:error` key, unlike every other operation. */
  lemma BalanceHasNoErrorKey(coin: string, krw: Value, total: Value, avail: Value)
    ensures "error" !in Keys(BalanceEntries(coin, krw, total, avail))
  {
    BalanceKeys(coin);
    var h := BalanceEntries(coin, krw, total, avail);
    assert forall i :: 0 <= i < |h| ==> Keys(h)[i] == h[i].0;
  }

  /** A status of "0000" is accepted; any other, such as "5100", is a rejection. */
  lemma StatusExamples()
    ensures Bithumb.IsError(Hash([("status", Str("0000")), ("data", Hash([]))])) == Ok(false)
    ensures Bithumb.IsError(Hash([("status", Str("5100")), ("data", Hash([]))])) == Ok(true)
  {
  }

  class Bithumb {
    const apiKey: string
    const secretKey: string

    /** `initialize`: the client keeps its credentials for its whole life. */
    constructor (apiKey: string, secretKey: string)
      ensures this.apiKey == apiKey && this.secretKey == secretKey
    {
      this.apiKey := apiKey;
      this.secretKey := secretKey;
    }

    /**
     * The block `body['status'] != '0000'`. It answers false exactly for a
     * Hash whose status is "0000"; a String body is always flagged (its
     * `['status']` is "status" or nil); other bodies have no such `[]`.
     */
    static function IsError(body: Value): (r: Outcome<bool>)
      ensures r == Ok(false) <==> StatusOk(body)
      ensures r.Raised? <==> !(body.Hash? || body.Str?)
    {
      var status :- Index(body, "status");
      Ok(status != Str("0000"))
    }

    /** `check_and_get_response_body`: the shared classifier with Bithumb's block. */
    function CheckAndGetResponseBody(res: HttpResponse, parse: string -> Outcome<Value>): (r: Outcome<Option<Value>>)
      ensures res.code != "200" ==> r == Ok(None)
      ensures Accepted(r) <==> res.code == "200" && parse(res.body).Ok? && StatusOk(parse(res.body).value)
      ensures (res.code == "200" && parse(res.body).Ok? && (parse(res.body).value.Hash? || parse(res.body).value.Str?)
        && !StatusOk(parse(res.body).value)) ==> r == Ok(None)
      ensures Accepted(r) ==> r.value.value == parse(res.body).value
    {
      Exchange.CheckAndGetResponseBody(res, parse, IsError)
    }

    /**
     * The request `private_api` sends: the form is the body, and the
     * signature covers the endpoint, that very body and the nonce that the
     * `Api-Nonce` header carries, which the signing string gives back intact.
     */
    function SignedRequest(millis: nat, endpoint: string, params: Entries, lib: Library): (r: Request)
      ensures r.server == Server && r.path == endpoint
      ensures r.body == lib.encodeWwwForm(FormParams(endpoint, params))
      ensures Keys(r.headers) == ["Api-Key", "Api-Sign", "Api-Nonce"]
      ensures Get(r.headers, "Api-Key") == Some(apiKey)
      ensures Get(r.headers, "Api-Nonce") == Some(NonceString(millis))
      ensures StringToI(Get(r.headers, "Api-Nonce").value) == millis
      ensures var data := SigningString(endpoint, r.body, NonceString(millis));
        && Get(r.headers, "Api-Sign") == Some(lib.strictEncode64(lib.hmacSha512Hex(secretKey, data)))
        && r.body != data
        && (NoNul(endpoint) ==> SplitSigningString(data) == Some((endpoint, r.body, Get(r.headers, "Api-Nonce").value)))
    {
      var nonce := NonceString(millis);
      var strData := lib.encodeWwwForm(FormParams(endpoint, params));
      var data := SigningString(endpoint, strData, nonce);
      var apiSign := lib.strictEncode64(lib.hmacSha512Hex(secretKey, data));
      var header := [("Api-Key", apiKey), ("Api-Sign", apiSign), ("Api-Nonce", nonce)];
      DigitsHaveNoNul(nonce);
      Request(Server, endpoint, header, strData)
    }

    /** What `account_info` makes of an accepted response body: the trade fee. */
    static function AccountInfoFrom(body: Value): (r: Outcome<Entries>)
      ensures var fee := Walk(body, [Key("data"), Key("trade_fee")]);
        && (fee.Raised? ==> r == Raised(fee.exception))
        && (fee.Ok? ==> r == Ok([("error", Bool(false)), ("fee", fee.value)]))
    {
      var fee :- Walk(body, [Key("data"), Key("trade_fee")]);
      Ok(AccountInfoEntries(fee))
    }

    /** `account_info`: a signed POST to "/info/account" with no parameters. */
    function AccountInfo(millis: nat, lib: Library, net: Transport): (r: Outcome<Entries>)
      ensures var c := CheckAndGetResponseBody(net.post(SignedRequest(millis, "/info/account", [], lib)), lib.parseJson);
        && AnswersRejection(c, r)
        && (Accepted(c) ==> r == AccountInfoFrom(c.value.value))
    {
      var res := net.post(SignedRequest(millis, "/info/account", [], lib));
      var body :- CheckAndGetResponseBody(res, lib.parseJson);
      if body.None? then Ok(ErrorResult) else AccountInfoFrom(body.value)
    }

    /**
     * What `balance(coin_code)` makes of an accepted response body: the
     * available won and the total and available amount of the coin, with
     * no `:error` key.
     */
    static function BalanceFrom(coin: string, body: Value): (r: Outcome<Entries>)
      ensures var krw := Walk(body, [Key("data"), Key("available_krw")]);
        var total := Walk(body, [Key("data"), Key("total_" + coin)]);
        var avail := Walk(body, [Key("data"), Key("available_" + coin)]);
        && (r.Ok? <==> krw.Ok? && total.Ok? && avail.Ok?)
        && (krw.Raised? ==> r == Raised(krw.exception))
        && (krw.Ok? && total.Raised? ==> r == Raised(total.exception))
        && (krw.Ok? && total.Ok? && avail.Raised? ==> r == Raised(avail.exception))
        && (r.Ok? ==> r.value == BalanceEntries(coin, krw.value, total.value, avail.value))
    {
      var krw :- Walk(body, [Key("data"), Key("available_krw")]);
      var total :- Walk(body, [Key("data"), Key("total_" + coin)]);
      var avail :- Walk(body, [Key("data"), Key("available_" + coin)]);
      Ok(BalanceEntries(coin, krw, total, avail))
    }

    /** `balance(coin_code)`: a signed POST to "/info/balance" naming the currency. */
    function Balance(coin: string, millis: nat, lib: Library, net: Transport): (r: Outcome<Entries>)
      ensures var c := CheckAndGetResponseBody(
          net.post(SignedRequest(millis, "/info/balance", [("currency", Str(coin))], lib)), lib.parseJson);
        && AnswersRejection(c, r)
        && (Accepted(c) ==> r == BalanceFrom(coin, c.value.value))
    {
      var res := net.post(SignedRequest(millis, "/info/balance", [("currency", Str(coin))], lib));
      var body :- CheckAndGetResponseBody(res, lib.parseJson);
      if body.None? then Ok(ErrorResult) else BalanceFrom(coin, body.value)
    }

    /**
     * What `orderbook(coin_code)` makes of an accepted response body: the
     * timestamp as the exchange sent it, and the first bid and ask prices
     * read with `to_i`.
     */
    static function OrderbookFrom(body: Value): (r: Outcome<Entries>)
      ensures var ts := Walk(body, [Key("data"), Key("timestamp")]);
        var bid := WalkToI(body, [Key("data"), Key("bids"), Head, Key("price")]);
        var ask := WalkToI(body, [Key("data"), Key("asks"), Head, Key("price")]);
        && (r.Ok? <==> ts.Ok? && bid.Ok? && ask.Ok?)
        && (ts.Raised? ==> r == Raised(ts.exception))
        && (ts.Ok? && bid.Raised? ==> r == Raised(bid.exception))
        && (ts.Ok? && bid.Ok? && ask.Raised? ==> r == Raised(ask.exception))
        && (r.Ok? ==> r.value == OrderbookEntries(ts.value, bid.value, ask.value))
    {
      var ts :- Walk(body, [Key("data"), Key("timestamp")]);
      var bid :- WalkToI(body, [Key("data"), Key("bids"), Head, Key("price")]);
      var ask :- WalkToI(body, [Key("data"), Key("asks"), Head, Key("price")]);
      Ok(OrderbookEntries(ts, bid, ask))
    }

    /** `orderbook(coin_code)`: an unsigned GET of "/public/orderbook/<coin>". */
    function Orderbook(coin: string, lib: Library, net: Transport): (r: Outcome<Entries>)
      ensures var c := CheckAndGetResponseBody(net.get(Server + "/public/orderbook/" + coin, []), lib.parseJson);
        && AnswersRejection(c, r)
        && (Accepted(c) ==> r == OrderbookFrom(c.value.value))
    {
      var res := net.get(Server + "/public/orderbook/" + coin, []);
      var body :- CheckAndGetResponseBody(res, lib.parseJson);
      if body.None? then Ok(ErrorResult) else OrderbookFrom(body.value)
    }

    /**
     * `buy`, with the rejection log written through the client's logger:
     * the body of a rejected response is parsed for the log, then `{error: true}`.
     */
    function Buy(coin: string, price: Value, quantity: Value, millis: nat, lib: Library, net: Transport): (r: Outcome<Entries>)
      ensures var res := net.post(SignedRequest(millis, "/trade/place", BuyOrder(coin, price, quantity), lib));
        var c := CheckAndGetResponseBody(res, lib.parseJson);
        OrderAnswer(c, lib.parseJson(res.body), r)
    {
      var res := net.post(SignedRequest(millis, "/trade/place", BuyOrder(coin, price, quantity), lib));
      var body :- CheckAndGetResponseBody(res, lib.parseJson);
      if body.None? then
        var logged :- lib.parseJson(res.body);
        Ok(ErrorResult)
      else
        Ok(Store([], "error", Bool(false)))
    }

    /** `sell`, with the rejection log written through the client's logger, as in Buy. */
    function Sell(coin: string, price: Value, quantity: Value, millis: nat, lib: Library, net: Transport): (r: Outcome<Entries>)
      ensures var res := net.post(SignedRequest(millis, "/trade/place", SellOrder(coin, price, quantity), lib));
        var c := CheckAndGetResponseBody(res, lib.parseJson);
        OrderAnswer(c, lib.parseJson(res.body), r)
    {
      var res := net.post(SignedRequest(millis, "/trade/place", SellOrder(coin, price, quantity), lib));
      var body :- CheckAndGetResponseBody(res, lib.parseJson);
      if body.None? then
        var logged :- lib.parseJson(res.body);
        Ok(ErrorResult)
      else
        Ok(Store([], "error", Bool(false)))
    }

    /**
     * `buy` as written: on a rejected response it calls `logger`, which
     * names no variable or method of the class, and so raises NameError.
     */
    function BuyAsWritten(coin: string, price: Value, quantity: Value, millis: nat, lib: Library, net: Transport): (r: Outcome<Entries>)
      ensures var c := CheckAndGetResponseBody(
          net.post(SignedRequest(millis, "/trade/place", BuyOrder(coin, price, quantity), lib)), lib.parseJson);
        && (c == Ok(None) ==> r == Raised(NameError))
        && (c.Raised? ==> r == Raised(c.exception))
        && (Accepted(c) ==> r == Ok([("error", Bool(false))]))
    {
      var res := net.post(SignedRequest(millis, "/trade/place", BuyOrder(coin, price, quantity), lib));
      var body :- CheckAndGetResponseBody(res, lib.parseJson);
      if body.None? then Raised(NameError)
      else Ok(Store([], "error", Bool(false)))
    }

    /** `sell` as written: the same NameError as in BuyAsWritten. */
    function SellAsWritten(coin: string, price: Value, quantity: Value, millis: nat, lib: Library, net: Transport): (r: Outcome<Entries>)
      ensures var c := CheckAndGetResponseBody(
          net.post(SignedRequest(millis, "/trade/place", SellOrder(coin, price, quantity), lib)), lib.parseJson);
        && (c == Ok(None) ==> r == Raised(NameError))
        && (c.Raised? ==> r == Raised(c.exception))
        && (Accepted(c) ==> r == Ok([("error", Bool(false))]))
    {
      var res := net.post(SignedRequest(millis, "/trade/place", SellOrder(coin, price, quantity), lib));
      var body :- CheckAndGetResponseBody(res, lib.parseJson);
      if body.None? then Raised(NameError)
      else Ok(Store([], "error", Bool(false)))
    }
  }
}
