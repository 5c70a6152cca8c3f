/**
 * What the two exchange clients share: the foreign library calls they make
 * (taken as parameters), the HTTP request and response they exchange, the
 * millisecond nonce, and the response classifier every operation runs
 * before it reads a response body (class `Exchange`, exchange.rb).
 */
module Exchange {
  import opened Wrappers
  import opened RubyHash
  import opened RubyString
  import opened RubyValue

  /** What Net::HTTP hands back: the status code as a string ("200") and the raw body. */
  datatype HttpResponse = HttpResponse(code: string, body: string)

  /** A POST request: the server, the path, the header fields in order, the body. */
  datatype Request = Request(server: string, path: string, headers: seq<(string, string)>, body: string)

  /**
   * The library calls the clients make and this model does not look inside:
   * `OpenSSL::HMAC.hexdigest` with SHA-512 (key, data), `Base64.strict_encode64`,
   * `URI.encode_www_form`, `to_json` and `JSON.parse`.
   */
  datatype Library = Library(
    hmacSha512Hex: (string, string) -> string,
    strictEncode64: string -> string,
    encodeWwwForm: seq<(string, Value)> -> string,
    toJson: Value -> string,
    parseJson: string -> Outcome<Value>)

  /** The network: a signed POST, and a GET of a URL with query parameters. */
  datatype Transport = Transport(
    post: Request -> HttpResponse,
    get: (string, seq<(string, Value)>) -> HttpResponse)

  /** The uniform result every operation returns: a symbol-keyed Hash. */
  type Entries = Hash<Value>

  /** `{error: true}`: what an operation returns for a response it does not accept. */
  const ErrorResult: Entries := [("error", Bool(true))]

  /** `DateTime.now.strftime('%Q')`: the clock reading in milliseconds, written in decimal. */
  function NonceString(millis: nat): (s: string)
    ensures AllDigits(s) && s != []
    ensures StringToI(s) == millis
  {
    NatToDecimal(millis)
  }

  /**
   * `check_and_get_response_body`: a status other than "200" gives nil
   * without looking at the body; otherwise the body is parsed and given back
   * unless `errorCheck` flags it, in which case the answer is nil. A parse
   * error, or an exception the check raises, propagates.
   */
  function CheckAndGetResponseBody(res: HttpResponse, parse: string -> Outcome<Value>,
                                   errorCheck: Value -> Outcome<bool>): (r: Outcome<Option<Value>>)
    ensures res.code != "200" ==> r == Ok(None)
    ensures (r.Ok? && r.value.Some?) <==>
      res.code == "200" && parse(res.body).Ok? && errorCheck(parse(res.body).value) == Ok(false)
    ensures r.Ok? && r.value.Some? ==> r.value.value == parse(res.body).value
    ensures r == Ok(None) <==>
      res.code != "200" || (parse(res.body).Ok? && errorCheck(parse(res.body).value) == Ok(true))
    ensures res.code == "200" && parse(res.body).Raised? ==> r == Raised(parse(res.body).exception)
    ensures res.code == "200" && parse(res.body).Ok? && errorCheck(parse(res.body).value).Raised? ==>
      r == Raised(errorCheck(parse(res.body).value).exception)
  {
    if res.code != "200" then Ok(None)
    else
      var body :- parse(res.body);
      var isError :- errorCheck(body);
      if isError then Ok(None) else Ok(Some(body))
  }

  /** The classifier accepted the response, giving back its parsed body. */
  predicate Accepted(c: Outcome<Option<Value>>) {
    c.Ok? && c.value.Some?
  }

  /**
   * What every operation does with a response the classifier does not
   * accept: nil becomes exactly `{error: true}`, an exception propagates.
   */
  predicate AnswersRejection(c: Outcome<Option<Value>>, r: Outcome<Entries>) {
    && (c == Ok(None) ==> r == Ok(ErrorResult))
    && (c.Raised? ==> r == Raised(c.exception))
  }

  /**
   * How `buy` and `sell` answer: `{error: false}` for an accepted response;
   * for a rejected one `{error: true}` once its body parses for the log, or
   * the parse error; an exception of the classifier propagates.
   */
  predicate OrderAnswer(c: Outcome<Option<Value>>, logged: Outcome<Value>, r: Outcome<Entries>) {
    && (Accepted(c) ==> r == Ok([("error", Bool(false))]))
    && (c == Ok(None) ==> r == if logged.Ok? then Ok(ErrorResult) else Raised(logged.exception))
    && (c.Raised? ==> r == Raised(c.exception))
  }

  /** The hash both `account_info` build: `ret[:error] = false`, then `ret[:fee]`. */
  function AccountInfoEntries(fee: Value): (h: Entries)
    ensures h == [("error", Bool(false)), ("fee", fee)]
  {
    var ret := Store([], "error", Bool(false));
    Store(ret, "fee", fee)
  }

  /** The hash both `orderbook` build: the `:error` flag, the timestamp, the best bid, the best ask. */
  function OrderbookEntries(ts: Value, bid: int, ask: int): (h: Entries)
    ensures h == [("error", Bool(false)), ("timestamp", ts), ("highest_bid", Int(bid)), ("lowest_ask", Int(ask))]
  {
    var ret := Store([], "error", Bool(false));
    var ret := Store(ret, "timestamp", ts);
    var ret := Store(ret, "highest_bid", Int(bid));
    Store(ret, "lowest_ask", Int(ask))
  }

  /**
   * The per-coin keys both `balance` build never clash with `:error` or with
   * each other, and clash with the fixed "krw" keys exactly for the coin "krw".
   */
  lemma BalanceKeys(coin: string)
    ensures "total_" + coin != "error" && "total_" + coin != "available_krw"
    ensures "available_" + coin != "error" && "available_" + coin != "total_krw"
    ensures "available_" + coin != "total_" + coin
    ensures "total_" + coin == "total_krw" <==> coin == "krw"
    ensures "available_" + coin == "available_krw" <==> coin == "krw"
  {
    assert ("total_" + coin)[0] == 't' && ("available_" + coin)[0] == 'a';
    if "total_" + coin == "total_krw" {
      assert ("total_" + coin)[6..] == coin;
    }
    if "available_" + coin == "available_krw" {
      assert ("available_" + coin)[10..] == coin;
    }
  }
}
