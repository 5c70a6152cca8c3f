# Exchange clients: a Dafny model of exchange.rb

`exchange.rb` defines a small base class `Exchange` and two clients for
Korean cryptocurrency exchanges, `Bithumb` and `Coinone`. Each client holds an
API key and a secret key. It signs private requests in the exchange's own way.
It classifies every HTTP response with a shared routine and an
exchange-specific discriminator. It turns an accepted response body into a
uniform result Hash for five operations: `account_info`, `balance`,
`orderbook`, `buy` and `sell`.

This project models that request and response logic:

- `ruby_hash.dfy` (`RubyHash`): Ruby's insertion-ordered Hash as an association list.
  - `h[k] = v` is `Store`. A present key keeps its position; a new key goes last.
  - `a.merge(b)` is `Merge`, a fold of `Store`.
  - The lemmas give the keys, values and order of a merge.
- `ruby_string.dfy` (`RubyString`): the string operations the clients rely on.
  - The decimal rendering of the millisecond nonce.
  - `String#to_i`: leading white space, an optional sign, an optional `0d` radix prefix, digits with single underscores between them.
  - ASCII `upcase`.
  - Searching for the first and last NUL.
- `ruby_value.dfy` (`RubyValue`): the values `JSON.parse` yields and Ruby's exceptions (`Outcome`).
  - Subscripting (`v['k']`, `v[0]`), `to_i` and `+ '000'`, per receiver class.
  - Each raises exactly where Ruby raises: NoMethodError on nil, TypeError on an Array indexed by a String, and so on.
- `exchange.dfy` (`Exchange`): the shared pieces.
  - The classifier `check_and_get_response_body`, with the error block as a function parameter.
  - The nonce.
  - The `{error: true}` answer.
  - The result hashes both clients build.
- `bithumb.dfy` and `coinone.dfy`: the two clients.
  - Each is a class with its credentials, set by `initialize`.
  - Each has its discriminator, its signed request and its five operations.

The foreign calls are fields of a `Library` value, left uninterpreted: HMAC-SHA512 hex digest, strict Base64, `URI.encode_www_form`, `to_json` and `JSON.parse`. The network is a `Transport` value: a POST of a `Request` and a GET of a URL with query parameters. The clock reading is a natural-number parameter. Every operation is a function of the clock reading, the library and the transport. Its result is either a result Hash or the Ruby exception the call raises.

Each operation is split in two:

- The client function signs and sends the request, classifies the response, and answers `{error: true}` for a rejection.
- A `...From` function reads an accepted body.

The `...From` function performs the body's subscripts in the source's order and then builds the result Hash with `Store`, one key after another. Building the Hash after the reads, rather than between them, changes nothing observable: the local `ret` is discarded when a read raises.

The model follows the code as written; in particular:

- Bithumb's `balance` answers without an `:error` key.
- Coinone's `balance` does not send the coin.
- Coinone's `account_info` raises on every accepted response: NameError at the undefined `coin_code`, unless reading `body['userInfo']['feeRate']` raises first. The subscript `coin_code` is not defined in that method. The model keeps this as written, because the intended argument is not recorded anywhere in the program.
- As written, `buy` and `sell` raise on a rejected order instead of answering `{error: true}` (see Findings).

## Model

| member | source | states |
|---|---|---|
| RubyHash.Store | exchange.rb:93-96 | `ret[k] = v` appends `(k, v)` when no entry has key `k` |
| RubyHash.Get | exchange.rb:95 | `h[k]` answers a value exactly when `k` is a key, and that value is stored under `k` |
| RubyHash.StoreKeys | exchange.rb:107-111 | after `h[k] = v` the keys are unchanged when `k` was present, else `k` is added last |
| RubyHash.StoreGet | exchange.rb:107-111 | after `h[k] = v`, `k` reads as `v` and every other key reads as before |
| RubyHash.StoreReplaces | exchange.rb:228-231 | in a Hash with distinct keys, storing under a present key changes only the value at that key's position |
| RubyHash.StoreKeepsDistinct | exchange.rb:226-231 | storing never makes a key occur twice |
| RubyHash.MergeKeepsReceiverKeys | exchange.rb:59 | `a.merge(b)` starts with the keys of `a` in order, and keeps keys distinct |
| RubyHash.MergeKeys | exchange.rb:179 | the keys of `a.merge(b)` are those of `a`, then the keys of `b` that `a` lacks, in `b`'s order |
| RubyHash.MergeGet | exchange.rb:179 | a key of `a.merge(b)` has `b`'s value when `b` has the key, else `a`'s |
| RubyHash.MergeDisjoint | exchange.rb:59 | when no key clashes, `a.merge(b)` is `a` followed by `b` |
| RubyHash.Merge | exchange.rb:179 | `a.merge(b)` stores the entries of `b` into `a` one by one; what it promises is proved by MergeKeys (key order), MergeGet (`b` wins on a shared key) and MergeDisjoint (no clash gives `a` followed by `b`) |
| RubyString.NatToDecimal | exchange.rb:57 | `strftime('%Q')` renders the milliseconds as a non-empty digit string whose decimal value is the reading, with no leading zero unless it is "0" |
| RubyString.StringToI | exchange.rb:126-127 | `to_i` of a digit string is its decimal value; only a string holding '-' reads as negative |
| RubyString.Numeral | exchange.rb:126-127 | the numeral after the sign skips a `0d`/`0D` prefix and leaves a plain digit string unchanged |
| RubyString.RadixPrefixExample | exchange.rb:126-127 | "0d12" reads as 12 |
| RubyString.SignedRadixPrefixExample | exchange.rb:126-127 | "-0D7" reads as -7 |
| RubyString.StringToIInvertsNatToDecimal | exchange.rb:57 | `to_i` reads the nonce back as the clock reading |
| RubyString.AppendThousandfold | exchange.rb:245 | appending "000" to a digit string multiplies its `to_i` by 1000 |
| RubyString.Upcase | exchange.rb:183 | `upcase` keeps the length, leaves no lower-case letter, and shifts exactly the lower-case letters |
| RubyString.UpcaseIdempotent | exchange.rb:183 | upper-casing twice is upper-casing once |
| RubyString.UpcaseChanges | exchange.rb:183 | the HMAC key differs from the secret exactly when the secret holds a lower-case letter |
| RubyValue.Index | exchange.rb:95 | `v['k']` succeeds exactly on a Hash or a String; a Hash answers its value or nil |
| RubyValue.First | exchange.rb:126 | `v[0]` raises exactly on nil or a boolean; an Array answers its first element or nil |
| RubyValue.ToI | exchange.rb:126-127 | `to_i` succeeds exactly on a String, an Integer or nil; a digit string gives its decimal value |
| RubyValue.AppendString | exchange.rb:245 | `v + '000'` succeeds exactly on a String and concatenates |
| RubyValue.Walk | exchange.rb:246-247 | an empty chain answers the receiver; a chain ends in the exception of its first subscript when that raises; any chain on nil or a boolean raises NoMethodError |
| RubyValue.WalkConcat | exchange.rb:246-247 | a chain split in two is the first part, then the second applied to what the first reaches, and an exception in the first part ends the chain |
| RubyValue.WalkToI | exchange.rb:246-247 | a subscript chain then `to_i` raises as the chain raises; a digit-string price gives its decimal value |
| Exchange.NonceString | exchange.rb:57 | the nonce is a non-empty digit string that `to_i` reads back as the clock reading |
| Exchange.CheckAndGetResponseBody | exchange.rb:23-34 | a status other than "200" gives nil without parsing; otherwise it gives exactly the parsed body when the block answers false, nil when it answers true, and propagates either's exception |
| Exchange.AccountInfoEntries | exchange.rb:93-96 | `ret[:error] = false; ret[:fee] = fee` builds `{error: false, fee: fee}` |
| Exchange.OrderbookEntries | exchange.rb:123-128 | the order-book result is `{error, timestamp, highest_bid, lowest_ask}` in that order |
| Bithumb.SigningString | exchange.rb:60 | the signing string reads back as endpoint, form and nonce whenever endpoint and nonce hold no NUL |
| Bithumb.FormParams | exchange.rb:59 | the form starts with `endpoint`, keeps the parameters' keys in order, and is `[endpoint] + params` when they do not name `endpoint` |
| Bithumb.BuyOrder | exchange.rb:133 | the buy parameters are `order_currency`, `units`, `price`, `type` in that order, with distinct keys |
| Bithumb.SellOrder | exchange.rb:147 | the sell parameters are `order_currency`, `units`, `price`, `type` in that order, with distinct keys |
| Bithumb.OrdersDifferOnlyInType | exchange.rb:133-147 | a buy and a sell of the same order differ only in `type: 'bid'` versus `'ask'` |
| Bithumb.OrderForm | exchange.rb:133 | an order's form is the endpoint pair followed by the order parameters unchanged |
| Exchange.BalanceKeys | exchange.rb:226-231 | the per-coin keys of both `balance` methods (Coinone's here, Bithumb's at exchange.rb:107-111) never clash with `:error` or each other, and clash with the fixed "krw" keys exactly for "krw" |
| Bithumb.BalanceEntries | exchange.rb:107-111 | `balance` builds three keys, or two for "krw", where the later store wins |
| Bithumb.BalanceHasNoErrorKey | exchange.rb:107-111 | the `balance` result has no `:error` key |
| Bithumb.StatusExamples | exchange.rb:48 | status "0000" is accepted and "5100" is rejected |
| Bithumb.RejectedOrderRaisesAsWritten | exchange.rb:136-138 | on a rejected order, the as-written `buy` and `sell` raise NameError, and the corrected ones answer `{error: true}` |
| Bithumb.RejectedNonJsonOrderRaises | exchange.rb:136-138 | a rejected order whose body is not JSON raises ParserError in the corrected `buy` and `sell`, since the log argument is parsed first |
| Bithumb.Bithumb.constructor | exchange.rb:17-21 | the client keeps the credentials it is given |
| Bithumb.Bithumb.IsError | exchange.rb:46-50 | the block answers false exactly for a Hash with status "0000", and raises exactly on bodies that are neither Hash nor String |
| Bithumb.Bithumb.CheckAndGetResponseBody | exchange.rb:46-50 | a response is accepted exactly when it is "200", parses, and has status "0000"; it then gives the parsed body; any other 200 Hash or String body gives nil, so the operation answers `{error: true}` |
| Bithumb.Bithumb.SignedRequest | exchange.rb:52-72 | the body is the form alone; the headers are Api-Key, Api-Sign, Api-Nonce in order; the nonce header reads back as the clock; the signature is the Base64 of the HMAC of the signing string, whose parts read back as endpoint, that very body and that nonce when the endpoint holds no NUL |
| Bithumb.Bithumb.AccountInfoFrom | exchange.rb:93-96 | an accepted body answers `{error: false, fee: body['data']['trade_fee']}`, or the exception the subscripts raise |
| Bithumb.Bithumb.AccountInfo | exchange.rb:86-98 | a rejection answers exactly `{error: true}`, a classifier exception propagates, an accepted body is read as AccountInfoFrom |
| Bithumb.Bithumb.BalanceFrom | exchange.rb:107-111 | an accepted body answers the balance hash exactly when all three subscripts succeed, and the first failing subscript's exception otherwise |
| Bithumb.Bithumb.Balance | exchange.rb:100-113 | a signed POST to "/info/balance" naming the currency; a rejection answers exactly `{error: true}` |
| Bithumb.Bithumb.OrderbookFrom | exchange.rb:123-128 | the timestamp passes through unchanged; the best bid and ask are `to_i` of the first prices; otherwise the first failing read's exception |
| Bithumb.Bithumb.Orderbook | exchange.rb:115-130 | an unsigned GET of "/public/orderbook/<coin>"; a rejection answers exactly `{error: true}` |
| Bithumb.Bithumb.Buy | exchange.rb:132-144 | an accepted order answers `{error: false}`; a rejected one answers `{error: true}` once its body parses for the log, or the parse error |
| Bithumb.Bithumb.Sell | exchange.rb:146-158 | as Buy, for the sell order |
| Bithumb.Bithumb.BuyAsWritten | exchange.rb:136-138 | as written, a rejected order raises NameError |
| Bithumb.Bithumb.SellAsWritten | exchange.rb:150-152 | as written, a rejected order raises NameError |
| Coinone.Payload | exchange.rb:179 | the payload starts with `access_token` then `nonce`; the parameters win on a clash; it is the credentials followed by the parameters when no key clashes |
| Coinone.LimitOrder | exchange.rb:253 | the order parameters of `buy` and `sell` (exchange.rb:267) are `currency`, `qty`, `price` in that order, with distinct keys |
| Coinone.OrderPayload | exchange.rb:253 | an order's payload is the credentials followed by the order parameters unchanged |
| Coinone.BalanceEntries | exchange.rb:226-232 | `balance` builds five keys, or three for "krw", whose stores overwrite in place |
| Coinone.ResultExamples | exchange.rb:168 | result "success" is accepted and "error" is rejected |
| Coinone.TimestampExample | exchange.rb:245 | "1620000000" becomes "1620000000000" |
| Coinone.RejectedOrderRaisesAsWritten | exchange.rb:256-258 | on a rejected order, the as-written `buy` and `sell` raise NoMethodError, and the corrected ones answer `{error: true}` |
| Coinone.RejectedNonJsonOrderRaises | exchange.rb:256-258 | a rejected order whose body is not JSON raises ParserError in the corrected `buy` and `sell`, since the log argument is parsed first |
| Coinone.SigningIgnoresKeyCase | exchange.rb:183 | two secret keys that agree once upper-cased produce the same request |
| Coinone.Coinone.constructor | exchange.rb:17-21 | the client keeps the credentials it is given |
| Coinone.Coinone.IsError | exchange.rb:166-170 | the block answers false exactly for a Hash with result "success" |
| Coinone.Coinone.CheckAndGetResponseBody | exchange.rb:166-170 | a response is accepted exactly when it is "200", parses, and has result "success"; any other 200 Hash or String body gives nil, so the operation answers `{error: true}` |
| Coinone.Coinone.SignedRequest | exchange.rb:172-191 | the body is the Base64 of the payload's JSON; the payload header equals the body; the signature is the HMAC of that body under the upper-cased secret |
| Coinone.Coinone.AccountInfoFrom | exchange.rb:212-215 | every accepted body raises: the subscripts' exception, else NameError for `coin_code` |
| Coinone.Coinone.AccountInfo | exchange.rb:205-217 | a rejection answers exactly `{error: true}`; an accepted response always raises |
| Coinone.Coinone.BalanceFrom | exchange.rb:226-232 | an accepted body answers the balance hash exactly when all four subscripts succeed, else the first failing one's exception; for "krw" it has three keys |
| Coinone.Coinone.Balance | exchange.rb:219-234 | a signed POST to "/v2/account/balance" without parameters; a rejection answers exactly `{error: true}` |
| Coinone.Coinone.OrderbookFrom | exchange.rb:243-248 | the timestamp is the body's string with "000" appended, three characters longer, reading as 1000 times the digits' value |
| Coinone.Coinone.Orderbook | exchange.rb:236-250 | an unsigned GET of "/orderbook" with the currency as query; a rejection answers exactly `{error: true}` |
| Coinone.Coinone.Buy | exchange.rb:252-264 | an accepted order answers `{error: false}`; a rejected one answers `{error: true}` once its body parses for the log, or the parse error |
| Coinone.Coinone.Sell | exchange.rb:266-278 | as Buy, for the limit sell |
| Coinone.Coinone.BuyAsWritten | exchange.rb:256-258 | as written, a rejected order raises the parse error or NoMethodError |
| Coinone.Coinone.SellAsWritten | exchange.rb:270-272 | as written, a rejected order raises the parse error or NoMethodError |

## Left out

- Net::HTTP, TLS and the request dispatch (exchange.rb:53-56, 67-69, 173-175, 186-188) are I/O. The model is the `Request` value handed to the transport.
- `public_api` (exchange.rb:74-84, 193-203) is I/O. Building the query string is inside the transport; the model passes the URL and the query parameters.
- The library calls are uninterpreted functions, so nothing is claimed about their outputs: HMAC-SHA512 with its hex digest, Base64, `to_json`, `JSON.parse` and `URI.encode_www_form`.
- The clock. `DateTime.now` is a millisecond parameter; nothing is claimed about how successive readings relate.
- The logging itself. The corrected `Buy` and `Sell` parse the rejected body as the log call would, and so raise its parse error when it is not JSON, but where the log goes is out of scope.
- The `logger` argument of `initialize` (exchange.rb:17-21). Nothing the model covers reads it.
- `buying_quantity_including_exchange_fee` and the `@fee` constants (exchange.rb:12-15, 36-38, 44, 164) are floating-point arithmetic.
- Floats in JSON. `Value` has integers but no floats, so a price sent as a JSON number is an `Int`.
- Exceptions raised inside the library calls other than `JSON.parse`, and exceptions of the transport: a refused connection or a timeout in `https.request` or `Net::HTTP.get_response` raises out of every operation, but `Transport` always answers a response.
- Symbol and String keys are one kind of key here. In Ruby `{nonce: n}.merge({"nonce" => x})` keeps both keys; the model covers only symbol-keyed parameters, as every call site in the program passes, so a parameter of the same name replaces the credential.
- RubyString.Upcase: ASCII letters only; Ruby's full Unicode case mapping is not modelled.

## Findings

| source | as written | input that shows it | evidently intended | confidence | as-written member | corrected member |
|---|---|---|---|---|---|---|
| exchange.rb:137 | `logger.error(...)` names no method of the class, so a rejected buy raises NameError | any rejected order, such as status "500" (`Bithumb.RejectedOrderRaisesAsWritten`) | log the body through the client's logger and answer `{error: true}`; the log argument `JSON.parse(res.body)` is still evaluated first, so a rejected body that is not JSON raises the parse error | not executed | Bithumb.Bithumb.BuyAsWritten | Bithumb.Bithumb.Buy |
| exchange.rb:151 | the same call in `sell` raises NameError | any rejected order, such as status "500" (`Bithumb.RejectedOrderRaisesAsWritten`) | log and answer `{error: true}`; a rejected body that is not JSON still raises the parse error | not executed | Bithumb.Bithumb.SellAsWritten | Bithumb.Bithumb.Sell |
| exchange.rb:257 | `log(...)` is defined nowhere, so after parsing the body a rejected buy raises NoMethodError | any rejected order whose body parses, such as status "500" (`Coinone.RejectedOrderRaisesAsWritten`) | log the body and answer `{error: true}`; the log argument `JSON.parse(res.body)` is still evaluated first, so a rejected body that is not JSON raises the parse error | not executed | Coinone.Coinone.BuyAsWritten | Coinone.Coinone.Buy |
| exchange.rb:271 | the same call in `sell` raises NoMethodError | any rejected order whose body parses, such as status "500" (`Coinone.RejectedOrderRaisesAsWritten`) | log and answer `{error: true}`; a rejected body that is not JSON still raises the parse error | not executed | Coinone.Coinone.SellAsWritten | Coinone.Coinone.Sell |
