/**
 * The Ruby objects a parsed JSON response is made of, and the handful of
 * Ruby methods the clients call on them (`[]`, `[0]`, `to_i`, `+`), each
 * with the exception Ruby raises when the receiver does not have the shape
 * the clients expect.
 */
module RubyValue {
  import opened Wrappers
  import opened RubyHash
  import opened RubyString

  /** The Ruby exceptions the modelled code can raise. */
  datatype Exception =
    | NoMethodError  // a method called on an object that lacks it (`nil['data']`)
    | TypeError      // an argument of the wrong class (`[1, 2]['data']`)
    | NameError      // a name that is neither a local variable nor a method
    | ParserError    // `JSON.parse` on text that is not JSON

  /** A computation that returns a value or raises. */
  datatype Outcome<+T> = Ok(value: T) | Raised(exception: Exception) {
    predicate IsFailure() { Raised? }

    function PropagateFailure<U>(): Outcome<U>
      requires Raised?
    {
      Raised(exception)
    }

    function Extract(): T
      requires Ok?
    {
      value
    }
  }

  /**
   * What `JSON.parse` returns, and what the result hashes hold: nil,
   * booleans, integers, strings, arrays and string-keyed hashes.
   */
  datatype Value =
    | Nil
    | Bool(b: bool)
    | Int(i: int)
    | Str(s: string)
    | Array(elems: seq<Value>)
    | Hash(entries: seq<(string, Value)>)

  /** Whether `k` occurs in `s` as a contiguous piece. */
  predicate Contains(s: string, k: string)
    decreases |s|
  {
    k <= s || (s != [] && Contains(s[1..], k))
  }

  /**
   * `v[key]` for a String `key`: a Hash looks the key up (nil when it is
   * absent), a String answers `key` itself when it contains it and nil
   * otherwise, an Integer or an Array refuses a String index, and nil or a
   * boolean has no `[]` at all.
   */
  function Index(v: Value, key: string): (r: Outcome<Value>)
    ensures r.Ok? <==> v.Hash? || v.Str?
    ensures v.Hash? ==> r == Ok(Get(v.entries, key).GetOr(Nil))
    ensures v.Str? ==> r == Ok(Str(key)) || r == Ok(Nil)
  {
    match v
    case Nil => Raised(NoMethodError)
    case Bool(_) => Raised(NoMethodError)
    case Int(_) => Raised(TypeError)
    case Str(s) => Ok(if Contains(s, key) then Str(key) else Nil)
    case Array(_) => Raised(TypeError)
    case Hash(entries) => Ok(Get(entries, key).GetOr(Nil))
  }

  /**
   * `v[0]`: the first element of an Array or the first character of a
   * String (nil when empty), bit 0 of an Integer, nil from a Hash (whose
   * keys are strings), and no `[]` on nil or a boolean.
   */
  function First(v: Value): (r: Outcome<Value>)
    ensures r.Raised? <==> v.Nil? || v.Bool?
    ensures v.Array? ==> r == Ok(if v.elems == [] then Nil else v.elems[0])
  {
    match v
    case Nil => Raised(NoMethodError)
    case Bool(_) => Raised(NoMethodError)
    case Int(i) => Ok(Int(i % 2))
    case Str(s) => Ok(if s == [] then Nil else Str(s[..1]))
    case Array(elems) => Ok(if elems == [] then Nil else elems[0])
    case Hash(_) => Ok(Nil)
  }

  /** `v.to_i`: a String is parsed, an Integer is itself, nil is 0, anything else has no `to_i`. */
  function ToI(v: Value): (r: Outcome<int>)
    ensures r.Ok? <==> v.Str? || v.Int? || v.Nil?
    ensures v.Str? && AllDigits(v.s) ==> r == Ok(DecimalValue(v.s))
    ensures v.Int? ==> r == Ok(v.i)
  {
    match v
    case Nil => Ok(0)
    case Int(i) => Ok(i)
    case Str(s) => Ok(StringToI(s))
    case _ => Raised(NoMethodError)
  }

  /**
   * `v + suffix` for a String `suffix`: a String is concatenated; an Integer
   * or an Array refuses a String operand; nil, a boolean or a Hash has no `+`.
   */
  function AppendString(v: Value, suffix: string): (r: Outcome<Value>)
    ensures r.Ok? <==> v.Str?
    ensures v.Str? ==> r == Ok(Str(v.s + suffix)) && |r.value.s| == |v.s| + |suffix|
  {
    match v
    case Str(s) => Ok(Str(s + suffix))
    case Int(_) => Raised(TypeError)
    case Array(_) => Raised(TypeError)
    case _ => Raised(NoMethodError)
  }

  /** One subscript of a chain such as `body['data']['bids'][0]['price']`. */
  datatype Step = Key(name: string) | Head

  function Apply(v: Value, step: Step): Outcome<Value> {
    match step
    case Key(k) => Index(v, k)
    case Head => First(v)
  }

  /** A chain of subscripts applied left to right; the first one that raises ends the chain. */
  function Walk(v: Value, path: seq<Step>): (r: Outcome<Value>)
    ensures path == [] ==> r == Ok(v)
    ensures path != [] && Apply(v, path[0]).Raised? ==> r == Raised(Apply(v, path[0]).exception)
    ensures path != [] && (v.Nil? || v.Bool?) ==> r == Raised(NoMethodError)
    decreases |path|
  {
    if path == [] then Ok(v)
    else
      var w :- Apply(v, path[0]);
      Walk(w, path[1..])
  }

  /**
   * A chain split in two is the first part followed by the second, applied
   * to what the first reaches: `body['data']['bids'][0]` is
   * `(body['data'])['bids'][0]`.
   */
  lemma {:induction false} WalkConcat(v: Value, p: seq<Step>, q: seq<Step>)
    ensures Walk(v, p + q) == (var w := Walk(v, p); if w.Raised? then Raised(w.exception) else Walk(w.value, q))
    decreases |p|
  {
    if p == [] {
      assert p + q == q;
    } else {
      assert (p + q)[0] == p[0] && (p + q)[1..] == p[1..] + q;
      var w := Apply(v, p[0]);
      if w.Ok? {
        WalkConcat(w.value, p[1..], q);
      }
    }
  }

  /** `v[...][...].to_i`: the chain of subscripts, then `to_i` of what it reaches. */
  function WalkToI(v: Value, path: seq<Step>): (r: Outcome<int>)
    ensures var w := Walk(v, path);
      && (w.Raised? ==> r == Raised(w.exception))
      && (w.Ok? ==> r == ToI(w.value))
      && (w.Ok? && w.value.Str? && AllDigits(w.value.s) ==> r == Ok(DecimalValue(w.value.s)))
  {
    var w :- Walk(v, path);
    ToI(w)
  }
}
