/**
 * The few String operations of Ruby's core library the exchange clients
 * rely on: `String#to_i` on prices and nonces, the decimal rendering of the
 * millisecond nonce, ASCII `String#upcase`, and finding the NUL separators
 * of a signing string.
 */
module RubyString {
  import opened Wrappers

  predicate IsDigit(c: char) { '0' <= c <= '9' }

  predicate AllDigits(s: string) {
    forall i :: 0 <= i < |s| ==> IsDigit(s[i])
  }

  /** The characters Ruby's integer parser skips before a number: space and \t, \n, \v, \f, \r. */
  predicate IsSpace(c: char) { c == ' ' || '\t' <= c <= '\r' }

  function DigitValue(c: char): nat
    requires IsDigit(c)
  {
    c as int - '0' as int
  }

  function DigitChar(d: nat): (c: char)
    requires d < 10
    ensures IsDigit(c) && DigitValue(c) == d
  {
    ('0' as int + d) as char
  }

  /** The value of a string of decimal digits, most significant digit first. */
  function DecimalValue(d: string): nat
    requires AllDigits(d)
  {
    if d == [] then 0 else DecimalValue(d[..|d| - 1]) * 10 + DigitValue(d[|d| - 1])
  }

  lemma DecimalValueSnoc(d: string, c: char)
    requires AllDigits(d) && IsDigit(c)
    ensures AllDigits(d + [c]) && DecimalValue(d + [c]) == DecimalValue(d) * 10 + DigitValue(c)
  {
    assert (d + [c])[..|d|] == d;
  }

  /** The shortest decimal numeral of `n`, as `Integer#to_s` and `strftime('%Q')` write it. */
  function NatToDecimal(n: nat): (s: string)
    ensures AllDigits(s) && s != []
    ensures DecimalValue(s) == n
    ensures s[0] == '0' ==> s == "0"
  {
    if n < 10 then
      var s := [DigitChar(n)];
      assert s[..0] == [];
      s
    else
      var s := NatToDecimal(n / 10) + [DigitChar(n % 10)];
      DecimalValueSnoc(NatToDecimal(n / 10), DigitChar(n % 10));
      s
  }

  /** `s` without its leading white space. */
  function SkipSpace(s: string): (r: string)
    ensures |r| <= |s| && r == s[|s| - |r|..]
    ensures r == [] || !IsSpace(r[0])
    decreases |s|
  {
    if s != [] && IsSpace(s[0]) then SkipSpace(s[1..]) else s
  }

  /**
   * The digits of the numeral `t` starts with, the underscores Ruby allows
   * between two digits dropped: "1_000abc" gives "1000", "12__3" gives "12".
   */
  function LeadingDigits(t: string): (d: string)
    ensures AllDigits(d) && |d| <= |t|
    ensures d == [] <==> t == [] || !IsDigit(t[0])
    ensures AllDigits(t) ==> d == t
  {
    if t == [] || !IsDigit(t[0]) then []
    else if |t| >= 3 && t[1] == '_' && IsDigit(t[2]) then [t[0]] + LeadingDigits(t[2..])
    else
      var d := [t[0]] + LeadingDigits(t[1..]);
      assert AllDigits(t) ==> [t[0]] + t[1..] == t;
      d
  }

  /**
   * The digits of the base-10 numeral `u` starts with, after the radix
   * prefix "0d" or "0D" that Ruby accepts in base 10: "0d12" gives "12".
   */
  function Numeral(u: string): (d: string)
    ensures AllDigits(d)
    ensures AllDigits(u) ==> d == u
    ensures |u| >= 2 && u[0] == '0' && (u[1] == 'd' || u[1] == 'D') ==> d == LeadingDigits(u[2..])
  {
    if |u| >= 2 && u[0] == '0' && (u[1] == 'd' || u[1] == 'D') then LeadingDigits(u[2..])
    else LeadingDigits(u)
  }

  /**
   * `String#to_i`: skip white space, read an optional sign, an optional
   * "0d" prefix and then the longest numeral; a string that does not start
   * with one reads as 0.
   */
  function StringToI(s: string): (n: int)
    ensures AllDigits(s) ==> n == DecimalValue(s)
    ensures n < 0 ==> '-' in s
  {
    var t := SkipSpace(s);
    if t != [] && t[0] == '-' then -(DecimalValue(Numeral(t[1..])) as int)
    else if t != [] && t[0] == '+' then DecimalValue(Numeral(t[1..]))
    else DecimalValue(Numeral(t))
  }

  /** The base-10 radix prefix is skipped: "0d12" reads as 12. */
  lemma RadixPrefixExample()
    ensures StringToI("0d12") == 12
  {
    assert SkipSpace("0d12") == "0d12";
    assert "0d12"[2..] == "12";
    assert Numeral("0d12") == "12";
    assert "12"[..1] == "1" && "1"[..0] == "";
  }

  /** The radix prefix may follow the sign: "-0D7" reads as -7. */
  lemma SignedRadixPrefixExample()
    ensures StringToI("-0D7") == -7
  {
    assert SkipSpace("-0D7") == "-0D7";
    assert "-0D7"[1..] == "0D7" && "0D7"[2..] == "7";
    assert Numeral("0D7") == "7";
    assert "7"[..0] == "";
  }

  /** Reading back a rendered natural number gives the number. */
  lemma StringToIInvertsNatToDecimal(n: nat)
    ensures StringToI(NatToDecimal(n)) == n
  {
  }

  /** Appending "000" to a numeral multiplies its value by a thousand: seconds become milliseconds. */
  lemma {:induction false} AppendThousandfold(s: string)
    requires AllDigits(s)
    ensures AllDigits(s + "000")
    ensures StringToI(s + "000") == StringToI(s) * 1000
  {
    DecimalValueSnoc(s, '0');
    DecimalValueSnoc(s + "0", '0');
    DecimalValueSnoc(s + "00", '0');
    assert s + "0" + "0" == s + "00";
    assert s + "00" + "0" == s + "000";
  }

  predicate IsLower(c: char) { 'a' <= c <= 'z' }

  function UpcaseChar(c: char): char {
    if IsLower(c) then (c as int - 32) as char else c
  }

  /** `String#upcase` on ASCII text: every lower-case letter becomes its capital. */
  function Upcase(s: string): (r: string)
    ensures |r| == |s|
    ensures forall i :: 0 <= i < |s| ==> !IsLower(r[i])
    ensures forall i :: 0 <= i < |s| && !IsLower(s[i]) ==> r[i] == s[i]
    ensures forall i :: 0 <= i < |s| && IsLower(s[i]) ==> r[i] as int == s[i] as int - 32
  {
    if s == [] then [] else [UpcaseChar(s[0])] + Upcase(s[1..])
  }

  /** Upcasing twice is upcasing once. */
  lemma UpcaseIdempotent(s: string)
    ensures Upcase(Upcase(s)) == Upcase(s)
  {
  }

  /** Upcasing changes a string exactly when it holds a lower-case letter. */
  lemma UpcaseChanges(s: string)
    ensures Upcase(s) != s <==> exists i :: 0 <= i < |s| && IsLower(s[i])
  {
    if exists i :: 0 <= i < |s| && IsLower(s[i]) {
      var i :| 0 <= i < |s| && IsLower(s[i]);
      assert Upcase(s)[i] != s[i];
    }
  }

  /** The position of the first `c` in `s`. */
  function IndexOf(s: string, c: char): (r: Option<nat>)
    ensures r.None? <==> c !in s
    ensures r.Some? ==> r.value < |s| && s[r.value] == c && c !in s[..r.value]
  {
    if s == [] then None
    else if s[0] == c then
      assert s[..0] == [];
      Some(0)
    else
      match IndexOf(s[1..], c)
      case None => None
      case Some(i) =>
        assert s[..i + 1] == [s[0]] + s[1..][..i];
        Some(i + 1)
  }

  /** The position of the last `c` in `s`. */
  function LastIndexOf(s: string, c: char): (r: Option<nat>)
    ensures r.None? <==> c !in s
    ensures r.Some? ==> r.value < |s| && s[r.value] == c && c !in s[r.value + 1..]
  {
    if s == [] then None
    else if s[|s| - 1] == c then Some(|s| - 1)
    else
      match LastIndexOf(s[..|s| - 1], c)
      case None =>
        assert s == s[..|s| - 1] + [s[|s| - 1]];
        None
      case Some(i) =>
        assert s[i + 1..] == s[..|s| - 1][i + 1..] + [s[|s| - 1]];
        Some(i)
  }

  lemma {:induction false} IndexOfAfter(a: string, c: char, b: string)
    requires c !in a
    ensures IndexOf(a + [c] + b, c) == Some(|a|)
  {
    if a != [] {
      IndexOfAfter(a[1..], c, b);
      assert (a + [c] + b)[1..] == a[1..] + [c] + b;
    }
  }

  lemma {:induction false} LastIndexOfBefore(a: string, c: char, b: string)
    requires c !in b
    ensures LastIndexOf(a + [c] + b, c) == Some(|a|)
    decreases |b|
  {
    if b != [] {
      var b' := b[..|b| - 1];
      LastIndexOfBefore(a, c, b');
      assert (a + [c] + b)[..|a + [c] + b| - 1] == a + [c] + b';
    }
  }
}
