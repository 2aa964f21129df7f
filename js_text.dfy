/**
 * The pieces of JavaScript's string semantics the core relies on: `String.prototype.trim`
 * (AdminPanel's blank-content guard), `parseInt` without a radix (the stats handlers' count
 * parsing) and the decimal text in which node-postgres hands back a COUNT.
 */
module JsText {
  import opened Wrappers

  /** ECMAScript WhiteSpace and LineTerminator code points: what `trim` strips and `parseInt` skips. */
  predicate IsWhitespace(c: char) {
    || c == '\t' || c == '\U{000B}' || c == '\U{000C}' || c == ' ' || c == '\U{00A0}' || c == '\U{FEFF}'
    || c == '\U{1680}' || ('\U{2000}' <= c <= '\U{200A}') || c == '\U{202F}' || c == '\U{205F}' || c == '\U{3000}'
    || c == '\n' || c == '\r' || c == '\U{2028}' || c == '\U{2029}'
  }

  /** Every character of `s` is whitespace (the empty string included). */
  predicate IsBlank(s: string) {
    forall i :: 0 <= i < |s| ==> IsWhitespace(s[i])
  }

  /** `s` without its leading whitespace: the longest suffix of `s` that does not start with whitespace. */
  function TrimStart(s: string): (r: string)
    ensures |r| <= |s| && r == s[|s| - |r|..]
    ensures IsBlank(s[..|s| - |r|])
    ensures r != [] ==> !IsWhitespace(r[0])
  {
    if s != [] && IsWhitespace(s[0]) then TrimStart(s[1..]) else s
  }

  /** `s` without its trailing whitespace: the longest prefix of `s` that does not end with whitespace. */
  function TrimEnd(s: string): (r: string)
    ensures |r| <= |s| && r == s[..|r|]
    ensures IsBlank(s[|r|..])
    ensures r != [] ==> !IsWhitespace(r[|r| - 1])
  {
    if s != [] && IsWhitespace(s[|s| - 1]) then TrimEnd(s[..|s| - 1]) else s
  }

  /** `String.prototype.trim`; `!s.trim()` holds exactly for the strings made only of whitespace. */
  function Trim(s: string): (r: string)
    ensures r == "" <==> IsBlank(s)
  {
    TrimEnd(TrimStart(s))
  }

  /** The value of `c` as a digit of radix up to 36, or 36 when it is no digit at all. */
  function DigitValue(c: char): (d: nat)
    ensures d <= 36
  {
    if '0' <= c <= '9' then c as nat - '0' as nat
    else if 'a' <= c <= 'z' then c as nat - 'a' as nat + 10
    else if 'A' <= c <= 'Z' then c as nat - 'A' as nat + 10
    else 36
  }

  /** The length of the longest prefix of `s` made of digits of the given radix. */
  function DigitRun(s: string, radix: nat): (n: nat)
    ensures n <= |s|
    ensures forall i :: 0 <= i < n ==> DigitValue(s[i]) < radix
    ensures n < |s| ==> DigitValue(s[n]) >= radix
  {
    if s != [] && DigitValue(s[0]) < radix then 1 + DigitRun(s[1..], radix) else 0
  }

  /** The number a string of digits denotes in the given radix, most significant digit first. */
  function DigitsValue(digits: string, radix: nat): nat {
    if digits == [] then 0
    else DigitsValue(digits[..|digits| - 1], radix) * radix + DigitValue(digits[|digits| - 1])
  }

  /**
   * `parseInt(s)` with no radix argument: skip leading whitespace, then read the rest as
   * `ParseSigned` does. `None` stands for NaN.
   */
  function ParseInt(s: string): (r: Option<int>)
    ensures IsBlank(s) ==> r.None?
    ensures r.Some? ==> exists i :: 0 <= i < |s| && '0' <= s[i] <= '9'
  {
    var t := TrimStart(s);
    var r := ParseSigned(t);
    if r.None? then r
    else
      var i :| 0 <= i < |t| && '0' <= t[i] <= '9';
      assert s[|s| - |t| + i] == t[i];
      r
  }

  /**
   * An optional sign, then the rest read as `ParseUnsigned` does. A negative zero is reported as 0.
   */
  function ParseSigned(t: string): (r: Option<int>)
    ensures r.Some? ==> exists i :: 0 <= i < |t| && '0' <= t[i] <= '9'
  {
    if t != [] && (t[0] == '+' || t[0] == '-') then
      match ParseUnsigned(t[1..])
      case None => None
      case Some(m) =>
        var i :| 0 <= i < |t[1..]| && '0' <= t[1..][i] <= '9';
        assert t[i + 1] == t[1..][i];
        var v: int := m; Some(if t[0] == '-' then -v else v)
    else
      ParseUnsigned(t)
  }

  /**
   * The unsigned part of `parseInt`: a `0x`/`0X` prefix selects radix 16, otherwise radix 10;
   * the value is that of the longest run of digits that follows, and `None` (NaN) if there is none.
   */
  function ParseUnsigned(u: string): (r: Option<nat>)
    ensures r.Some? ==> exists i :: 0 <= i < |u| && '0' <= u[i] <= '9'
  {
    var hex := |u| >= 2 && u[0] == '0' && (u[1] == 'x' || u[1] == 'X');
    var radix := if hex then 16 else 10;
    var body := if hex then u[2..] else u;
    var n := DigitRun(body, radix);
    if n == 0 then None
    else
      assert '0' <= u[0] <= '9' by {
        if !hex { assert DigitValue(u[0]) < 10; }
      }
      Some(DigitsValue(body[..n], radix))
  }

  /** The decimal digit character for `d`. */
  function DigitChar(d: nat): char
    requires d < 10
  {
    (d + '0' as nat) as char
  }

  /** The shortest decimal text of `n`, as `String(n)` and node-postgres render a count. */
  function Decimal(n: nat): (r: string)
    ensures r != []
    ensures forall i :: 0 <= i < |r| ==> '0' <= r[i] <= '9'
  {
    if n < 10 then [DigitChar(n)] else Decimal(n / 10) + [DigitChar(n % 10)]
  }

  lemma {:induction false} DigitsValueOfDecimal(n: nat)
    ensures DigitsValue(Decimal(n), 10) == n
  {
    var r := Decimal(n);
    if n < 10 {
      assert r[..|r| - 1] == [];
    } else {
      DigitsValueOfDecimal(n / 10);
      assert r[..|r| - 1] == Decimal(n / 10);
    }
  }

  lemma ParseUnsignedOfDecimal(n: nat)
    ensures ParseUnsigned(Decimal(n)) == Some(n)
  {
    var r := Decimal(n);
    assert !(|r| >= 2 && r[0] == '0' && (r[1] == 'x' || r[1] == 'X')) by {
      if |r| >= 2 { assert '0' <= r[1] <= '9'; }
    }
    assert DigitRun(r, 10) == |r|;
    assert r[..|r|] == r;
    DigitsValueOfDecimal(n);
  }

  /** Leading whitespace is skipped: `parseInt(w + s) === parseInt(s)` for blank `w`. */
  lemma {:induction false} ParseIntSkipsBlank(w: string, s: string)
    requires IsBlank(w)
    ensures ParseInt(w + s) == ParseInt(s)
  {
    TrimStartSkipsBlank(w, s);
  }

  lemma {:induction false} TrimStartSkipsBlank(w: string, s: string)
    requires IsBlank(w)
    ensures TrimStart(w + s) == TrimStart(s)
  {
    if w == [] {
      assert w + s == s;
    } else {
      assert (w + s)[0] == w[0];
      assert (w + s)[1..] == w[1..] + s;
      TrimStartSkipsBlank(w[1..], s);
    }
  }

  /** Reading back the decimal text of a count gives the count: `parseInt(String(n)) === n`. */
  lemma ParseIntOfDecimal(n: nat)
    ensures ParseInt(Decimal(n)) == Some(n)
  {
    var r := Decimal(n);
    assert TrimStart(r) == r by { assert !IsWhitespace(r[0]); }
    ParseUnsignedOfDecimal(n);
  }
}
