/** The few JavaScript string primitives the client relies on: `startsWith`, `trim` and the
    decimal rendering of an integer by `Number.prototype.toString`. */
module JsString {

  /** `s.startsWith(prefix)`. */
  predicate StartsWith(s: string, prefix: string) {
    prefix <= s
  }

  /** A prefix of the left operand is a prefix of the concatenation. */
  lemma PrefixOfConcat(a: string, b: string, prefix: string)
    requires StartsWith(a, prefix)
    ensures StartsWith(a + b, prefix)
  {
    assert (a + b)[..|prefix|] == a[..|prefix|];
  }

  /** The characters `String.prototype.trim` removes: ECMAScript WhiteSpace (tab, vertical
      tab, form feed, space, no-break space, byte order mark and the Unicode space
      separators) and LineTerminator (line feed, carriage return, line and paragraph
      separators). */
  predicate IsWhitespace(c: char) {
    || c == '\t' || c == '\n' || c == '\U{000B}' || c == '\U{000C}' || c == '\r'
    || c == ' ' || c == '\U{00A0}' || c == '\U{1680}'
    || ('\U{2000}' <= c <= '\U{200A}')
    || c == '\U{2028}' || c == '\U{2029}' || c == '\U{202F}' || c == '\U{205F}'
    || c == '\U{3000}' || c == '\U{FEFF}'
  }

  predicate IsBlank(s: string) {
    forall i :: 0 <= i < |s| ==> IsWhitespace(s[i])
  }

  /** Drops the leading whitespace: the result is the suffix of `s` that starts at its first
      non-whitespace character, or empty when there is none. */
  function TrimStart(s: string): (r: string)
    ensures |r| <= |s| && r == s[|s| - |r|..]
    ensures IsBlank(s[..|s| - |r|])
    ensures r != "" ==> !IsWhitespace(r[0])
  {
    if s != "" && IsWhitespace(s[0]) then
      var rest := s[1..];
      var r := TrimStart(rest);
      assert rest[|rest| - |r|..] == s[|s| - |r|..];
      BlankCons(s[0], rest[..|rest| - |r|]);
      assert s[..|s| - |r|] == [s[0]] + rest[..|rest| - |r|];
      r
    else s
  }

  /** A whitespace character followed by a blank string is blank. */
  lemma BlankCons(c: char, s: string)
    requires IsWhitespace(c) && IsBlank(s)
    ensures IsBlank([c] + s)
  {
    forall i | 0 <= i < |[c] + s|
      ensures IsWhitespace(([c] + s)[i])
    {
      if i > 0 { assert ([c] + s)[i] == s[i - 1]; }
    }
  }

  /** Drops the trailing whitespace: the result is the prefix of `s` that ends at its last
      non-whitespace character, or empty when there is none. */
  function TrimEnd(s: string): (r: string)
    ensures |r| <= |s| && r == s[..|r|]
    ensures IsBlank(s[|r|..])
    ensures r != "" ==> !IsWhitespace(r[|r| - 1])
  {
    if s != "" && IsWhitespace(s[|s| - 1]) then
      var init := s[..|s| - 1];
      var r := TrimEnd(init);
      assert init[..|r|] == s[..|r|];
      BlankSnoc(init[|r|..], s[|s| - 1]);
      assert s[|r|..] == init[|r|..] + [s[|s| - 1]];
      r
    else s
  }

  /** A blank string followed by a whitespace character is blank. */
  lemma BlankSnoc(s: string, c: char)
    requires IsBlank(s) && IsWhitespace(c)
    ensures IsBlank(s + [c])
  {
    forall i | 0 <= i < |s + [c]|
      ensures IsWhitespace((s + [c])[i])
    {
      if i < |s| { assert (s + [c])[i] == s[i]; }
    }
  }

  /** `s.trim()`. */
  function Trim(s: string): (r: string)
    ensures r != "" ==> !IsWhitespace(r[0]) && !IsWhitespace(r[|r| - 1])
  {
    TrimEnd(TrimStart(s))
  }

  /** `r` is `s[i..j]` and everything around it in `s` is whitespace. */
  predicate IsTrimmedSlice(s: string, r: string, i: nat, j: nat) {
    i <= j <= |s| && r == s[i..j] && IsBlank(s[..i]) && IsBlank(s[j..])
  }

  /** The trimmed string is a contiguous piece of `s`, and everything cut away around it is
      whitespace. */
  lemma TrimIsInfix(s: string)
    ensures exists i: nat, j: nat :: IsTrimmedSlice(s, Trim(s), i, j)
  {
    var t := TrimStart(s);
    var r := TrimEnd(t);
    var i := |s| - |t|;
    var j := i + |r|;
    assert s[j..] == t[|r|..] && s[i..j] == r by {
      assert t == s[i..];
    }
    assert IsTrimmedSlice(s, Trim(s), i, j);
  }

  /** `trim` yields the empty string exactly when `s` holds nothing but whitespace. */
  lemma TrimEmptyIffBlank(s: string)
    ensures Trim(s) == "" <==> IsBlank(s)
  {
    var t := TrimStart(s);
    var r := TrimEnd(t);
    if r == "" {
      assert t[|r|..] == t;
      assert t == "";
      assert s[..|s| - |t|] == s;
    } else {
      var i := |s| - |t|;
      assert r[0] == t[0] == s[i];
    }
  }

  /** Trimming twice changes nothing more. */
  lemma TrimIdempotent(s: string)
    ensures Trim(Trim(s)) == Trim(s)
  {
    var r := Trim(s);
    if r != "" {
      assert TrimStart(r) == r;
      assert TrimEnd(r) == r;
    }
  }

  predicate IsDigit(c: char) {
    '0' <= c <= '9'
  }

  function DigitChar(d: nat): (c: char)
    requires d < 10
    ensures IsDigit(c)
  {
    '0' + d as char
  }

  function DigitValue(c: char): (d: nat)
    requires IsDigit(c)
    ensures d < 10 && DigitChar(d) == c
  {
    (c - '0') as nat
  }

  /** The decimal digits of `n`, most significant first, without leading zeros. */
  function NatToDecimal(n: nat): (s: string)
    ensures s != [] && forall i :: 0 <= i < |s| ==> IsDigit(s[i])
    ensures s[0] == '0' ==> n == 0 && s == "0"
  {
    if n < 10 then [DigitChar(n)] else NatToDecimal(n / 10) + [DigitChar(n % 10)]
  }

  /** `n.toString()` for an integer `n`: a minus sign for a negative value, then its digits. */
  function IntToDecimal(n: int): string {
    if n < 0 then "-" + NatToDecimal(-n) else NatToDecimal(n)
  }

  /** The value of a string of decimal digits: the reading a server applies to a rendered
      number, and the inverse of `NatToDecimal`. */
  function ParseDigits(s: string): nat
    requires forall i :: 0 <= i < |s| ==> IsDigit(s[i])
  {
    if s == [] then 0 else 10 * ParseDigits(s[..|s| - 1]) + DigitValue(s[|s| - 1])
  }

  /** Reading back the rendered digits gives the number that was rendered. */
  lemma {:induction false} NatToDecimalRoundTrip(n: nat)
    ensures ParseDigits(NatToDecimal(n)) == n
  {
    if n >= 10 {
      NatToDecimalRoundTrip(n / 10);
      var s := NatToDecimal(n);
      assert s[..|s| - 1] == NatToDecimal(n / 10);
    }
  }

  /** A rendering starts with a minus sign exactly when the integer is negative. */
  lemma IntToDecimalSign(n: int)
    ensures IntToDecimal(n) != "" && (IntToDecimal(n)[0] == '-' <==> n < 0)
  {
    if n >= 0 {
      assert IsDigit(NatToDecimal(n)[0]);
    }
  }

  /** Distinct natural numbers have distinct digit strings. */
  lemma NatToDecimalInjective(a: nat, b: nat)
    requires NatToDecimal(a) == NatToDecimal(b)
    ensures a == b
  {
    NatToDecimalRoundTrip(a);
    NatToDecimalRoundTrip(b);
  }

  /** Distinct integers render as distinct strings. */
  lemma IntToDecimalInjective(m: int, n: int)
    requires IntToDecimal(m) == IntToDecimal(n)
    ensures m == n
  {
    IntToDecimalSign(m);
    IntToDecimalSign(n);
    if m < 0 && n < 0 {
      var x, y := NatToDecimal(-m), NatToDecimal(-n);
      assert ("-" + x)[1..] == x && ("-" + y)[1..] == y;
      NatToDecimalInjective(-m, -n);
    } else if m >= 0 && n >= 0 {
      NatToDecimalInjective(m, n);
    }
  }
}
