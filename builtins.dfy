/**
 * The few Python built-ins the plugin leans on, stated exactly:
 * str.strip(), os.path.basename(), int(str), float(str) and int(float).
 * Numbers are exact (int and real); the rounding of binary floating point
 * is not modelled.
 */
module Builtins {
  import opened Wrappers

  /** The exceptions the plugin can raise. Any of them ends the collection cycle. */
  datatype Error =
    | IndexError                   // x[-1] on an empty token
    | ValueError(token: string)    // int() or float() given a token it does not accept
    | OSError(path: seq<string>)   // os.readlink on a path that is not a link

  /** The characters str.isspace() accepts: the ones strip() discards. */
  const Whitespace: set<char> :=
    {'\t', '\n', '\U{b}', '\U{c}', '\r', '\U{1c}', '\U{1d}', '\U{1e}', '\U{1f}', ' ', '\U{85}', '\U{a0}',
     '\U{1680}', '\U{2000}', '\U{2001}', '\U{2002}', '\U{2003}', '\U{2004}', '\U{2005}', '\U{2006}',
     '\U{2007}', '\U{2008}', '\U{2009}', '\U{200a}', '\U{2028}', '\U{2029}', '\U{202f}', '\U{205f}', '\U{3000}'}

  predicate IsSpace(c: char) {
    c in Whitespace
  }

  /**
   * The information separators U+001C..U+001F. str.isspace() holds for them,
   * but int() and float() strip only the ASCII whitespace " \t\n\v\f\r" and
   * the non-ASCII whitespace. A separator is no part of a number either, so
   * int() and float() refuse every token that holds one.
   */
  const Separators: set<char> := {'\U{1c}', '\U{1d}', '\U{1e}', '\U{1f}'}

  /** str.lstrip(). */
  function StripLeading(s: string): string {
    if s != [] && IsSpace(s[0]) then StripLeading(s[1..]) else s
  }

  /** lstrip() keeps the longest suffix that does not start with whitespace. */
  lemma {:induction false} StripLeadingSpec(s: string)
    ensures |StripLeading(s)| <= |s| && StripLeading(s) == s[|s| - |StripLeading(s)|..]
    ensures forall k :: 0 <= k < |s| - |StripLeading(s)| ==> IsSpace(s[k])
    ensures StripLeading(s) == [] || !IsSpace(StripLeading(s)[0])
  {
    if s != [] && IsSpace(s[0]) {
      var rest := s[1..];
      StripLeadingSpec(rest);
      var r := StripLeading(rest);
      assert rest[|rest| - |r|..] == s[|s| - |r|..];
      forall k | 0 < k < |s| - |r|
        ensures IsSpace(s[k])
      {
        assert s[k] == rest[k - 1];
      }
    }
  }

  /** str.rstrip(). */
  function StripTrailing(s: string): string {
    if s != [] && IsSpace(s[|s| - 1]) then StripTrailing(s[..|s| - 1]) else s
  }

  /** rstrip() keeps the longest prefix that does not end with whitespace. */
  lemma {:induction false} StripTrailingSpec(s: string)
    ensures |StripTrailing(s)| <= |s| && StripTrailing(s) == s[..|StripTrailing(s)|]
    ensures forall k :: |StripTrailing(s)| <= k < |s| ==> IsSpace(s[k])
    ensures StripTrailing(s) == [] || !IsSpace(StripTrailing(s)[|StripTrailing(s)| - 1])
  {
    if s != [] && IsSpace(s[|s| - 1]) {
      var init := s[..|s| - 1];
      StripTrailingSpec(init);
      var r := StripTrailing(init);
      assert init[..|r|] == s[..|r|];
      forall k | |r| <= k < |s| - 1
        ensures IsSpace(s[k])
      {
        assert s[k] == init[k];
      }
    }
  }

  /** str.strip(). */
  function Strip(s: string): string {
    StripTrailing(StripLeading(s))
  }

  /** strip() removes the whitespace at both ends, and nothing else. */
  lemma StripSpec(s: string)
    ensures Strip(s) == [] || (!IsSpace(Strip(s)[0]) && !IsSpace(Strip(s)[|Strip(s)| - 1]))
    ensures exists i, j :: 0 <= i <= j <= |s| && Strip(s) == s[i..j]
                           && (forall k :: 0 <= k < i ==> IsSpace(s[k]))
                           && (forall k :: j <= k < |s| ==> IsSpace(s[k]))
  {
    var l := StripLeading(s);
    var r := StripTrailing(l);
    StripLeadingSpec(s);
    StripTrailingSpec(l);
    assert r == s[|s| - |l|..|s| - |l| + |r|];
    if r != [] {
      assert r[0] == l[0];
    }
  }

  /** os.path.basename(): the text after the last '/', or all of s when it has none. */
  function Basename(s: string): string {
    if s == [] || s[|s| - 1] == '/' then [] else Basename(s[..|s| - 1]) + [s[|s| - 1]]
  }

  /** The basename is the longest suffix of s without a '/': a '/' or the start of s precedes it. */
  lemma {:induction false} BasenameSpec(s: string)
    ensures '/' !in Basename(s)
    ensures |Basename(s)| <= |s| && Basename(s) == s[|s| - |Basename(s)|..]
    ensures |Basename(s)| < |s| ==> s[|s| - |Basename(s)| - 1] == '/'
  {
    if s != [] && s[|s| - 1] != '/' {
      var init, c := s[..|s| - 1], s[|s| - 1];
      BasenameSpec(init);
      var r := Basename(init);
      assert Basename(s) == r + [c];
      assert s == init + [c];
      assert '/' !in r + [c] by {
        assert forall x :: x in r + [c] ==> x in r || x == c;
      }
      assert s[|s| - |r| - 1..] == init[|init| - |r|..] + [c];
      if |r| < |init| {
        assert s[|s| - |r| - 2] == init[|init| - |r| - 1];
      }
    }
  }

  /** The basename of "<dir>/<name>" is name, whatever dir is, when name has no '/'. */
  lemma {:induction false} BasenameAfterSlash(dir: string, name: string)
    requires '/' !in name
    ensures Basename(dir + "/" + name) == name
  {
    var s := dir + "/" + name;
    if name == [] {
      assert s[|s| - 1] == '/';
    } else {
      var init := name[..|name| - 1];
      assert s[..|s| - 1] == dir + "/" + init;
      assert s[|s| - 1] == name[|name| - 1];
      BasenameAfterSlash(dir, init);
      assert init + [name[|name| - 1]] == name;
    }
  }

  /** The first index of s holding a character of cs, or |s|. */
  function Find(s: string, cs: set<char>): (i: nat)
    ensures i <= |s|
  {
    if s == [] || s[0] in cs then 0 else 1 + Find(s[1..], cs)
  }

  /** Find stops at the first character of cs and at nothing before it. */
  lemma {:induction false} FindSpec(s: string, cs: set<char>)
    ensures Find(s, cs) < |s| ==> s[Find(s, cs)] in cs
    ensures forall k :: 0 <= k < Find(s, cs) ==> s[k] !in cs
  {
    if s != [] && s[0] !in cs {
      FindSpec(s[1..], cs);
    }
  }

  function Pow(b: nat, n: nat): (r: nat)
    ensures b > 0 ==> r > 0
  {
    if n == 0 then 1 else b * Pow(b, n - 1)
  }

  predicate IsDigit(c: char) { '0' <= c <= '9' }

  predicate AllDigits(s: string) {
    forall k :: 0 <= k < |s| ==> IsDigit(s[k])
  }

  /** The value of a string of decimal digits, most significant first. */
  function DigitsValue(s: string): nat
    requires AllDigits(s)
  {
    if s == [] then 0 else DigitsValue(s[..|s| - 1]) * 10 + (s[|s| - 1] as int - '0' as int)
  }

  function DigitChar(d: nat): (c: char)
    requires d < 10
    ensures IsDigit(c) && c as int - '0' as int == d
  {
    ('0' as int + d) as char
  }

  /** The decimal text the kernel writes for a counter. */
  function NatString(n: nat): (r: string)
    ensures r != [] && AllDigits(r)
  {
    if n < 10 then [DigitChar(n)] else NatString(n / 10) + [DigitChar(n % 10)]
  }

  lemma {:induction false} NatStringValue(n: nat)
    ensures DigitsValue(NatString(n)) == n
  {
    if n >= 10 {
      var s := NatString(n);
      assert s[..|s| - 1] == NatString(n / 10);
      NatStringValue(n / 10);
    }
  }

  /** An optional leading sign: whether it is '-', and the rest. */
  function SplitSign(s: string): (bool, string) {
    if s != [] && (s[0] == '+' || s[0] == '-') then (s[0] == '-', s[1..]) else (false, s)
  }

  /** Python's int(s) for a base-10 string: whitespace, a sign, then one or more digits. */
  function ParseInt(s: string): Option<int>
  {
    var (negative, body) := SplitSign(Strip(s));
    if Find(s, Separators) == |s| && body != [] && AllDigits(body) then
      var v: int := DigitsValue(body);
      Some(if negative then -v else v)
    else None
  }

  /** The mantissa of a float literal: [digits] '.' digits, or digits ['.']. */
  function ParseMantissa(m: string): Option<real> {
    var d := Find(m, {'.'});
    if d == |m| then
      if m != [] && AllDigits(m) then Some(DigitsValue(m) as real) else None
    else
      var whole, fraction := m[..d], m[d + 1..];
      if AllDigits(whole) && AllDigits(fraction) && (whole != [] || fraction != []) then
        Some(DecimalValue(whole, fraction))
      else None
  }

  /** The value of the decimal literal "<whole>.<fraction>". */
  function DecimalValue(whole: string, fraction: string): real
    requires AllDigits(whole) && AllDigits(fraction)
  {
    DigitsValue(whole) as real + FractionValue(fraction)
  }

  /** The value of the digits after a decimal point: ".d1d2..." is (d1 + .d2...) / 10. */
  function FractionValue(fraction: string): (r: real)
    requires AllDigits(fraction)
    ensures 0.0 <= r < 1.0
  {
    if fraction == [] then 0.0
    else ((fraction[0] as int - '0' as int) as real + FractionValue(fraction[1..])) / 10.0
  }

  /** The exponent of a float literal after its 'e': a sign, then one or more digits. */
  function ParseExponent(x: string): Option<int> {
    var (negative, body) := SplitSign(x);
    if body != [] && AllDigits(body) then
      var v: int := DigitsValue(body);
      Some(if negative then -v else v)
    else None
  }

  /** m * 10^e, exactly. */
  function Scale(m: real, e: int): real
    decreases if e < 0 then -e else e
  {
    if e == 0 then m
    else if e > 0 then Scale(m, e - 1) * 10.0
    else Scale(m, e + 1) / 10.0
  }

  /**
   * Python's float(s) for finite decimal literals: whitespace, a sign, a mantissa
   * and an optional exponent. The value is exact.
   */
  function ParseFloat(s: string): Option<real>
  {
    var (negative, body) := SplitSign(Strip(s));
    var e := Find(body, {'e', 'E'});
    var m := ParseMantissa(body[..e]);
    var x := if e == |body| then Some(0) else ParseExponent(body[e + 1..]);
    if Find(s, Separators) < |s| || m.None? || x.None? then None
    else
      var v := Scale(m.value, x.value);
      Some(if negative then -v else v)
  }

  /** Python's int(x) for a finite float: truncation toward zero. */
  function Trunc(x: real): (r: int)
    ensures 0.0 <= x ==> 0 <= r && r as real <= x < r as real + 1.0
    ensures x < 0.0 ==> r <= 0 && r as real - 1.0 < x <= r as real
  {
    if x >= 0.0 then x.Floor else -((-x).Floor)
  }

  /** The text of an int as Python's str() writes it. */
  function IntString(n: int): string {
    if n < 0 then "-" + NatString(-n) else NatString(n)
  }

  predicate NoSpace(s: string) {
    forall k :: 0 <= k < |s| ==> !IsSpace(s[k])
  }

  lemma StripNothingToStrip(s: string)
    requires NoSpace(s)
    ensures Strip(s) == s
  {
    assert StripLeading(s) == s;
  }

  lemma StripDigits(s: string)
    requires AllDigits(s)
    ensures Strip(s) == s
  {
    assert NoSpace(s);
    StripNothingToStrip(s);
  }

  lemma StripNegative(digits: string)
    requires AllDigits(digits)
    ensures Strip("-" + digits) == "-" + digits
  {
    var s := "-" + digits;
    assert forall k :: 1 <= k < |s| ==> s[k] == digits[k - 1];
    assert NoSpace(s);
    StripNothingToStrip(s);
  }

  /** A line as readlines() returns it, ending in "\n": strip() gives back its text. */
  lemma StripLineEnd(s: string)
    requires s != [] && NoSpace(s)
    ensures Strip(s + "\n") == s
  {
    var line := s + "\n";
    assert line[0] == s[0];
    assert StripLeading(line) == line;
    assert line[..|line| - 1] == s;
    assert StripTrailing(s) == s;
  }

  /** int() after its whitespace and sign are split off. */
  lemma ParseIntOf(s: string, negative: bool, body: string)
    requires Find(s, Separators) == |s| && SplitSign(Strip(s)) == (negative, body) && body != [] && AllDigits(body)
    ensures ParseInt(s) == Some(if negative then -(DigitsValue(body) as int) else DigitsValue(body))
  {
  }

  /** float() after its whitespace and sign are split off, for a literal without exponent. */
  lemma ParseFloatOf(s: string, negative: bool, body: string, v: real)
    requires Find(s, Separators) == |s| && SplitSign(Strip(s)) == (negative, body)
    requires Find(body, {'e', 'E'}) == |body| && ParseMantissa(body) == Some(v)
    ensures ParseFloat(s) == Some(if negative then -v else v)
  {
    assert body[..|body|] == body;
  }

  /** float() refuses a literal whose mantissa or exponent part it cannot read. */
  lemma ParseFloatNoneOf(s: string, negative: bool, body: string, e: nat)
    requires SplitSign(Strip(s)) == (negative, body) && Find(body, {'e', 'E'}) == e
    requires ParseMantissa(body[..e]).None? || (e < |body| && ParseExponent(body[e + 1..]).None?)
    ensures ParseFloat(s) == None
  {
  }

  /** A mantissa without a point must be all digits. */
  lemma MantissaNotDigits(m: string)
    requires Find(m, {'.'}) == |m| && !AllDigits(m)
    ensures ParseMantissa(m) == None
  {
  }

  /** An exponent marker with nothing after it is refused. */
  lemma ExponentEmpty()
    ensures ParseExponent([]) == None
  {
  }

  lemma SplitUnsigned(s: string)
    requires s != [] && IsDigit(s[0])
    ensures SplitSign(s) == (false, s)
  {
  }

  /** int() reads a plain string of digits as its decimal value. */
  lemma ParseDigits(s: string)
    requires s != [] && AllDigits(s)
    ensures ParseInt(s) == Some(DigitsValue(s))
  {
    StripDigits(s);
    SplitUnsigned(s);
    FindAbsent(s, Separators);
    ParseIntOf(s, false, s);
  }

  lemma SplitMinus(s: string, digits: string)
    requires s == "-" + digits
    ensures SplitSign(s) == (true, digits)
  {
    assert s[1..] == digits;
  }

  /** int() reads '-' followed by digits as the negated decimal value. */
  lemma ParseNegativeDigits(digits: string)
    requires digits != [] && AllDigits(digits)
    ensures ParseInt("-" + digits) == Some(-(DigitsValue(digits) as int))
  {
    StripNegative(digits);
    SplitMinus("-" + digits, digits);
    var s := "-" + digits;
    assert forall k :: 1 <= k < |s| ==> s[k] == digits[k - 1];
    FindAbsent(s, Separators);
    ParseIntOf(s, true, digits);
  }

  lemma ParseIntString(n: int, s: string)
    requires s == IntString(n)
    ensures ParseInt(s) == Some(n)
  {
    if n >= 0 {
      NatStringValue(n);
      ParseDigits(NatString(n));
    } else {
      NatStringValue(-n);
      ParseNegativeDigits(NatString(-n));
    }
  }

  /** int() reads back every integer that str() writes. */
  lemma ParseIntRoundTrip(n: int)
    ensures ParseInt(IntString(n)) == Some(n)
  {
    ParseIntString(n, IntString(n));
  }

  /** Every token that int() accepts, float() accepts too, with the same value. */
  lemma ParseFloatExtendsParseInt(s: string)
    requires ParseInt(s).Some?
    ensures ParseFloat(s) == Some(ParseInt(s).value as real)
  {
    var (negative, body) := SplitSign(Strip(s));
    ParseIntOf(s, negative, body);
    FindAbsent(body, {'e', 'E'});
    FindAbsent(body, {'.'});
    ParseFloatOf(s, negative, body, DigitsValue(body) as real);
  }

  /** int() and float() refuse every token holding an information separator, wherever it stands. */
  lemma SeparatorRefused(s: string, k: nat)
    requires k < |s| && s[k] in Separators
    ensures ParseInt(s) == None && ParseFloat(s) == None
  {
    FindSpec(s, Separators);
  }

  lemma {:induction false} FindAbsent(s: string, cs: set<char>)
    requires forall k :: 0 <= k < |s| ==> s[k] !in cs
    ensures Find(s, cs) == |s|
  {
    if s != [] {
      FindAbsent(s[1..], cs);
    }
  }

  lemma {:induction false} FindAfterPrefix(p: string, q: string, cs: set<char>)
    requires Find(p, cs) == |p|
    ensures Find(p + q, cs) == |p| + Find(q, cs)
  {
    if p == [] {
      assert p + q == q;
    } else {
      assert (p + q)[0] == p[0] && p[0] !in cs;
      assert (p + q)[1..] == p[1..] + q;
      assert Find(p[1..], cs) == |p| - 1;
      FindAfterPrefix(p[1..], q, cs);
    }
  }

  lemma StripDecimal(w: string, fraction: string)
    requires AllDigits(w) && AllDigits(fraction)
    ensures Strip(w + "." + fraction) == w + "." + fraction
  {
    var s := w + "." + fraction;
    assert forall k :: 0 <= k < |w| ==> s[k] == w[k];
    assert forall k :: |w| + 1 <= k < |s| ==> s[k] == fraction[k - |w| - 1];
    assert NoSpace(s);
    StripNothingToStrip(s);
  }

  lemma MantissaDecimal(w: string, fraction: string)
    requires AllDigits(w) && AllDigits(fraction) && w != []
    ensures ParseMantissa(w + "." + fraction)
            == Some(DecimalValue(w, fraction))
  {
    var s := w + "." + fraction;
    FindAbsent(w, {'.'});
    assert s == w + ("." + fraction);
    assert ("." + fraction)[0] == '.';
    FindAfterPrefix(w, "." + fraction, {'.'});
    assert s[..|w|] == w;
    assert s[|w| + 1..] == fraction;
  }

  lemma DecimalHasNoExponent(w: string, fraction: string)
    requires AllDigits(w) && AllDigits(fraction)
    ensures Find(w + "." + fraction, {'e', 'E'}) == |w + "." + fraction|
  {
    var s := w + "." + fraction;
    assert forall k :: 0 <= k < |w| ==> s[k] == w[k];
    assert forall k :: |w| + 1 <= k < |s| ==> s[k] == fraction[k - |w| - 1];
    FindAbsent(s, {'e', 'E'});
  }

  lemma ParseDecimalDigits(w: string, fraction: string)
    requires w != [] && AllDigits(w) && AllDigits(fraction)
    ensures ParseFloat(w + "." + fraction)
            == Some(DecimalValue(w, fraction))
  {
    var s := w + "." + fraction;
    StripDecimal(w, fraction);
    SplitUnsigned(s);
    DecimalHasNoExponent(w, fraction);
    MantissaDecimal(w, fraction);
    assert forall k :: 0 <= k < |w| ==> s[k] == w[k];
    assert forall k :: |w| + 1 <= k < |s| ==> s[k] == fraction[k - |w| - 1];
    FindAbsent(s, Separators);
    ParseFloatOf(s, false, s, DecimalValue(w, fraction));
  }

  /** The text "<whole>.<fraction>", as the kernel writes a fractional size. */
  function DecimalString(whole: nat, fraction: string): string {
    NatString(whole) + "." + fraction
  }

  lemma ParseDecimalString(whole: nat, fraction: string)
    requires AllDigits(fraction)
    ensures ParseFloat(DecimalString(whole, fraction)) == Some(DecimalValue(NatString(whole), fraction))
  {
    ParseDecimalDigits(NatString(whole), fraction);
  }

  lemma DecimalOfNatString(whole: nat, fraction: string, w: string, x: Option<real>)
    requires AllDigits(fraction) && w == NatString(whole) && x == Some(DecimalValue(w, fraction))
    ensures x == Some(whole as real + FractionValue(fraction))
  {
    NatStringValue(whole);
  }

  /** float() reads "<whole>.<fraction>" as whole plus the value of the fraction digits. */
  lemma ParseFloatDecimal(whole: nat, fraction: string)
    requires AllDigits(fraction)
    ensures ParseFloat(DecimalString(whole, fraction)) == Some(whole as real + FractionValue(fraction))
  {
    ParseDecimalString(whole, fraction);
    DecimalOfNatString(whole, fraction, NatString(whole), ParseFloat(DecimalString(whole, fraction)));
  }

  /** float("2.5") is exactly 2.5. */
  lemma FloatExample(number: string)
    requires number == "2.5"
    ensures ParseFloat(number) == Some(2.5)
  {
    var whole: nat, fraction := 2, "5";
    assert NatString(whole) == "2";
    assert DecimalString(whole, fraction) == number;
    assert FractionValue(fraction) == 0.5 by {
      assert fraction[1..] == [];
    }
    ParseFloatDecimal(whole, fraction);
  }
}
