/**
 * interpret_bytes: the sizes bcache prints ("512k", "2.5G") read back as a
 * number of bytes. One trailing unit character, if it is one of k, M, G, T,
 * P, E, Z, Y, is removed and multiplies the rest by 2^10 ... 2^80; the rest
 * goes through float() and the product through int().
 */
module ByteSize {
  import opened Wrappers
  import opened Builtins

  /** The unit suffixes of the factors table, smallest first. */
  const Units: string := "kMGTPEZY"

  /** The factors table: 1 << 10 for 'k' up to 1 << 80 for 'Y', nothing for any other character. */
  function Factor(c: char): Option<nat> {
    match c
    case 'k' => Some(1024)
    case 'M' => Some(1048576)
    case 'G' => Some(1073741824)
    case 'T' => Some(1099511627776)
    case 'P' => Some(1125899906842624)
    case 'E' => Some(1152921504606846976)
    case 'Z' => Some(1180591620717411303424)
    case 'Y' => Some(1208925819614629174706176)
    case _ => None
  }

  /** The i-th unit stands for 1024^(i+1) bytes, and no other character is a unit. */
  lemma FactorIsPowerOf1024(i: nat)
    requires i < |Units|
    ensures Factor(Units[i]) == Some(Pow(1024, i + 1))
  {
    assert Pow(1024, 1) == 1024;
    assert Pow(1024, 2) == 1048576;
    assert Pow(1024, 3) == 1073741824;
    assert Pow(1024, 4) == 1099511627776;
    assert Pow(1024, 5) == 1125899906842624;
    assert Pow(1024, 6) == 1152921504606846976;
    assert Pow(1024, 7) == 1180591620717411303424;
    assert Pow(1024, 8) == 1208925819614629174706176;
  }

  lemma FactorOnlyForUnits(c: char)
    ensures Factor(c).Some? <==> c in Units
  {
  }

  /**
   * v * n. It is written as n-fold addition so that the verifier meets the
   * product only through TimesIsProduct. It is a definition for proofs, not
   * for running: a 'Y' size would take 2^80 recursive steps.
   */
  function Times(v: real, n: nat): real {
    if n == 0 then 0.0 else Times(v, n - 1) + v
  }

  lemma {:induction false} TimesIsProduct(v: real, n: nat)
    ensures Times(v, n) == v * n as real
  {
    if n > 0 {
      TimesIsProduct(v, n - 1);
    }
  }

  /** int(float(number) * factor): ValueError when float() refuses the number. */
  function Scaled(number: string, factor: nat): Result<int, Error> {
    match ParseFloat(number)
    case None => Err(ValueError(number))
    case Some(v) => Ok(Trunc(Times(v, factor)))
  }

  /** What Scaled computes: the float value times the factor, truncated toward zero. */
  lemma ScaledValue(number: string, factor: nat, v: real)
    requires ParseFloat(number) == Some(v)
    ensures Scaled(number, factor) == Ok(Trunc(v * factor as real))
  {
    TimesIsProduct(v, factor);
  }

  /**
   * interpret_bytes(x). The empty token fails at x[-1] (IndexError); a token
   * float() refuses fails with ValueError; otherwise the value times the
   * factor, truncated toward zero.
   */
  function InterpretBytes(x: string): (r: Result<int, Error>)
    ensures r == Err(IndexError) <==> x == []
    ensures x != [] && r.Err? ==> r.error.ValueError?
  {
    if x == [] then Err(IndexError)
    else
      var unit := Factor(x[|x| - 1]);
      if unit.Some? then Scaled(x[..|x| - 1], unit.value) else Scaled(x, 1)
  }

  /** With a unit suffix, exactly that one character is removed and scales the rest. */
  lemma InterpretWithUnit(number: string, i: nat)
    requires i < |Units|
    ensures InterpretBytes(number + [Units[i]]) == Scaled(number, Pow(1024, i + 1))
  {
    var x := number + [Units[i]];
    assert x[|x| - 1] == Units[i];
    assert x[..|x| - 1] == number;
    FactorIsPowerOf1024(i);
  }

  /** Without a unit suffix, the whole token is the number and the factor is 1. */
  lemma InterpretWithoutUnit(x: string)
    requires x != [] && x[|x| - 1] !in Units
    ensures InterpretBytes(x) == Scaled(x, 1)
  {
    FactorOnlyForUnits(x[|x| - 1]);
  }

  lemma ParseNatAsFloat(n: nat)
    ensures ParseFloat(NatString(n)) == Some(n as real)
  {
    ParseIntRoundTrip(n);
    ParseFloatExtendsParseInt(NatString(n));
  }

  /** n-fold addition of a whole number is its integer product. */
  lemma {:induction false} TimesNat(n: nat, f: nat)
    ensures Times(n as real, f) == (n * f) as real
  {
    if f > 0 {
      TimesNat(n, f - 1);
      assert n * (f - 1) + n == n * f;
    }
  }

  /** Truncating a whole number changes nothing. */
  lemma TruncWhole(k: int, x: real)
    requires x == k as real
    ensures Trunc(x) == k
  {
  }

  /** A whole number scales exactly: n * factor. */
  lemma ScaledNat(n: nat, s: string, factor: nat)
    requires s == NatString(n)
    ensures Scaled(s, factor) == Ok(n * factor)
  {
    ParseNatAsFloat(n);
    TimesNat(n, factor);
    TruncWhole(n * factor, Times(n as real, factor));
  }

  /** A whole number of units, "<n><unit>", is n * 1024^(i+1) bytes. */
  lemma InterpretNatWithUnit(n: nat, i: nat)
    requires i < |Units|
    ensures InterpretBytes(NatString(n) + [Units[i]]) == Ok(n * Pow(1024, i + 1))
  {
    InterpretWithUnit(NatString(n), i);
    ScaledNat(n, NatString(n), Pow(1024, i + 1));
  }

  /** A plain number of bytes reads back as itself. */
  lemma InterpretNat(n: nat)
    ensures InterpretBytes(NatString(n)) == Ok(n)
  {
    var s := NatString(n);
    assert IsDigit(s[|s| - 1]);
    InterpretWithoutUnit(s);
    ScaledNat(n, s, 1);
  }

  /** Any number float() reads, followed by a unit: its value times that unit's factor, truncated. */
  lemma InterpretWithFactor(number: string, u: char, factor: nat, v: real)
    requires Factor(u) == Some(factor) && ParseFloat(number) == Some(v)
    ensures InterpretBytes(number + [u]) == Ok(Trunc(v * factor as real))
  {
    var x := number + [u];
    assert x[..|x| - 1] == number;
    ScaledValue(number, factor, v);
  }

  lemma NoNumberEndsInUnit(digits: string, u: char, s: string)
    requires digits != [] && AllDigits(digits) && u in Units && s == digits + [u]
    ensures ParseFloat(s) == None
  {
    assert forall k :: 0 <= k < |digits| ==> s[k] == digits[k];
    assert NoSpace(s);
    StripNothingToStrip(s);
    SplitUnsigned(s);
    FindAbsent(digits, {'e', 'E'});
    FindAfterPrefix(digits, [u], {'e', 'E'});
    if u == 'E' {
      assert Find([u], {'e', 'E'}) == 0;
      assert s[|digits| + 1..] == [];
      ExponentEmpty();
      ParseFloatNoneOf(s, false, s, |digits|);
    } else {
      assert Find([u], {'e', 'E'}) == 1;
      assert s[..|s|] == s;
      FindAbsent(s, {'.'});
      assert !IsDigit(s[|s| - 1]);
      MantissaNotDigits(s);
      ParseFloatNoneOf(s, false, s, |s|);
    }
  }

  /** Only one unit is understood: "<n><unit><unit>" is refused by float(). */
  lemma OnlyOneUnit(n: nat, i: nat, j: nat)
    requires i < |Units| && j < |Units|
    ensures InterpretBytes(NatString(n) + [Units[i]] + [Units[j]])
            == Err(ValueError(NatString(n) + [Units[i]]))
  {
    NoNumberEndsInUnit(NatString(n), Units[i], NatString(n) + [Units[i]]);
    InterpretWithUnit(NatString(n) + [Units[i]], j);
  }
}
