/** Sizes as bcache prints them, read back by interpret_bytes. */
module ByteSizeExamples {
  import opened Wrappers
  import opened Builtins
  import opened ByteSize

  /** "512k" is 512 KiB. */
  lemma KibibyteExample(x: string)
    requires x == "512k"
    ensures InterpretBytes(x) == Ok(524288)
  {
    var n: nat, number := 512, "512";
    assert NatString(n) == number by {
      assert NatString(5) == "5";
      assert NatString(51) == "51";
    }
    assert number + ['k'] == x;
    ScaledNat(n, number, 1024);
    assert x[|x| - 1] == 'k' && x[..|x| - 1] == number;
  }

  /** "2.5G" is two and a half GiB: the fraction survives the scaling. */
  lemma FractionalExample(x: string)
    requires x == "2.5G"
    ensures InterpretBytes(x) == Ok(2684354560)
  {
    var number := x[..|x| - 1];
    assert number == "2.5";
    FloatExample(number);
    assert number + ['G'] == x;
    InterpretWithFactor(number, 'G', 1073741824, 2.5);
    TruncWhole(2684354560, 2.5 * 1073741824 as real);
  }

  /** "0" is no bytes; "" fails at x[-1]. */
  lemma EdgeExamples(x: string)
    requires x == "0"
    ensures InterpretBytes(x) == Ok(0)
    ensures InterpretBytes("") == Err(IndexError)
  {
    assert NatString(0) == x;
    InterpretNat(0);
  }
}
