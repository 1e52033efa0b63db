/**
 * The three ways the metric readers combine what they read from the bdev
 * entries of a cache set listing. `read` stands for reading and parsing one
 * entry's file; an Err is the exception it raises, which leaves the loop at
 * once.
 *   - get_dirty_data adds up every entry's value (SumAmong);
 *   - get_cache_result and get_bypassed overwrite their value with every
 *     entry's, so the last one wins (LastAmong);
 *   - get_cache_ratio returns from inside the loop at the first entry (FirstBdev).
 * Entries whose names do not start with "bdev" are skipped by all three.
 */
module Selection {
  import opened Wrappers
  import opened Builtins
  import opened Discovery

  /** Every one of the entries reads without an error. */
  predicate AllRead<T>(read: string -> Result<T, Error>, entries: seq<string>) {
    forall k :: 0 <= k < |entries| ==> read(entries[k]).Ok?
  }

  /** The value read from each entry. */
  function Values<T>(read: string -> Result<T, Error>, entries: seq<string>): (r: seq<T>)
    requires AllRead(read, entries)
    ensures |r| == |entries|
  {
    seq(|entries|, k requires 0 <= k < |entries| => read(entries[k]).value)
  }

  /** The sum of a list of integers, first element first. */
  function Sum(xs: seq<int>): int {
    if xs == [] then 0 else xs[0] + Sum(xs[1..])
  }

  lemma {:induction false} SumSnoc(xs: seq<int>, x: int)
    ensures Sum(xs + [x]) == Sum(xs) + x
  {
    if xs != [] {
      assert (xs + [x])[1..] == xs[1..] + [x];
      SumSnoc(xs[1..], x);
    }
  }

  lemma ValuesSnoc<T>(read: string -> Result<T, Error>, entries: seq<string>, entry: string)
    requires AllRead(read, entries + [entry])
    ensures AllRead(read, entries) && read(entry).Ok?
    ensures Values(read, entries + [entry]) == Values(read, entries) + [read(entry).value]
  {
    var all := entries + [entry];
    forall k | 0 <= k < |entries|
      ensures read(entries[k]).Ok?
    {
      assert all[k] == entries[k];
    }
    assert all[|entries|] == entry;
  }

  /** When some entry fails to read, so does a longer list. */
  lemma FailureExtends<T>(read: string -> Result<T, Error>, entries: seq<string>, more: seq<string>)
    requires !AllRead(read, entries)
    ensures !AllRead(read, entries + more)
  {
    var k :| 0 <= k < |entries| && !read(entries[k]).Ok?;
    assert (entries + more)[k] == entries[k];
  }

  /** The running total of a summing loop after the given part of the listing. */
  function SumAmong(read: string -> Result<int, Error>, names: seq<string>): Result<int, Error> {
    if names == [] then Ok(0)
    else
      var acc := SumAmong(read, names[..|names| - 1]);
      var entry := names[|names| - 1];
      if acc.Err? || !IsBdev(entry) then acc
      else
        match read(entry)
        case Err(e) => Err(e)
        case Ok(v) => Ok(acc.value + v)
  }

  /** One more entry: added in when it is a bdev entry that reads, the error when it does not. */
  lemma SumAmongSnoc(read: string -> Result<int, Error>, names: seq<string>, entry: string, total: int)
    requires SumAmong(read, names) == Ok(total)
    ensures !IsBdev(entry) ==> SumAmong(read, names + [entry]) == Ok(total)
    ensures IsBdev(entry) && read(entry).Ok? ==> SumAmong(read, names + [entry]) == Ok(total + read(entry).value)
    ensures IsBdev(entry) && read(entry).Err? ==> SumAmong(read, names + [entry]) == read(entry)
  {
    assert (names + [entry])[..|names|] == names;
  }

  /**
   * A summing loop finishes exactly when every bdev entry reads, and then
   * returns the sum of their values: other entries never contribute, and no
   * bdev entries give 0.
   */
  lemma {:induction false} SumAmongIsSum(read: string -> Result<int, Error>, names: seq<string>)
    ensures SumAmong(read, names).Ok? <==> AllRead(read, Bdevs(names))
    ensures SumAmong(read, names).Ok? ==> SumAmong(read, names).value == Sum(Values(read, Bdevs(names)))
  {
    if names != [] {
      var init, entry := names[..|names| - 1], names[|names| - 1];
      SumAmongIsSum(read, init);
      if IsBdev(entry) {
        assert Bdevs(names) == Bdevs(init) + [entry];
        if AllRead(read, Bdevs(names)) {
          ValuesSnoc(read, Bdevs(init), entry);
          SumSnoc(Values(read, Bdevs(init)), read(entry).value);
        } else if SumAmong(read, init).Err? {
          FailureExtends(read, Bdevs(init), [entry]);
        }
      } else {
        assert Bdevs(names) == Bdevs(init);
      }
    }
  }

  /** A summing loop that raises, raises the error of the first bdev entry that does not read. */
  lemma {:induction false} SumAmongFirstError(read: string -> Result<int, Error>, names: seq<string>)
    requires SumAmong(read, names).Err?
    ensures exists k :: 0 <= k < |Bdevs(names)|
              && read(Bdevs(names)[k]) == SumAmong(read, names)
              && AllRead(read, Bdevs(names)[..k])
  {
    var init, entry := names[..|names| - 1], names[|names| - 1];
    var bs := Bdevs(names);
    assert bs == Bdevs(init) + (if IsBdev(entry) then [entry] else []);
    if SumAmong(read, init).Err? {
      SumAmongFirstError(read, init);
      var k :| 0 <= k < |Bdevs(init)|
               && read(Bdevs(init)[k]) == SumAmong(read, init)
               && AllRead(read, Bdevs(init)[..k]);
      assert bs[k] == Bdevs(init)[k] && bs[..k] == Bdevs(init)[..k];
    } else {
      SumAmongIsSum(read, init);
      var k := |Bdevs(init)|;
      assert bs[k] == entry && bs[..k] == Bdevs(init);
    }
  }

  /** Once a read has raised, the rest of the listing is never looked at. */
  lemma {:induction false} SumAmongErrorSticks(read: string -> Result<int, Error>, names: seq<string>, k: nat)
    requires k <= |names| && SumAmong(read, names[..k]).Err?
    ensures SumAmong(read, names) == SumAmong(read, names[..k])
    decreases |names| - k
  {
    if k < |names| {
      assert names[..k + 1][..k] == names[..k];
      SumAmongErrorSticks(read, names, k + 1);
    } else {
      assert names[..k] == names;
    }
  }

  /** The summing loop of get_dirty_data, for any way of reading an entry. */
  method SumBdevs(read: string -> Result<int, Error>, listing: seq<string>) returns (r: Result<int, Error>)
    ensures r == SumAmong(read, listing)
  {
    var total := 0;
    for i := 0 to |listing|
      invariant SumAmong(read, listing[..i]) == Ok(total)
    {
      var entry := listing[i];
      assert listing[..i + 1][..i] == listing[..i];
      if IsBdev(entry) {
        var val := read(entry);
        if val.Err? {
          r := Err(val.error);
          SumAmongErrorSticks(read, listing, i + 1);
          return;
        }
        total := total + val.value;
      }
    }
    assert listing[..|listing|] == listing;
    r := Ok(total);
  }

  /** The value of an overwriting loop, started at initial, after the given part of the listing. */
  function LastAmong<T>(read: string -> Result<T, Error>, initial: T, names: seq<string>): Result<T, Error> {
    if names == [] then Ok(initial)
    else
      var acc := LastAmong(read, initial, names[..|names| - 1]);
      var entry := names[|names| - 1];
      if acc.Err? || !IsBdev(entry) then acc else read(entry)
  }

  /**
   * An overwriting loop finishes exactly when every bdev entry reads, and
   * then holds the value of the last bdev entry, or its initial value when
   * there is none.
   */
  lemma {:induction false} LastAmongIsLast<T>(read: string -> Result<T, Error>, initial: T, names: seq<string>)
    ensures LastAmong(read, initial, names).Ok? <==> AllRead(read, Bdevs(names))
    ensures LastAmong(read, initial, names).Ok? ==>
              LastAmong(read, initial, names).value
              == if Bdevs(names) == [] then initial else read(Bdevs(names)[|Bdevs(names)| - 1]).value
  {
    if names != [] {
      var init, entry := names[..|names| - 1], names[|names| - 1];
      LastAmongIsLast(read, initial, init);
      if IsBdev(entry) {
        assert Bdevs(names) == Bdevs(init) + [entry];
        if AllRead(read, Bdevs(names)) {
          ValuesSnoc(read, Bdevs(init), entry);
        } else if LastAmong(read, initial, init).Err? {
          FailureExtends(read, Bdevs(init), [entry]);
        } else {
          assert !read(Bdevs(names)[|Bdevs(init)|]).Ok? by {
            forall k | 0 <= k < |Bdevs(init)| ensures read(Bdevs(names)[k]).Ok? {
              assert Bdevs(names)[k] == Bdevs(init)[k];
            }
          }
        }
      } else {
        assert Bdevs(names) == Bdevs(init);
      }
    }
  }

  /** An overwriting loop that raises, raises the error of the first bdev entry that does not read. */
  lemma {:induction false} LastAmongFirstError<T>(read: string -> Result<T, Error>, initial: T, names: seq<string>)
    requires LastAmong(read, initial, names).Err?
    ensures exists k :: 0 <= k < |Bdevs(names)|
              && read(Bdevs(names)[k]) == LastAmong(read, initial, names)
              && AllRead(read, Bdevs(names)[..k])
  {
    var init, entry := names[..|names| - 1], names[|names| - 1];
    var bs := Bdevs(names);
    assert bs == Bdevs(init) + (if IsBdev(entry) then [entry] else []);
    if LastAmong(read, initial, init).Err? {
      LastAmongFirstError(read, initial, init);
      var k :| 0 <= k < |Bdevs(init)|
               && read(Bdevs(init)[k]) == LastAmong(read, initial, init)
               && AllRead(read, Bdevs(init)[..k]);
      assert bs[k] == Bdevs(init)[k] && bs[..k] == Bdevs(init)[..k];
    } else {
      LastAmongIsLast(read, initial, init);
      var k := |Bdevs(init)|;
      assert bs[k] == entry && bs[..k] == Bdevs(init);
    }
  }

  lemma {:induction false} LastAmongErrorSticks<T>(read: string -> Result<T, Error>, initial: T, names: seq<string>, k: nat)
    requires k <= |names| && LastAmong(read, initial, names[..k]).Err?
    ensures LastAmong(read, initial, names) == LastAmong(read, initial, names[..k])
    decreases |names| - k
  {
    if k < |names| {
      assert names[..k + 1][..k] == names[..k];
      LastAmongErrorSticks(read, initial, names, k + 1);
    } else {
      assert names[..k] == names;
    }
  }

  /** The overwriting loop of get_cache_result and get_bypassed, for any way of reading an entry. */
  method LastBdev<T>(read: string -> Result<T, Error>, initial: T, listing: seq<string>) returns (r: Result<T, Error>)
    ensures r == LastAmong(read, initial, listing)
  {
    var value := initial;
    for i := 0 to |listing|
      invariant LastAmong(read, initial, listing[..i]) == Ok(value)
    {
      var entry := listing[i];
      assert listing[..i + 1][..i] == listing[..i];
      if IsBdev(entry) {
        var val := read(entry);
        if val.Err? {
          r := Err(val.error);
          LastAmongErrorSticks(read, initial, listing, i + 1);
          return;
        }
        value := val.value;
      }
    }
    assert listing[..|listing|] == listing;
    r := Ok(value);
  }

  /** The entry a loop that returns at its first bdev entry stops at. */
  function FirstBdev(names: seq<string>): Option<string> {
    if names == [] then None
    else if IsBdev(names[0]) then Some(names[0])
    else FirstBdev(names[1..])
  }

  /** It is the first of the bdev entries, and there is none exactly when the listing has no bdev entry. */
  lemma {:induction false} FirstBdevIsFirst(names: seq<string>)
    ensures FirstBdev(names) == if Bdevs(names) == [] then None else Some(Bdevs(names)[0])
  {
    if names != [] {
      var rest := names[1..];
      assert names == [names[0]] + rest;
      BdevsAppend([names[0]], rest);
      assert Bdevs([names[0]]) == Bdevs([]) + (if IsBdev(names[0]) then [names[0]] else []);
      FirstBdevIsFirst(rest);
    }
  }

  /** Entries listed after the first bdev entry never matter. */
  lemma FirstBdevIgnoresLater(names: seq<string>, more: seq<string>)
    requires FirstBdev(names).Some?
    ensures FirstBdev(names + more) == FirstBdev(names)
  {
    FirstBdevIsFirst(names);
    FirstBdevIsFirst(names + more);
    BdevsAppend(names, more);
  }
}
