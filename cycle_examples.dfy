/** A cache set as sysfs shows it, read by get_dirty_data. */
module CycleExamples {
  import opened Wrappers
  import opened Builtins
  import opened SysTree
  import opened ByteSize
  import opened Discovery
  import opened Selection
  import opened Dirty

  /** A dirty_data file holding the line "<n>k\n" is n KiB of dirty data. */
  lemma DirtyKibibytes(t: Tree, uuid: string, entry: string, n: nat, line: string)
    requires line == NatString(n) + "k\n"
    requires DirtyPath(uuid, entry) in t.files && t.files[DirtyPath(uuid, entry)] == [line]
    ensures DirtyOf(t, uuid, entry) == Ok(n * 1024)
  {
    var text := NatString(n) + [Units[0]];
    assert [Units[0]] == "k";
    assert line == text + "\n";
    assert NoSpace(text) by {
      forall k | 0 <= k < |text|
        ensures !IsSpace(text[k])
      {
        if k < |NatString(n)| {
          assert text[k] == NatString(n)[k];
        }
      }
    }
    StripLineEnd(text);
    InterpretNatWithUnit(n, 0);
  }

  /** A listing of a bdev entry, another entry and a bdev entry sums the two bdev entries. */
  lemma SumOfTwoBdevs(read: string -> Result<int, Error>, a: string, b: string, c: string, x: int, y: int)
    requires IsBdev(a) && !IsBdev(b) && IsBdev(c) && read(a) == Ok(x) && read(c) == Ok(y)
    ensures SumAmong(read, [a, b, c]) == Ok(x + y)
  {
    assert SumAmong(read, [a]) == Ok(x) by {
      SumAmongSnoc(read, [], a, 0);
      assert [] + [a] == [a];
    }
    assert SumAmong(read, [a, b]) == Ok(x) by {
      SumAmongSnoc(read, [a], b, x);
      assert [a] + [b] == [a, b];
    }
    SumAmongSnoc(read, [a, b], c, x);
    assert [a, b] + [c] == [a, b, c];
  }

  /** "bdev0" and "bdev1" are backing-device entries; "cache0" is not. */
  lemma ExampleNames()
    ensures IsBdev("bdev0") && IsBdev("bdev1") && !IsBdev("cache0")
  {
    assert "bdev0"[..4] == "bdev" && "bdev1"[..4] == "bdev";
    assert "cache0"[..4][0] != "bdev"[0];
  }

  /**
   * Two backing devices with 1 KiB and 2 KiB of dirty data, and the cache
   * device's entry listed between them: 3 KiB in all.
   */
  lemma DirtyDataExample(t: Tree, uuid: string, one: string, two: string)
    requires IsDir(t, [uuid]) && t.dirs[[uuid]] == ["bdev0", "cache0", "bdev1"]
    requires one == "1k\n" && two == "2k\n"
    requires DirtyPath(uuid, "bdev0") in t.files && t.files[DirtyPath(uuid, "bdev0")] == [one]
    requires DirtyPath(uuid, "bdev1") in t.files && t.files[DirtyPath(uuid, "bdev1")] == [two]
    ensures DirtyData(t, uuid) == Ok(3072)
  {
    assert NatString(1) + "k\n" == one && NatString(2) + "k\n" == two;
    DirtyKibibytes(t, uuid, "bdev0", 1, one);
    DirtyKibibytes(t, uuid, "bdev1", 2, two);
    var read := DirtyReader(t, uuid);
    assert read("bdev0") == Ok(1024) && read("bdev1") == Ok(2048);
    ExampleNames();
    SumOfTwoBdevs(read, "bdev0", "cache0", "bdev1", 1024, 2048);
  }
}
