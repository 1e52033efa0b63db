/**
 * get_dirty_data: the dirty-data sizes of a cache set's backing devices,
 * each read from <uuid>/<bdev entry>/dirty_data by interpret_bytes and
 * summed. A size interpret_bytes cannot read raises, and the sum is never
 * completed.
 */
module Dirty {
  import opened Wrappers
  import opened Builtins
  import opened SysTree
  import opened ByteSize
  import opened Discovery
  import opened Selection

  function DirtyPath(uuid: string, entry: string): Path {
    [uuid, entry, "dirty_data"]
  }

  /** interpret_bytes of an entry's dirty_data line. */
  function DirtyOf(t: Tree, uuid: string, entry: string): Result<int, Error> {
    InterpretBytes(FileToLine(t, DirtyPath(uuid, entry)))
  }

  function DirtyReader(t: Tree, uuid: string): string -> Result<int, Error> {
    entry => DirtyOf(t, uuid, entry)
  }

  function DirtyData(t: Tree, uuid: string): Result<int, Error>
    requires IsDir(t, [uuid])
  {
    SumAmong(DirtyReader(t, uuid), t.dirs[[uuid]])
  }

  /** get_dirty_data: the summing loop, reading each bdev entry's dirty_data. */
  method GetDirtyData(t: Tree, uuid: string) returns (r: Result<int, Error>)
    requires IsDir(t, [uuid])
    ensures r == DirtyData(t, uuid)
  {
    r := SumBdevs(DirtyReader(t, uuid), t.dirs[[uuid]]);
  }

  /**
   * The sum is completed exactly when interpret_bytes reads every bdev
   * entry's dirty_data, and then it is the sum of those sizes in listing
   * order; other entries never contribute.
   */
  lemma DirtyDataIsSum(t: Tree, uuid: string)
    requires IsDir(t, [uuid])
    ensures var bs := Bdevs(t.dirs[[uuid]]);
            && (DirtyData(t, uuid).Ok? <==> forall k :: 0 <= k < |bs| ==> DirtyOf(t, uuid, bs[k]).Ok?)
            && (DirtyData(t, uuid).Ok? ==> DirtyData(t, uuid).value == Sum(Values(DirtyReader(t, uuid), bs)))
  {
    var read := DirtyReader(t, uuid);
    SumAmongIsSum(read, t.dirs[[uuid]]);
    var bs := Bdevs(t.dirs[[uuid]]);
    assert forall k :: 0 <= k < |bs| ==> read(bs[k]) == DirtyOf(t, uuid, bs[k]);
  }

  /** An incomplete sum fails with the error of the first bdev entry interpret_bytes refuses. */
  lemma DirtyDataFirstError(t: Tree, uuid: string)
    requires IsDir(t, [uuid]) && DirtyData(t, uuid).Err?
    ensures var bs := Bdevs(t.dirs[[uuid]]);
            exists k :: 0 <= k < |bs|
              && DirtyOf(t, uuid, bs[k]) == DirtyData(t, uuid)
              && forall j :: 0 <= j < k ==> DirtyOf(t, uuid, bs[j]).Ok?
  {
    var read := DirtyReader(t, uuid);
    var bs := Bdevs(t.dirs[[uuid]]);
    SumAmongFirstError(read, t.dirs[[uuid]]);
    var k :| 0 <= k < |bs| && read(bs[k]) == DirtyData(t, uuid) && AllRead(read, bs[..k]);
    forall j | 0 <= j < k
      ensures DirtyOf(t, uuid, bs[j]).Ok?
    {
      assert bs[..k][j] == bs[j];
      assert read(bs[j]).Ok?;
    }
    assert read(bs[k]) == DirtyOf(t, uuid, bs[k]);
  }

  /** A cache set without bdev entries has no dirty data, whatever else it lists. */
  lemma NoBdevsNoDirtyData(t: Tree, uuid: string)
    requires IsDir(t, [uuid]) && Bdevs(t.dirs[[uuid]]) == []
    ensures DirtyData(t, uuid) == Ok(0)
  {
    SumAmongIsSum(DirtyReader(t, uuid), t.dirs[[uuid]]);
  }
}
