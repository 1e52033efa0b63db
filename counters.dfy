/**
 * get_cache_result and get_bypassed: five-minute counters of a cache set,
 * read from <uuid>/<bdev entry>/stats_five_minute/. Both loops overwrite
 * their value at every bdev entry, so what they return is the last entry's
 * reading, or 0 when there is no bdev entry.
 */
module Counters {
  import opened Wrappers
  import opened Builtins
  import opened SysTree
  import opened ByteSize
  import opened Discovery
  import opened Selection

  /** The request counters read_callback asks for, in its order. */
  const RequestStats: seq<string> := ["bypass_hits", "bypass_misses", "hits", "miss_collisions", "misses", "readaheads"]

  /** <uuid>/<entry>/stats_five_minute/<file>. */
  function FiveMinutePath(uuid: string, entry: string, file: string): Path {
    [uuid, entry, "stats_five_minute", file]
  }

  /** int(file_to_line(p)): ValueError with the line when int() refuses it. */
  function ReadInt(t: Tree, p: Path): Result<int, Error> {
    match ParseInt(FileToLine(t, p))
    case None => Err(ValueError(FileToLine(t, p)))
    case Some(v) => Ok(v)
  }

  /** One bdev entry's cache_<stat> counter. */
  function RequestOf(t: Tree, uuid: string, stat: string, entry: string): Result<int, Error> {
    ReadInt(t, FiveMinutePath(uuid, entry, "cache_" + stat))
  }

  function RequestReader(t: Tree, uuid: string, stat: string): string -> Result<int, Error> {
    entry => RequestOf(t, uuid, stat, entry)
  }

  /** get_cache_result(uuid, stat). */
  function CacheResult(t: Tree, uuid: string, stat: string): Result<int, Error>
    requires IsDir(t, [uuid])
  {
    LastAmong(RequestReader(t, uuid, stat), 0, t.dirs[[uuid]])
  }

  /** One bdev entry's bypassed size, read by interpret_bytes. */
  function BypassedOf(t: Tree, uuid: string, entry: string): Result<int, Error> {
    InterpretBytes(FileToLine(t, FiveMinutePath(uuid, entry, "bypassed")))
  }

  function BypassedReader(t: Tree, uuid: string): string -> Result<int, Error> {
    entry => BypassedOf(t, uuid, entry)
  }

  /** get_bypassed(uuid). */
  function Bypassed(t: Tree, uuid: string): Result<int, Error>
    requires IsDir(t, [uuid])
  {
    LastAmong(BypassedReader(t, uuid), 0, t.dirs[[uuid]])
  }

  /**
   * The request counter is the last bdev entry's, or 0 without one, and it
   * is read exactly when every bdev entry's counter is an integer.
   */
  lemma CacheResultIsLast(t: Tree, uuid: string, stat: string)
    requires IsDir(t, [uuid])
    ensures var bs := Bdevs(t.dirs[[uuid]]);
            && (CacheResult(t, uuid, stat).Ok? <==> forall k :: 0 <= k < |bs| ==> RequestOf(t, uuid, stat, bs[k]).Ok?)
            && (bs == [] ==> CacheResult(t, uuid, stat) == Ok(0))
            && (bs != [] && CacheResult(t, uuid, stat).Ok? ==> CacheResult(t, uuid, stat) == RequestOf(t, uuid, stat, bs[|bs| - 1]))
  {
    var read := RequestReader(t, uuid, stat);
    LastAmongIsLast(read, 0, t.dirs[[uuid]]);
    var bs := Bdevs(t.dirs[[uuid]]);
    assert forall k :: 0 <= k < |bs| ==> read(bs[k]) == RequestOf(t, uuid, stat, bs[k]);
  }

  /** A request counter that fails to read is the first bdev entry's that is not an integer. */
  lemma CacheResultFirstError(t: Tree, uuid: string, stat: string)
    requires IsDir(t, [uuid]) && CacheResult(t, uuid, stat).Err?
    ensures var bs := Bdevs(t.dirs[[uuid]]);
            exists k :: 0 <= k < |bs|
              && RequestOf(t, uuid, stat, bs[k]) == CacheResult(t, uuid, stat)
              && forall j :: 0 <= j < k ==> RequestOf(t, uuid, stat, bs[j]).Ok?
  {
    var read := RequestReader(t, uuid, stat);
    var bs := Bdevs(t.dirs[[uuid]]);
    LastAmongFirstError(read, 0, t.dirs[[uuid]]);
    var k :| 0 <= k < |bs| && read(bs[k]) == CacheResult(t, uuid, stat) && AllRead(read, bs[..k]);
    forall j | 0 <= j < k
      ensures RequestOf(t, uuid, stat, bs[j]).Ok?
    {
      assert bs[..k][j] == bs[j];
      assert read(bs[j]).Ok?;
    }
    assert read(bs[k]) == RequestOf(t, uuid, stat, bs[k]);
  }

  /** The bypassed size is read exactly when interpret_bytes reads every bdev entry's size. */
  lemma BypassedReadsAll(t: Tree, uuid: string)
    requires IsDir(t, [uuid])
    ensures var bs := Bdevs(t.dirs[[uuid]]);
            Bypassed(t, uuid).Ok? <==> forall k :: 0 <= k < |bs| ==> BypassedOf(t, uuid, bs[k]).Ok?
  {
    var read := BypassedReader(t, uuid);
    LastAmongIsLast(read, 0, t.dirs[[uuid]]);
    var bs := Bdevs(t.dirs[[uuid]]);
    assert forall k :: 0 <= k < |bs| ==> read(bs[k]) == BypassedOf(t, uuid, bs[k]);
  }

  /** The bypassed size is the last bdev entry's, or 0 without one. */
  lemma BypassedIsLast(t: Tree, uuid: string)
    requires IsDir(t, [uuid])
    ensures var bs := Bdevs(t.dirs[[uuid]]);
            && (bs == [] ==> Bypassed(t, uuid) == Ok(0))
            && (bs != [] && Bypassed(t, uuid).Ok? ==> Bypassed(t, uuid) == BypassedOf(t, uuid, bs[|bs| - 1]))
  {
    var read := BypassedReader(t, uuid);
    LastAmongIsLast(read, 0, t.dirs[[uuid]]);
    var bs := Bdevs(t.dirs[[uuid]]);
    if bs != [] {
      assert read(bs[|bs| - 1]) == BypassedOf(t, uuid, bs[|bs| - 1]);
    }
  }

  /** A bypassed size that fails to read is the first bdev entry's that interpret_bytes refuses. */
  lemma BypassedFirstError(t: Tree, uuid: string)
    requires IsDir(t, [uuid]) && Bypassed(t, uuid).Err?
    ensures var bs := Bdevs(t.dirs[[uuid]]);
            exists k :: 0 <= k < |bs|
              && BypassedOf(t, uuid, bs[k]) == Bypassed(t, uuid)
              && forall j :: 0 <= j < k ==> BypassedOf(t, uuid, bs[j]).Ok?
  {
    var read := BypassedReader(t, uuid);
    var bs := Bdevs(t.dirs[[uuid]]);
    LastAmongFirstError(read, 0, t.dirs[[uuid]]);
    var k :| 0 <= k < |bs| && read(bs[k]) == Bypassed(t, uuid) && AllRead(read, bs[..k]);
    forall j | 0 <= j < k
      ensures BypassedOf(t, uuid, bs[j]).Ok?
    {
      assert bs[..k][j] == bs[j];
      assert read(bs[j]).Ok?;
    }
    assert read(bs[k]) == BypassedOf(t, uuid, bs[k]);
  }

  /** get_cache_result: the overwriting loop, reading each bdev entry's cache_<stat>. */
  method GetCacheResult(t: Tree, uuid: string, stat: string) returns (r: Result<int, Error>)
    requires IsDir(t, [uuid])
    ensures r == CacheResult(t, uuid, stat)
  {
    r := LastBdev(RequestReader(t, uuid, stat), 0, t.dirs[[uuid]]);
  }

  /** get_bypassed: the overwriting loop, reading each bdev entry's bypassed size. */
  method GetBypassed(t: Tree, uuid: string) returns (r: Result<int, Error>)
    requires IsDir(t, [uuid])
    ensures r == Bypassed(t, uuid)
  {
    r := LastBdev(BypassedReader(t, uuid), 0, t.dirs[[uuid]]);
  }
}
