/**
 * get_cache_ratio: the cache hit percentage of a cache set over one
 * statistics window, read from <uuid>/<bdev entry>/stats_<window>/cache_hits
 * and cache_misses. The loop returns at the first bdev entry, so only that
 * entry's counters are ever read.
 */
module Ratio {
  import opened Wrappers
  import opened Builtins
  import opened SysTree
  import opened Discovery
  import opened Selection

  /** The statistics windows read_callback asks for, in its order. */
  const Windows: seq<string> := ["five_minute", "hour", "day", "total"]

  /** <uuid>/<entry>/stats_<window>/<counter>. */
  function StatsPath(uuid: string, entry: string, window: string, counter: string): Path {
    [uuid, entry, "stats_" + window, counter]
  }

  /** float(file_to_line(p)): ValueError with the line when float() refuses it. */
  function ReadFloat(t: Tree, p: Path): Result<real, Error> {
    match ParseFloat(FileToLine(t, p))
    case None => Err(ValueError(FileToLine(t, p)))
    case Some(v) => Ok(v)
  }

  /** 100 when nothing was counted, else the share of hits in percent. */
  function HitRatio(hits: real, misses: real): real {
    if hits + misses == 0.0 then 100.0 else hits / (hits + misses) * 100.0
  }

  /** The ratio, multiplied back by the number of lookups, gives 100 times the hits. */
  lemma HitRatioMeaning(hits: real, misses: real)
    requires hits + misses != 0.0
    ensures HitRatio(hits, misses) * (hits + misses) == 100.0 * hits
  {
    var n := hits + misses;
    calc {
      HitRatio(hits, misses) * n;
      (hits / n * 100.0) * n;
      (hits / n * n) * 100.0;
      { assert hits / n * n == hits; }
      hits * 100.0;
    }
  }

  /** With counters that are not negative the ratio is a percentage. */
  lemma HitRatioBounds(hits: real, misses: real)
    requires 0.0 <= hits && 0.0 <= misses
    ensures 0.0 <= HitRatio(hits, misses) <= 100.0
  {
    if hits + misses != 0.0 {
      var n := hits + misses;
      assert 0.0 <= hits / n <= 1.0 by {
        assert hits <= n;
        assert hits / n * n == hits;
      }
    }
  }

  /** No hits among some lookups is 0 percent; no misses among some lookups is 100 percent. */
  lemma HitRatioExtremes(hits: real, misses: real)
    ensures hits == 0.0 && misses != 0.0 ==> HitRatio(hits, misses) == 0.0
    ensures misses == 0.0 ==> HitRatio(hits, misses) == 100.0
  {
    if misses == 0.0 && hits != 0.0 {
      assert hits / hits == 1.0;
    }
  }

  /** 3 hits and 1 miss: 75 percent. */
  lemma HitRatioExample()
    ensures HitRatio(3.0, 1.0) == 75.0
    ensures HitRatio(0.0, 0.0) == 100.0
  {
  }

  /** The ratio computed from one bdev entry's counters: hits are read before misses. */
  function RatioAt(t: Tree, uuid: string, window: string, entry: string): Result<real, Error> {
    var hits := ReadFloat(t, StatsPath(uuid, entry, window, "cache_hits"));
    if hits.Err? then Err(hits.error)
    else
      var misses := ReadFloat(t, StatsPath(uuid, entry, window, "cache_misses"));
      if misses.Err? then Err(misses.error)
      else Ok(HitRatio(hits.value, misses.value))
  }

  /** get_cache_ratio(uuid, window): 0 without a bdev entry. */
  function CacheRatio(t: Tree, uuid: string, window: string): Result<real, Error>
    requires IsDir(t, [uuid])
  {
    match FirstBdev(t.dirs[[uuid]])
    case None => Ok(0.0)
    case Some(entry) => RatioAt(t, uuid, window, entry)
  }

  /** Only the first bdev entry in listing order is read; without one the ratio is 0. */
  lemma CacheRatioIsFirst(t: Tree, uuid: string, window: string)
    requires IsDir(t, [uuid])
    ensures Bdevs(t.dirs[[uuid]]) == [] ==> CacheRatio(t, uuid, window) == Ok(0.0)
    ensures Bdevs(t.dirs[[uuid]]) != [] ==>
              CacheRatio(t, uuid, window) == RatioAt(t, uuid, window, Bdevs(t.dirs[[uuid]])[0])
  {
    FirstBdevIsFirst(t.dirs[[uuid]]);
  }

  /** The ratio fails exactly when the first bdev entry's hits or misses are not numbers. */
  lemma CacheRatioFails(t: Tree, uuid: string, window: string)
    requires IsDir(t, [uuid]) && Bdevs(t.dirs[[uuid]]) != []
    ensures var entry := Bdevs(t.dirs[[uuid]])[0];
            CacheRatio(t, uuid, window).Err? <==>
              ParseFloat(FileToLine(t, StatsPath(uuid, entry, window, "cache_hits"))).None?
              || ParseFloat(FileToLine(t, StatsPath(uuid, entry, window, "cache_misses"))).None?
  {
    CacheRatioIsFirst(t, uuid, window);
  }

  /** When the first bdev entry's counters are not negative, the ratio lies between 0 and 100. */
  lemma CacheRatioBounds(t: Tree, uuid: string, window: string, hits: real, misses: real)
    requires IsDir(t, [uuid]) && Bdevs(t.dirs[[uuid]]) != []
    requires ReadFloat(t, StatsPath(uuid, Bdevs(t.dirs[[uuid]])[0], window, "cache_hits")) == Ok(hits)
    requires ReadFloat(t, StatsPath(uuid, Bdevs(t.dirs[[uuid]])[0], window, "cache_misses")) == Ok(misses)
    requires 0.0 <= hits && 0.0 <= misses
    ensures CacheRatio(t, uuid, window).Ok?
    ensures 0.0 <= CacheRatio(t, uuid, window).value <= 100.0
  {
    CacheRatioIsFirst(t, uuid, window);
    HitRatioBounds(hits, misses);
  }

  /** get_cache_ratio. */
  method GetCacheRatio(t: Tree, uuid: string, window: string) returns (r: Result<real, Error>)
    requires IsDir(t, [uuid])
    ensures r == CacheRatio(t, uuid, window)
  {
    var listing := t.dirs[[uuid]];
    for i := 0 to |listing|
      invariant FirstBdev(listing[i..]) == FirstBdev(listing)
    {
      var entry := listing[i];
      assert listing[i..][1..] == listing[i + 1..];
      if IsBdev(entry) {
        var hits := ReadFloat(t, StatsPath(uuid, entry, window, "cache_hits"));
        if hits.Err? {
          return Err(hits.error);
        }
        var misses := ReadFloat(t, StatsPath(uuid, entry, window, "cache_misses"));
        if misses.Err? {
          return Err(misses.error);
        }
        if hits.value + misses.value == 0.0 {
          return Ok(100.0);
        }
        return Ok(hits.value / (hits.value + misses.value) * 100.0);
      }
    }
    r := Ok(0.0);
  }
}
