/**
 * A whole read cycle on a concrete sysfs tree: one cache set, abc-uuid,
 * caching one backing device, bdev0, whose dev link leads to sdb. Its dirty
 * data is "512k" and its five-minute window counted 10 hits and no misses.
 * Every file holds one line as the kernel writes it, ending in "\n".
 */
module CycleScenario {
  import opened Wrappers
  import opened Builtins
  import opened SysTree
  import opened ByteSize
  import opened Discovery
  import opened Selection
  import opened Dirty
  import opened Ratio
  import opened Counters
  import opened Collection
  import opened CycleExamples

  const CacheSet: string := "abc-uuid"
  const Backing: string := "bdev0"
  /** Where the kernel points bdev0/dev: its basename is the device name. */
  const DevTarget: string := "../../../devices/virtual/block/sdb"

  /** The file at p holds the one line given. */
  predicate Holds(t: Tree, p: Path, line: string) {
    p in t.files && t.files[p] == [line]
  }

  /**
   * What both trees below share: /sys/fs/bcache/ lists the cache set and the
   * two register files; the cache set lists bdev0 and its cache device's
   * entry cache0; bdev0/dev is a link to sdb; dirty_data holds "512k"; the
   * five-minute window counted 10 hits and 0 misses.
   */
  predicate Common(t: Tree) {
    && [] in t.dirs && t.dirs[[]] == [CacheSet, "register", "register_quiet"]
    && [CacheSet] in t.dirs && t.dirs[[CacheSet]] == [Backing, "cache0"]
    && ["register"] !in t.dirs && ["register_quiet"] !in t.dirs
    && DevPath(CacheSet, Backing) in t.links && t.links[DevPath(CacheSet, Backing)] == DevTarget
    && Holds(t, DirtyPath(CacheSet, Backing), "512k\n")
    && Holds(t, StatsPath(CacheSet, Backing, "five_minute", "cache_hits"), "10\n")
    && Holds(t, StatsPath(CacheSet, Backing, "five_minute", "cache_misses"), "0\n")
  }

  /** The other windows counted 10 hits and 0 misses too. */
  predicate OtherWindows(t: Tree) {
    && Holds(t, StatsPath(CacheSet, Backing, "hour", "cache_hits"), "10\n")
    && Holds(t, StatsPath(CacheSet, Backing, "hour", "cache_misses"), "0\n")
    && Holds(t, StatsPath(CacheSet, Backing, "day", "cache_hits"), "10\n")
    && Holds(t, StatsPath(CacheSet, Backing, "day", "cache_misses"), "0\n")
    && Holds(t, StatsPath(CacheSet, Backing, "total", "cache_hits"), "10\n")
    && Holds(t, StatsPath(CacheSet, Backing, "total", "cache_misses"), "0\n")
  }

  /** The five-minute counters read_callback reads besides hits and misses are all 0. */
  predicate OtherCounters(t: Tree) {
    && Holds(t, FiveMinutePath(CacheSet, Backing, "cache_bypass_hits"), "0\n")
    && Holds(t, FiveMinutePath(CacheSet, Backing, "cache_bypass_misses"), "0\n")
    && Holds(t, FiveMinutePath(CacheSet, Backing, "cache_miss_collisions"), "0\n")
    && Holds(t, FiveMinutePath(CacheSet, Backing, "cache_readaheads"), "0\n")
    && Holds(t, FiveMinutePath(CacheSet, Backing, "bypassed"), "0\n")
  }

  /** The twelve values read_callback dispatches for sdb when every statistics file is there. */
  const CompleteSamples: seq<Sample> :=
    [Sample("sdb", "df_complex", "dirty_data", 524288.0),
     Sample("sdb", "cache_ratio", "five_minute", 100.0),
     Sample("sdb", "cache_ratio", "hour", 100.0),
     Sample("sdb", "cache_ratio", "day", 100.0),
     Sample("sdb", "cache_ratio", "total", 100.0),
     Sample("sdb", "requests", "bypass_hits", 0.0),
     Sample("sdb", "requests", "bypass_misses", 0.0),
     Sample("sdb", "requests", "hits", 10.0),
     Sample("sdb", "requests", "miss_collisions", 0.0),
     Sample("sdb", "requests", "misses", 0.0),
     Sample("sdb", "requests", "readaheads", 0.0),
     Sample("sdb", "bytes", "bypassed", 0.0)]

  // ------------------------------------------------ one line, one listing

  /** The lines of the scenario are counts as NatString writes them. */
  lemma ScenarioLines()
    ensures NatString(0) + "\n" == "0\n" && NatString(10) + "\n" == "10\n"
    ensures NatString(512) + "k\n" == "512k\n"
  {
    assert NatString(10) == "10";
    assert NatString(512) == "512" by {
      assert NatString(51) == "51";
    }
  }

  /** A file holding a count, "<n>\n", reads as n, by int() and by float(). */
  lemma CountFile(t: Tree, p: Path, n: nat)
    requires Holds(t, p, NatString(n) + "\n")
    ensures FileToLine(t, p) == NatString(n)
    ensures ReadInt(t, p) == Ok(n) && ReadFloat(t, p) == Ok(n as real)
  {
    var text := NatString(n);
    assert NoSpace(text) by {
      forall k | 0 <= k < |text|
        ensures !IsSpace(text[k])
      {
        assert IsDigit(text[k]);
      }
    }
    StripLineEnd(text);
    ParseIntRoundTrip(n);
    ParseFloatExtendsParseInt(text);
  }

  /** The only directory /sys/fs/bcache/ lists is the only cache set. */
  lemma OnlyCacheSet(t: Tree, u: string, a: string, b: string)
    requires IsDir(t, []) && t.dirs[[]] == [u, a, b]
    requires IsDir(t, [u]) && !IsDir(t, [a]) && !IsDir(t, [b])
    ensures Uuids(t) == [u]
  {
    assert [u][..0] == [];
    assert CacheSetsAmong(t, [u]) == [u];
    assert [u, a][..1] == [u];
    assert CacheSetsAmong(t, [u, a]) == [u];
    assert [u, a, b][..2] == [u, a];
  }

  /** A bdev entry followed by another entry: only the first is a backing device. */
  lemma OnlyBackingDevice(a: string, b: string)
    requires IsBdev(a) && !IsBdev(b)
    ensures Bdevs([a, b]) == [a]
  {
    BdevsSnoc([], a);
    assert [] + [a] == [a];
    BdevsSnoc([a], b);
    assert [a] + [b] == [a, b];
  }

  /** With one bdev entry, map_uuid_to_bcache gives the basename of its dev link. */
  lemma OneDevice(t: Tree, u: string, e: string)
    requires IsDir(t, [u]) && Bdevs(t.dirs[[u]]) == [e] && DevPath(u, e) in t.links
    ensures Devices(t, u) == Ok([Basename(t.links[DevPath(u, e)])])
  {
    DevicesOkIff(t, u, t.dirs[[u]]);
    DevicesValue(t, u, t.dirs[[u]]);
    var ds := Devices(t, u).value;
    assert |ds| == 1 && ds[0] == Basename(t.links[DevPath(u, e)]);
    assert ds == [ds[0]];
  }

  /** The link target of bdev0/dev names sdb. */
  lemma DevTargetName()
    ensures Basename(DevTarget) == "sdb"
  {
    assert DevTarget == "../../../devices/virtual/block" + "/" + "sdb";
    BasenameAfterSlash("../../../devices/virtual/block", "sdb");
  }

  /** With one bdev entry, the dirty data is that entry's. */
  lemma OneDirty(t: Tree, u: string, e: string, v: int)
    requires IsDir(t, [u]) && Bdevs(t.dirs[[u]]) == [e] && DirtyOf(t, u, e) == Ok(v)
    ensures DirtyData(t, u) == Ok(v)
  {
    DirtyDataIsSum(t, u);
    var vs := Values(DirtyReader(t, u), [e]);
    assert vs == [v];
    assert Sum(vs) == v + Sum([]);
  }

  /** With one bdev entry, a request counter is that entry's. */
  lemma OneRequest(t: Tree, u: string, e: string, stat: string)
    requires IsDir(t, [u]) && Bdevs(t.dirs[[u]]) == [e]
    ensures CacheResult(t, u, stat) == RequestOf(t, u, stat, e)
  {
    if CacheResult(t, u, stat).Ok? {
      CacheResultIsLast(t, u, stat);
    } else {
      CacheResultFirstError(t, u, stat);
    }
  }

  /** With one bdev entry, the bypassed size is that entry's. */
  lemma OneBypassed(t: Tree, u: string, e: string)
    requires IsDir(t, [u]) && Bdevs(t.dirs[[u]]) == [e]
    ensures Bypassed(t, u) == BypassedOf(t, u, e)
  {
    if Bypassed(t, u).Ok? {
      BypassedReadsAll(t, u);
      BypassedIsLast(t, u);
    } else {
      BypassedFirstError(t, u);
    }
  }

  /** With one bdev entry holding counts, the ratio of a window is computed from them. */
  lemma RatioOfCounts(t: Tree, u: string, e: string, window: string, hits: nat, misses: nat)
    requires IsDir(t, [u]) && Bdevs(t.dirs[[u]]) == [e]
    requires Holds(t, StatsPath(u, e, window, "cache_hits"), NatString(hits) + "\n")
    requires Holds(t, StatsPath(u, e, window, "cache_misses"), NatString(misses) + "\n")
    ensures CacheRatio(t, u, window) == Ok(HitRatio(hits as real, misses as real))
  {
    CacheRatioIsFirst(t, u, window);
    CountFile(t, StatsPath(u, e, window, "cache_hits"), hits);
    CountFile(t, StatsPath(u, e, window, "cache_misses"), misses);
  }

  /** With one bdev entry holding a count in stats_five_minute/cache_<stat>, the counter is that count. */
  lemma RequestOfCount(t: Tree, u: string, e: string, stat: string, file: string, n: nat)
    requires IsDir(t, [u]) && Bdevs(t.dirs[[u]]) == [e]
    requires file == "cache_" + stat && Holds(t, FiveMinutePath(u, e, file), NatString(n) + "\n")
    ensures CacheResult(t, u, stat) == Ok(n)
  {
    OneRequest(t, u, e, stat);
    CountFile(t, FiveMinutePath(u, e, file), n);
  }

  /** With one bdev entry holding a plain count of bytes, that is the bypassed size. */
  lemma BypassedOfCount(t: Tree, u: string, e: string, n: nat)
    requires IsDir(t, [u]) && Bdevs(t.dirs[[u]]) == [e]
    requires Holds(t, FiveMinutePath(u, e, "bypassed"), NatString(n) + "\n")
    ensures Bypassed(t, u) == Ok(n)
  {
    OneBypassed(t, u, e);
    CountFile(t, FiveMinutePath(u, e, "bypassed"), n);
    InterpretNat(n);
  }

  /** A cache-set loop over one cache set is that cache set's run. */
  lemma UuidsRunOne(t: Tree, u: string)
    requires IsDir(t, [u])
    ensures AllDirs(t, [u]) && UuidsRun(t, [u]) == UuidRun(t, u)
  {
    assert [u][..0] == [];
    ThenDone(UuidRun(t, u));
  }

  /** A loop over one element is one run of its body. */
  lemma RunEachOne(body: string -> Run, x: string)
    ensures RunEach(body, [x]) == body(x)
  {
    assert [x][..0] == [];
    ThenDone(body(x));
  }

  /** A cycle over one cache set with one device is that device's twelve dispatches. */
  lemma CycleOfOneDevice(t: Tree, u: string, dirty: int, device: string)
    requires Uuids(t) == [u] && IsDir(t, [u])
    requires DirtyData(t, u) == Ok(dirty) && Devices(t, u) == Ok([device])
    ensures CycleRun(t) == Emit(t, u, dirty, device, Plan)
  {
    UuidsRunOne(t, u);
    var body := DeviceBody(t, u, dirty);
    RunEachOne(body, device);
    assert body(device) == DeviceRun(t, u, dirty, device);
    DeviceRunIsPlan(t, u, dirty, device);
  }

  // ---------------------------------------------------------- the scenario

  /** The shared part of the tree: one cache set, whose one bdev entry is bdev0. */
  lemma CommonListing(t: Tree)
    requires Common(t)
    ensures Uuids(t) == [CacheSet] && IsDir(t, [CacheSet]) && Bdevs(t.dirs[[CacheSet]]) == [Backing]
  {
    ExampleNames();
    OnlyCacheSet(t, CacheSet, "register", "register_quiet");
    OnlyBackingDevice(Backing, "cache0");
  }

  /** The shared part of the tree gives the device sdb and 512 KiB of dirty data. */
  lemma CommonReads(t: Tree)
    requires Common(t)
    ensures IsDir(t, [CacheSet])
    ensures Devices(t, CacheSet) == Ok(["sdb"]) && DirtyData(t, CacheSet) == Ok(524288)
  {
    CommonListing(t);
    ScenarioLines();
    OneDevice(t, CacheSet, Backing);
    DevTargetName();
    DirtyKibibytes(t, CacheSet, Backing, 512, "512k\n");
    OneDirty(t, CacheSet, Backing, 524288);
  }

  /** So the cycle is the twelve dispatches of sdb, with 524288 bytes of dirty data. */
  lemma CommonCycle(t: Tree)
    requires Common(t)
    ensures IsDir(t, [CacheSet]) && CycleRun(t) == Emit(t, CacheSet, 524288, "sdb", Plan)
  {
    CommonListing(t);
    CommonReads(t);
    CycleOfOneDevice(t, CacheSet, 524288, "sdb");
  }

  /** 10 hits and 0 misses in a window are 100 percent. */
  lemma TenHits(t: Tree, window: string)
    requires IsDir(t, [CacheSet]) && Bdevs(t.dirs[[CacheSet]]) == [Backing]
    requires Holds(t, StatsPath(CacheSet, Backing, window, "cache_hits"), "10\n")
    requires Holds(t, StatsPath(CacheSet, Backing, window, "cache_misses"), "0\n")
    ensures CacheRatio(t, CacheSet, window) == Ok(100.0)
  {
    ScenarioLines();
    RatioOfCounts(t, CacheSet, Backing, window, 10, 0);
    HitRatioExtremes(10.0, 0.0);
  }

  /** The four windows each give 100 percent. */
  lemma CompleteRatios(t: Tree)
    requires Common(t) && OtherWindows(t)
    ensures IsDir(t, [CacheSet])
    ensures CacheRatio(t, CacheSet, "five_minute") == Ok(100.0)
    ensures CacheRatio(t, CacheSet, "hour") == Ok(100.0)
    ensures CacheRatio(t, CacheSet, "day") == Ok(100.0)
    ensures CacheRatio(t, CacheSet, "total") == Ok(100.0)
  {
    CommonListing(t);
    TenHits(t, "five_minute");
    TenHits(t, "hour");
    TenHits(t, "day");
    TenHits(t, "total");
  }

  /** The request-counter files read_callback names, as get_cache_result builds them. */
  lemma CounterFiles(u: string, e: string)
    ensures "cache_bypass_hits" == "cache_" + "bypass_hits"
    ensures "cache_bypass_misses" == "cache_" + "bypass_misses"
    ensures "cache_hits" == "cache_" + "hits"
    ensures "cache_miss_collisions" == "cache_" + "miss_collisions"
    ensures "cache_misses" == "cache_" + "misses"
    ensures "cache_readaheads" == "cache_" + "readaheads"
    ensures FiveMinutePath(u, e, "cache_hits") == StatsPath(u, e, "five_minute", "cache_hits")
    ensures FiveMinutePath(u, e, "cache_misses") == StatsPath(u, e, "five_minute", "cache_misses")
  {
    assert "stats_" + "five_minute" == "stats_five_minute";
  }

  /** The six request counters: 10 hits, everything else 0; and no bytes bypassed. */
  lemma CompleteCounters(t: Tree)
    requires Common(t) && OtherCounters(t)
    ensures IsDir(t, [CacheSet])
    ensures CacheResult(t, CacheSet, "bypass_hits") == Ok(0)
    ensures CacheResult(t, CacheSet, "bypass_misses") == Ok(0)
    ensures CacheResult(t, CacheSet, "hits") == Ok(10)
    ensures CacheResult(t, CacheSet, "miss_collisions") == Ok(0)
    ensures CacheResult(t, CacheSet, "misses") == Ok(0)
    ensures CacheResult(t, CacheSet, "readaheads") == Ok(0)
    ensures Bypassed(t, CacheSet) == Ok(0)
  {
    CommonListing(t);
    ScenarioLines();
    CounterFiles(CacheSet, Backing);
    var u, e := CacheSet, Backing;
    RequestOfCount(t, u, e, "bypass_hits", "cache_bypass_hits", 0);
    RequestOfCount(t, u, e, "bypass_misses", "cache_bypass_misses", 0);
    RequestOfCount(t, u, e, "hits", "cache_hits", 10);
    RequestOfCount(t, u, e, "miss_collisions", "cache_miss_collisions", 0);
    RequestOfCount(t, u, e, "misses", "cache_misses", 0);
    RequestOfCount(t, u, e, "readaheads", "cache_readaheads", 0);
    BypassedOfCount(t, CacheSet, Backing, 0);
  }

  /** The values of the twelve metrics of the plan, in order, when every statistics file is there. */
  const CompleteValues: seq<real> := [524288.0, 100.0, 100.0, 100.0, 100.0, 0.0, 0.0, 10.0, 0.0, 0.0, 0.0, 0.0]

  /** The expected samples are the plan's tags for sdb, with those values. */
  lemma CompleteSamplesArePlan()
    ensures |CompleteSamples| == |Plan| == |CompleteValues|
    ensures forall k :: 0 <= k < |Plan| ==>
              CompleteSamples[k] == Sample("sdb", Tag(Plan[k]).0, Tag(Plan[k]).1, CompleteValues[k])
  {
  }

  /** Any reading of the metrics that gives each its complete value gives the plan CompleteValues, in order. */
  lemma PlanTakesValues(value: Metric --> Result<real, Error>)
    requires forall m :: value.requires(m)
    requires value(DirtyMetric) == Ok(524288.0)
    requires value(RatioMetric("five_minute")) == Ok(100.0)
    requires value(RatioMetric("hour")) == Ok(100.0)
    requires value(RatioMetric("day")) == Ok(100.0)
    requires value(RatioMetric("total")) == Ok(100.0)
    requires value(RequestMetric("bypass_hits")) == Ok(0.0)
    requires value(RequestMetric("bypass_misses")) == Ok(0.0)
    requires value(RequestMetric("hits")) == Ok(10.0)
    requires value(RequestMetric("miss_collisions")) == Ok(0.0)
    requires value(RequestMetric("misses")) == Ok(0.0)
    requires value(RequestMetric("readaheads")) == Ok(0.0)
    requires value(BypassedMetric) == Ok(0.0)
    ensures forall k :: 0 <= k < |Plan| ==> value(Plan[k]) == Ok(CompleteValues[k])
  {
    forall k | 0 <= k < |Plan|
      ensures value(Plan[k]) == Ok(CompleteValues[k])
    {
      if k == 0 {
      } else if k == 1 {
      } else if k == 2 {
      } else if k == 3 {
      } else if k == 4 {
      } else if k == 5 {
      } else if k == 6 {
      } else if k == 7 {
      } else if k == 8 {
      } else if k == 9 {
      } else if k == 10 {
      } else {
      }
    }
  }

  /** So MetricValue, when it gives each metric its complete value, reads the plan as CompleteValues. */
  lemma PlanReadsValues(t: Tree, u: string)
    requires IsDir(t, [u])
    requires MetricValue(t, u, 524288, DirtyMetric) == Ok(524288.0)
    requires MetricValue(t, u, 524288, RatioMetric("five_minute")) == Ok(100.0)
    requires MetricValue(t, u, 524288, RatioMetric("hour")) == Ok(100.0)
    requires MetricValue(t, u, 524288, RatioMetric("day")) == Ok(100.0)
    requires MetricValue(t, u, 524288, RatioMetric("total")) == Ok(100.0)
    requires MetricValue(t, u, 524288, RequestMetric("bypass_hits")) == Ok(0.0)
    requires MetricValue(t, u, 524288, RequestMetric("bypass_misses")) == Ok(0.0)
    requires MetricValue(t, u, 524288, RequestMetric("hits")) == Ok(10.0)
    requires MetricValue(t, u, 524288, RequestMetric("miss_collisions")) == Ok(0.0)
    requires MetricValue(t, u, 524288, RequestMetric("misses")) == Ok(0.0)
    requires MetricValue(t, u, 524288, RequestMetric("readaheads")) == Ok(0.0)
    requires MetricValue(t, u, 524288, BypassedMetric) == Ok(0.0)
    ensures forall k :: 0 <= k < |Plan| ==> MetricValue(t, u, 524288, Plan[k]) == Ok(CompleteValues[k])
  {
    var value := (m: Metric) requires IsDir(t, [u]) => MetricValue(t, u, 524288, m);
    PlanTakesValues(value);
    forall k | 0 <= k < |Plan|
      ensures MetricValue(t, u, 524288, Plan[k]) == Ok(CompleteValues[k])
    {
      assert value(Plan[k]) == MetricValue(t, u, 524288, Plan[k]);
    }
  }

  /** Ratios of 100 are dispatched as 100. */
  lemma RatioValues(t: Tree, u: string)
    requires IsDir(t, [u])
    requires CacheRatio(t, u, "five_minute") == Ok(100.0) && CacheRatio(t, u, "hour") == Ok(100.0)
    requires CacheRatio(t, u, "day") == Ok(100.0) && CacheRatio(t, u, "total") == Ok(100.0)
    ensures MetricValue(t, u, 524288, RatioMetric("five_minute")) == Ok(100.0)
    ensures MetricValue(t, u, 524288, RatioMetric("hour")) == Ok(100.0)
    ensures MetricValue(t, u, 524288, RatioMetric("day")) == Ok(100.0)
    ensures MetricValue(t, u, 524288, RatioMetric("total")) == Ok(100.0)
  {
  }

  /** Request counts are dispatched as the same numbers, and so is the bypassed size. */
  lemma CounterValues(t: Tree, u: string)
    requires IsDir(t, [u])
    requires CacheResult(t, u, "bypass_hits") == Ok(0) && CacheResult(t, u, "bypass_misses") == Ok(0)
    requires CacheResult(t, u, "hits") == Ok(10) && CacheResult(t, u, "miss_collisions") == Ok(0)
    requires CacheResult(t, u, "misses") == Ok(0) && CacheResult(t, u, "readaheads") == Ok(0)
    requires Bypassed(t, u) == Ok(0)
    ensures MetricValue(t, u, 524288, RequestMetric("bypass_hits")) == Ok(0.0)
    ensures MetricValue(t, u, 524288, RequestMetric("bypass_misses")) == Ok(0.0)
    ensures MetricValue(t, u, 524288, RequestMetric("hits")) == Ok(10.0)
    ensures MetricValue(t, u, 524288, RequestMetric("miss_collisions")) == Ok(0.0)
    ensures MetricValue(t, u, 524288, RequestMetric("misses")) == Ok(0.0)
    ensures MetricValue(t, u, 524288, RequestMetric("readaheads")) == Ok(0.0)
    ensures MetricValue(t, u, 524288, BypassedMetric) == Ok(0.0)
  {
  }

  /** A plan read as CompleteValues emits the twelve complete samples of sdb and raises nothing. */
  lemma EmitOfValues(t: Tree, u: string)
    requires IsDir(t, [u])
    requires forall k :: 0 <= k < |Plan| ==> MetricValue(t, u, 524288, Plan[k]) == Ok(CompleteValues[k])
    ensures Emit(t, u, 524288, "sdb", Plan) == Run(CompleteSamples, None)
  {
    EmitSamples(t, u, 524288, "sdb", Plan);
    CompleteSamplesArePlan();
    var out := Emit(t, u, 524288, "sdb", Plan).out;
    assert |out| == |CompleteSamples|;
    assert forall k :: 0 <= k < |out| ==> out[k] == CompleteSamples[k];
  }

  /** Whatever the tree, a cache set whose reads give these values emits the twelve complete samples of sdb. */
  lemma EmitComplete(t: Tree, u: string)
    requires IsDir(t, [u])
    requires CacheRatio(t, u, "five_minute") == Ok(100.0) && CacheRatio(t, u, "hour") == Ok(100.0)
    requires CacheRatio(t, u, "day") == Ok(100.0) && CacheRatio(t, u, "total") == Ok(100.0)
    requires CacheResult(t, u, "bypass_hits") == Ok(0) && CacheResult(t, u, "bypass_misses") == Ok(0)
    requires CacheResult(t, u, "hits") == Ok(10) && CacheResult(t, u, "miss_collisions") == Ok(0)
    requires CacheResult(t, u, "misses") == Ok(0) && CacheResult(t, u, "readaheads") == Ok(0)
    requires Bypassed(t, u) == Ok(0)
    ensures Emit(t, u, 524288, "sdb", Plan) == Run(CompleteSamples, None)
  {
    RatioValues(t, u);
    CounterValues(t, u);
    PlanReadsValues(t, u);
    EmitOfValues(t, u);
  }

  /**
   * With every statistics file there, the cycle dispatches twelve values for
   * sdb and raises nothing: 524288 bytes of dirty data first, then a ratio of
   * 100 for each window, the six request counters and 0 bypassed bytes.
   */
  lemma CompleteCycle(t: Tree)
    requires Common(t) && OtherWindows(t) && OtherCounters(t)
    ensures CycleRun(t) == Run(CompleteSamples, None)
  {
    CommonCycle(t);
    CompleteRatios(t);
    CompleteCounters(t);
    EmitComplete(t, CacheSet);
  }

  /** One metric's plan is that metric's dispatch. */
  lemma EmitOne(t: Tree, u: string, dirty: int, device: string, m: Metric)
    requires IsDir(t, [u])
    ensures Emit(t, u, dirty, device, [m]) == Dispatch(t, u, dirty, device, m)
  {
    assert [m][..0] == [];
    ThenDone(Dispatch(t, u, dirty, device, m));
  }

  /** float('') raises: a missing file is not a count of 0. */
  lemma NothingIsNoFloat()
    ensures ParseFloat("") == None
  {
    assert Strip("") == "";
  }

  /** The first three metrics of the plan: the dirty data, then the five-minute and hour ratios. */
  lemma PlanStart()
    ensures Plan[..3] == [DirtyMetric] + [RatioMetric("five_minute")] + [RatioMetric("hour")]
  {
  }

  /** Dispatching three metrics is dispatching each in turn. */
  lemma EmitThree(t: Tree, u: string, dirty: int, device: string, a: Metric, b: Metric, c: Metric)
    requires IsDir(t, [u])
    ensures Emit(t, u, dirty, device, [a] + [b] + [c])
            == Then(Then(Dispatch(t, u, dirty, device, a), Dispatch(t, u, dirty, device, b)), Dispatch(t, u, dirty, device, c))
  {
    EmitAppend(t, u, dirty, device, [a], [b]);
    EmitAppend(t, u, dirty, device, [a] + [b], [c]);
    EmitOne(t, u, dirty, device, a);
    EmitOne(t, u, dirty, device, b);
    EmitOne(t, u, dirty, device, c);
  }

  /** The hour ratio raises ValueError('') when stats_hour/cache_hits is missing. */
  lemma HourRatioFails(t: Tree)
    requires IsDir(t, [CacheSet]) && Bdevs(t.dirs[[CacheSet]]) == [Backing]
    requires StatsPath(CacheSet, Backing, "hour", "cache_hits") !in t.files
    ensures CacheRatio(t, CacheSet, "hour") == Err(ValueError(""))
  {
    CacheRatioIsFirst(t, CacheSet, "hour");
    NothingIsNoFloat();
  }

  /**
   * Without stats_hour/cache_hits, file_to_line gives '' and float('')
   * raises: the cycle keeps the dirty data and the five-minute ratio it
   * dispatched before, and ends with ValueError('').
   */
  lemma MissingHourHits(t: Tree)
    requires Common(t) && StatsPath(CacheSet, Backing, "hour", "cache_hits") !in t.files
    ensures CycleRun(t) == Run([Sample("sdb", "df_complex", "dirty_data", 524288.0),
                                Sample("sdb", "cache_ratio", "five_minute", 100.0)],
                               Some(ValueError("")))
  {
    CommonListing(t);
    TenHits(t, "five_minute");
    HourRatioFails(t);
    CommonCycle(t);
    var u, dirty, device := CacheSet, 524288, "sdb";
    PlanStart();
    EmitThree(t, u, dirty, device, DirtyMetric, RatioMetric("five_minute"), RatioMetric("hour"));
    EmitErrorSticks(t, u, dirty, device, Plan, 3);
  }
}
