/**
 * read_callback: one collection cycle. For every cache set it reads the
 * dirty data and the device names, then dispatches twelve values for each
 * device. dispatch_value is modelled as appending a Sample to the output;
 * an exception raised by a reader ends the cycle, keeping what was
 * dispatched before it.
 */
module Collection {
  import opened Wrappers
  import opened Builtins
  import opened SysTree
  import opened Discovery
  import opened Dirty
  import opened Ratio
  import opened Counters

  /** One dispatch_value(plugin_instance, value_type, type_instance, value) call; the int or float value is held as a real. */
  datatype Sample = Sample(device: string, valueType: string, typeInstance: string, value: real)

  /** The values dispatched, in order, and the exception that ended the cycle early, if any. */
  datatype Run = Run(out: seq<Sample>, failed: Option<Error>)

  /** What running b after a does: nothing more once a has raised. */
  function Then(a: Run, b: Run): Run {
    if a.failed.Some? then a else Run(a.out + b.out, b.failed)
  }

  const Done: Run := Run([], None)

  lemma ThenAssociative(a: Run, b: Run, c: Run)
    ensures Then(Then(a, b), c) == Then(a, Then(b, c))
  {
  }

  lemma ThenDone(a: Run)
    ensures Then(Done, a) == a && Then(a, Done) == a
  {
    assert a.out + [] == a.out;
  }

  /** The values read_callback dispatches for a device. */
  datatype Metric = DirtyMetric | RatioMetric(window: string) | RequestMetric(stat: string) | BypassedMetric

  /** The dispatch order: dirty data, the four ratios, the six request counters, bypassed bytes. */
  const Plan: seq<Metric> :=
    [DirtyMetric,
     RatioMetric("five_minute"), RatioMetric("hour"), RatioMetric("day"), RatioMetric("total"),
     RequestMetric("bypass_hits"), RequestMetric("bypass_misses"), RequestMetric("hits"),
     RequestMetric("miss_collisions"), RequestMetric("misses"), RequestMetric("readaheads"),
     BypassedMetric]

  /** The value type and type instance a metric is dispatched with. */
  function Tag(m: Metric): (string, string) {
    match m
    case DirtyMetric => ("df_complex", "dirty_data")
    case RatioMetric(window) => ("cache_ratio", window)
    case RequestMetric(stat) => ("requests", stat)
    case BypassedMetric => ("bytes", "bypassed")
  }

  function AsReal(r: Result<int, Error>): Result<real, Error> {
    match r
    case Err(e) => Err(e)
    case Ok(v) => Ok(v as real)
  }

  /** The value a metric is dispatched with; the dirty data is read once per cache set. */
  function MetricValue(t: Tree, uuid: string, dirty: int, m: Metric): Result<real, Error>
    requires IsDir(t, [uuid])
  {
    match m
    case DirtyMetric => Ok(dirty as real)
    case RatioMetric(window) => CacheRatio(t, uuid, window)
    case RequestMetric(stat) => AsReal(CacheResult(t, uuid, stat))
    case BypassedMetric => AsReal(Bypassed(t, uuid))
  }

  /** Reading one metric and dispatching it for a device. */
  function Dispatch(t: Tree, uuid: string, dirty: int, device: string, m: Metric): Run
    requires IsDir(t, [uuid])
  {
    match MetricValue(t, uuid, dirty, m)
    case Err(e) => Run([], Some(e))
    case Ok(v) => Run([Sample(device, Tag(m).0, Tag(m).1, v)], None)
  }

  /** Dispatching the metrics of a plan in order, for one device. */
  function Emit(t: Tree, uuid: string, dirty: int, device: string, plan: seq<Metric>): Run
    requires IsDir(t, [uuid])
  {
    if plan == [] then Done
    else Then(Emit(t, uuid, dirty, device, plan[..|plan| - 1]), Dispatch(t, uuid, dirty, device, plan[|plan| - 1]))
  }

  /** The cache_ratio loop of read_callback, over the given windows. */
  function RatiosRun(t: Tree, uuid: string, dirty: int, device: string, windows: seq<string>): Run
    requires IsDir(t, [uuid])
  {
    if windows == [] then Done
    else Then(RatiosRun(t, uuid, dirty, device, windows[..|windows| - 1]),
              Dispatch(t, uuid, dirty, device, RatioMetric(windows[|windows| - 1])))
  }

  /** The requests loop of read_callback, over the given counters. */
  function RequestsRun(t: Tree, uuid: string, dirty: int, device: string, stats: seq<string>): Run
    requires IsDir(t, [uuid])
  {
    if stats == [] then Done
    else Then(RequestsRun(t, uuid, dirty, device, stats[..|stats| - 1]),
              Dispatch(t, uuid, dirty, device, RequestMetric(stats[|stats| - 1])))
  }

  /** The body of the device loop of read_callback: dirty data, the ratio loop, the requests loop, bypassed bytes. */
  function DeviceRun(t: Tree, uuid: string, dirty: int, device: string): Run
    requires IsDir(t, [uuid])
  {
    Then(Then(Then(Dispatch(t, uuid, dirty, device, DirtyMetric),
                   RatiosRun(t, uuid, dirty, device, Windows)),
              RequestsRun(t, uuid, dirty, device, RequestStats)),
         Dispatch(t, uuid, dirty, device, BypassedMetric))
  }

  /** A loop that runs body on each element in turn and stops at the first exception. */
  function RunEach(body: string -> Run, xs: seq<string>): Run {
    if xs == [] then Done else Then(RunEach(body, xs[..|xs| - 1]), body(xs[|xs| - 1]))
  }

  function DeviceBody(t: Tree, uuid: string, dirty: int): string -> Run
    requires IsDir(t, [uuid])
  {
    device => DeviceRun(t, uuid, dirty, device)
  }

  /** The device loop of read_callback. */
  function DevicesRun(t: Tree, uuid: string, dirty: int, devices: seq<string>): Run
    requires IsDir(t, [uuid])
  {
    RunEach(DeviceBody(t, uuid, dirty), devices)
  }

  /** One cache set: get_dirty_data, then map_uuid_to_bcache, then the device loop. */
  function UuidRun(t: Tree, uuid: string): Run
    requires IsDir(t, [uuid])
  {
    match DirtyData(t, uuid)
    case Err(e) => Run([], Some(e))
    case Ok(dirty) =>
      match Devices(t, uuid)
      case Err(e) => Run([], Some(e))
      case Ok(devices) => DevicesRun(t, uuid, dirty, devices)
  }

  predicate AllDirs(t: Tree, uuids: seq<string>) {
    forall k :: 0 <= k < |uuids| ==> IsDir(t, [uuids[k]])
  }

  /** The cache set loop of read_callback. */
  function UuidsRun(t: Tree, uuids: seq<string>): Run
    requires AllDirs(t, uuids)
  {
    if uuids == [] then Done
    else Then(UuidsRun(t, uuids[..|uuids| - 1]), UuidRun(t, uuids[|uuids| - 1]))
  }

  /** read_callback. */
  function CycleRun(t: Tree): Run {
    UuidsRun(t, Uuids(t))
  }

  // ---------------------------------------------------------------- the plan

  /** The tags read_callback dispatches for each device, in order. */
  lemma PlanTags()
    ensures |Plan| == 12
    ensures Tag(Plan[0]) == ("df_complex", "dirty_data")
    ensures forall i :: 0 <= i < 4 ==> Tag(Plan[1 + i]) == ("cache_ratio", Windows[i])
    ensures forall i :: 0 <= i < 6 ==> Tag(Plan[5 + i]) == ("requests", RequestStats[i])
    ensures Tag(Plan[11]) == ("bytes", "bypassed")
  {
  }

  /** The metrics of a ratio loop over the given windows. */
  function RatioPlan(windows: seq<string>): (r: seq<Metric>)
    ensures |r| == |windows|
    ensures forall i :: 0 <= i < |windows| ==> r[i] == RatioMetric(windows[i])
  {
    if windows == [] then [] else RatioPlan(windows[..|windows| - 1]) + [RatioMetric(windows[|windows| - 1])]
  }

  /** The metrics of a requests loop over the given counters. */
  function RequestPlan(stats: seq<string>): (r: seq<Metric>)
    ensures |r| == |stats|
    ensures forall i :: 0 <= i < |stats| ==> r[i] == RequestMetric(stats[i])
  {
    if stats == [] then [] else RequestPlan(stats[..|stats| - 1]) + [RequestMetric(stats[|stats| - 1])]
  }

  /** The plan is the dirty data, the ratio loop, the requests loop and the bypassed bytes, in that order. */
  lemma PlanParts()
    ensures Plan == [DirtyMetric] + RatioPlan(Windows) + RequestPlan(RequestStats) + [BypassedMetric]
  {
  }

  // --------------------------------------------------------- one device

  /**
   * A device's metrics are all dispatched exactly when every one of them
   * reads, and then there is one sample per metric, in plan order, each
   * tagged with the device and the metric and carrying the metric's value.
   */
  lemma {:induction false} EmitSamples(t: Tree, uuid: string, dirty: int, device: string, plan: seq<Metric>)
    requires IsDir(t, [uuid])
    ensures var r := Emit(t, uuid, dirty, device, plan);
            && (r.failed.None? <==> forall k :: 0 <= k < |plan| ==> MetricValue(t, uuid, dirty, plan[k]).Ok?)
            && (r.failed.None? ==>
                  |r.out| == |plan|
                  && forall k :: 0 <= k < |plan| ==>
                       r.out[k] == Sample(device, Tag(plan[k]).0, Tag(plan[k]).1, MetricValue(t, uuid, dirty, plan[k]).value))
  {
    if plan != [] {
      var init, m := plan[..|plan| - 1], plan[|plan| - 1];
      EmitSamples(t, uuid, dirty, device, init);
      assert forall k :: 0 <= k < |init| ==> plan[k] == init[k];
    }
  }

  /** A device run that raises has dispatched fewer than all of the metrics, each one as planned. */
  lemma {:induction false} EmitFailure(t: Tree, uuid: string, dirty: int, device: string, plan: seq<Metric>)
    requires IsDir(t, [uuid]) && Emit(t, uuid, dirty, device, plan).failed.Some?
    ensures var r := Emit(t, uuid, dirty, device, plan);
            && |r.out| < |plan|
            && MetricValue(t, uuid, dirty, plan[|r.out|]) == Err(r.failed.value)
            && r == Emit(t, uuid, dirty, device, plan[..|r.out| + 1])
  {
    var init, m := plan[..|plan| - 1], plan[|plan| - 1];
    assert plan[..|plan|] == plan;
    if Emit(t, uuid, dirty, device, init).failed.Some? {
      EmitFailure(t, uuid, dirty, device, init);
      var n := |Emit(t, uuid, dirty, device, init).out|;
      assert init[..n + 1] == plan[..n + 1];
    } else {
      EmitSamples(t, uuid, dirty, device, init);
    }
  }

  /** Dispatching a longer plan dispatches the shorter one first. */
  lemma {:induction false} EmitAppend(t: Tree, uuid: string, dirty: int, device: string, a: seq<Metric>, b: seq<Metric>)
    requires IsDir(t, [uuid])
    ensures Emit(t, uuid, dirty, device, a + b) == Then(Emit(t, uuid, dirty, device, a), Emit(t, uuid, dirty, device, b))
    decreases |b|
  {
    if b == [] {
      assert a + b == a;
      ThenDone(Emit(t, uuid, dirty, device, a));
    } else {
      var init := b[..|b| - 1];
      assert (a + b)[..|a + b| - 1] == a + init;
      EmitAppend(t, uuid, dirty, device, a, init);
      ThenAssociative(Emit(t, uuid, dirty, device, a), Emit(t, uuid, dirty, device, init),
                      Dispatch(t, uuid, dirty, device, b[|b| - 1]));
    }
  }

  /** Once a metric has raised, the rest of the plan is never read. */
  lemma {:induction false} EmitErrorSticks(t: Tree, uuid: string, dirty: int, device: string, plan: seq<Metric>, k: nat)
    requires IsDir(t, [uuid]) && k <= |plan| && Emit(t, uuid, dirty, device, plan[..k]).failed.Some?
    ensures Emit(t, uuid, dirty, device, plan) == Emit(t, uuid, dirty, device, plan[..k])
    decreases |plan| - k
  {
    if k < |plan| {
      assert plan[..k + 1][..k] == plan[..k];
      EmitErrorSticks(t, uuid, dirty, device, plan, k + 1);
    } else {
      assert plan[..k] == plan;
    }
  }

  lemma {:induction false} RatiosRunErrorSticks(t: Tree, uuid: string, dirty: int, device: string, windows: seq<string>, k: nat)
    requires IsDir(t, [uuid]) && k <= |windows| && RatiosRun(t, uuid, dirty, device, windows[..k]).failed.Some?
    ensures RatiosRun(t, uuid, dirty, device, windows) == RatiosRun(t, uuid, dirty, device, windows[..k])
    decreases |windows| - k
  {
    if k < |windows| {
      assert windows[..k + 1][..k] == windows[..k];
      RatiosRunErrorSticks(t, uuid, dirty, device, windows, k + 1);
    } else {
      assert windows[..k] == windows;
    }
  }

  lemma {:induction false} RequestsRunErrorSticks(t: Tree, uuid: string, dirty: int, device: string, stats: seq<string>, k: nat)
    requires IsDir(t, [uuid]) && k <= |stats| && RequestsRun(t, uuid, dirty, device, stats[..k]).failed.Some?
    ensures RequestsRun(t, uuid, dirty, device, stats) == RequestsRun(t, uuid, dirty, device, stats[..k])
    decreases |stats| - k
  {
    if k < |stats| {
      assert stats[..k + 1][..k] == stats[..k];
      RequestsRunErrorSticks(t, uuid, dirty, device, stats, k + 1);
    } else {
      assert stats[..k] == stats;
    }
  }

  /** Every device of a cache set gets the same values: the device shows only in the samples' tag. */
  lemma {:induction false} EmitSameForEveryDevice(t: Tree, uuid: string, dirty: int, d1: string, d2: string, plan: seq<Metric>)
    requires IsDir(t, [uuid])
    ensures var r1, r2 := Emit(t, uuid, dirty, d1, plan), Emit(t, uuid, dirty, d2, plan);
            && r1.failed == r2.failed && |r1.out| == |r2.out|
            && forall k :: 0 <= k < |r1.out| ==> r1.out[k].(device := d2) == r2.out[k] && r2.out[k].device == d2
  {
    if plan != [] {
      var init := plan[..|plan| - 1];
      EmitSameForEveryDevice(t, uuid, dirty, d1, d2, init);
      assert forall k :: 0 <= k < |init| ==> plan[k] == init[k];
    }
  }

  lemma {:induction false} RatiosRunIsEmit(t: Tree, uuid: string, dirty: int, device: string, windows: seq<string>)
    requires IsDir(t, [uuid])
    ensures RatiosRun(t, uuid, dirty, device, windows) == Emit(t, uuid, dirty, device, RatioPlan(windows))
  {
    if windows != [] {
      var init := windows[..|windows| - 1];
      RatiosRunIsEmit(t, uuid, dirty, device, init);
      var plan := RatioPlan(windows);
      assert plan[..|plan| - 1] == RatioPlan(init);
    }
  }

  lemma {:induction false} RequestsRunIsEmit(t: Tree, uuid: string, dirty: int, device: string, stats: seq<string>)
    requires IsDir(t, [uuid])
    ensures RequestsRun(t, uuid, dirty, device, stats) == Emit(t, uuid, dirty, device, RequestPlan(stats))
  {
    if stats != [] {
      var init := stats[..|stats| - 1];
      RequestsRunIsEmit(t, uuid, dirty, device, init);
      var plan := RequestPlan(stats);
      assert plan[..|plan| - 1] == RequestPlan(init);
    }
  }

  /** The loops of read_callback dispatch exactly the plan, in order. */
  lemma DeviceRunIsPlan(t: Tree, uuid: string, dirty: int, device: string)
    requires IsDir(t, [uuid])
    ensures DeviceRun(t, uuid, dirty, device) == Emit(t, uuid, dirty, device, Plan)
  {
    var ratios, requests := RatioPlan(Windows), RequestPlan(RequestStats);
    PlanParts();
    RatiosRunIsEmit(t, uuid, dirty, device, Windows);
    RequestsRunIsEmit(t, uuid, dirty, device, RequestStats);
    EmitAppend(t, uuid, dirty, device, [DirtyMetric], ratios);
    EmitAppend(t, uuid, dirty, device, [DirtyMetric] + ratios, requests);
    EmitAppend(t, uuid, dirty, device, [DirtyMetric] + ratios + requests, [BypassedMetric]);
    assert [DirtyMetric][..0] == [] && [BypassedMetric][..0] == [];
    ThenDone(Dispatch(t, uuid, dirty, device, DirtyMetric));
    ThenDone(Dispatch(t, uuid, dirty, device, BypassedMetric));
  }

  /**
   * A device that is dispatched in full gets exactly twelve samples, all
   * tagged with it: first the dirty data of its cache set, then the four
   * ratios, the six request counters and the bypassed bytes.
   */
  lemma DeviceRunSamples(t: Tree, uuid: string, dirty: int, device: string)
    requires IsDir(t, [uuid]) && DeviceRun(t, uuid, dirty, device).failed.None?
    ensures var out := DeviceRun(t, uuid, dirty, device).out;
            && |out| == 12
            && (forall k :: 0 <= k < 12 ==> out[k].device == device)
            && out[0] == Sample(device, "df_complex", "dirty_data", dirty as real)
            && (forall i :: 0 <= i < 4 ==>
                  CacheRatio(t, uuid, Windows[i]).Ok?
                  && out[1 + i] == Sample(device, "cache_ratio", Windows[i], CacheRatio(t, uuid, Windows[i]).value))
            && (forall i :: 0 <= i < 6 ==>
                  CacheResult(t, uuid, RequestStats[i]).Ok?
                  && out[5 + i] == Sample(device, "requests", RequestStats[i], CacheResult(t, uuid, RequestStats[i]).value as real))
            && Bypassed(t, uuid).Ok?
            && out[11] == Sample(device, "bytes", "bypassed", Bypassed(t, uuid).value as real)
  {
    DeviceRunIsPlan(t, uuid, dirty, device);
    EmitSamples(t, uuid, dirty, device, Plan);
    PlanTags();
  }

  /** All devices of a cache set get the same values and the same exception, tagged with their own names. */
  lemma DeviceRunSameForEveryDevice(t: Tree, uuid: string, dirty: int, d1: string, d2: string)
    requires IsDir(t, [uuid])
    ensures var r1, r2 := DeviceRun(t, uuid, dirty, d1), DeviceRun(t, uuid, dirty, d2);
            && r1.failed == r2.failed && |r1.out| == |r2.out|
            && forall k :: 0 <= k < |r1.out| ==> r1.out[k].(device := d2) == r2.out[k] && r2.out[k].device == d2
  {
    DeviceRunIsPlan(t, uuid, dirty, d1);
    DeviceRunIsPlan(t, uuid, dirty, d2);
    EmitSameForEveryDevice(t, uuid, dirty, d1, d2, Plan);
  }

  /** A device dispatched in full gets twelve samples, the first its cache set's dirty data. */
  lemma DeviceRunHead(t: Tree, uuid: string, dirty: int, device: string)
    requires IsDir(t, [uuid]) && DeviceRun(t, uuid, dirty, device).failed.None?
    ensures |DeviceRun(t, uuid, dirty, device).out| == 12
    ensures DeviceRun(t, uuid, dirty, device).out[0] == Sample(device, "df_complex", "dirty_data", dirty as real)
  {
    DeviceRunSamples(t, uuid, dirty, device);
  }

  // ------------------------------------------------------ the device loop

  lemma {:induction false} RunEachErrorSticks(body: string -> Run, xs: seq<string>, k: nat)
    requires k <= |xs| && RunEach(body, xs[..k]).failed.Some?
    ensures RunEach(body, xs) == RunEach(body, xs[..k])
    decreases |xs| - k
  {
    if k < |xs| {
      assert xs[..k + 1][..k] == xs[..k];
      RunEachErrorSticks(body, xs, k + 1);
    } else {
      assert xs[..k] == xs;
    }
  }

  /**
   * A loop without an exception whose body dispatches twelve samples when it
   * raises nothing: the i-th element's samples form the i-th block of twelve.
   */
  lemma {:induction false} RunEachBlocks(body: string -> Run, xs: seq<string>)
    requires RunEach(body, xs).failed.None?
    requires forall x :: body(x).failed.None? ==> |body(x).out| == 12
    ensures |RunEach(body, xs).out| == 12 * |xs|
    ensures forall i :: 0 <= i < |xs| ==>
              body(xs[i]).failed.None? && RunEach(body, xs).out[12 * i..12 * i + 12] == body(xs[i]).out
  {
    if xs != [] {
      var init := xs[..|xs| - 1];
      var before, last := RunEach(body, init), body(xs[|xs| - 1]);
      RunEachBlocks(body, init);
      var out := before.out + last.out;
      forall i | 0 <= i < |xs|
        ensures body(xs[i]).failed.None? && out[12 * i..12 * i + 12] == body(xs[i]).out
      {
        if i < |init| {
          assert xs[i] == init[i];
          assert out[12 * i..12 * i + 12] == before.out[12 * i..12 * i + 12];
        } else {
          assert out[12 * i..12 * i + 12] == last.out;
        }
      }
    }
  }

  /**
   * A device loop without an exception dispatches twelve samples per
   * device, the i-th device's in the i-th block of twelve, which starts with
   * the dirty data of the cache set.
   */
  lemma DevicesRunBlocks(t: Tree, uuid: string, dirty: int, devices: seq<string>)
    requires IsDir(t, [uuid]) && DevicesRun(t, uuid, dirty, devices).failed.None?
    ensures var out := DevicesRun(t, uuid, dirty, devices).out;
            && |out| == 12 * |devices|
            && forall i :: 0 <= i < |devices| ==>
                 DeviceRun(t, uuid, dirty, devices[i]).failed.None?
                 && out[12 * i..12 * i + 12] == DeviceRun(t, uuid, dirty, devices[i]).out
                 && out[12 * i] == Sample(devices[i], "df_complex", "dirty_data", dirty as real)
  {
    var body := DeviceBody(t, uuid, dirty);
    forall x | body(x).failed.None?
      ensures |body(x).out| == 12
    {
      DeviceRunHead(t, uuid, dirty, x);
    }
    RunEachBlocks(body, devices);
    var out := RunEach(body, devices).out;
    forall i | 0 <= i < |devices|
      ensures DeviceRun(t, uuid, dirty, devices[i]).failed.None?
      ensures out[12 * i..12 * i + 12] == DeviceRun(t, uuid, dirty, devices[i]).out
      ensures out[12 * i] == Sample(devices[i], "df_complex", "dirty_data", dirty as real)
    {
      assert body(devices[i]) == DeviceRun(t, uuid, dirty, devices[i]);
      DeviceRunHead(t, uuid, dirty, devices[i]);
      assert out[12 * i] == out[12 * i..12 * i + 12][0];
    }
  }

  // ------------------------------------------------------------ one cache set

  /** A cache set without bdev entries dispatches nothing and raises nothing. */
  lemma NoBdevsNoSamples(t: Tree, uuid: string)
    requires IsDir(t, [uuid]) && Bdevs(t.dirs[[uuid]]) == []
    ensures UuidRun(t, uuid) == Done
  {
    NoBdevsNoDirtyData(t, uuid);
    DevicesOkIff(t, uuid, t.dirs[[uuid]]);
    DevicesValue(t, uuid, t.dirs[[uuid]]);
  }

  /**
   * A cache set that raises nothing dispatches twelve samples for each of
   * its bdev entries, and each block starts with the same dirty data: the
   * sum over the whole cache set.
   */
  lemma UuidRunSamples(t: Tree, uuid: string)
    requires IsDir(t, [uuid]) && UuidRun(t, uuid).failed.None?
    ensures DirtyData(t, uuid).Ok? && Devices(t, uuid).Ok?
    ensures var out, devices := UuidRun(t, uuid).out, Devices(t, uuid).value;
            && |devices| == |Bdevs(t.dirs[[uuid]])|
            && |out| == 12 * |devices|
            && forall i :: 0 <= i < |devices| ==>
                 out[12 * i] == Sample(devices[i], "df_complex", "dirty_data", DirtyData(t, uuid).value as real)
  {
    var dirty, devices := DirtyData(t, uuid).value, Devices(t, uuid).value;
    assert UuidRun(t, uuid) == DevicesRun(t, uuid, dirty, devices);
    DevicesValue(t, uuid, t.dirs[[uuid]]);
    DevicesRunBlocks(t, uuid, dirty, devices);
  }

  // ---------------------------------------------------------------- the cycle

  lemma {:induction false} UuidsRunAppend(t: Tree, a: seq<string>, b: seq<string>)
    requires AllDirs(t, a) && AllDirs(t, b)
    ensures AllDirs(t, a + b)
    ensures UuidsRun(t, a + b) == Then(UuidsRun(t, a), UuidsRun(t, b))
    decreases |b|
  {
    assert forall k :: 0 <= k < |a + b| ==> (a + b)[k] == if k < |a| then a[k] else b[k - |a|];
    if b == [] {
      assert a + b == a;
      ThenDone(UuidsRun(t, a));
    } else {
      var init := b[..|b| - 1];
      assert (a + b)[..|a + b| - 1] == a + init;
      assert forall k :: 0 <= k < |init| ==> init[k] == b[k];
      UuidsRunAppend(t, a, init);
      ThenAssociative(UuidsRun(t, a), UuidsRun(t, init), UuidRun(t, b[|b| - 1]));
    }
  }

  lemma {:induction false} UuidsRunErrorSticks(t: Tree, uuids: seq<string>, k: nat)
    requires AllDirs(t, uuids) && k <= |uuids| && UuidsRun(t, uuids[..k]).failed.Some?
    ensures UuidsRun(t, uuids) == UuidsRun(t, uuids[..k])
    decreases |uuids| - k
  {
    if k < |uuids| {
      assert uuids[..k + 1][..k] == uuids[..k];
      UuidsRunErrorSticks(t, uuids, k + 1);
    } else {
      assert uuids[..k] == uuids;
    }
  }

  /** Without bcache loaded, a cycle dispatches nothing. */
  lemma NotLoadedNoSamples(t: Tree)
    requires !IsDir(t, [])
    ensures CycleRun(t) == Done
  {
  }

  // ---------------------------------------------------------------- methods

  /** The cache_ratio loop of read_callback: one value per statistics window. */
  method EmitRatios(t: Tree, uuid: string, dirty: int, device: string, windows: seq<string>)
    returns (samples: seq<Sample>, failed: Option<Error>)
    requires IsDir(t, [uuid])
    ensures Run(samples, failed) == RatiosRun(t, uuid, dirty, device, windows)
  {
    samples, failed := [], None;
    for i := 0 to |windows|
      invariant RatiosRun(t, uuid, dirty, device, windows[..i]) == Run(samples, None)
    {
      assert windows[..i + 1][..i] == windows[..i];
      var ratio := GetCacheRatio(t, uuid, windows[i]);
      if ratio.Err? {
        failed := Some(ratio.error);
        RatiosRunErrorSticks(t, uuid, dirty, device, windows, i + 1);
        return;
      }
      samples := samples + [Sample(device, "cache_ratio", windows[i], ratio.value)];
    }
    assert windows[..|windows|] == windows;
  }

  /** The requests loop of read_callback: one value per request counter. */
  method EmitRequests(t: Tree, uuid: string, dirty: int, device: string, stats: seq<string>)
    returns (samples: seq<Sample>, failed: Option<Error>)
    requires IsDir(t, [uuid])
    ensures Run(samples, failed) == RequestsRun(t, uuid, dirty, device, stats)
  {
    samples, failed := [], None;
    for i := 0 to |stats|
      invariant RequestsRun(t, uuid, dirty, device, stats[..i]) == Run(samples, None)
    {
      assert stats[..i + 1][..i] == stats[..i];
      var result := GetCacheResult(t, uuid, stats[i]);
      if result.Err? {
        failed := Some(result.error);
        RequestsRunErrorSticks(t, uuid, dirty, device, stats, i + 1);
        return;
      }
      samples := samples + [Sample(device, "requests", stats[i], result.value as real)];
    }
    assert stats[..|stats|] == stats;
  }

  /** The body of the device loop of read_callback: its twelve dispatch_value calls. */
  method EmitDevice(t: Tree, uuid: string, dirty: int, device: string) returns (samples: seq<Sample>, failed: Option<Error>)
    requires IsDir(t, [uuid])
    ensures Run(samples, failed) == DeviceRun(t, uuid, dirty, device)
  {
    samples := [Sample(device, "df_complex", "dirty_data", dirty as real)];
    failed := None;
    var ratios, raised := EmitRatios(t, uuid, dirty, device, Windows);
    samples := samples + ratios;
    if raised.Some? {
      failed := raised;
      return;
    }
    var requests, raisedToo := EmitRequests(t, uuid, dirty, device, RequestStats);
    samples := samples + requests;
    if raisedToo.Some? {
      failed := raisedToo;
      return;
    }
    var bypassed := GetBypassed(t, uuid);
    if bypassed.Err? {
      failed := Some(bypassed.error);
      return;
    }
    samples := samples + [Sample(device, "bytes", "bypassed", bypassed.value as real)];
  }

  /** The body of the cache set loop of read_callback. */
  method CollectCacheSet(t: Tree, uuid: string) returns (samples: seq<Sample>, failed: Option<Error>)
    requires IsDir(t, [uuid])
    ensures Run(samples, failed) == UuidRun(t, uuid)
  {
    samples, failed := [], None;
    var dirty := GetDirtyData(t, uuid);
    if dirty.Err? {
      failed := Some(dirty.error);
      return;
    }
    var devices := MapUuidToBcache(t, uuid);
    if devices.Err? {
      failed := Some(devices.error);
      return;
    }
    var ds := devices.value;
    ghost var body := DeviceBody(t, uuid, dirty.value);
    for j := 0 to |ds|
      invariant RunEach(body, ds[..j]) == Run(samples, None)
    {
      assert ds[..j + 1][..j] == ds[..j];
      var more, raised := EmitDevice(t, uuid, dirty.value, ds[j]);
      assert Run(more, raised) == body(ds[j]);
      samples := samples + more;
      if raised.Some? {
        failed := raised;
        RunEachErrorSticks(body, ds, j + 1);
        return;
      }
    }
    assert ds[..|ds|] == ds;
  }

  /** read_callback. */
  method ReadCallback(t: Tree) returns (out: seq<Sample>, failed: Option<Error>)
    ensures Run(out, failed) == CycleRun(t)
  {
    out, failed := [], None;
    var uuids := BcacheUuids(t);
    UuidsAreCacheSets(t);
    assert AllDirs(t, uuids);
    for i := 0 to |uuids|
      invariant UuidsRun(t, uuids[..i]) == Run(out, None)
    {
      assert uuids[..i + 1][..i] == uuids[..i];
      var samples, raised := CollectCacheSet(t, uuids[i]);
      out := out + samples;
      if raised.Some? {
        failed := raised;
        UuidsRunErrorSticks(t, uuids, i + 1);
        return;
      }
    }
    assert uuids[..|uuids|] == uuids;
  }
}
