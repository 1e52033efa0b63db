# bcache collectd plugin, modelled in Dafny

`bcache.py` is a collectd read plugin. On every read cycle it walks the Linux
bcache sysfs tree under `/sys/fs/bcache/`. It finds the cache sets (the
directories there), and for each cache set it finds the backing devices (the
`bdev*` entries). It then dispatches twelve values per backing device:

- the dirty data of the cache set;
- the cache hit ratio over four statistics windows;
- six five-minute request counters;
- the bytes that bypassed the cache.

This project models that pipeline and proves what it computes.

- The sysfs tree is one immutable value, `SysTree.Tree`. It has:
  - directory listings: a path maps to its entries, in listing order;
  - file contents: a path maps to the lines `readlines()` returns;
  - link targets: a path maps to the target `os.readlink` returns.

  A path is a list of components below `/sys/fs/bcache/`.
- `dispatch_value` is modelled as appending a `Collection.Sample` to the
  output sequence. The sample holds `(plugin_instance, type, type_instance, value)`.
- A Python exception is an `Err` value (`Builtins.Error`):
  - `IndexError`: `x[-1]` on an empty size;
  - `ValueError`: `int()` or `float()` refusing a line;
  - `OSError`: `os.readlink` on an entry without a `dev` link.

  An exception ends the read cycle. What the cycle returns is a
  `Collection.Run`: the samples dispatched before the exception, and the
  exception itself.
- The loops are methods that are proved against specification functions.
  `SumAmong`, `LastAmong`, `DevicesAmong` and `CacheSetsAmong` recurse
  on all but the last entry, so a loop's invariant is the function of the prefix
  it has read. `FirstBdev` instead recurses on the entries after the first
  one, as the early return of `get_cache_ratio` does. The invariant of
  `Ratio.GetCacheRatio` is that the entries not yet read have the same first
  bdev entry as the whole listing.
  - `Selection` holds the three ways a reader combines its `bdev*` entries,
    each generic over how one entry is read:
    - `SumAmong`: the running sum of `get_dirty_data`;
    - `LastAmong`: the value that every entry overwrites, in `get_cache_result`
      and `get_bypassed`;
    - `FirstBdev`: the early return of `get_cache_ratio`.
  - The loop methods are `Selection.SumBdevs` and `Selection.LastBdev`. The
    readers of `Dirty` and `Counters` instantiate them.
- `Collection.DeviceRun` follows the body of the device loop of
  `read_callback`: dirty data, the ratio loop, the requests loop, then
  bypassed bytes. `Collection.Plan` is a second, independent description of
  the same twelve dispatches. `Collection.DeviceRunIsPlan` proves the two
  equal.
- `CycleScenario` runs a whole read cycle on a concrete tree. The tree has
  one cache set, `abc-uuid`, and one backing device, `bdev0`, whose `dev`
  link leads to `sdb`. Every file holds one line ending in a newline, as
  the kernel writes it:
  - `dirty_data` holds `512k`;
  - every window counted 10 hits and 0 misses;
  - every other counter is 0.

  The cycle dispatches exactly twelve samples for `sdb` and
  raises nothing (`CycleScenario.CompleteCycle`). Without
  `stats_hour/cache_hits` the cycle keeps the dirty data and the five-minute
  ratio, and ends with `ValueError('')` (`CycleScenario.MissingHourHits`).

In three places the code does less than one might expect of the plugin. The model follows the code:

- The request counters and the bypassed bytes are the LAST `bdev*` entry's
  values, not the first's. The loops in `get_cache_result` and `get_bypassed`
  overwrite `value` on every iteration.
- A malformed or missing statistics file does not give a zero value. It
  raises, and the exception ends the whole read cycle.
  - A missing file reads as `''`.
  - `interpret_bytes('')` raises `IndexError`.
  - `int('')` and `float('')` raise `ValueError`.
- Verbose logging never happens. `configure_callback` assigns a local
  variable, so the global `verbose_logging` stays `False`.

## Model

| member | source | states |
|---|---|---|
| Builtins.StripLeadingSpec | bcache.py:32 | the left strip keeps the longest suffix that does not start with whitespace; everything it drops is whitespace |
| Builtins.StripTrailingSpec | bcache.py:32 | the right strip keeps the longest prefix that does not end with whitespace; everything it drops is whitespace |
| Builtins.StripSpec | bcache.py:32 | `strip()` returns a slice of its input that neither starts nor ends with whitespace, and only whitespace lies outside that slice |
| Builtins.BasenameSpec | bcache.py:116 | `os.path.basename` is a suffix of the path that contains no '/', and a '/' or the start of the path comes right before it |
| Builtins.StripLineEnd | bcache.py:32 | `strip()` removes the newline `readlines()` keeps, and nothing else from a line without whitespace |
| Builtins.BasenameAfterSlash | bcache.py:116 | the basename of `<dir>/<name>` is name whenever name has no '/' |
| Builtins.Trunc | bcache.py:53 | `int()` of a real number truncates toward zero: the result is at most the number when the number is not negative, and at least the number when it is negative, and never a whole unit away from it |
| Builtins.ParseIntRoundTrip | bcache.py:98 | `int()` reads back the decimal text of every integer, negative ones included |
| Builtins.ParseFloatExtendsParseInt | bcache.py:84-87 | every line `int()` accepts, `float()` accepts too, with the same value |
| Builtins.ParseFloatDecimal | bcache.py:53 | `float()` reads `<whole>.<digits>` as the whole number plus the decimal fraction |
| Builtins.SeparatorRefused | bcache.py:53 | `int()` and `float()` refuse a token that holds one of the information separators U+001C..U+001F anywhere, though `strip()` would remove them |
| Builtins.FloatExample | bcache.py:53 | `float("2.5")` is 2.5 |
| ByteSize.FactorIsPowerOf1024 | bcache.py:38-47 | the i-th unit of "kMGTPEZY" has the factor 1024^(i+1), that is 1 << 10 up to 1 << 80 |
| ByteSize.FactorOnlyForUnits | bcache.py:38-50 | a character has a factor exactly when it is one of the eight units |
| ByteSize.TimesIsProduct | bcache.py:53 | multiplying by the factor by repeated addition is the product |
| ByteSize.ScaledValue | bcache.py:53 | once `float()` accepts the number, the size is the product with the factor, truncated by `int()` |
| ByteSize.InterpretBytes | bcache.py:36-53 | `IndexError` exactly for the empty size; every other failure is a `ValueError` |
| ByteSize.InterpretWithUnit | bcache.py:49-53 | a unit as the last character is removed, and the rest is scaled by 1024^(i+1) |
| ByteSize.InterpretWithoutUnit | bcache.py:49-53 | a size not ending in a unit is scaled by 1, that is read by `float()` and truncated |
| ByteSize.InterpretWithFactor | bcache.py:49-53 | a number followed by a unit is the number times that unit's factor, truncated toward zero |
| ByteSize.InterpretNat | bcache.py:49-53 | a plain whole number of bytes reads back as itself |
| ByteSize.InterpretNatWithUnit | bcache.py:38-53 | `<n><unit>` is exactly n * 1024^(i+1) bytes |
| ByteSize.NoNumberEndsInUnit | bcache.py:53 | `float()` refuses digits followed by a unit letter |
| ByteSize.OnlyOneUnit | bcache.py:50-53 | only one unit character is removed: `<n><unit><unit>` raises a `ValueError` for `<n><unit>` |
| ByteSizeExamples.KibibyteExample | bcache.py:36-53 | "512k" is 524288 bytes |
| ByteSizeExamples.FractionalExample | bcache.py:36-53 | "2.5G" is 2684354560 bytes |
| ByteSizeExamples.EdgeExamples | bcache.py:36-53 | "0" is 0 bytes; "" raises `IndexError` at `x[-1]` |
| SysTree.FileToLine | bcache.py:29-33 | the line has no whitespace at either end; it is '' without lines, and never longer than the first line |
| SysTree.MissingFileReadsEmpty | bcache.py:21-33 | a file that cannot be read gives no lines, and so the line '' |
| SysTree.LaterLinesIgnored | bcache.py:29-33 | only the first line counts: replacing the lines after it never changes the result, which is the stripped first line |
| SysTree.CleanLineUnchanged | bcache.py:29-33 | a first line without whitespace comes back as it is |
| Discovery.Bdevs | bcache.py:74 | the entries `startswith('bdev')` selects are exactly the bdev-named entries of the listing |
| Discovery.BdevsSubsequence | bcache.py:74 | the bdev entries keep their listing order |
| Discovery.BdevsAppend | bcache.py:74 | the bdev entries of two listings one after the other are those of the first followed by those of the second |
| Discovery.UuidsAreCacheSets | bcache.py:56-68 | no cache sets when the root is not a directory; otherwise exactly the listed children that are directories, in listing order, as a subsequence of the root listing |
| Discovery.BcacheUuids | bcache.py:56-68 | the loop computes the cache-set list |
| Discovery.DevicesOkIff | bcache.py:112-117 | `map_uuid_to_bcache` succeeds exactly when every bdev entry has a `dev` link |
| Discovery.DevicesValue | bcache.py:112-117 | one device per bdev entry, in order, each the basename of that entry's `dev` link target |
| Discovery.DevicesFirstError | bcache.py:116 | a failed `os.readlink` is at the first bdev entry without a `dev` link |
| Discovery.DeviceNamesHaveNoSlash | bcache.py:116 | device names never contain '/' |
| Discovery.DevicesErrorSticks | bcache.py:114-116 | after `os.readlink` has raised, the rest of the listing is never read |
| Discovery.MapUuidToBcache | bcache.py:112-117 | the loop computes the device list, or the `OSError` of the first missing link |
| Selection.SumAmongIsSum | bcache.py:71-78 | a summing loop finishes exactly when every bdev entry reads; it then returns the sum of their values, and other entries never contribute |
| Selection.SumAmongFirstError | bcache.py:71-78 | a summing loop that raises, raises the error of the first bdev entry that does not read |
| Selection.SumAmongErrorSticks | bcache.py:73-77 | after a read has raised, the rest of the listing is never read |
| Selection.SumBdevs | bcache.py:71-78 | the summing loop computes the running sum over the whole listing |
| Selection.LastAmongIsLast | bcache.py:94-109 | an overwriting loop finishes exactly when every bdev entry reads; it then holds the last bdev entry's value, or the initial 0 when there is none |
| Selection.LastAmongFirstError | bcache.py:94-109 | an overwriting loop that raises, raises the error of the first bdev entry that does not read |
| Selection.LastAmongErrorSticks | bcache.py:96-99 | after a read has raised, the rest of the listing is never read |
| Selection.LastBdev | bcache.py:94-109 | the overwriting loop computes the last-wins value over the whole listing |
| Selection.FirstBdevIsFirst | bcache.py:82-83 | the early return happens at the first bdev entry, and never happens when there is none |
| Selection.FirstBdevIgnoresLater | bcache.py:82-90 | entries listed after the first bdev entry never matter |
| Dirty.GetDirtyData | bcache.py:71-78 | the summing loop of `get_dirty_data` computes the dirty data of the cache set |
| Dirty.DirtyDataIsSum | bcache.py:71-78 | the dirty data is read exactly when `interpret_bytes` reads every bdev entry's `dirty_data`; it is then the sum of those sizes |
| Dirty.DirtyDataFirstError | bcache.py:71-78 | a failed read is the error of the first bdev entry whose `dirty_data` `interpret_bytes` refuses |
| Dirty.NoBdevsNoDirtyData | bcache.py:72-78 | a cache set without bdev entries has 0 dirty data, whatever else it lists |
| CycleExamples.DirtyKibibytes | bcache.py:75-76 | a `dirty_data` file holding `<n>k` is n KiB of dirty data |
| CycleExamples.DirtyDataExample | bcache.py:71-78 | bdev entries holding "1k\n" and "2k\n", with a cache entry between them, give 3072 |
| Ratio.HitRatioMeaning | bcache.py:88-90 | the ratio times the number of lookups is 100 times the hits |
| Ratio.HitRatioBounds | bcache.py:88-90 | with counters that are not negative, the ratio lies between 0 and 100 |
| Ratio.HitRatioExtremes | bcache.py:88-90 | no hits among some lookups is 0; no misses is 100, including the guarded case of no lookups at all |
| Ratio.HitRatioExample | bcache.py:88-90 | 3 hits and 1 miss give 75; no lookups give 100 |
| Ratio.CacheRatioIsFirst | bcache.py:81-91 | only the first bdev entry's counters are used; without a bdev entry the ratio is 0 |
| Ratio.CacheRatioFails | bcache.py:84-87 | the ratio raises exactly when the first bdev entry's hits or misses are not numbers |
| Ratio.CacheRatioBounds | bcache.py:81-91 | when the first bdev entry's counters are not negative, the ratio is a percentage |
| Ratio.GetCacheRatio | bcache.py:81-91 | the loop with its early return computes the ratio of the first bdev entry |
| Counters.CacheResultIsLast | bcache.py:94-100 | a request counter is read exactly when every bdev entry's counter is an integer; it is then the last bdev entry's counter, or 0 without one |
| Counters.CacheResultFirstError | bcache.py:94-100 | a failed read is the error of the first bdev entry whose counter is not an integer |
| Counters.BypassedReadsAll | bcache.py:103-109 | the bypassed size is read exactly when `interpret_bytes` reads every bdev entry's size |
| Counters.BypassedIsLast | bcache.py:103-109 | the bypassed size is the last bdev entry's, or 0 without one |
| Counters.BypassedFirstError | bcache.py:103-109 | a failed read is the error of the first bdev entry whose size `interpret_bytes` refuses |
| Counters.GetCacheResult | bcache.py:94-100 | the overwriting loop computes the request counter |
| Counters.GetBypassed | bcache.py:103-109 | the overwriting loop computes the bypassed size |
| Collection.ThenAssociative | bcache.py:143-178 | running three steps in sequence does not depend on how they are grouped |
| Collection.ThenDone | bcache.py:143-178 | a step that dispatches nothing and raises nothing changes nothing |
| Collection.PlanTags | bcache.py:165-178 | twelve dispatches per device: `df_complex/dirty_data`, four `cache_ratio` windows, six `requests` counters in `read_callback`'s order, then `bytes/bypassed` |
| Collection.RatioPlan | bcache.py:169-171 | the ratio loop dispatches one `cache_ratio` value per window, in order |
| Collection.RequestPlan | bcache.py:173-175 | the requests loop dispatches one `requests` value per counter, in order |
| Collection.PlanParts | bcache.py:165-178 | the plan is the dirty data, the ratio loop, the requests loop and the bypassed bytes, in that order |
| Collection.EmitSamples | bcache.py:126-140 | a device's metrics are all dispatched exactly when every one of them reads; there is then one sample per metric, in order, tagged with the device and the metric and carrying its value |
| Collection.EmitFailure | bcache.py:165-178 | a device that raises has dispatched a proper prefix of its metrics, and the next metric is the one that raised |
| Collection.EmitAppend | bcache.py:165-178 | dispatching two lists of metrics one after the other is dispatching their concatenation |
| Collection.EmitErrorSticks | bcache.py:165-178 | after a metric has raised, no later metric is read |
| Collection.EmitSameForEveryDevice | bcache.py:146-178 | every device of a cache set gets the same values and the same failure; the device shows only as the sample's `plugin_instance` |
| Collection.RatiosRunIsEmit | bcache.py:169-171 | the ratio loop dispatches exactly its plan |
| Collection.RequestsRunIsEmit | bcache.py:173-175 | the requests loop dispatches exactly its plan |
| Collection.RatiosRunErrorSticks | bcache.py:169-171 | after a ratio has raised, no later window is read |
| Collection.RequestsRunErrorSticks | bcache.py:173-175 | after a counter has raised, no later counter is read |
| Collection.DeviceRunIsPlan | bcache.py:165-178 | the body of the device loop dispatches exactly the plan, in order |
| Collection.DeviceRunSamples | bcache.py:165-178 | a device that raises nothing gets exactly twelve samples, all tagged with it: the cache set's dirty data, the four ratios, the six request counters and the bypassed size, each with its value |
| Collection.DeviceRunSameForEveryDevice | bcache.py:146-178 | every device of a cache set gets the same twelve values, or the same exception, tagged with its own name |
| Collection.DeviceRunHead | bcache.py:165 | a device that raises nothing gets twelve samples, and the first is the cache set's dirty data |
| Collection.RunEachErrorSticks | bcache.py:145-148 | after a loop body has raised, the loop runs it on no later element |
| Collection.RunEachBlocks | bcache.py:148-178 | when every body that raises nothing dispatches twelve samples, a loop that raises nothing dispatches them in blocks of twelve, one per element, in order |
| Collection.DevicesRunBlocks | bcache.py:146-178 | a device loop that raises nothing dispatches twelve samples per device, in device order, and every block starts with the same dirty data |
| Collection.NoBdevsNoSamples | bcache.py:145-178 | a cache set without bdev entries dispatches nothing and raises nothing |
| Collection.UuidRunSamples | bcache.py:145-178 | a cache set that raises nothing dispatches twelve samples per bdev entry, each block starting with the cache set's summed dirty data |
| Collection.UuidsRunAppend | bcache.py:144-145 | the cache-set loop over two lists one after the other is the loop over their concatenation |
| Collection.UuidsRunErrorSticks | bcache.py:144-145 | after a cache set has raised, no later cache set is read |
| Collection.NotLoadedNoSamples | bcache.py:59-61 | when bcache is not loaded, a read cycle dispatches nothing |
| Collection.EmitRatios | bcache.py:169-171 | the ratio loop dispatches what its specification says |
| Collection.EmitRequests | bcache.py:173-175 | the requests loop dispatches what its specification says |
| Collection.EmitDevice | bcache.py:165-178 | the twelve `dispatch_value` calls of one device compute the device step |
| Collection.CollectCacheSet | bcache.py:146-178 | one cache set: `get_dirty_data`, then `map_uuid_to_bcache`, then the device loop |
| Collection.ReadCallback | bcache.py:143-178 | the whole read cycle: the samples and the exception are exactly those of the cycle's specification |
| CycleScenario.CountFile | bcache.py:29-33 | a file holding `<n>\n` reads as the line `<n>`, as the integer n by `int()` and as n by `float()` |
| CycleScenario.OnlyCacheSet | bcache.py:64-68 | of a root listing a cache set and two register files, only the cache set is a cache set |
| CycleScenario.OnlyBackingDevice | bcache.py:74 | of `bdev0` and `cache0` only `bdev0` is a backing device |
| CycleScenario.OneDevice | bcache.py:112-117 | with one bdev entry, `map_uuid_to_bcache` gives the one basename of its `dev` link target |
| CycleScenario.DevTargetName | bcache.py:116 | the link `../../../devices/virtual/block/sdb` names the device `sdb` |
| CycleScenario.OneDirty | bcache.py:71-78 | with one bdev entry, the dirty data of the cache set is that entry's |
| CycleScenario.OneRequest | bcache.py:94-100 | with one bdev entry, a request counter is that entry's, error included |
| CycleScenario.OneBypassed | bcache.py:103-109 | with one bdev entry, the bypassed size is that entry's, error included |
| CycleScenario.RatioOfCounts | bcache.py:81-91 | with one bdev entry whose window files hold counts, the ratio is computed from those counts |
| CycleScenario.RequestOfCount | bcache.py:94-100 | with one bdev entry whose counter file holds a count, the counter is that count |
| CycleScenario.BypassedOfCount | bcache.py:103-109 | with one bdev entry whose `bypassed` file holds a plain count, the bypassed size is that many bytes |
| CycleScenario.CycleOfOneDevice | bcache.py:143-178 | a cycle over one cache set with one device is that device's twelve dispatches |
| CycleScenario.CommonReads | bcache.py:143-148 | the scenario's cache set has the one device `sdb` and 524288 bytes of dirty data |
| CycleScenario.CompleteRatios | bcache.py:81-91 | 10 hits and 0 misses give a ratio of 100 in each of the four windows |
| CycleScenario.CompleteCounters | bcache.py:94-109 | the six request counters read 0, 0, 10, 0, 0, 0 and the bypassed size 0 |
| CycleScenario.EmitComplete | bcache.py:165-178 | a cache set whose metrics read those values dispatches the twelve expected samples for `sdb` and raises nothing |
| CycleScenario.CompleteCycle | bcache.py:143-178 | with every statistics file there, the cycle dispatches 524288 bytes of dirty data, four ratios of 100, the six counters and 0 bypassed bytes for `sdb`, in that order, and raises nothing |
| CycleScenario.HourRatioFails | bcache.py:84-85 | without `stats_hour/cache_hits` the hour ratio raises `ValueError('')` |
| CycleScenario.MissingHourHits | bcache.py:143-178 | without `stats_hour/cache_hits` the cycle keeps exactly the dirty data and the five-minute ratio of `sdb`, and ends with `ValueError('')` |

## Left out

- The collectd glue: `import collectd`, `collectd.Values()`, `val.dispatch()`,
  `register_config` and `register_read` (bcache.py:11, 129-140, 190-191).
  These are foreign calls. `dispatch_value` is the appending of a `Sample`,
  and the constant plugin name `bcache` is not stored in every sample.
- `log_verbose` (bcache.py:120-123) is not modelled. `configure_callback` never sets the global
  `verbose_logging`, so `log_verbose` returns at once. If it were reached, its
  format string, which takes two values but is given one, would raise `TypeError`.
- `configure_callback` (bcache.py:181-186) is not modelled. It only assigns a
  local variable and logs a warning through collectd, and its warning format
  string would raise `TypeError` for an unknown key.
- The `print` at bcache.py:60 is output only. It is dropped.
- The real operating-system calls (`open`, `os.listdir`, `os.path.isdir`,
  `os.readlink`) are replaced by the `Tree` value.
  - `os.listdir` of a cache-set directory is a precondition (`IsDir`) of the
    metric readers. `bcache_uuids` only returns directories, so
    `read_callback` always meets it.
  - `os.readlink` of a missing `dev` link is an error path (`OSError`), not a
    precondition. A cache set can list a `bdev*` entry without a `dev` link,
    so `read_callback` can reach it.
  - The tree does not change during a cycle: concurrent changes to sysfs are
    not modelled.
- Text is Python 3's `str`: `strip()` and the whitespace set are Unicode's.
  Under Python 2 `file_to_line` would have a byte string, whose `strip()`
  removes only ASCII whitespace.
- Floating point is not modelled. `float()` and the ratio use exact reals.
  Binary rounding, precision loss beyond 2^53 and overflow to infinity are
  left out. So are the tokens `inf`, `infinity` and `nan`. Underscores in
  numbers and non-ASCII digits are left out too: Python's `float()` and
  `int()` accept them, and the model's `ParseFloat` and `ParseInt` refuse them.
  - Builtins.ParseFloat accepts decimal notation with an optional sign,
    fraction and exponent. Python's `float()` accepts every such token.
    Before binary rounding its value is the model's, for magnitudes below
    about 1.8e308; above that Python gives infinity.
  - ByteSize.InterpretBytes gives `Ok` where `float(x) * factor` overflows
    to infinity, for example `1e400` or `1e308Y`. There `interpret_bytes`
    raises `OverflowError` at `int()`.
  - Ratio.RatioAt computes the exact ratio where a counter overflows to
    infinity. There `get_cache_ratio` returns `nan` for infinite hits, or 0
    for finite hits and infinite misses.
  - Builtins.ParseInt accepts an optional sign and ASCII digits, with
    surrounding whitespace.
  - Builtins.ParseIntRoundTrip holds for every integer, with no digit limit.
    From Python 3.11 on, `int()` refuses a string of more than 4300 digits
    by default. A counter that long does not occur in sysfs.
  - Both strip the whitespace `str.isspace()` accepts except the information
    separators U+001C..U+001F, as Python's `int()` and `float()` do. A token
    holding a separator is refused.
- Collection.Sample carries every value as an exact real. The source hands
  `dispatch_value` Python ints for the dirty data, the request counters, the
  bypassed size and the 0 and 100 returns of `get_cache_ratio`
  (bcache.py:89, 91), and floats for the other ratios. The values are the
  same; the int/float distinction is not kept.
- Path strings are not built. A path is a list of components.
  - The readers format `'%s/%s/%s/...'` after the root's trailing slash
    (bcache.py:75-107), so their paths hold a double slash, which the kernel
    ignores.
  - `'%s%s'` at bcache.py:64 and `os.path.join` at bcache.py:73-116 give
    single slashes.
- SysTree.FileToLines: the abstraction of `file_to_lines`, the lookup that
  stands in for `open()` and `readlines()`. It has no contract of its own.
  The promise of bcache.py:21-26 is stated by SysTree.MissingFileReadsEmpty
  and SysTree.FileToLine.
- Ratio.ReadFloat and Counters.ReadInt have no contract of their own.
  - Ratio.CacheRatioFails states the ratio's failure through `ParseFloat` of
    the file's line.
  - The Counters lemmas are stated in terms of `RequestOf` and `ReadInt`, and
    do not unfold `ReadInt` to `ParseInt`.
  - CycleScenario.CountFile states what both read from a file holding a
    count.
