/**
 * Finding what to report on: bcache_uuids lists the cache sets, the
 * "bdev*" entries of a cache set are its backing devices, and
 * map_uuid_to_bcache names each one after the target of its "dev" link.
 */
module Discovery {
  import opened Wrappers
  import opened Builtins
  import opened SysTree

  /** str.startswith('bdev'). */
  predicate IsBdev(name: string) {
    |name| >= 4 && name[..4] == "bdev"
  }

  /** a can be obtained from b by deleting elements, keeping the order. */
  predicate IsSubsequence(a: seq<string>, b: seq<string>)
    decreases |b|
  {
    if b == [] then a == []
    else
      (a != [] && a[|a| - 1] == b[|b| - 1] && IsSubsequence(a[..|a| - 1], b[..|b| - 1]))
      || IsSubsequence(a, b[..|b| - 1])
  }

  /** The entries of a listing that start with "bdev", in listing order. */
  function Bdevs(names: seq<string>): (r: seq<string>)
    ensures forall x :: x in r <==> x in names && IsBdev(x)
    ensures forall k :: 0 <= k < |r| ==> IsBdev(r[k])
  {
    if names == [] then []
    else
      var last := names[|names| - 1];
      Bdevs(names[..|names| - 1]) + (if IsBdev(last) then [last] else [])
  }

  /** The bdev entries are picked out of the listing without reordering anything. */
  lemma {:induction false} BdevsSubsequence(names: seq<string>)
    ensures IsSubsequence(Bdevs(names), names)
  {
    if names != [] {
      var init, last := names[..|names| - 1], names[|names| - 1];
      BdevsSubsequence(init);
      if IsBdev(last) {
        var r := Bdevs(names);
        assert r[..|r| - 1] == Bdevs(init);
      } else {
        assert Bdevs(names) == Bdevs(init);
      }
    }
  }

  /** Listing more entries only appends their bdevs. */
  lemma {:induction false} BdevsAppend(a: seq<string>, b: seq<string>)
    ensures Bdevs(a + b) == Bdevs(a) + Bdevs(b)
    decreases |b|
  {
    if b == [] {
      assert a + b == a;
    } else {
      var init := b[..|b| - 1];
      assert (a + b)[..|a + b| - 1] == a + init;
      BdevsAppend(a, init);
    }
  }

  /** The bdev entries of a listing whose last entry is name. */
  lemma BdevsSnoc(names: seq<string>, name: string)
    ensures Bdevs(names + [name]) == Bdevs(names) + (if IsBdev(name) then [name] else [])
  {
    assert (names + [name])[..|names|] == names;
  }

  /** The entries of a listing that are directories themselves. */
  function CacheSetsAmong(t: Tree, names: seq<string>): (r: seq<string>)
    ensures forall c :: c in r <==> c in names && IsDir(t, [c])
  {
    if names == [] then []
    else
      var last := names[|names| - 1];
      CacheSetsAmong(t, names[..|names| - 1]) + (if IsDir(t, [last]) then [last] else [])
  }

  lemma {:induction false} CacheSetsSubsequence(t: Tree, names: seq<string>)
    ensures IsSubsequence(CacheSetsAmong(t, names), names)
  {
    if names != [] {
      var init, last := names[..|names| - 1], names[|names| - 1];
      CacheSetsSubsequence(t, init);
      if IsDir(t, [last]) {
        var r := CacheSetsAmong(t, names);
        assert r[..|r| - 1] == CacheSetsAmong(t, init);
      } else {
        assert CacheSetsAmong(t, names) == CacheSetsAmong(t, init);
      }
    }
  }

  /** What bcache_uuids returns: nothing when bcache is not loaded, else the directories in the root listing. */
  function Uuids(t: Tree): seq<string> {
    if IsDir(t, []) then CacheSetsAmong(t, t.dirs[[]]) else []
  }

  /** bcache_uuids gives exactly the listed children that are directories, in listing order. */
  lemma UuidsAreCacheSets(t: Tree)
    ensures !IsDir(t, []) ==> Uuids(t) == []
    ensures IsDir(t, []) ==> IsSubsequence(Uuids(t), t.dirs[[]])
    ensures forall u :: u in Uuids(t) <==> IsDir(t, []) && u in t.dirs[[]] && IsDir(t, [u])
  {
    if IsDir(t, []) {
      CacheSetsSubsequence(t, t.dirs[[]]);
    }
  }

  /** bcache_uuids. */
  method BcacheUuids(t: Tree) returns (uuids: seq<string>)
    ensures uuids == Uuids(t)
  {
    uuids := [];
    if !IsDir(t, []) {
      return;
    }
    var listing := t.dirs[[]];
    for i := 0 to |listing|
      invariant uuids == CacheSetsAmong(t, listing[..i])
    {
      assert listing[..i + 1][..i] == listing[..i];
      if IsDir(t, [listing[i]]) {
        uuids := uuids + [listing[i]];
      }
    }
    assert listing[..|listing|] == listing;
  }

  /** <uuid>/<entry>/dev, the link to the backing device. */
  function DevPath(uuid: string, entry: string): Path {
    [uuid, entry, "dev"]
  }

  /**
   * map_uuid_to_bcache over a listing: the basename of each bdev entry's dev
   * link target, or the OSError of os.readlink at the first entry without one.
   */
  function DevicesAmong(t: Tree, uuid: string, names: seq<string>): Result<seq<string>, Error> {
    if names == [] then Ok([])
    else
      var acc := DevicesAmong(t, uuid, names[..|names| - 1]);
      var entry := names[|names| - 1];
      if acc.Err? || !IsBdev(entry) then acc
      else if DevPath(uuid, entry) in t.links then Ok(acc.value + [Basename(t.links[DevPath(uuid, entry)])])
      else Err(OSError(DevPath(uuid, entry)))
  }

  function Devices(t: Tree, uuid: string): Result<seq<string>, Error>
    requires IsDir(t, [uuid])
  {
    DevicesAmong(t, uuid, t.dirs[[uuid]])
  }

  /** The device names as read from the links of the given bdev entries. */
  predicate DevicesOf(t: Tree, uuid: string, bdevs: seq<string>, ds: seq<string>) {
    |ds| == |bdevs|
    && forall k :: 0 <= k < |ds| ==> DevPath(uuid, bdevs[k]) in t.links && ds[k] == Basename(t.links[DevPath(uuid, bdevs[k])])
  }

  /** map_uuid_to_bcache succeeds exactly when every bdev entry has a dev link. */
  lemma {:induction false} DevicesOkIff(t: Tree, uuid: string, names: seq<string>)
    ensures DevicesAmong(t, uuid, names).Ok? <==> forall o :: o in Bdevs(names) ==> DevPath(uuid, o) in t.links
  {
    if names != [] {
      var init, entry := names[..|names| - 1], names[|names| - 1];
      DevicesOkIff(t, uuid, init);
      assert Bdevs(names) == Bdevs(init) + (if IsBdev(entry) then [entry] else []);
    }
  }

  lemma DevicesOfSnoc(t: Tree, uuid: string, bdevs: seq<string>, ds: seq<string>, entry: string)
    requires DevicesOf(t, uuid, bdevs, ds) && DevPath(uuid, entry) in t.links
    ensures DevicesOf(t, uuid, bdevs + [entry], ds + [Basename(t.links[DevPath(uuid, entry)])])
  {
    var bs, ds' := bdevs + [entry], ds + [Basename(t.links[DevPath(uuid, entry)])];
    forall k | 0 <= k < |ds'|
      ensures DevPath(uuid, bs[k]) in t.links && ds'[k] == Basename(t.links[DevPath(uuid, bs[k])])
    {
      if k < |ds| {
        assert bs[k] == bdevs[k] && ds'[k] == ds[k];
      }
    }
  }

  /** The device list has one element per bdev entry, in order, each the basename of its dev link. */
  lemma {:induction false} DevicesValue(t: Tree, uuid: string, names: seq<string>)
    requires DevicesAmong(t, uuid, names).Ok?
    ensures DevicesOf(t, uuid, Bdevs(names), DevicesAmong(t, uuid, names).value)
  {
    if names != [] {
      var init, entry := names[..|names| - 1], names[|names| - 1];
      DevicesValue(t, uuid, init);
      if IsBdev(entry) {
        assert Bdevs(names) == Bdevs(init) + [entry];
        DevicesOfSnoc(t, uuid, Bdevs(init), DevicesAmong(t, uuid, init).value, entry);
      } else {
        assert Bdevs(names) == Bdevs(init);
      }
    }
  }

  /** When os.readlink fails, it is at the first bdev entry without a dev link. */
  lemma {:induction false} DevicesFirstError(t: Tree, uuid: string, names: seq<string>)
    requires DevicesAmong(t, uuid, names).Err?
    ensures exists k :: 0 <= k < |Bdevs(names)|
              && DevicesAmong(t, uuid, names).error == OSError(DevPath(uuid, Bdevs(names)[k]))
              && DevPath(uuid, Bdevs(names)[k]) !in t.links
              && forall j :: 0 <= j < k ==> DevPath(uuid, Bdevs(names)[j]) in t.links
  {
    var init, entry := names[..|names| - 1], names[|names| - 1];
    var bs := Bdevs(names);
    assert bs == Bdevs(init) + (if IsBdev(entry) then [entry] else []);
    if DevicesAmong(t, uuid, init).Err? {
      DevicesFirstError(t, uuid, init);
      var k :| 0 <= k < |Bdevs(init)|
              && DevicesAmong(t, uuid, init).error == OSError(DevPath(uuid, Bdevs(init)[k]))
              && DevPath(uuid, Bdevs(init)[k]) !in t.links
              && forall j :: 0 <= j < k ==> DevPath(uuid, Bdevs(init)[j]) in t.links;
      assert bs[k] == Bdevs(init)[k];
      assert forall j :: 0 <= j < k ==> bs[j] == Bdevs(init)[j];
    } else {
      DevicesOkIff(t, uuid, init);
      var k := |Bdevs(init)|;
      assert bs[k] == entry;
      assert forall j :: 0 <= j < k ==> bs[j] in Bdevs(init);
    }
  }

  /** Device names never contain '/'. */
  lemma DeviceNamesHaveNoSlash(t: Tree, uuid: string, names: seq<string>)
    requires DevicesAmong(t, uuid, names).Ok?
    ensures forall k :: 0 <= k < |DevicesAmong(t, uuid, names).value| ==> '/' !in DevicesAmong(t, uuid, names).value[k]
  {
    DevicesValue(t, uuid, names);
    var bs, ds := Bdevs(names), DevicesAmong(t, uuid, names).value;
    forall k | 0 <= k < |ds|
      ensures '/' !in ds[k]
    {
      BasenameSpec(t.links[DevPath(uuid, bs[k])]);
    }
  }

  /** Once os.readlink has failed, the rest of the listing is never looked at. */
  lemma {:induction false} DevicesErrorSticks(t: Tree, uuid: string, names: seq<string>, k: nat)
    requires k <= |names| && DevicesAmong(t, uuid, names[..k]).Err?
    ensures DevicesAmong(t, uuid, names) == DevicesAmong(t, uuid, names[..k])
    decreases |names| - k
  {
    if k < |names| {
      assert names[..k + 1][..k] == names[..k];
      DevicesErrorSticks(t, uuid, names, k + 1);
    } else {
      assert names[..k] == names;
    }
  }

  /** map_uuid_to_bcache. */
  method MapUuidToBcache(t: Tree, uuid: string) returns (r: Result<seq<string>, Error>)
    requires IsDir(t, [uuid])
    ensures r == Devices(t, uuid)
  {
    var listing := t.dirs[[uuid]];
    var devices := [];
    for i := 0 to |listing|
      invariant DevicesAmong(t, uuid, listing[..i]) == Ok(devices)
    {
      var entry := listing[i];
      assert listing[..i + 1][..i] == listing[..i];
      if IsBdev(entry) {
        if DevPath(uuid, entry) !in t.links {
          r := Err(OSError(DevPath(uuid, entry)));
          DevicesErrorSticks(t, uuid, listing, i + 1);
          return;
        }
        devices := devices + [Basename(t.links[DevPath(uuid, entry)])];
      }
    }
    assert listing[..|listing|] == listing;
    r := Ok(devices);
  }
}
