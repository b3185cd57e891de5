/**
 * The registry of generated workbooks (`temp_files`, main.py:44 and
 * main_backup.py:41) together with the part of the file system it points into.
 *
 * `temp_files` is a Python dict: a map from file id to its record that also
 * remembers insertion order, which `list_files` and `cleanup_all_files` expose.
 * The store keeps the map in `files` and the order in `order`. The file system
 * is `disk`, a map from path to content; `os.path.exists(p)` is `p in disk`.
 * Paths whose `os.remove` raises (permissions, a file held open) are passed in
 * as `stuck`.
 */
module ArtifactStore {
  import opened Wrappers
  import Naming
  import SheetPlan

  /** `timedelta(hours=1)`, in seconds. */
  const TtlSeconds := 3600

  const ExpiredDetail := "File not found or expired"
  const MissingDetail := "File not found on disk"

  /** One `temp_files` record; `createdAt` is in seconds. */
  datatype FileInfo = FileInfo(path: string, filename: string, createdAt: int, preview: string)

  /** What a file holds: a workbook written by the direct conversion, or
      something the model does not look into (the producer's output). */
  datatype Content = Workbook(writes: seq<SheetPlan.SheetWrite>) | Opaque

  /** `download_file`: an HTTP 404 with its detail, or the file to stream. */
  datatype Download = NotFound(detail: string) | Serve(path: string, filename: string)

  /** One element of the `list_files` response. */
  datatype Listing = Listing(fileId: string, filename: string, createdAt: int, downloadUrl: string, preview: string)

  /** `cleanup_all_files`: the count of removed files, or the path whose removal raised. */
  datatype Cleared = Cleaned(deleted: nat) | RemoveFailed(path: string)

  predicate Distinct(s: seq<string>) {
    forall i, j :: 0 <= i < j < |s| ==> s[i] != s[j]
  }

  function Elems(s: seq<string>): set<string> {
    set x | x in s
  }

  /** `s` without the elements of `drop`, in the same order: what deleting keys
      from a dict does to its iteration order. */
  function Without(s: seq<string>, drop: set<string>): (r: seq<string>)
    ensures forall x :: x in r <==> x in s && x !in drop
    ensures Distinct(s) ==> Distinct(r)
  {
    if s == [] then []
    else
      var rest := Without(s[1..], drop);
      assert Distinct(s) ==> s[0] !in s[1..];
      if s[0] in drop then rest else [s[0]] + rest
  }

  lemma {:induction false} WithoutTwice(s: seq<string>, a: set<string>, b: set<string>)
    ensures Without(Without(s, a), b) == Without(s, a + b)
  {
    if s != [] {
      WithoutTwice(s[1..], a, b);
      if s[0] !in a {
        assert Without(s, a) == [s[0]] + Without(s[1..], a);
        assert Without(s, a)[1..] == Without(s[1..], a);
      }
    }
  }

  lemma WithoutNothing(s: seq<string>)
    ensures Without(s, {}) == s
  {
  }

  /** A list without repetitions has as many elements as its set. */
  lemma {:induction false} DistinctCard(s: seq<string>)
    requires Distinct(s)
    ensures |Elems(s)| == |s|
  {
    if s != [] {
      DistinctCard(s[1..]);
      assert Elems(s) == {s[0]} + Elems(s[1..]);
      assert s[0] !in Elems(s[1..]);
    }
  }

  /** The age test of `cleanup_expired_files`: strictly older than one hour. */
  predicate Expired(info: FileInfo, now: int) {
    now - info.createdAt > TtlSeconds
  }

  function ExpiredIds(files: map<string, FileInfo>, now: int): (r: set<string>)
    ensures r <= files.Keys
  {
    set id | id in files && Expired(files[id], now)
  }

  /** The paths of the records named by `ids`. */
  function PathSet(ids: set<string>, files: map<string, FileInfo>): set<string> {
    set id | id in ids && id in files :: files[id].path
  }

  function ListingOf(fileId: string, info: FileInfo): Listing {
    Listing(fileId, info.filename, info.createdAt, Naming.DownloadUrl(fileId), Naming.ListPreview(info.preview))
  }

  /** The paths of `ids`, in order. */
  function PathsOf(ids: seq<string>, files: map<string, FileInfo>): (r: seq<string>)
    requires forall id :: id in ids ==> id in files
    ensures |r| == |ids|
    ensures forall i :: 0 <= i < |ids| ==> r[i] == files[ids[i]].path
  {
    if ids == [] then [] else [files[ids[0]].path] + PathsOf(ids[1..], files)
  }

  // ---------------------------------------------------------------------------
  // The loop of cleanup_all_files, on the list of paths it visits
  // ---------------------------------------------------------------------------

  /** What the loop has done when it ends: files removed, the disk left behind,
      and the position whose removal raised, if one did. */
  datatype SweepResult = SweepResult(removed: nat, disk: map<string, Content>, stoppedAt: Option<nat>)

  function Sweep(paths: seq<string>, disk: map<string, Content>, stuck: set<string>): (r: SweepResult)
    ensures r.removed <= |paths|
    ensures r.stoppedAt.Some? ==> r.stoppedAt.value < |paths|
  {
    if paths == [] then SweepResult(0, disk, None)
    else if paths[0] in disk && paths[0] in stuck then SweepResult(0, disk, Some(0))
    else
      var rest := Sweep(paths[1..], disk - {paths[0]}, stuck);
      SweepResult((if paths[0] in disk then 1 else 0) + rest.removed, rest.disk,
                  if rest.stoppedAt.Some? then Some(rest.stoppedAt.value + 1) else None)
  }

  function Shift(at: Option<nat>, k: nat): Option<nat> {
    if at.Some? then Some(at.value + k) else None
  }

  lemma ShiftShift(at: Option<nat>, k: nat)
    ensures Shift(Shift(at, 1), k) == Shift(at, k + 1)
  {
  }

  /** One step of the loop: the path at `k` is handled, then the rest. */
  lemma SweepStep(paths: seq<string>, k: nat, disk: map<string, Content>, stuck: set<string>)
    requires k < |paths|
    ensures paths[k] in disk && paths[k] in stuck ==>
      Sweep(paths[k..], disk, stuck) == SweepResult(0, disk, Some(0))
    ensures !(paths[k] in disk && paths[k] in stuck) ==>
      var here := Sweep(paths[k..], disk, stuck);
      var next := Sweep(paths[k + 1..], disk - {paths[k]}, stuck);
      && here.disk == next.disk
      && here.removed == (if paths[k] in disk then 1 else 0) + next.removed
      && here.stoppedAt == Shift(next.stoppedAt, 1)
  {
    assert paths[k..][0] == paths[k] && paths[k..][1..] == paths[k + 1..];
  }

  /** After `k` steps of the loop, with disk `d` and `deleted` files removed so
      far, what is left to do ends where the whole sweep `total` ends. */
  ghost predicate SweptSoFar(total: SweepResult, paths: seq<string>, k: nat, d: map<string, Content>, stuck: set<string>, deleted: nat)
    requires k <= |paths|
  {
    var rest := Sweep(paths[k..], d, stuck);
    && total.disk == rest.disk
    && total.removed == deleted + rest.removed
    && total.stoppedAt == Shift(rest.stoppedAt, k)
  }

  lemma SweepAdvance(total: SweepResult, paths: seq<string>, k: nat, d: map<string, Content>, stuck: set<string>, deleted: nat)
    requires k < |paths| && !(paths[k] in d && paths[k] in stuck)
    requires SweptSoFar(total, paths, k, d, stuck, deleted)
    ensures SweptSoFar(total, paths, k + 1, d - {paths[k]}, stuck, if paths[k] in d then deleted + 1 else deleted)
  {
    SweepStep(paths, k, d, stuck);
    ShiftShift(Sweep(paths[k + 1..], d - {paths[k]}, stuck).stoppedAt, k);
  }

  lemma SweepStopsHere(total: SweepResult, paths: seq<string>, k: nat, d: map<string, Content>, stuck: set<string>, deleted: nat)
    requires k < |paths| && paths[k] in d && paths[k] in stuck
    requires SweptSoFar(total, paths, k, d, stuck, deleted)
    ensures total.disk == d && total.stoppedAt == Some(k)
  {
    SweepStep(paths, k, d, stuck);
  }

  /** How many of `paths` are on `disk`. */
  function Present(paths: seq<string>, disk: map<string, Content>): (n: nat)
    ensures n <= |paths|
  {
    if paths == [] then 0 else (if paths[0] in disk then 1 else 0) + Present(paths[1..], disk)
  }

  lemma {:induction false} PresentIgnoresOthers(paths: seq<string>, disk: map<string, Content>, p: string)
    requires p !in paths
    ensures Present(paths, disk - {p}) == Present(paths, disk)
  {
    if paths != [] {
      PresentIgnoresOthers(paths[1..], disk, p);
    }
  }

  /** With no path that refuses removal the loop runs to the end: every path is
      gone from the disk, nothing else is touched, and when the paths are
      distinct the count is the number of them that were on the disk. */
  lemma {:induction false} SweepCompletes(paths: seq<string>, disk: map<string, Content>, stuck: set<string>)
    requires forall i :: 0 <= i < |paths| ==> paths[i] !in stuck
    ensures var r := Sweep(paths, disk, stuck);
      && r.stoppedAt.None?
      && r.disk == disk - Elems(paths)
      && (Distinct(paths) ==> r.removed == Present(paths, disk))
  {
    if paths != [] {
      var tail := paths[1..];
      SweepCompletes(tail, disk - {paths[0]}, stuck);
      assert Elems(paths) == {paths[0]} + Elems(tail);
      assert disk - {paths[0]} - Elems(tail) == disk - Elems(paths);
      if Distinct(paths) {
        assert paths[0] !in tail;
        PresentIgnoresOthers(tail, disk, paths[0]);
      }
    }
  }

  /** When the loop stops, it stops at a path that was on the disk and refused
      removal, and every path before it was handled. */
  lemma {:induction false} SweepStopsAtStuck(paths: seq<string>, disk: map<string, Content>, stuck: set<string>)
    requires Sweep(paths, disk, stuck).stoppedAt.Some?
    ensures var k := Sweep(paths, disk, stuck).stoppedAt.value;
      && paths[k] in stuck
      && paths[k] in Sweep(paths, disk, stuck).disk
      && (forall i :: 0 <= i < k ==> paths[i] !in Sweep(paths, disk, stuck).disk)
  {
    if !(paths[0] in disk && paths[0] in stuck) {
      var tail := paths[1..];
      SweepStopsAtStuck(tail, disk - {paths[0]}, stuck);
      var r := Sweep(tail, disk - {paths[0]}, stuck);
      SweepKeepsRemoved(tail, disk - {paths[0]}, stuck, paths[0]);
      forall i | 1 <= i < r.stoppedAt.value + 1 ensures paths[i] !in r.disk {
        assert paths[i] == tail[i - 1];
      }
    }
  }

  /** The loop never puts a file back. */
  lemma {:induction false} SweepKeepsRemoved(paths: seq<string>, disk: map<string, Content>, stuck: set<string>, p: string)
    requires p !in disk
    ensures p !in Sweep(paths, disk, stuck).disk
  {
    if paths != [] && !(paths[0] in disk && paths[0] in stuck) {
      SweepKeepsRemoved(paths[1..], disk - {paths[0]}, stuck, p);
    }
  }

  lemma RemoveNothing<V>(m: map<string, V>)
    ensures m - {} == m
  {
    assert (m - {}).Keys == m.Keys;
  }

  lemma RemoveAbsent<V>(m: map<string, V>, x: string)
    requires x !in m
    ensures m - {x} == m
  {
    assert (m - {x}).Keys == m.Keys;
  }

  lemma RemoveOneMore<V>(m: map<string, V>, gone: set<string>, x: string)
    ensures m - gone - {x} == m - (gone + {x})
  {
    assert (m - gone - {x}).Keys == (m - (gone + {x})).Keys;
  }

  lemma PrefixElemsStep(s: seq<string>, k: nat)
    requires k < |s|
    ensures Elems(s[..k + 1]) == Elems(s[..k]) + {s[k]}
  {
    assert s[..k + 1] == s[..k] + [s[k]];
  }

  /** After the records of a prefix are deleted, what is left is the suffix. */
  lemma SuffixKeys(s: seq<string>, m: map<string, FileInfo>, k: nat)
    requires Distinct(s) && k < |s|
    requires forall id :: id in m <==> id in s
    ensures s[k] in m - Elems(s[..k])
  {
    assert s[k] !in s[..k];
  }

  /** Once the records of a prefix are deleted, the suffix is the insertion
      order of what is left. */
  lemma SuffixValid(s: seq<string>, m: map<string, FileInfo>, k: nat)
    requires Distinct(s) && k <= |s|
    requires forall id :: id in m <==> id in s
    ensures Distinct(s[k..])
    ensures forall id :: id in m - Elems(s[..k]) <==> id in s[k..]
  {
    assert s == s[..k] + s[k..];
    forall id | id in s[k..] ensures id !in s[..k] {
      var j :| 0 <= j < |s[k..]| && s[k..][j] == id;
      assert s[k + j] == id;
    }
  }

  lemma DiskAfterNoRemoval(disk: map<string, Content>, files: map<string, FileInfo>, stuck: set<string>)
    ensures disk - (PathSet({}, files) - stuck) == disk
  {
    assert PathSet({}, files) - stuck == {};
    assert (disk - {}).Keys == disk.Keys;
  }

  /** One step of the removal loop of `cleanup_expired_files` on the disk. */
  lemma DiskStep(d0: map<string, Content>, files: map<string, FileInfo>, gone: set<string>, id: string, stuck: set<string>)
    requires id in files
    ensures var d := d0 - (PathSet(gone, files) - stuck);
      var p := files[id].path;
      (if p in d && p !in stuck then d - {p} else d) == d0 - (PathSet(gone + {id}, files) - stuck)
  {
    var p := files[id].path;
    assert PathSet(gone + {id}, files) == PathSet(gone, files) + {p};
    var d := d0 - (PathSet(gone, files) - stuck);
    var d' := d0 - (PathSet(gone + {id}, files) - stuck);
    if p in d && p !in stuck {
      assert (d - {p}).Keys == d'.Keys;
    } else {
      assert d.Keys == d'.Keys;
    }
  }

  /** The first loop of `cleanup_expired_files` (main.py:65-69): the ids of
      the records strictly older than an hour, each once, in insertion order. */
  method CollectExpired(order: seq<string>, files: map<string, FileInfo>, now: int) returns (expired: seq<string>)
    requires Distinct(order) && forall id :: id in files <==> id in order
    ensures Distinct(expired) && Elems(expired) == ExpiredIds(files, now)
    ensures expired == Without(order, files.Keys - ExpiredIds(files, now))
  {
    expired := [];
    var i := 0;
    while i < |order|
      invariant 0 <= i <= |order|
      invariant expired == Without(order[..i], files.Keys - ExpiredIds(files, now))
    {
      var fileId := order[i];
      WithoutSnoc(order[..i], fileId, files.Keys - ExpiredIds(files, now));
      assert order[..i + 1] == order[..i] + [fileId];
      if Expired(files[fileId], now) {
        expired := expired + [fileId];
      }
      i := i + 1;
    }
    assert order[..i] == order;
  }

  /** The second loop of `cleanup_expired_files` (main.py:71-79): the records
      of `ids` go, and so do their files, except those whose removal raises. */
  method DropRecords(ids: seq<string>, files: map<string, FileInfo>, order: seq<string>, disk: map<string, Content>, stuck: set<string>)
    returns (files': map<string, FileInfo>, order': seq<string>, disk': map<string, Content>)
    requires Distinct(ids) && forall id :: id in ids ==> id in files
    ensures files' == files - Elems(ids)
    ensures order' == Without(order, Elems(ids))
    ensures disk' == disk - (PathSet(Elems(ids), files) - stuck)
  {
    assert Elems(ids[..0]) == {};
    WithoutNothing(order);
    DiskAfterNoRemoval(disk, files, stuck);
    files', order', disk' := files, order, disk;
    var k := 0;
    while k < |ids|
      invariant 0 <= k <= |ids|
      invariant files' == files - Elems(ids[..k])
      invariant order' == Without(order, Elems(ids[..k]))
      invariant disk' == disk - (PathSet(Elems(ids[..k]), files) - stuck)
    {
      var fileId := ids[k];
      assert fileId !in ids[..k];
      PrefixElemsStep(ids, k);
      var path := files'[fileId].path;
      DiskStep(disk, files, Elems(ids[..k]), fileId, stuck);
      if path in disk' && path !in stuck {
        disk' := disk' - {path};
      }
      if fileId in files' {
        RemoveOneMore(files, Elems(ids[..k]), fileId);
        files' := files' - {fileId};
        WithoutTwice(order, Elems(ids[..k]), {fileId});
        order' := Without(order', {fileId});
      }
      k := k + 1;
    }
    assert ids[..k] == ids;
  }

  lemma {:induction false} WithoutSnoc(s: seq<string>, x: string, drop: set<string>)
    ensures Without(s + [x], drop) == Without(s, drop) + if x in drop then [] else [x]
  {
    if s == [] {
      assert [] + [x] == [x];
    } else {
      assert (s + [x])[0] == s[0];
      assert (s + [x])[1..] == s[1..] + [x];
      WithoutSnoc(s[1..], x, drop);
    }
  }

  class Store {
    /** `TEMP_DIR`. */
    const dir: string
    /** `temp_files`, keyed by file id. */
    var files: map<string, FileInfo>
    /** The insertion order of `temp_files`. */
    var order: seq<string>
    var disk: map<string, Content>

    ghost predicate Valid()
      reads this`files, this`order
    {
      && Distinct(order)
      && (forall id :: id in files <==> id in order)
    }

    constructor (dir: string, disk: map<string, Content>)
      ensures Valid()
      ensures this.dir == dir && this.disk == disk && files == map[] && order == []
    {
      this.dir := dir;
      this.disk := disk;
      files := map[];
      order := [];
    }

    /** `temp_files[file_id] = {...}` with a fresh id (main.py:276-281 and its twins). */
    method Register(fileId: string, path: string, filename: string, now: int, payload: string)
      requires Valid() && fileId !in files
      modifies this
      ensures Valid()
      ensures files == old(files)[fileId := FileInfo(path, filename, now, Naming.StoredPreview(payload))]
      ensures order == old(order) + [fileId]
      ensures disk == old(disk)
    {
      files := files[fileId := FileInfo(path, filename, now, Naming.StoredPreview(payload))];
      order := order + [fileId];
    }

    /** `download_file` (main.py:386-406): a record whose file has vanished is
        dropped before the 404. */
    method Download(fileId: string) returns (r: Download)
      requires Valid()
      modifies this
      ensures Valid() && disk == old(disk)
      ensures fileId !in old(files) ==>
        r == NotFound(ExpiredDetail) && files == old(files) && order == old(order)
      ensures fileId in old(files) && old(files)[fileId].path !in disk ==>
        && r == NotFound(MissingDetail)
        && files == old(files) - {fileId}
        && order == Without(old(order), {fileId})
      ensures fileId in old(files) && old(files)[fileId].path in disk ==>
        && r == Serve(old(files)[fileId].path, old(files)[fileId].filename)
        && files == old(files) && order == old(order)
    {
      if fileId !in files {
        return NotFound(ExpiredDetail);
      }
      var info := files[fileId];
      if info.path !in disk {
        files := files - {fileId};
        order := Without(order, {fileId});
        return NotFound(MissingDetail);
      }
      r := Serve(info.path, info.filename);
    }

    /** `list_files` (main.py:408-426): one listing per record, in insertion
        order, and their count. */
    method ListFiles() returns (listing: seq<Listing>, count: nat)
      requires Valid()
      ensures |listing| == |order| && count == |listing| && count == |files|
      ensures forall i :: 0 <= i < |listing| ==> listing[i] == ListingOf(order[i], files[order[i]])
    {
      listing := [];
      var i := 0;
      while i < |order|
        invariant 0 <= i <= |order| && |listing| == i
        invariant forall k :: 0 <= k < i ==> listing[k] == ListingOf(order[k], files[order[k]])
      {
        var fileId := order[i];
        listing := listing + [ListingOf(fileId, files[fileId])];
        i := i + 1;
      }
      count := |listing|;
      DistinctCard(order);
      assert files.Keys == Elems(order);
    }

    /** `cleanup_expired_files` (main.py:62-79): collect the ids older than an
        hour, then remove each one's file (a failing removal is ignored) and
        its record. */
    method CleanupExpired(now: int, stuck: set<string>)
      requires Valid()
      modifies this
      ensures Valid()
      ensures files == old(files) - ExpiredIds(old(files), now)
      ensures order == Without(old(order), ExpiredIds(old(files), now))
      ensures disk == old(disk) - (PathSet(ExpiredIds(old(files), now), old(files)) - stuck)
    {
      var expired := CollectExpired(order, files, now);
      files, order, disk := DropRecords(expired, files, order, disk, stuck);
    }

    /** `cleanup_all_files` (main.py:428-450): walk a snapshot of the records in
        insertion order, removing each one's file when it exists and then the
        record; a removal that raises ends the walk with the records visited
        so far already gone. */
    method CleanupAll(stuck: set<string>) returns (r: Cleared)
      requires Valid()
      modifies this
      ensures Valid()
      ensures var sweep := Sweep(PathsOf(old(order), old(files)), old(disk), stuck);
        && disk == sweep.disk
        && (sweep.stoppedAt.None? ==> r == Cleaned(sweep.removed) && files == map[] && order == [])
        && (sweep.stoppedAt.Some? ==>
              var k := sweep.stoppedAt.value;
              && r == RemoveFailed(old(files)[old(order)[k]].path)
              && order == old(order)[k..]
              && files == old(files) - Elems(old(order)[..k]))
    {
      var left, d, deleted, stoppedAt := SweepRecords(order, files, disk, stuck);
      if stoppedAt.Some? {
        var k := stoppedAt.value;
        SuffixValid(order, files, k);
        r := RemoveFailed(files[order[k]].path);
        files, order, disk := left, order[k..], d;
      } else {
        SuffixValid(order, files, |order|);
        assert order[..|order|] == order;
        files, order, disk := left, [], d;
        r := Cleaned(deleted);
      }
    }
  }

  /** The loop of `cleanup_all_files` over a snapshot of the insertion order:
      the records left, the disk left, the count of removed files and the
      position whose removal raised, all as `Sweep` describes them. */
  method SweepRecords(order: seq<string>, files: map<string, FileInfo>, disk: map<string, Content>, stuck: set<string>)
    returns (left: map<string, FileInfo>, d: map<string, Content>, deleted: nat, stoppedAt: Option<nat>)
    requires Distinct(order) && forall id :: id in files <==> id in order
    ensures var sweep := Sweep(PathsOf(order, files), disk, stuck);
      && d == sweep.disk && stoppedAt == sweep.stoppedAt
      && (stoppedAt.None? ==> deleted == sweep.removed && left == map[])
      && (stoppedAt.Some? ==> stoppedAt.value < |order| && left == files - Elems(order[..stoppedAt.value]))
  {
    ghost var paths := PathsOf(order, files);
    ghost var total := Sweep(paths, disk, stuck);
    left, d, deleted := files, disk, 0;
    var k := 0;
    assert Elems(order[..0]) == {};
    RemoveNothing(files);
    while k < |order|
      invariant 0 <= k <= |order|
      invariant left == files - Elems(order[..k])
      invariant SweptSoFar(total, paths, k, d, stuck, deleted)
    {
      var fileId := order[k];
      SuffixKeys(order, files, k);
      var path := left[fileId].path;
      assert path == paths[k];
      if path in d && path in stuck {
        SweepStopsHere(total, paths, k, d, stuck, deleted);
        return left, d, deleted, Some(k);
      }
      SweepAdvance(total, paths, k, d, stuck, deleted);
      if path in d {
        d := d - {path};
        deleted := deleted + 1;
      } else {
        RemoveAbsent(d, path);
      }
      PrefixElemsStep(order, k);
      RemoveOneMore(files, Elems(order[..k]), fileId);
      left := left - {fileId};
      k := k + 1;
    }
    assert order[..k] == order;
    assert left.Keys == {};
    assert paths[k..] == [];
    stoppedAt := None;
  }

  // ---------------------------------------------------------------------------
  // Sequences of store operations
  // ---------------------------------------------------------------------------

  /** A record whose file is on disk is served right after registration. */
  method RegisterThenDownload(s: Store, fileId: string, path: string, filename: string, now: int, payload: string)
    returns (r: Download)
    requires s.Valid() && fileId !in s.files && path in s.disk
    modifies s
    ensures s.Valid()
    ensures r == Serve(path, filename)
  {
    s.Register(fileId, path, filename, now, payload);
    r := s.Download(fileId);
  }

  /** Once a record's file has been deleted behind the store's back, a download
      answers 404 and the listing no longer shows the record. */
  method DownloadPrunesMissing(s: Store, fileId: string) returns (r: Download, listing: seq<Listing>)
    requires s.Valid() && fileId in s.files && s.files[fileId].path !in s.disk
    modifies s
    ensures s.Valid()
    ensures r == NotFound(MissingDetail)
    ensures forall i :: 0 <= i < |listing| ==> listing[i].fileId != fileId
  {
    r := s.Download(fileId);
    var count;
    listing, count := s.ListFiles();
  }
}
