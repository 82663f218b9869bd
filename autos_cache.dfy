/**
 * The iOS cache of automatic-samples (AUTOS) files already downloaded and parsed, and the
 * decision, file by file, whether a listed file has to be downloaded again.
 */
module AutosCache {
  import opened Wrappers
  import opened CivilDate

  /**
   * What the cache remembers of one parsed file: its name, the day it holds, its size and
   * its modification time (seconds since 1970), when the device reported one.
   */
  datatype AutosFileCacheEntry = AutosFileCacheEntry(
    filename: string, dateYear: int, dateMonth: int, dateDay: int, size: nat, modifiedTimestamp: Option<int>)

  /** The day a cache entry holds. */
  function EntryDate(e: AutosFileCacheEntry): Date {
    Date(e.dateYear, e.dateMonth, e.dateDay)
  }

  /** `day` lies within `fromDay` through `toDay`, both ends included. */
  predicate InRange(day: Date, fromDay: Date, toDay: Date) {
    NotAfter(fromDay, day) && NotAfter(day, toDay)
  }

  /** The cache: a dictionary from file name to entry, loaded once and updated in place. */
  class AutosFileCache {
    var cache: map<string, AutosFileCacheEntry>

    /** `loadFromDisk`: the stored dictionary when it decodes, otherwise an empty cache. */
    constructor (stored: Option<map<string, AutosFileCacheEntry>>)
      ensures cache == stored.GetOr(map[])
    {
      cache := stored.GetOr(map[]);
    }

    function GetCachedEntry(filename: string): (r: Option<AutosFileCacheEntry>)
      reads this
      ensures r.Some? <==> filename in cache
      ensures r.Some? ==> r.value == cache[filename]
    {
      if filename in cache then Some(cache[filename]) else None
    }

    /** Stores `entry` under its file name, replacing any earlier entry for that name. */
    method UpdateCache(entry: AutosFileCacheEntry)
      modifies this
      ensures cache == old(cache)[entry.filename := entry]
      ensures GetCachedEntry(entry.filename) == Some(entry)
      ensures forall f :: f != entry.filename ==> GetCachedEntry(f) == old(GetCachedEntry(f))
    {
      cache := cache[entry.filename := entry];
    }

    /**
     * `shouldDownloadFile`: download when the file is not cached, when its size changed,
     * when it was modified after the cached modification time, or when the cached day lies
     * in the requested range of days; otherwise the cached copy is enough.
     */
    function ShouldDownloadFile(filename: string, currentSize: nat, currentModified: Option<int>,
                                fromDay: Date, toDay: Date): (r: bool)
      reads this
      ensures filename !in cache ==> r
      ensures filename in cache && currentSize != cache[filename].size ==> r
      ensures (filename in cache && currentModified.Some? && cache[filename].modifiedTimestamp.Some? &&
               currentModified.value > cache[filename].modifiedTimestamp.value) ==> r
      ensures filename in cache && InRange(EntryDate(cache[filename]), fromDay, toDay) ==> r
      ensures r ==>
        (filename !in cache || currentSize != cache[filename].size ||
         (currentModified.Some? && cache[filename].modifiedTimestamp.Some? &&
          currentModified.value > cache[filename].modifiedTimestamp.value) ||
         InRange(EntryDate(cache[filename]), fromDay, toDay))
    {
      var cached := GetCachedEntry(filename);
      if cached.None? then true
      else if currentSize != cached.value.size then true
      else if currentModified.Some? && cached.value.modifiedTimestamp.Some? &&
              currentModified.value > cached.value.modifiedTimestamp.value then true
      else if InRange(EntryDate(cached.value), fromDay, toDay) then true
      else false
    }
  }

  /**
   * A file whose size and modification time match its cache entry is downloaded again
   * exactly when its cached day is requested.
   */
  lemma UnchangedFileFollowsRequestedDays(c: AutosFileCache, e: AutosFileCacheEntry, fromDay: Date, toDay: Date)
    requires e.filename in c.cache && c.cache[e.filename] == e
    ensures c.ShouldDownloadFile(e.filename, e.size, e.modifiedTimestamp, fromDay, toDay) <==>
      InRange(EntryDate(e), fromDay, toDay)
  {
  }

  /** A listed file that is newer than its cache entry, or missing from the cache, is always downloaded. */
  lemma ChangedFileIsDownloaded(c: AutosFileCache, name: string, size: nat, modified: int, fromDay: Date, toDay: Date)
    requires name in c.cache ==> c.cache[name].modifiedTimestamp.Some? && modified > c.cache[name].modifiedTimestamp.value
    ensures c.ShouldDownloadFile(name, size, Some(modified), fromDay, toDay)
  {
  }

  /** A directory entry of the AUTOS listing: name, size, and modification time if it has one. */
  datatype DirectoryEntry = DirectoryEntry(name: string, size: nat, modified: Option<int>)

  /** A listed file as the download step sees it. */
  datatype AutosFileEntry = AutosFileEntry(name: string, size: nat, modified: Option<int>)

  /** The listing can be turned into a dictionary: no name occurs twice. */
  predicate UniqueNames(dir: seq<DirectoryEntry>) {
    forall i, j :: 0 <= i < j < |dir| ==> dir[i].name != dir[j].name
  }

  /** The dictionary lookup by name. */
  function EntryNamed(dir: seq<DirectoryEntry>, name: string): (r: Option<DirectoryEntry>)
    ensures r.Some? <==> exists i :: 0 <= i < |dir| && dir[i].name == name
    ensures r.Some? ==> r.value in dir && r.value.name == name
  {
    if dir == [] then None
    else if dir[0].name == name then Some(dir[0])
    else
      var r := EntryNamed(dir[1..], name);
      assert forall i :: 0 < i < |dir| ==> dir[i] == dir[1..][i - 1];
      r
  }

  /** With unique names, the entry found under a name is the only one with it. */
  lemma EntryNamedIsTheEntry(dir: seq<DirectoryEntry>, i: nat)
    requires UniqueNames(dir) && i < |dir|
    ensures EntryNamed(dir, dir[i].name) == Some(dir[i])
  {
    var r := EntryNamed(dir, dir[i].name);
    var k :| 0 <= k < |dir| && dir[k] == r.value;
  }

  /** The listed files named in `names`, in the order of `names`; names not listed are dropped. */
  function ListedFiles(names: seq<string>, dir: seq<DirectoryEntry>): seq<AutosFileEntry> {
    if names == [] then []
    else
      var e := EntryNamed(dir, names[0]);
      (if e.Some? then [AutosFileEntry(names[0], e.value.size, e.value.modified)] else []) + ListedFiles(names[1..], dir)
  }

  /** The files the cache says to download, in their original order. */
  function KeepDownloads(c: AutosFileCache, files: seq<AutosFileEntry>, fromDay: Date, toDay: Date): seq<AutosFileEntry>
    reads c
  {
    if files == [] then []
    else
      (if c.ShouldDownloadFile(files[0].name, files[0].size, files[0].modified, fromDay, toDay) then [files[0]] else []) +
      KeepDownloads(c, files[1..], fromDay, toDay)
  }

  /**
   * `filesToDownload`: the names of `filteredNames` found in the listing, with the listed
   * size and modification time, that the cache says to download.
   */
  function FilesToDownload(c: AutosFileCache, filteredNames: seq<string>, dir: seq<DirectoryEntry>,
                           fromDay: Date, toDay: Date): seq<AutosFileEntry>
    requires UniqueNames(dir)
    reads c
  {
    KeepDownloads(c, ListedFiles(filteredNames, dir), fromDay, toDay)
  }

  /** Whether the file listed under `name` is kept, and if so as what. */
  function Decision(c: AutosFileCache, name: string, dir: seq<DirectoryEntry>, fromDay: Date, toDay: Date): seq<AutosFileEntry>
    reads c
  {
    var e := EntryNamed(dir, name);
    if e.Some? && c.ShouldDownloadFile(name, e.value.size, e.value.modified, fromDay, toDay)
    then [AutosFileEntry(name, e.value.size, e.value.modified)] else []
  }

  lemma {:induction false} KeepDownloadsDistributes(c: AutosFileCache, a: seq<AutosFileEntry>, b: seq<AutosFileEntry>,
                                                    fromDay: Date, toDay: Date)
    ensures KeepDownloads(c, a + b, fromDay, toDay) == KeepDownloads(c, a, fromDay, toDay) + KeepDownloads(c, b, fromDay, toDay)
  {
    if a != [] {
      assert (a + b)[1..] == a[1..] + b;
      KeepDownloadsDistributes(c, a[1..], b, fromDay, toDay);
    } else {
      assert a + b == b;
    }
  }

  /** The two passes (look up, then filter) decide name by name, front to back. */
  lemma FilesToDownloadStep(c: AutosFileCache, names: seq<string>, dir: seq<DirectoryEntry>, fromDay: Date, toDay: Date)
    requires UniqueNames(dir) && names != []
    ensures FilesToDownload(c, names, dir, fromDay, toDay) ==
      Decision(c, names[0], dir, fromDay, toDay) + FilesToDownload(c, names[1..], dir, fromDay, toDay)
  {
    var e := EntryNamed(dir, names[0]);
    var head := if e.Some? then [AutosFileEntry(names[0], e.value.size, e.value.modified)] else [];
    KeepDownloadsDistributes(c, head, ListedFiles(names[1..], dir), fromDay, toDay);
    if e.Some? {
      assert head[1..] == [];
    }
  }

  /**
   * A result entry is exactly a name of `filteredNames` that is listed, carrying the listed
   * size and modification time, for which the cache answers "download".
   */
  lemma {:induction false} FilesToDownloadMembers(c: AutosFileCache, names: seq<string>, dir: seq<DirectoryEntry>,
                                                  fromDay: Date, toDay: Date, f: AutosFileEntry)
    requires UniqueNames(dir)
    ensures f in FilesToDownload(c, names, dir, fromDay, toDay) <==>
      f.name in names && EntryNamed(dir, f.name).Some? &&
      f.size == EntryNamed(dir, f.name).value.size && f.modified == EntryNamed(dir, f.name).value.modified &&
      c.ShouldDownloadFile(f.name, f.size, f.modified, fromDay, toDay)
  {
    if names != [] {
      FilesToDownloadStep(c, names, dir, fromDay, toDay);
      FilesToDownloadMembers(c, names[1..], dir, fromDay, toDay, f);
      assert f.name in names <==> f.name == names[0] || f.name in names[1..];
    }
  }

  /** `xs` is `ys` with some elements left out, the rest in the same order. */
  predicate IsSubsequence(xs: seq<string>, ys: seq<string>)
    decreases |ys|
  {
    xs == [] || (ys != [] && ((xs[0] == ys[0] && IsSubsequence(xs[1..], ys[1..])) || IsSubsequence(xs, ys[1..])))
  }

  function NamesOf(files: seq<AutosFileEntry>): (r: seq<string>)
    ensures |r| == |files| && forall i :: 0 <= i < |files| ==> r[i] == files[i].name
  {
    seq(|files|, i requires 0 <= i < |files| => files[i].name)
  }

  /** The names of the result keep the order they have in `filteredNames`. */
  lemma {:induction false} FilesToDownloadKeepsOrder(c: AutosFileCache, names: seq<string>, dir: seq<DirectoryEntry>,
                                                     fromDay: Date, toDay: Date)
    requires UniqueNames(dir)
    ensures IsSubsequence(NamesOf(FilesToDownload(c, names, dir, fromDay, toDay)), names)
  {
    if names != [] {
      FilesToDownloadStep(c, names, dir, fromDay, toDay);
      FilesToDownloadKeepsOrder(c, names[1..], dir, fromDay, toDay);
      var rest := NamesOf(FilesToDownload(c, names[1..], dir, fromDay, toDay));
      var all := NamesOf(FilesToDownload(c, names, dir, fromDay, toDay));
      var d := Decision(c, names[0], dir, fromDay, toDay);
      if d == [] {
        assert all == rest;
      } else {
        assert all == [names[0]] + rest;
        assert all[1..] == rest;
      }
    }
  }

  /** The day of a parsed file, as the protobuf date gives it. */
  datatype PbDate = PbDate(year: int, month: int, day: int)

  /**
   * `updateCache(for:day:)`: after a file is parsed its name, day, size and modification
   * time are stored; from then on, while it stays unchanged, it is downloaded again only for
   * requests that include its day.
   */
  method UpdateCacheFor(c: AutosFileCache, fileEntry: AutosFileEntry, day: PbDate)
    modifies c
    ensures c.cache == old(c.cache)[fileEntry.name :=
      AutosFileCacheEntry(fileEntry.name, day.year, day.month, day.day, fileEntry.size, fileEntry.modified)]
    ensures forall fromDay, toDay :: c.ShouldDownloadFile(fileEntry.name, fileEntry.size, fileEntry.modified, fromDay, toDay) <==>
      InRange(Date(day.year, day.month, day.day), fromDay, toDay)
  {
    var entry := AutosFileCacheEntry(fileEntry.name, day.year, day.month, day.day, fileEntry.size, fileEntry.modified);
    c.UpdateCache(entry);
    forall fromDay, toDay
      ensures c.ShouldDownloadFile(fileEntry.name, fileEntry.size, fileEntry.modified, fromDay, toDay) <==>
        InRange(Date(day.year, day.month, day.day), fromDay, toDay)
    {
      UnchangedFileFollowsRequestedDays(c, entry, fromDay, toDay);
    }
  }
}
