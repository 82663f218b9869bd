/**
 * The PFTP file operations of the Android SDK: single-file GET, PUT and REMOVE requests,
 * and the recursive directory listing, each behind the PFTP session gate, with transport
 * errors translated for the caller.
 */
module PolarFileUtils {
  import opened Wrappers
  import opened Errors
  import opened ServiceClientUtils
  import opened DeviceCapabilities

  datatype PftpCommand = GET | PUT | REMOVE

  /** A `PbPFtpOperation`: a command and the path it applies to. */
  datatype PftpOperation = PftpOperation(command: PftpCommand, path: string)

  /** One entry of a `PbPFtpDirectory`; directory names end with '/'. */
  datatype DirectoryEntry = DirectoryEntry(name: string, size: int)

  /** One listed file: its full path and size. */
  datatype ListedFile = ListedFile(path: string, size: int)

  /**
   * The device's directories as a listing GET sees them: each known directory path answers
   * with its parsed entries or fails; any other path fails with `missing`.
   */
  datatype DeviceFs = DeviceFs(dirs: map<string, Result<seq<DirectoryEntry>, TransportError>>, missing: TransportError)

  /** The device's answer to a single-file GET or REMOVE. */
  type Responder = PftpOperation -> Result<seq<byte>, TransportError>

  /** The device's answer to a PUT of some data: None when the write completes. */
  type Writer = (PftpOperation, seq<byte>) -> Option<TransportError>

  /** The optional name filter: no filter keeps every entry. */
  predicate Accepts(condition: Option<string -> bool>, name: string) {
    condition.None? || condition.value(name)
  }

  predicate EndsWithSlash(s: string) {
    |s| > 0 && s[|s| - 1] == '/'
  }

  // ---------------------------------------------------------------------------
  // Path normalisation
  // ---------------------------------------------------------------------------

  /** The listing root: empty becomes "/", then a leading and a trailing '/' are ensured. */
  function NormalizedPath(p: string): (r: string)
    ensures |r| > 0 && r[0] == '/' && EndsWithSlash(r)
    ensures |p| > 0 && p[0] == '/' && EndsWithSlash(p) ==> r == p
    ensures |p| <= |r| <= |p| + 2
  {
    var a := if p == "" then "/" else p;
    var b := if a[0] != '/' then "/" + a else a;
    if b[|b| - 1] != '/' then b + "/" else b
  }

  /** The three reassignments of `var path` in `listFiles` and `getFileList`. */
  method NormalizePath(folderPath: string) returns (path: string)
    ensures |path| > 0 && path[0] == '/' && EndsWithSlash(path)
    ensures path == NormalizedPath(folderPath)
  {
    path := if folderPath == "" then "/" else folderPath;
    path := if path[0] != '/' then "/" + path else path;
    path := if path[|path| - 1] != '/' then path + "/" else path;
  }

  lemma NormalizedPathIsIdempotent(p: string)
    ensures NormalizedPath(NormalizedPath(p)) == NormalizedPath(p)
  {
  }

  lemma NormalizedPathExamples()
    ensures NormalizedPath("") == "/"
    ensures NormalizedPath("U/0") == "/U/0/"
    ensures NormalizedPath("/U/0") == "/U/0/"
    ensures NormalizedPath("/U/0/") == "/U/0/"
  {
  }

  // ---------------------------------------------------------------------------
  // The entries of one directory
  // ---------------------------------------------------------------------------

  /**
   * An insertion-ordered map (Kotlin's `mutableMapOf`): `keys` in first-insertion order,
   * `sizes` the current value of each key.
   */
  datatype Collected = Collected(keys: seq<string>, sizes: map<string, int>)

  /** Entry `i` is the last kept entry of `entries` whose full path is `k`. */
  predicate LastKeptAt(path: string, entries: seq<DirectoryEntry>, condition: Option<string -> bool>, k: string, i: int) {
    0 <= i < |entries| && Accepts(condition, entries[i].name) && path + entries[i].name == k &&
    forall j :: i < j < |entries| && Accepts(condition, entries[j].name) ==> path + entries[j].name != k
  }

  /**
   * The map `fetchRecursively` builds for one directory: every kept entry is stored under
   * `path + name`; a repeated key keeps its place and takes the later size.
   */
  function Collect(path: string, entries: seq<DirectoryEntry>, condition: Option<string -> bool>): (c: Collected)
    ensures forall k :: k in c.keys <==> k in c.sizes
    ensures forall a, b :: 0 <= a < b < |c.keys| ==> c.keys[a] != c.keys[b]
  {
    if entries == [] then Collected([], map[])
    else
      var c := Collect(path, entries[..|entries| - 1], condition);
      var e := entries[|entries| - 1];
      if !Accepts(condition, e.name) then c
      else
        var key := path + e.name;
        if key in c.sizes then Collected(c.keys, c.sizes[key := e.size])
        else Collected(c.keys + [key], c.sizes[key := e.size])
  }

  /** Every entry the filter accepts is stored, under `path + name`. */
  lemma {:induction false} CollectKeepsAccepted(path: string, entries: seq<DirectoryEntry>, condition: Option<string -> bool>)
    ensures forall i :: 0 <= i < |entries| && Accepts(condition, entries[i].name) ==> path + entries[i].name in Collect(path, entries, condition).sizes
  {
    if entries != [] {
      var init := entries[..|entries| - 1];
      CollectKeepsAccepted(path, init, condition);
      assert forall i :: 0 <= i < |init| ==> init[i] == entries[i];
    }
  }

  /**
   * Every stored key comes from an accepted entry, and its size is the size of the last
   * accepted entry with that key.
   */
  lemma {:induction false} CollectStoresLastSize(path: string, entries: seq<DirectoryEntry>, condition: Option<string -> bool>, k: string)
    requires k in Collect(path, entries, condition).sizes
    ensures exists i :: LastKeptAt(path, entries, condition, k, i) && Collect(path, entries, condition).sizes[k] == entries[i].size
  {
    var last := |entries| - 1;
    var e := entries[last];
    if Accepts(condition, e.name) && k == path + e.name {
      CollectStoresLastEntry(path, entries, condition);
    } else {
      var init := entries[..last];
      CollectKeepsOtherKeys(path, entries, condition, k);
      CollectStoresLastSize(path, init, condition, k);
      var i :| LastKeptAt(path, init, condition, k, i) && Collect(path, init, condition).sizes[k] == init[i].size;
      LastKeptAtExtends(path, entries, condition, k, i);
    }
  }

  /** The last entry, when accepted, is stored with its own size. */
  lemma CollectStoresLastEntry(path: string, entries: seq<DirectoryEntry>, condition: Option<string -> bool>)
    requires entries != [] && Accepts(condition, entries[|entries| - 1].name)
    ensures var k := path + entries[|entries| - 1].name;
      k in Collect(path, entries, condition).sizes &&
      LastKeptAt(path, entries, condition, k, |entries| - 1) &&
      Collect(path, entries, condition).sizes[k] == entries[|entries| - 1].size
  {
  }

  /** A key the last entry does not store keeps the value the earlier entries gave it. */
  lemma CollectKeepsOtherKeys(path: string, entries: seq<DirectoryEntry>, condition: Option<string -> bool>, k: string)
    requires entries != [] && k in Collect(path, entries, condition).sizes
    requires !(Accepts(condition, entries[|entries| - 1].name) && k == path + entries[|entries| - 1].name)
    ensures k in Collect(path, entries[..|entries| - 1], condition).sizes
    ensures Collect(path, entries, condition).sizes[k] == Collect(path, entries[..|entries| - 1], condition).sizes[k]
  {
  }

  lemma LastKeptAtExtends(path: string, entries: seq<DirectoryEntry>, condition: Option<string -> bool>, k: string, i: int)
    requires entries != [] && LastKeptAt(path, entries[..|entries| - 1], condition, k, i)
    requires !(Accepts(condition, entries[|entries| - 1].name) && k == path + entries[|entries| - 1].name)
    ensures LastKeptAt(path, entries, condition, k, i) && entries[i] == entries[..|entries| - 1][i]
  {
    var init := entries[..|entries| - 1];
    forall j | i < j < |entries| && Accepts(condition, entries[j].name)
      ensures path + entries[j].name != k
    {
      if j < |init| {
        assert entries[j] == init[j];
      }
    }
  }

  /** A directory none of whose entries the filter accepts stores nothing. */
  lemma {:induction false} NothingAcceptedStoresNothing(path: string, entries: seq<DirectoryEntry>, condition: Option<string -> bool>)
    requires forall e :: e in entries ==> !Accepts(condition, e.name)
    ensures Collect(path, entries, condition) == Collected([], map[])
  {
    if entries != [] {
      var init := entries[..|entries| - 1];
      assert forall e :: e in init ==> e in entries;
      assert entries[|entries| - 1] in entries;
      NothingAcceptedStoresNothing(path, init, condition);
    }
  }

  /** The entry loop of `fetchRecursively`, filling the insertion-ordered map in place. */
  method CollectEntries(path: string, entries: seq<DirectoryEntry>, condition: Option<string -> bool>) returns (c: Collected)
    ensures c == Collect(path, entries, condition)
  {
    c := Collected([], map[]);
    for i := 0 to |entries|
      invariant c == Collect(path, entries[..i], condition)
    {
      assert entries[..i + 1][..i] == entries[..i];
      var e := entries[i];
      if Accepts(condition, e.name) {
        var key := path + e.name;
        if key in c.sizes {
          c := Collected(c.keys, c.sizes[key := e.size]);
        } else {
          c := Collected(c.keys + [key], c.sizes[key := e.size]);
        }
      }
    }
    assert entries[..|entries|] == entries;
  }

  /** Every kept entry's key extends the directory path by the entry's (non-empty) name. */
  lemma CollectedKeysExtendPath(path: string, entries: seq<DirectoryEntry>, condition: Option<string -> bool>)
    requires forall e :: e in entries ==> e.name != ""
    ensures forall k :: k in Collect(path, entries, condition).keys ==> path <= k && |k| > |path|
  {
    var c := Collect(path, entries, condition);
    forall k | k in c.keys
      ensures path <= k && |k| > |path|
    {
      CollectStoresLastSize(path, entries, condition, k);
      var i :| LastKeptAt(path, entries, condition, k, i) && c.sizes[k] == entries[i].size;
      assert entries[i] in entries;
    }
  }

  // ---------------------------------------------------------------------------
  // Recursive listing
  // ---------------------------------------------------------------------------

  /** Listed entry names are non-empty, so every child path is longer than its parent. */
  predicate WellFormed(fs: DeviceFs) {
    forall p :: p in fs.dirs && fs.dirs[p].Ok? ==> forall e :: e in fs.dirs[p].value ==> e.name != ""
  }

  /** The known directories a listing from `path` can still reach: none shorter than `path`. */
  function Below(fs: DeviceFs, path: string): set<string> {
    set p | p in fs.dirs.Keys && |p| >= |path|
  }

  lemma BelowShrinks(fs: DeviceFs, parent: string, child: string)
    requires parent in fs.dirs && |child| > |parent|
    ensures Below(fs, child) < Below(fs, parent)
  {
    assert parent in Below(fs, parent) && parent !in Below(fs, child);
  }

  /** The GET paths a listing requests, in order, and what it yields. */
  datatype Fetched = Fetched(gets: seq<string>, result: Result<seq<ListedFile>, TransportError>)

  /** Every listed path has `root` as a prefix. */
  predicate AllUnder(files: seq<ListedFile>, root: string) {
    forall i :: 0 <= i < |files| ==> root <= files[i].path
  }

  /** No listed path is a directory. */
  predicate NoDirectories(files: seq<ListedFile>) {
    forall i :: 0 <= i < |files| ==> !EndsWithSlash(files[i].path)
  }

  /**
   * `fetchRecursively`: GET the directory, keep the entries the filter accepts, and emit
   * each one, replacing a directory by its own listing when `recurseDeep` is set. The
   * first failing request fails the whole listing.
   */
  function FetchRecursively(fs: DeviceFs, path: string, condition: Option<string -> bool>, recurseDeep: bool): (f: Fetched)
    requires WellFormed(fs)
    decreases Below(fs, path), 1
    ensures f.gets != [] && f.gets[0] == path
    ensures f.result.Ok? ==> AllUnder(f.result.value, path)
    ensures f.result.Ok? && recurseDeep ==> NoDirectories(f.result.value)
  {
    if path !in fs.dirs then Fetched([path], Err(fs.missing))
    else match fs.dirs[path]
      case Err(e) => Fetched([path], Err(e))
      case Ok(entries) =>
        var c := Collect(path, entries, condition);
        CollectedKeysExtendPath(path, entries, condition);
        var rest := ExpandAll(fs, path, c, 0, condition, recurseDeep);
        Fetched([path] + rest.gets, rest.result)
  }

  /** The `flatMap` over one directory's entries, from the `from`-th key on. */
  function ExpandAll(fs: DeviceFs, parent: string, c: Collected, from: nat, condition: Option<string -> bool>, recurseDeep: bool): (f: Fetched)
    requires WellFormed(fs) && parent in fs.dirs && from <= |c.keys|
    requires forall k :: k in c.keys ==> k in c.sizes && parent <= k && |k| > |parent|
    decreases Below(fs, parent), 0, |c.keys| - from
    ensures f.result.Ok? ==> AllUnder(f.result.value, parent)
    ensures f.result.Ok? && recurseDeep ==> NoDirectories(f.result.value)
  {
    if from == |c.keys| then Fetched([], Ok([]))
    else
      var k := c.keys[from];
      var head :=
        if EndsWithSlash(k) && recurseDeep then
          BelowShrinks(fs, parent, k);
          var sub := FetchRecursively(fs, k, condition, recurseDeep);
          assert sub.result.Ok? ==> AllUnder(sub.result.value, parent) by {
            if sub.result.Ok? {
              forall i | 0 <= i < |sub.result.value|
                ensures parent <= sub.result.value[i].path
              {
                PrefixTransitive(parent, k, sub.result.value[i].path);
              }
            }
          }
          sub
        else Fetched([], Ok([ListedFile(k, c.sizes[k])]));
      if head.result.Err? then head
      else
        var tail := ExpandAll(fs, parent, c, from + 1, condition, recurseDeep);
        Fetched(head.gets + tail.gets, if tail.result.Err? then tail.result else Ok(head.result.value + tail.result.value))
  }

  lemma PrefixTransitive(a: string, b: string, c: string)
    requires a <= b && b <= c
    ensures a <= c
  {
    assert c[..|a|] == b[..|a|];
  }

  /** The listed files of `c`'s keys from `from` on, each with its stored size. */
  function Files(c: Collected, from: nat): seq<ListedFile>
    requires from <= |c.keys|
    requires forall k :: k in c.keys ==> k in c.sizes
    decreases |c.keys| - from
  {
    if from == |c.keys| then [] else [ListedFile(c.keys[from], c.sizes[c.keys[from]])] + Files(c, from + 1)
  }

  /**
   * Without `recurseDeep`, a listing is exactly the directory's kept entries in
   * first-insertion order, directories included with their trailing '/'.
   */
  lemma {:induction false} ShallowListingIsOneDirectory(fs: DeviceFs, parent: string, c: Collected, from: nat, condition: Option<string -> bool>)
    requires WellFormed(fs) && parent in fs.dirs && from <= |c.keys|
    requires forall k :: k in c.keys ==> k in c.sizes && parent <= k && |k| > |parent|
    ensures ExpandAll(fs, parent, c, from, condition, false) == Fetched([], Ok(Files(c, from)))
    decreases |c.keys| - from
  {
    if from < |c.keys| {
      ShallowListingIsOneDirectory(fs, parent, c, from + 1, condition);
    }
  }

  lemma ShallowListing(fs: DeviceFs, path: string, entries: seq<DirectoryEntry>, condition: Option<string -> bool>)
    requires WellFormed(fs) && path in fs.dirs && fs.dirs[path] == Ok(entries)
    ensures FetchRecursively(fs, path, condition, false) == Fetched([path], Ok(Files(Collect(path, entries, condition), 0)))
  {
    var c := Collect(path, entries, condition);
    CollectedKeysExtendPath(path, entries, condition);
    ShallowListingIsOneDirectory(fs, path, c, 0, condition);
  }

  /** A directory with no kept entries lists as nothing, not as an error. */
  lemma EmptyDirectoryListsNothing(fs: DeviceFs, path: string, condition: Option<string -> bool>, recurseDeep: bool)
    requires WellFormed(fs) && path in fs.dirs && fs.dirs[path].Ok?
    requires forall e :: e in fs.dirs[path].value ==> !Accepts(condition, e.name)
    ensures FetchRecursively(fs, path, condition, recurseDeep) == Fetched([path], Ok([]))
  {
    NothingAcceptedStoresNothing(path, fs.dirs[path].value, condition);
  }

  /**
   * `file` is a plain entry of a directory the listing fetched: the directory `d` is one of
   * `gets` and lists an accepted entry that is not a directory, whose full path is the
   * file's path and which is the last accepted entry with that path, so its size is the
   * file's size.
   */
  ghost predicate ListedFrom(fs: DeviceFs, condition: Option<string -> bool>, gets: seq<string>, file: ListedFile) {
    exists d, i :: d in gets && d in fs.dirs && fs.dirs[d].Ok? &&
      LastKeptAt(d, fs.dirs[d].value, condition, file.path, i) &&
      file.size == fs.dirs[d].value[i].size && !EndsWithSlash(fs.dirs[d].value[i].name)
  }

  lemma ListedFromWider(fs: DeviceFs, condition: Option<string -> bool>, gets: seq<string>, wider: seq<string>, file: ListedFile)
    requires ListedFrom(fs, condition, gets, file)
    requires forall d :: d in gets ==> d in wider
    ensures ListedFrom(fs, condition, wider, file)
  {
    var d, i :| d in gets && d in fs.dirs && fs.dirs[d].Ok? &&
      LastKeptAt(d, fs.dirs[d].value, condition, file.path, i) &&
      file.size == fs.dirs[d].value[i].size && !EndsWithSlash(fs.dirs[d].value[i].name);
    assert d in wider;
  }

  /** A plain key of a fetched directory is listed from that directory. */
  lemma PlainKeyIsListedFrom(fs: DeviceFs, parent: string, condition: Option<string -> bool>, k: string)
    requires WellFormed(fs) && parent in fs.dirs && fs.dirs[parent].Ok?
    requires k in Collect(parent, fs.dirs[parent].value, condition).sizes && !EndsWithSlash(k)
    ensures ListedFrom(fs, condition, [parent], ListedFile(k, Collect(parent, fs.dirs[parent].value, condition).sizes[k]))
  {
    var entries := fs.dirs[parent].value;
    CollectStoresLastSize(parent, entries, condition, k);
    var i :| LastKeptAt(parent, entries, condition, k, i) && Collect(parent, entries, condition).sizes[k] == entries[i].size;
    assert entries[i] in entries;
    LastKeptNameIsPlain(parent, entries, condition, k, i);
    ListedFromWitness(fs, condition, [parent], ListedFile(k, entries[i].size), parent, i);
  }

  /** A plain key's last kept entry is not a directory either. */
  lemma LastKeptNameIsPlain(path: string, entries: seq<DirectoryEntry>, condition: Option<string -> bool>, k: string, i: int)
    requires LastKeptAt(path, entries, condition, k, i) && entries[i].name != "" && !EndsWithSlash(k)
    ensures !EndsWithSlash(entries[i].name)
  {
    var name := entries[i].name;
    assert k[|k| - 1] == name[|name| - 1];
  }

  lemma ListedFromWitness(fs: DeviceFs, condition: Option<string -> bool>, gets: seq<string>, file: ListedFile, d: string, i: int)
    requires d in gets && d in fs.dirs && fs.dirs[d].Ok?
    requires LastKeptAt(d, fs.dirs[d].value, condition, file.path, i)
    requires file.size == fs.dirs[d].value[i].size && !EndsWithSlash(fs.dirs[d].value[i].name)
    ensures ListedFrom(fs, condition, gets, file)
  {
  }

  /**
   * Soundness of the deep listing: every listed file is a plain entry, accepted by the
   * filter, of a directory the listing fetched, with that entry's full path and size.
   */
  lemma {:induction false} FetchRecursivelyIsSound(fs: DeviceFs, path: string, condition: Option<string -> bool>)
    requires WellFormed(fs)
    decreases Below(fs, path), 1
    ensures var f := FetchRecursively(fs, path, condition, true);
      f.result.Ok? ==> AllListedFrom(fs, condition, f.gets, f.result.value)
  {
    if path in fs.dirs && fs.dirs[path].Ok? {
      var entries := fs.dirs[path].value;
      var c := Collect(path, entries, condition);
      CollectedKeysExtendPath(path, entries, condition);
      ExpandAllIsSound(fs, path, c, 0, condition);
    }
  }

  lemma {:induction false} ExpandAllIsSound(fs: DeviceFs, parent: string, c: Collected, from: nat, condition: Option<string -> bool>)
    requires WellFormed(fs) && parent in fs.dirs && fs.dirs[parent].Ok? && from <= |c.keys|
    requires c == Collect(parent, fs.dirs[parent].value, condition)
    requires forall k :: k in c.keys ==> k in c.sizes && parent <= k && |k| > |parent|
    decreases Below(fs, parent), 0, |c.keys| - from
    ensures var f := ExpandAll(fs, parent, c, from, condition, true);
      f.result.Ok? ==> AllListedFrom(fs, condition, [parent] + f.gets, f.result.value)
  {
    var f := ExpandAll(fs, parent, c, from, condition, true);
    if from < |c.keys| && f.result.Ok? {
      var k := c.keys[from];
      var tail := ExpandAll(fs, parent, c, from + 1, condition, true);
      ExpandAllStep(fs, parent, c, from, condition);
      ExpandAllIsSound(fs, parent, c, from + 1, condition);
      AllListedFromWider(fs, condition, [parent] + tail.gets, [parent] + f.gets, tail.result.value);
      if EndsWithSlash(k) {
        BelowShrinks(fs, parent, k);
        var sub := FetchRecursively(fs, k, condition, true);
        FetchRecursivelyIsSound(fs, k, condition);
        AllListedFromWider(fs, condition, sub.gets, [parent] + f.gets, sub.result.value);
        AllListedFromConcat(fs, condition, [parent] + f.gets, sub.result.value, tail.result.value);
      } else {
        FileThenSound(fs, parent, condition, k, [parent] + f.gets, tail.result.value);
      }
    }
  }

  /** A plain key of a fetched directory, put before files already known to be sound. */
  lemma FileThenSound(fs: DeviceFs, parent: string, condition: Option<string -> bool>, k: string, gets: seq<string>, rest: seq<ListedFile>)
    requires WellFormed(fs) && parent in fs.dirs && fs.dirs[parent].Ok? && parent in gets
    requires k in Collect(parent, fs.dirs[parent].value, condition).sizes && !EndsWithSlash(k)
    requires AllListedFrom(fs, condition, gets, rest)
    ensures AllListedFrom(fs, condition, gets, [ListedFile(k, Collect(parent, fs.dirs[parent].value, condition).sizes[k])] + rest)
  {
    var file := ListedFile(k, Collect(parent, fs.dirs[parent].value, condition).sizes[k]);
    PlainKeyIsListedFrom(fs, parent, condition, k);
    AllListedFromWider(fs, condition, [parent], gets, [file]);
    AllListedFromConcat(fs, condition, gets, [file], rest);
  }

  /** Every file of `files` is listed from one of `gets`. */
  ghost predicate AllListedFrom(fs: DeviceFs, condition: Option<string -> bool>, gets: seq<string>, files: seq<ListedFile>) {
    forall j :: 0 <= j < |files| ==> ListedFrom(fs, condition, gets, files[j])
  }

  lemma AllListedFromWider(fs: DeviceFs, condition: Option<string -> bool>, gets: seq<string>, wider: seq<string>, files: seq<ListedFile>)
    requires AllListedFrom(fs, condition, gets, files)
    requires forall d :: d in gets ==> d in wider
    ensures AllListedFrom(fs, condition, wider, files)
  {
    forall j | 0 <= j < |files|
      ensures ListedFrom(fs, condition, wider, files[j])
    {
      ListedFromWider(fs, condition, gets, wider, files[j]);
    }
  }

  lemma AllListedFromConcat(fs: DeviceFs, condition: Option<string -> bool>, gets: seq<string>, a: seq<ListedFile>, b: seq<ListedFile>)
    requires AllListedFrom(fs, condition, gets, a) && AllListedFrom(fs, condition, gets, b)
    ensures AllListedFrom(fs, condition, gets, a + b)
  {
    forall j | 0 <= j < |a + b|
      ensures ListedFrom(fs, condition, gets, (a + b)[j])
    {
      if j >= |a| {
        assert (a + b)[j] == b[j - |a|];
      }
    }
  }

  /**
   * One step of a successful expansion: the `from`-th key's part (its sub-listing, or the
   * file itself) succeeded, and so did the rest, and the two are concatenated.
   */
  lemma ExpandAllStep(fs: DeviceFs, parent: string, c: Collected, from: nat, condition: Option<string -> bool>)
    requires WellFormed(fs) && parent in fs.dirs && from < |c.keys|
    requires forall k :: k in c.keys ==> k in c.sizes && parent <= k && |k| > |parent|
    ensures var f := ExpandAll(fs, parent, c, from, condition, true);
      var k := c.keys[from];
      var head := if EndsWithSlash(k) then FetchRecursively(fs, k, condition, true) else Fetched([], Ok([ListedFile(k, c.sizes[k])]));
      var tail := ExpandAll(fs, parent, c, from + 1, condition, true);
      f.result.Ok? ==>
        head.result.Ok? && tail.result.Ok? &&
        f.gets == head.gets + tail.gets && f.result.value == head.result.value + tail.result.value
  {
  }

  /**
   * The kept key `k` (with its stored size) is covered by `files`: a file is listed itself,
   * a directory was listed successfully and all of its listing is included.
   */
  predicate Covered(fs: DeviceFs, condition: Option<string -> bool>, k: string, size: int, files: seq<ListedFile>)
    requires WellFormed(fs)
  {
    if EndsWithSlash(k) then
      FetchRecursively(fs, k, condition, true).result.Ok? &&
      forall file :: file in FetchRecursively(fs, k, condition, true).result.value ==> file in files
    else ListedFile(k, size) in files
  }

  lemma CoveredWider(fs: DeviceFs, condition: Option<string -> bool>, k: string, size: int, files: seq<ListedFile>, wider: seq<ListedFile>)
    requires WellFormed(fs) && Covered(fs, condition, k, size, files)
    requires forall file :: file in files ==> file in wider
    ensures Covered(fs, condition, k, size, wider)
  {
  }

  /**
   * Completeness of the expansion from the `from`-th key on: a successful expansion covers
   * every kept key.
   */
  lemma {:induction false} ExpandAllIsComplete(fs: DeviceFs, parent: string, c: Collected, from: nat, condition: Option<string -> bool>)
    requires WellFormed(fs) && parent in fs.dirs && from <= |c.keys|
    requires forall k :: k in c.keys ==> k in c.sizes && parent <= k && |k| > |parent|
    decreases |c.keys| - from
    ensures var f := ExpandAll(fs, parent, c, from, condition, true);
      f.result.Ok? ==> forall t :: from <= t < |c.keys| ==> Covered(fs, condition, c.keys[t], c.sizes[c.keys[t]], f.result.value)
  {
    var f := ExpandAll(fs, parent, c, from, condition, true);
    if from < |c.keys| && f.result.Ok? {
      var k := c.keys[from];
      var tail := ExpandAll(fs, parent, c, from + 1, condition, true);
      ExpandAllIsComplete(fs, parent, c, from + 1, condition);
      ExpandAllStep(fs, parent, c, from, condition);
      var files := f.result.value;
      var head := files[..|files| - |tail.result.value|];
      assert files == head + tail.result.value;
      forall t | from <= t < |c.keys|
        ensures Covered(fs, condition, c.keys[t], c.sizes[c.keys[t]], files)
      {
        if t == from {
          if EndsWithSlash(k) {
            assert forall file :: file in head ==> file in files;
          } else {
            assert files[0] == ListedFile(k, c.sizes[k]);
          }
        } else {
          CoveredWider(fs, condition, c.keys[t], c.sizes[c.keys[t]], tail.result.value, files);
        }
      }
    }
  }

  /**
   * Completeness of the deep listing: when it succeeds, every entry of the root the filter
   * accepts is listed with its size when it is a file, and when it is a directory that
   * directory's own listing succeeded and all of it is included.
   */
  lemma FetchRecursivelyIsComplete(fs: DeviceFs, path: string, condition: Option<string -> bool>, e: DirectoryEntry)
    requires WellFormed(fs) && path in fs.dirs && fs.dirs[path].Ok?
    requires e in fs.dirs[path].value && Accepts(condition, e.name)
    ensures var f := FetchRecursively(fs, path, condition, true);
      var c := Collect(path, fs.dirs[path].value, condition);
      f.result.Ok? ==>
        (!EndsWithSlash(e.name) ==> path + e.name in c.sizes && ListedFile(path + e.name, c.sizes[path + e.name]) in f.result.value) &&
        (EndsWithSlash(e.name) ==>
          FetchRecursively(fs, path + e.name, condition, true).result.Ok? &&
          forall file :: file in FetchRecursively(fs, path + e.name, condition, true).result.value ==> file in f.result.value)
  {
    FetchRecursivelyCovers(fs, path, condition, e);
  }

  lemma FetchRecursivelyCovers(fs: DeviceFs, path: string, condition: Option<string -> bool>, e: DirectoryEntry)
    requires WellFormed(fs) && path in fs.dirs && fs.dirs[path].Ok?
    requires e in fs.dirs[path].value && Accepts(condition, e.name)
    ensures var f := FetchRecursively(fs, path, condition, true);
      var c := Collect(path, fs.dirs[path].value, condition);
      path + e.name in c.sizes && EndsWithSlash(path + e.name) == EndsWithSlash(e.name) &&
      (f.result.Ok? ==> Covered(fs, condition, path + e.name, c.sizes[path + e.name], f.result.value))
  {
    var entries := fs.dirs[path].value;
    var c := Collect(path, entries, condition);
    CollectedKeysExtendPath(path, entries, condition);
    CollectKeepsAccepted(path, entries, condition);
    var i :| 0 <= i < |entries| && entries[i] == e;
    var k := path + e.name;
    assert k in c.keys;
    var t :| 0 <= t < |c.keys| && c.keys[t] == k;
    assert e.name != "";
    assert k[|k| - 1] == e.name[|e.name| - 1];
    ExpandAllIsComplete(fs, path, c, 0, condition);
    var f := FetchRecursively(fs, path, condition, true);
    assert f.result == ExpandAll(fs, path, c, 0, condition, true).result;
  }

  // ---------------------------------------------------------------------------
  // Error translation and the operations
  // ---------------------------------------------------------------------------

  /**
   * `handleError`: a disconnect becomes PolarDeviceDisconnected, a PFTP error code the
   * `PbPFtpError` table knows becomes an exception named after it, anything else is wrapped.
   */
  function HandleError(pftpErrorNames: map<int, string>, t: TransportError): (r: PolarError)
    ensures r == PolarDeviceDisconnected <==> t == BleDisconnected
    ensures r.PftpErrorNamed? <==> t.PftpResponseError? && t.code in pftpErrorNames
    ensures r.PftpErrorNamed? ==> r.name == pftpErrorNames[t.code]
    ensures r.WrappedError? <==> !(r == PolarDeviceDisconnected || r.PftpErrorNamed?)
    ensures r.WrappedError? ==> r.cause == t
  {
    match t
    case BleDisconnected => PolarDeviceDisconnected
    case PftpResponseError(code) =>
      if code in pftpErrorNames then PftpErrorNamed(pftpErrorNames[code]) else WrappedError(t)
    case OtherTransportError(_) => WrappedError(t)
  }

  function MapTransport<T>(pftpErrorNames: map<int, string>, reply: Result<T, TransportError>): (r: Result<T, PolarError>)
    ensures reply.Ok? <==> r.Ok?
    ensures reply.Ok? ==> r.value == reply.value
    ensures reply.Err? ==> r.error == HandleError(pftpErrorNames, reply.error)
  {
    match reply
    case Ok(v) => Ok(v)
    case Err(e) => Err(HandleError(pftpErrorNames, e))
  }

  /**
   * `removeSingleFile`: behind the PFTP gate, one REMOVE on the caller's path as given;
   * a failing request is translated by `handleError`.
   */
  method RemoveSingleFile(identifier: string, filePath: string, listener: Option<BleDeviceListener>, clock: DiscoveryClock,
                          device: Responder, pftpErrorNames: map<int, string>)
    returns (r: Result<seq<byte>, PolarError>, sent: seq<PftpOperation>)
    ensures var gate := PsFtpReadyOutcome(identifier, listener, clock);
      (gate.Err? ==> r == Err(gate.error) && sent == []) &&
      (gate.Ok? ==> sent == [PftpOperation(REMOVE, filePath)] && r == MapTransport(pftpErrorNames, device(sent[0])))
  {
    var session := SessionPsFtpClientReady(identifier, listener, clock);
    if session.Err? {
      return Err(session.error), [];
    }
    var op := PftpOperation(REMOVE, filePath);
    r := MapTransport(pftpErrorNames, device(op));
    sent := [op];
  }

  /** `removeFileOrDirectory`: the same single REMOVE, completing without a value. */
  method RemoveFileOrDirectory(identifier: string, filePath: string, listener: Option<BleDeviceListener>, clock: DiscoveryClock,
                               device: Responder, pftpErrorNames: map<int, string>)
    returns (r: Option<PolarError>, sent: seq<PftpOperation>)
    ensures var gate := PsFtpReadyOutcome(identifier, listener, clock);
      (gate.Err? ==> r == Some(gate.error) && sent == []) &&
      (gate.Ok? ==>
        sent == [PftpOperation(REMOVE, filePath)] &&
        (r.None? <==> device(sent[0]).Ok?) &&
        (device(sent[0]).Err? ==> r == Some(HandleError(pftpErrorNames, device(sent[0]).error))))
  {
    var session := SessionPsFtpClientReady(identifier, listener, clock);
    if session.Err? {
      return Some(session.error), [];
    }
    var op := PftpOperation(REMOVE, filePath);
    var reply := device(op);
    r := if reply.Ok? then None else Some(HandleError(pftpErrorNames, reply.error));
    sent := [op];
  }

  /** `readFile`: behind the PFTP gate, one GET on the caller's path, errors translated. */
  method ReadFile(identifier: string, filePath: string, listener: Option<BleDeviceListener>, clock: DiscoveryClock,
                  device: Responder, pftpErrorNames: map<int, string>)
    returns (r: Result<seq<byte>, PolarError>, sent: seq<PftpOperation>)
    ensures var gate := PsFtpReadyOutcome(identifier, listener, clock);
      (gate.Err? ==> r == Err(gate.error) && sent == []) &&
      (gate.Ok? ==> sent == [PftpOperation(GET, filePath)] && r == MapTransport(pftpErrorNames, device(sent[0])))
  {
    var session := SessionPsFtpClientReady(identifier, listener, clock);
    if session.Err? {
      return Err(session.error), [];
    }
    var op := PftpOperation(GET, filePath);
    r := MapTransport(pftpErrorNames, device(op));
    sent := [op];
  }

  /**
   * `pFtpWriteOperation` (and `writeFile`, which forwards to it): behind the PFTP gate, one
   * PUT of `data` on the caller's path. Its errors reach the caller as they are, without
   * `handleError`.
   */
  method WriteFile(identifier: string, filePath: string, data: seq<byte>, listener: Option<BleDeviceListener>, clock: DiscoveryClock,
                   writer: Writer)
    returns (r: Option<PolarError>, sent: seq<PftpOperation>)
    ensures var gate := PsFtpReadyOutcome(identifier, listener, clock);
      (gate.Err? ==> r == Some(gate.error) && sent == []) &&
      (gate.Ok? ==>
        sent == [PftpOperation(PUT, filePath)] &&
        (r.None? <==> writer(sent[0], data).None?) &&
        (writer(sent[0], data).Some? ==> r == Some(Unmapped(writer(sent[0], data).value))))
  {
    var session := SessionPsFtpClientReady(identifier, listener, clock);
    if session.Err? {
      return Some(session.error), [];
    }
    var op := PftpOperation(PUT, filePath);
    var failure := writer(op, data);
    r := if failure.None? then None else Some(Unmapped(failure.value));
    sent := [op];
  }

  function Paths(files: seq<ListedFile>): (r: seq<string>)
    ensures |r| == |files| && forall i :: 0 <= i < |files| ==> r[i] == files[i].path
  {
    if files == [] then [] else [files[0].path] + Paths(files[1..])
  }

  /**
   * `getFileList` (no filter, `recurseDeep` as given) and `listFiles` (a filter, always
   * deep): behind the PFTP gate, a device whose filesystem is not POLAR_FILE_SYSTEM_V2 gets
   * PolarOperationNotSupported and no request; otherwise the normalised path is listed and
   * a failure is translated by `handleError`.
   */
  method ListFiles(identifier: string, folderPath: string, condition: Option<string -> bool>, recurseDeep: bool,
                   listener: Option<BleDeviceListener>, clock: DiscoveryClock, capabilities: DeviceCapabilitiesUtility,
                   fs: DeviceFs, pftpErrorNames: map<int, string>)
    returns (r: Result<seq<string>, PolarError>, gets: seq<string>)
    requires WellFormed(fs)
    ensures var gate := PsFtpReadyOutcome(identifier, listener, clock);
      (gate.Err? ==> r == Err(gate.error) && gets == []) &&
      (gate.Ok? && capabilities.GetFileSystemType(gate.value.polarDeviceType) != POLAR_FILE_SYSTEM_V2 ==>
        r == Err(PolarOperationNotSupported) && gets == []) &&
      (gate.Ok? && capabilities.GetFileSystemType(gate.value.polarDeviceType) == POLAR_FILE_SYSTEM_V2 ==>
        var f := FetchRecursively(fs, NormalizedPath(folderPath), condition, recurseDeep);
        gets == f.gets &&
        (f.result.Ok? ==> r == Ok(Paths(f.result.value))) &&
        (f.result.Err? ==> r == Err(HandleError(pftpErrorNames, f.result.error))))
    ensures r.Ok? ==> forall i :: 0 <= i < |r.value| ==> NormalizedPath(folderPath) <= r.value[i]
  {
    var session := SessionPsFtpClientReady(identifier, listener, clock);
    if session.Err? {
      return Err(session.error), [];
    }
    if capabilities.GetFileSystemType(session.value.polarDeviceType) != POLAR_FILE_SYSTEM_V2 {
      return Err(PolarOperationNotSupported), [];
    }
    var path := NormalizePath(folderPath);
    var f := FetchRecursively(fs, path, condition, recurseDeep);
    gets := f.gets;
    r := if f.result.Ok? then Ok(Paths(f.result.value)) else Err(HandleError(pftpErrorNames, f.result.error));
  }
}
