/** The patch engine of code/common.py (`UpdaterFile`, `Updater`).

    The game directory's filesystem is a value: a map from path to contents
    and a set of directories. SHA-1, the decompressors and the HTTP download
    are library calls the model cannot see; they are the fields of a
    `Library` value that the updater is built with. */
module Patching {
  import opened Values

  newtype byte = x: int | 0 <= x < 256

  type Bytes = seq<byte>

  /** The `algo` string of an `UpdaterFile`: only 'gzip' and 'bzip2' mean anything. */
  datatype Algo = Gzip | Bzip2 | OtherAlgo(name: string)

  /** One manifest entry. `filename` is rewritten to the extracted file's name
      once the file has been acquired. */
  datatype UpdaterFile = UpdaterFile(
    path: string,
    filename: string,
    fileHash: string,
    archiveHash: string,
    networkPath: string,
    hashUrl: bool,
    algo: Algo)

  /** The game directory: regular files with their contents, and directories. */
  datatype FileSystem = FileSystem(files: map<string, Bytes>, dirs: set<string>)

  /** What a decompressor does with an archive: returns its contents, raises
      an OSError (a bad bzip2 stream, a bad gzip header), or raises something
      else (a truncated gzip stream raises EOFError). */
  datatype Decompressed = Inflated(data: Bytes) | BadArchive | Crash

  /** What `download` does with a URL: writes the body of the GET to the
      download path, fails before anything is written (requests raises, or
      `open` does), or fails in `write` after `open` has created (or
      truncated) the download. */
  datatype Download = Written(body: Bytes) | NotOpened | WriteFailed

  /** The library calls of the updater. `sha1` is the hex digest of a file's
      contents (read in 8 KiB chunks, which gives the same digest);
      `sha1Text` that of a string's UTF-8 encoding; `fetch` what downloading
      a URL does. */
  datatype Library = Library(
    sha1: Bytes -> string,
    sha1Text: string -> string,
    decompress: (Algo, Bytes) -> Decompressed,
    fetch: string -> Download)

  /** `os.path.sep` */
  const Sep: string := "/"

  // ---------------------------------------------------------------------
  // Hashing

  /** `sha1_hash_file` */
  function HashFile(lib: Library, fs: FileSystem, path: string): (r: Result<string>)
    ensures r.Ok? <==> path in fs.files
    ensures r.Err? ==> r.exc == FileNotFoundError(path)
  {
    if path in fs.files then Ok(lib.sha1(fs.files[path])) else Err(FileNotFoundError(path))
  }

  /** `verify`: true exactly when the file exists and hashes to `hash`; a
      missing file raises instead of comparing unequal. */
  function Verify(lib: Library, fs: FileSystem, path: string, hash: string): (r: Result<bool>)
    ensures r == Ok(true) <==> path in fs.files && lib.sha1(fs.files[path]) == hash
    ensures r == Ok(false) <==> path in fs.files && lib.sha1(fs.files[path]) != hash
    ensures r.Err? <==> path !in fs.files
  {
    match HashFile(lib, fs, path)
    case Ok(h) => Ok(h == hash)
    case Err(e) => Err(e)
  }

  // ---------------------------------------------------------------------
  // Manifest and diff

  /** What one `get_partial_manifest` call does: the records it appended, in
      order, and the exception it raised afterwards, if any (a record with a
      missing key raises after the earlier records were appended). */
  datatype Partial = Partial(records: seq<UpdaterFile>, raised: Option<Exc>)

  /** `get_patch_manifest`: the records of each manifest file in turn; the
      first raise ends the loop. */
  function Gather(parts: seq<Partial>): (r: (seq<UpdaterFile>, Option<Exc>))
    ensures |r.0| <= Total(parts)
  {
    if parts == [] then ([], None)
    else
      var p := parts[0];
      if p.raised.Some? then (p.records, p.raised)
      else
        var rest := Gather(parts[1..]);
        (p.records + rest.0, rest.1)
  }

  /** Gathering raises exactly when some part raised, and then with the
      first part's exception; without a raise every record is kept. */
  lemma {:induction false} GatherMeaning(parts: seq<Partial>)
    ensures Gather(parts).1.None? <==> forall i :: 0 <= i < |parts| ==> parts[i].raised.None?
    ensures Gather(parts).1.Some? ==> exists i :: 0 <= i < |parts| && parts[i].raised == Gather(parts).1
                                       && forall j :: 0 <= j < i ==> parts[j].raised.None?
    ensures Gather(parts).1.None? ==> |Gather(parts).0| == Total(parts)
  {
    if parts != [] && parts[0].raised.None? {
      GatherMeaning(parts[1..]);
      assert forall i :: 1 <= i < |parts| ==> parts[i] == parts[1..][i - 1];
      if Gather(parts).1.Some? {
        var i :| 0 <= i < |parts[1..]| && parts[1..][i].raised == Gather(parts).1
                 && forall j :: 0 <= j < i ==> parts[1..][j].raised.None?;
        assert parts[i + 1].raised == Gather(parts).1;
      }
    }
  }

  /** `Gather` over a concatenation: the second part's files are looked at
      only when the first part's did not raise, so the records come file by
      file, in the order of the manifest files. */
  lemma {:induction false} GatherAppend(a: seq<Partial>, b: seq<Partial>)
    ensures Gather(a + b) ==
      if Gather(a).1.Some? then Gather(a) else (Gather(a).0 + Gather(b).0, Gather(b).1)
  {
    if a == [] {
      assert a + b == b;
      assert [] + Gather(b).0 == Gather(b).0;
    } else {
      assert (a + b)[0] == a[0];
      assert (a + b)[1..] == a[1..] + b;
      if a[0].raised.None? {
        GatherAppend(a[1..], b);
        assert a[0].records + (Gather(a[1..]).0 + Gather(b).0) == (a[0].records + Gather(a[1..]).0) + Gather(b).0;
      }
    }
  }

  /** One manifest file contributes its records and its raise. */
  lemma GatherOne(p: Partial)
    ensures Gather([p]) == (p.records, p.raised)
  {
    assert [p][1..] == [];
    assert p.records + [] == p.records;
  }

  /** The number of records all the parts append. */
  function Total(parts: seq<Partial>): nat
  {
    if parts == [] then 0 else |parts[0].records| + Total(parts[1..])
  }

  /** What the loop of a `get_partial_manifest` does with one manifest
      entry: skips it, appends a record, or raises. */
  datatype Step = Skip | Append(file: UpdaterFile) | Fail(exc: Exc)

  /** The loop of a `get_partial_manifest` over decoded manifest entries,
      `convert` being what one iteration does with an entry. */
  function Collect<E>(convert: E -> Step, entries: seq<E>): (p: Partial)
    ensures |p.records| <= |entries|
  {
    if entries == [] then Partial([], None)
    else
      match convert(entries[0])
      case Fail(e) => Partial([], Some(e))
      case Skip => Collect(convert, entries[1..])
      case Append(f) =>
        var rest := Collect(convert, entries[1..]);
        Partial([f] + rest.records, rest.raised)
  }

  /** What `Collect` yields: the first raising entry's exception, if any;
      every record comes from an entry, and without a raise every entry's
      record is there. */
  lemma {:induction false} CollectMeaning<E>(convert: E -> Step, entries: seq<E>)
    ensures var p := Collect(convert, entries);
      && (p.raised.None? <==> forall i :: 0 <= i < |entries| ==> !convert(entries[i]).Fail?)
      && (p.raised.Some? ==> exists i :: 0 <= i < |entries| && convert(entries[i]) == Fail(p.raised.value)
                                         && forall j :: 0 <= j < i ==> !convert(entries[j]).Fail?)
      && (forall f :: f in p.records ==> exists i :: 0 <= i < |entries| && convert(entries[i]) == Append(f))
      && (p.raised.None? ==> forall i :: 0 <= i < |entries| && convert(entries[i]).Append? ==>
            convert(entries[i]).file in p.records)
  {
    if entries != [] {
      CollectMeaning(convert, entries[1..]);
      assert forall i :: 1 <= i < |entries| ==> entries[i] == entries[1..][i - 1];
    }
  }

  /** `Collect` over a concatenation: the second part is looked at only
      when the first did not raise. */
  lemma {:induction false} CollectAppend<E>(convert: E -> Step, a: seq<E>, b: seq<E>)
    ensures Collect(convert, a + b) ==
      var p := Collect(convert, a);
      if p.raised.Some? then p
      else var q := Collect(convert, b); Partial(p.records + q.records, q.raised)
  {
    if a == [] {
      assert a + b == b;
    } else {
      assert (a + b)[0] == a[0];
      assert (a + b)[1..] == a[1..] + b;
      CollectAppend(convert, a[1..], b);
    }
  }

  /** `Collect` over one more entry, when the loop has not raised yet. */
  lemma CollectSnoc<E>(convert: E -> Step, entries: seq<E>, e: E)
    requires Collect(convert, entries).raised.None?
    ensures Collect(convert, entries + [e]) ==
      var p := Collect(convert, entries);
      match convert(e)
      case Skip => p
      case Append(f) => Partial(p.records + [f], None)
      case Fail(x) => Partial(p.records, Some(x))
  {
    CollectAppend(convert, entries, [e]);
    assert [e][1..] == [];
  }

  /** The test of `check_local_files`: an entry needs updating when the local
      file at its path is absent or hashes differently. */
  predicate Stale(lib: Library, fs: FileSystem, gameDir: string, f: UpdaterFile)
  {
    !(gameDir + f.path in fs.files && lib.sha1(fs.files[gameDir + f.path]) == f.fileHash)
  }

  /** What `check_local_files` appends: the stale entries, in manifest order. */
  function Diff(lib: Library, fs: FileSystem, gameDir: string, manifest: seq<UpdaterFile>): (r: seq<UpdaterFile>)
    ensures |r| <= |manifest|
  {
    if manifest == [] then []
    else
      (if Stale(lib, fs, gameDir, manifest[0]) then [manifest[0]] else [])
      + Diff(lib, fs, gameDir, manifest[1..])
  }

  /** The stale entries are exactly the manifest entries whose local file is
      missing or hashes differently. */
  lemma {:induction false} DiffMeaning(lib: Library, fs: FileSystem, gameDir: string, manifest: seq<UpdaterFile>)
    ensures forall f :: f in Diff(lib, fs, gameDir, manifest) <==> f in manifest && Stale(lib, fs, gameDir, f)
  {
    if manifest != [] {
      DiffMeaning(lib, fs, gameDir, manifest[1..]);
      assert manifest == [manifest[0]] + manifest[1..];
    }
  }

  /** The diff of a manifest with one more entry. */
  lemma DiffSnoc(lib: Library, fs: FileSystem, gameDir: string, m: seq<UpdaterFile>, f: UpdaterFile)
    ensures Diff(lib, fs, gameDir, m + [f])
         == Diff(lib, fs, gameDir, m) + if Stale(lib, fs, gameDir, f) then [f] else []
  {
    DiffAppend(lib, fs, gameDir, m, [f]);
    assert [f][1..] == [];
  }

  /** The diff of a concatenation is the concatenation of the diffs, so the
      stale entries keep their manifest order. */
  lemma {:induction false} DiffAppend(lib: Library, fs: FileSystem, gameDir: string, a: seq<UpdaterFile>, b: seq<UpdaterFile>)
    ensures Diff(lib, fs, gameDir, a + b) == Diff(lib, fs, gameDir, a) + Diff(lib, fs, gameDir, b)
  {
    if a == [] {
      assert a + b == b;
    } else {
      assert (a + b)[0] == a[0];
      assert (a + b)[1..] == a[1..] + b;
      DiffAppend(lib, fs, gameDir, a[1..], b);
    }
  }

  // ---------------------------------------------------------------------
  // Acquiring one file

  /** The name a file is downloaded under: the SHA-1 of its network path when
      `hash_url` is set, the network path itself otherwise. */
  function DownloadKey(lib: Library, f: UpdaterFile): string
  {
    if f.hashUrl then lib.sha1Text(f.networkPath) else f.networkPath
  }

  /** `decompress_file`: an algorithm other than gzip or bzip2 writes nothing,
      leaving an empty file. */
  function Decompress(lib: Library, algo: Algo, data: Bytes): Decompressed
  {
    if algo.OtherAlgo? then Inflated([]) else lib.decompress(algo, data)
  }

  /** Every path other than those in `touched` is as it was. */
  ghost predicate SameOutside(before: map<string, Bytes>, after: map<string, Bytes>, touched: set<string>)
  {
    forall p :: p !in touched ==> (p in after <==> p in before) && (p in before ==> after[p] == before[p])
  }

  /** `extract`: decompresses the archive into `extraction` and returns 0,
      or returns -1 after removing the output when decompression raised an
      OSError; a decompressor error of another kind is let through with the
      (empty) output left behind. The archive is removed in every case. */
  function Extracted(lib: Library, fs: FileSystem, download: string, extraction: string, algo: Algo): (r: (FileSystem, Result<int>))
    requires download != extraction
    ensures download !in r.0.files
    ensures r.0.dirs == fs.dirs
    ensures SameOutside(fs.files, r.0.files, {download, extraction})
    ensures r.1 == Ok(0) ==>
      && download in fs.files
      && extraction in r.0.files
      && Decompress(lib, algo, fs.files[download]) == Inflated(r.0.files[extraction])
    ensures r.1.Ok? ==> r.1.value == 0 || r.1.value == -1
    ensures r.1 == Ok(-1) ==> extraction !in r.0.files
    ensures r.1.Err? ==> r.1.exc == DecompressCrash || r.1.exc == FileNotFoundError(download)
    // what the decompressor does decides the outcome
    ensures download !in fs.files ==> r.1 == Err(FileNotFoundError(download)) && extraction !in r.0.files
    ensures download in fs.files ==>
      match Decompress(lib, algo, fs.files[download])
      case Inflated(out) => r.1 == Ok(0) && extraction in r.0.files && r.0.files[extraction] == out
      case BadArchive => r.1 == Ok(-1)
      case Crash => r.1 == Err(DecompressCrash) && extraction in r.0.files && r.0.files[extraction] == []
  {
    if download !in fs.files then
      // opening the archive fails with an OSError: the handler's removal of
      // the output and the final removal of the archive both run, and the
      // last FileNotFoundError is the one raised
      (fs.(files := fs.files - {extraction}), Err(FileNotFoundError(download)))
    else
      match Decompress(lib, algo, fs.files[download])
      case Inflated(out) => (fs.(files := fs.files[extraction := out] - {download}), Ok(0))
      case BadArchive => (fs.(files := fs.files - {extraction, download}), Ok(-1))
      case Crash => (fs.(files := fs.files[extraction := []] - {download}), Err(DecompressCrash))
  }

  /** `acquire_file`: download, check the archive's hash, extract, check the
      extracted file's hash; on success the entry is renamed to the
      extracted file. */
  function Acquired(lib: Library, fs: FileSystem, gameDir: string, updateUrl: string, f: UpdaterFile): (r: (FileSystem, Result<UpdaterFile>))
    ensures var dl := gameDir + DownloadKey(lib, f);
      && r.0.dirs == fs.dirs
      && SameOutside(fs.files, r.0.files, {dl, dl + "~"})
  {
    var key := DownloadKey(lib, f);
    var dl := gameDir + key;
    var ex := dl + "~";
    assert dl != ex by { assert |ex| == |dl| + 1; }
    var got := lib.fetch(updateUrl + key);
    if !got.Written? then
      // a failing `write` leaves the file `open` created; `os.remove` of a
      // download that does not exist raises FileNotFoundError itself
      var fs0 := if got.WriteFailed? then fs.(files := fs.files[dl := []]) else fs;
      (fs0.(files := fs0.files - {dl}), Err(if dl in fs0.files then OSError(DownloadFailed) else FileNotFoundError(dl)))
    else
      var body := got.body;
      var fs1 := fs.(files := fs.files[dl := body]);
      if lib.sha1(body) != f.archiveHash then
        (fs1, Err(OSError(ArchiveHashMismatch(f.archiveHash, lib.sha1(body)))))
      else
        var (fs2, code) := Extracted(lib, fs1, dl, ex, f.algo);
        match code
        case Err(e) => (fs2, Err(e))
        case Ok(c) =>
          if c != 0 then (fs2, Err(OSError(ExtractFailed)))
          else if lib.sha1(fs2.files[ex]) == f.fileHash then (fs2, Ok(f.(filename := key + "~")))
          else (fs2, Err(OSError(FileHashMismatch)))
  }

  /** The failure order of `acquire_file` and what each outcome leaves on disk. */
  lemma AcquireOutcomes(lib: Library, fs: FileSystem, gameDir: string, updateUrl: string, f: UpdaterFile)
    // a failed download removes the download path and raises
    ensures var dl := gameDir + DownloadKey(lib, f);
      !lib.fetch(updateUrl + DownloadKey(lib, f)).Written? ==>
        Acquired(lib, fs, gameDir, updateUrl, f).1.Err? && Acquired(lib, fs, gameDir, updateUrl, f).0.files == fs.files - {dl}
    // ... with the plain OSError once the file is there to remove, which it
    // always is after a failing write
    ensures var dl := gameDir + DownloadKey(lib, f);
      !lib.fetch(updateUrl + DownloadKey(lib, f)).Written? ==>
        (Acquired(lib, fs, gameDir, updateUrl, f).1 == Err(OSError(DownloadFailed)) <==>
           dl in fs.files || lib.fetch(updateUrl + DownloadKey(lib, f)).WriteFailed?)
    // ... and otherwise the FileNotFoundError of `os.remove`
    ensures var dl := gameDir + DownloadKey(lib, f);
      lib.fetch(updateUrl + DownloadKey(lib, f)).NotOpened? && dl !in fs.files ==>
        Acquired(lib, fs, gameDir, updateUrl, f).1 == Err(FileNotFoundError(dl))
    // an archive-hash mismatch raises before extracting and keeps the download
    ensures var dl := gameDir + DownloadKey(lib, f);
      var body := lib.fetch(updateUrl + DownloadKey(lib, f));
      body.Written? && lib.sha1(body.body) != f.archiveHash ==>
        && Acquired(lib, fs, gameDir, updateUrl, f).1 == Err(OSError(ArchiveHashMismatch(f.archiveHash, lib.sha1(body.body))))
        && Acquired(lib, fs, gameDir, updateUrl, f).0.files == fs.files[dl := body.body]
    // extraction that returned -1 raises, leaving neither file
    ensures var dl := gameDir + DownloadKey(lib, f);
      Acquired(lib, fs, gameDir, updateUrl, f).1 == Err(OSError(ExtractFailed)) ==> dl !in Acquired(lib, fs, gameDir, updateUrl, f).0.files && dl + "~" !in Acquired(lib, fs, gameDir, updateUrl, f).0.files
    // a mismatch of the extracted file's hash raises, leaving it in place
    ensures var dl := gameDir + DownloadKey(lib, f);
      Acquired(lib, fs, gameDir, updateUrl, f).1 == Err(OSError(FileHashMismatch)) ==>
        dl !in Acquired(lib, fs, gameDir, updateUrl, f).0.files && dl + "~" in Acquired(lib, fs, gameDir, updateUrl, f).0.files && lib.sha1(Acquired(lib, fs, gameDir, updateUrl, f).0.files[dl + "~"]) != f.fileHash
    // success: both hashes checked, the archive gone, the entry renamed
    ensures var dl := gameDir + DownloadKey(lib, f);
      var body := lib.fetch(updateUrl + DownloadKey(lib, f));
      Acquired(lib, fs, gameDir, updateUrl, f).1.Ok? ==>
        && body.Written? && lib.sha1(body.body) == f.archiveHash
        && dl !in Acquired(lib, fs, gameDir, updateUrl, f).0.files && dl + "~" in Acquired(lib, fs, gameDir, updateUrl, f).0.files
        && Decompress(lib, f.algo, body.body) == Inflated(Acquired(lib, fs, gameDir, updateUrl, f).0.files[dl + "~"])
        && lib.sha1(Acquired(lib, fs, gameDir, updateUrl, f).0.files[dl + "~"]) == f.fileHash
        && Acquired(lib, fs, gameDir, updateUrl, f).1.value == f.(filename := DownloadKey(lib, f) + "~")
  {
  }

  /** The happy path of `acquire_file`: when the download succeeds, the
      archive and the extracted file both hash as the entry says, the entry
      is renamed to the extracted file, which holds the decompressed archive,
      and the archive is gone. With `AcquireOutcomes`, this is the only way
      to succeed. */
  lemma AcquireSucceeds(lib: Library, fs: FileSystem, gameDir: string, updateUrl: string, f: UpdaterFile)
    requires var body := lib.fetch(updateUrl + DownloadKey(lib, f));
      && body.Written? && lib.sha1(body.body) == f.archiveHash
      && Decompress(lib, f.algo, body.body).Inflated?
      && lib.sha1(Decompress(lib, f.algo, body.body).data) == f.fileHash
    ensures var dl := gameDir + DownloadKey(lib, f);
      var out := Decompress(lib, f.algo, lib.fetch(updateUrl + DownloadKey(lib, f)).body).data;
      && Acquired(lib, fs, gameDir, updateUrl, f).1 == Ok(f.(filename := DownloadKey(lib, f) + "~"))
      && Acquired(lib, fs, gameDir, updateUrl, f).0.files == fs.files[dl + "~" := out] - {dl}
  {
    var dl := gameDir + DownloadKey(lib, f);
    var body := lib.fetch(updateUrl + DownloadKey(lib, f)).body;
    var out := Decompress(lib, f.algo, body).data;
    assert dl != dl + "~" by { assert |dl + "~"| == |dl| + 1; }
    assert fs.files[dl := body][dl + "~" := out] - {dl} == fs.files[dl + "~" := out] - {dl};
  }

  /** `download_game_files` from the `i`-th entry on: each needed file is
      acquired in order and its entry renamed in place; the first failure is
      raised with the earlier entries already renamed and the later ones as
      they were. */
  function AcquireFrom(lib: Library, fs: FileSystem, gameDir: string, updateUrl: string,
                       needed: seq<UpdaterFile>, i: nat): (r: (FileSystem, seq<UpdaterFile>, Option<Exc>))
    requires i <= |needed|
    ensures |r.1| == |needed|
    ensures r.1[..i] == needed[..i]
    ensures forall j :: i <= j < |needed| ==>
      r.1[j] == needed[j] || r.1[j] == needed[j].(filename := DownloadKey(lib, needed[j]) + "~")
    ensures r.2.None? ==> forall j :: i <= j < |needed| ==>
      r.1[j] == needed[j].(filename := DownloadKey(lib, needed[j]) + "~")
    ensures r.0.dirs == fs.dirs
    decreases |needed| - i
  {
    if i == |needed| then (fs, needed, None)
    else
      var (fs1, res) := Acquired(lib, fs, gameDir, updateUrl, needed[i]);
      match res
      case Err(e) => (fs1, needed, Some(e))
      case Ok(f1) =>
        AcquireOutcomes(lib, fs, gameDir, updateUrl, needed[i]);
        AcquireFrom(lib, fs1, gameDir, updateUrl, needed[i := f1], i + 1)
  }

  // ---------------------------------------------------------------------
  // Replacing

  /** `os.path.dirname` on POSIX paths: everything before the last '/', with
      trailing slashes stripped unless it is made of slashes only. */
  function DirName(p: string): string
  {
    var head := p[..AfterLastSlash(p)];
    if head != [] && !AllSlashes(head) then StripSlashes(head) else head
  }

  /** One past the index of the last '/', or 0. */
  function AfterLastSlash(p: string): (i: nat)
    ensures i <= |p|
    ensures i > 0 ==> p[i - 1] == '/'
  {
    if p == [] then 0
    else if p[|p| - 1] == '/' then |p|
    else AfterLastSlash(p[..|p| - 1])
  }

  predicate AllSlashes(s: string)
  {
    forall i :: 0 <= i < |s| ==> s[i] == '/'
  }

  function StripSlashes(s: string): string
  {
    if s != [] && s[|s| - 1] == '/' then StripSlashes(s[..|s| - 1]) else s
  }

  /** `os.replace(src, dst)` */
  function Move(fs: FileSystem, src: string, dst: string): (r: Result<FileSystem>)
  {
    if src !in fs.files then Err(FileNotFoundError(src))
    else Ok(fs.(files := (fs.files - {src})[dst := fs.files[src]]))
  }

  /** `os.mkdir(dir)`: fails when the parent directory is missing (a relative
      name's parent is the working directory, which exists). */
  function MakeDir(fs: FileSystem, dir: string): (r: Result<FileSystem>)
  {
    var parent := DirName(dir);
    if parent != "" && parent !in fs.dirs then Err(FileNotFoundError(dir))
    else Ok(fs.(dirs := fs.dirs + {dir}))
  }

  /** One iteration of `replace_game_files`: make room at the entry's path
      (remove the old file if its directory exists, create the directory
      otherwise), then move the extracted file there. A raise keeps what was
      already done. */
  function ReplaceOne(fs: FileSystem, gameDir: string, f: UpdaterFile): (r: (FileSystem, Option<Exc>))
    ensures var local, src := gameDir + f.path, gameDir + f.filename;
      r.1.None? ==>
        && src in fs.files
        && local in r.0.files && r.0.files[local] == fs.files[src]
        && (src != local ==> src !in r.0.files)
        && DirName(local) in r.0.dirs
    ensures gameDir + f.filename !in fs.files ==> r.1.Some?
    ensures fs.dirs <= r.0.dirs
    ensures SameOutside(fs.files, r.0.files, {gameDir + f.path, gameDir + f.filename})
  {
    var local := gameDir + f.path;
    var dir := DirName(local);
    var src := gameDir + f.filename;
    var prepared :=
      if dir in fs.dirs then Ok(if local in fs.files then fs.(files := fs.files - {local}) else fs)
      else MakeDir(fs, dir);
    match prepared
    case Err(e) => (fs, Some(e))
    case Ok(fs1) =>
      match Move(fs1, src, local)
      case Err(e) => (fs1, Some(e))
      case Ok(fs2) => (fs2, None)
  }

  /** The two paths the replacement of one entry changes: its place and its
      extracted file. */
  function Targets(gameDir: string, f: UpdaterFile): set<string>
  {
    {gameDir + f.path, gameDir + f.filename}
  }

  /** The paths `replace_game_files` may change for these entries. */
  function Touched(gameDir: string, needed: seq<UpdaterFile>): (r: set<string>)
    ensures forall p :: p in r <==> exists j :: 0 <= j < |needed| && p in Targets(gameDir, needed[j])
  {
    if needed == [] then {}
    else
      var rest := Touched(gameDir, needed[1..]);
      assert forall j :: 1 <= j < |needed| ==> needed[j] == needed[1..][j - 1];
      Targets(gameDir, needed[0]) + rest
  }

  /** No two entries share a place or an extracted file. */
  predicate Separate(gameDir: string, needed: seq<UpdaterFile>)
  {
    forall i, j :: 0 <= i < j < |needed| ==> Targets(gameDir, needed[i]) !! Targets(gameDir, needed[j])
  }

  /** `replace_game_files` on the filesystem: the entries in order; the first
      failure is raised with everything done before it kept. */
  function ReplaceAll(fs: FileSystem, gameDir: string, needed: seq<UpdaterFile>): (r: (FileSystem, Option<Exc>))
    ensures fs.dirs <= r.0.dirs
    ensures SameOutside(fs.files, r.0.files, Touched(gameDir, needed))
    decreases |needed|
  {
    if needed == [] then (fs, None)
    else
      var (fs1, err) := ReplaceOne(fs, gameDir, needed[0]);
      if err.Some? then (fs1, err) else ReplaceAll(fs1, gameDir, needed[1..])
  }

  /** What each entry's replacement does to the paths that matter, once
      the entries are known not to share paths. */
  ghost predicate Placed(before: FileSystem, after: FileSystem, gameDir: string, f: UpdaterFile)
  {
    var local, src := gameDir + f.path, gameDir + f.filename;
    && src in before.files
    && local in after.files && after.files[local] == before.files[src]
    && (src != local ==> src !in after.files)
    && DirName(local) in after.dirs
  }

  /** The entries after the first are separate too, and none of them
      touches a path of the first. */
  lemma SeparateRest(gameDir: string, needed: seq<UpdaterFile>)
    requires needed != [] && Separate(gameDir, needed)
    ensures Separate(gameDir, needed[1..])
    ensures Targets(gameDir, needed[0]) !! Touched(gameDir, needed[1..])
  {
    assert forall j :: 1 <= j < |needed| ==> needed[j] == needed[1..][j - 1];
  }

  /** A replacement that raises nothing puts every entry in place: its place
      holds what its extracted file held, the extracted file is gone, and
      the place's directory exists. */
  lemma {:induction false} ReplaceAllPlaces(fs: FileSystem, gameDir: string, needed: seq<UpdaterFile>)
    requires Separate(gameDir, needed)
    ensures var r := ReplaceAll(fs, gameDir, needed);
      r.1.None? ==> forall i :: 0 <= i < |needed| ==> Placed(fs, r.0, gameDir, needed[i])
    decreases |needed|
  {
    if needed != [] {
      var (fs1, err) := ReplaceOne(fs, gameDir, needed[0]);
      if err.None? {
        var rest := needed[1..];
        SeparateRest(gameDir, needed);
        ReplaceAllPlaces(fs1, gameDir, rest);
        var r := ReplaceAll(fs1, gameDir, rest);
        if r.1.None? {
          assert Placed(fs, r.0, gameDir, needed[0]);
          forall i | 1 <= i < |needed|
            ensures Placed(fs, r.0, gameDir, needed[i])
          {
            assert Targets(gameDir, needed[0]) !! Targets(gameDir, needed[i]);
            assert Placed(fs1, r.0, gameDir, rest[i - 1]);
          }
        }
      }
    }
  }

  // ---------------------------------------------------------------------
  // The updater object

  class Updater {
    const gameDirectory: string
    const updateUrl: string
    const lib: Library
    var patchManifest: seq<UpdaterFile>
    var filesNeeded: seq<UpdaterFile>
    var fs: FileSystem

    constructor (gameDir: string, updateUrl: string, lib: Library, fs: FileSystem)
      ensures gameDirectory == gameDir + Sep && this.updateUrl == updateUrl && this.lib == lib
      ensures this.fs == fs && patchManifest == [] && filesNeeded == []
    {
      gameDirectory := gameDir + Sep;
      this.updateUrl := updateUrl;
      this.lib := lib;
      this.fs := fs;
      patchManifest := [];
      filesNeeded := [];
    }

    /** Appends the records one `get_partial_manifest` produced. */
    method AppendRecords(records: seq<UpdaterFile>)
      modifies this`patchManifest
      ensures patchManifest == old(patchManifest) + records
    {
      var i := 0;
      while i < |records|
        invariant 0 <= i <= |records|
        invariant patchManifest == old(patchManifest) + records[..i]
      {
        patchManifest := patchManifest + [records[i]];
        i := i + 1;
      }
      assert records[..i] == records;
    }

    /** The loop of a `get_partial_manifest`: appends the records of the
        entries in order, up to the first entry that raises. */
    method AppendEntries<E>(convert: E -> Step, entries: seq<E>) returns (r: Option<Exc>)
      modifies this`patchManifest
      ensures patchManifest == old(patchManifest) + Collect(convert, entries).records
      ensures r == Collect(convert, entries).raised
    {
      var i := 0;
      while i < |entries|
        invariant 0 <= i <= |entries|
        invariant Collect(convert, entries[..i]).raised.None?
        invariant patchManifest == old(patchManifest) + Collect(convert, entries[..i]).records
      {
        ghost var before := entries[..i];
        CollectSnoc(convert, before, entries[i]);
        assert entries[..i + 1] == before + [entries[i]];
        var step := convert(entries[i]);
        if step.Fail? {
          CollectAppend(convert, entries[..i + 1], entries[i + 1..]);
          assert entries[..i + 1] + entries[i + 1..] == entries;
          return Some(step.exc);
        }
        if step.Append? {
          patchManifest := patchManifest + [step.file];
        }
        i := i + 1;
      }
      assert entries[..i] == entries;
      return None;
    }

    /** `get_patch_manifest`, given what each `get_partial_manifest` call does. */
    method GetPatchManifest(parts: seq<Partial>) returns (r: Option<Exc>)
      modifies this`patchManifest
      ensures patchManifest == old(patchManifest) + Gather(parts).0
      ensures r == Gather(parts).1
    {
      var i := 0;
      ghost var appended: seq<UpdaterFile> := [];
      assert parts[0..] == parts;
      assert appended + Gather(parts).0 == Gather(parts).0;
      while i < |parts|
        invariant 0 <= i <= |parts|
        invariant patchManifest == old(patchManifest) + appended
        invariant Gather(parts) == (appended + Gather(parts[i..]).0, Gather(parts[i..]).1)
      {
        assert parts[i..][1..] == parts[i + 1..];
        assert parts[i..][0] == parts[i];
        AppendRecords(parts[i].records);
        if parts[i].raised.Some? {
          return parts[i].raised;
        }
        assert appended + (parts[i].records + Gather(parts[i + 1..]).0)
            == (appended + parts[i].records) + Gather(parts[i + 1..]).0;
        appended := appended + parts[i].records;
        i := i + 1;
      }
      return None;
    }

    /** `check_local_files`: appends the stale entries of the manifest. */
    method CheckLocalFiles()
      modifies this`filesNeeded
      ensures filesNeeded == old(filesNeeded) + Diff(lib, fs, gameDirectory, patchManifest)
    {
      var i := 0;
      while i < |patchManifest|
        invariant 0 <= i <= |patchManifest|
        invariant filesNeeded == old(filesNeeded) + Diff(lib, fs, gameDirectory, patchManifest[..i])
      {
        var file := patchManifest[i];
        var fullPath := gameDirectory + file.path;
        DiffSnoc(lib, fs, gameDirectory, patchManifest[..i], file);
        assert patchManifest[..i + 1] == patchManifest[..i] + [file];
        var upToDate := false;
        if fullPath in fs.files {
          var fileHash := lib.sha1(fs.files[fullPath]);
          upToDate := fileHash == file.fileHash;
        }
        if !upToDate {
          filesNeeded := filesNeeded + [file];
        }
        i := i + 1;
      }
      assert patchManifest[..i] == patchManifest;
    }

    /** `is_updated`: fetch and diff, report whether nothing is needed, and
      clear both lists; a raising fetch leaves the records fetched so far. */
    method IsUpdated(parts: seq<Partial>) returns (r: Result<bool>)
      modifies this`patchManifest, this`filesNeeded
      ensures Gather(parts).1.Some? ==>
        && r == Err(Gather(parts).1.value)
        && patchManifest == old(patchManifest) + Gather(parts).0
        && filesNeeded == old(filesNeeded)
      ensures Gather(parts).1.None? ==>
        && r == Ok(old(filesNeeded) == [] && forall f :: f in old(patchManifest) + Gather(parts).0 ==> !Stale(lib, fs, gameDirectory, f))
        && patchManifest == [] && filesNeeded == []
    {
      var err := GetPatchManifest(parts);
      if err.Some? {
        return Err(err.value);
      }
      CheckLocalFiles();
      ghost var stale := Diff(lib, fs, gameDirectory, patchManifest);
      DiffMeaning(lib, fs, gameDirectory, patchManifest);
      if stale != [] {
        assert stale[0] in stale;
      }
      var value := filesNeeded == [];
      patchManifest := [];
      filesNeeded := [];
      return Ok(value);
    }

    /** `extract` */
    method Extract(download: string, extraction: string, algo: Algo) returns (r: Result<int>)
      requires download != extraction
      modifies this`fs
      ensures (fs, r) == Extracted(lib, old(fs), download, extraction, algo)
    {
      if download !in fs.files {
        fs := fs.(files := fs.files - {extraction});
        return Err(FileNotFoundError(download));
      }
      var out := Decompress(lib, algo, fs.files[download]);
      match out {
        case Inflated(data) =>
          fs := fs.(files := fs.files[extraction := data] - {download});
          r := Ok(0);
        case BadArchive =>
          fs := fs.(files := fs.files - {extraction, download});
          r := Ok(-1);
        case Crash =>
          fs := fs.(files := fs.files[extraction := []] - {download});
          r := Err(DecompressCrash);
      }
    }

    /** `acquire_file` */
    method AcquireFile(file: UpdaterFile) returns (r: Result<UpdaterFile>)
      modifies this`fs
      ensures (fs, r) == Acquired(lib, old(fs), gameDirectory, updateUrl, file)
    {
      var fileTarget := if file.hashUrl then lib.sha1Text(file.networkPath) else file.networkPath;
      var url := updateUrl + fileTarget;
      var downloadPath := gameDirectory + fileTarget;
      var extractedPath := downloadPath + "~";
      assert downloadPath != extractedPath by { assert |extractedPath| == |downloadPath| + 1; }

      var got := lib.fetch(url);
      if got.WriteFailed? {
        // `open` created the file before `write` raised
        fs := fs.(files := fs.files[downloadPath := []]);
      }
      if !got.Written? {
        var existed := downloadPath in fs.files;
        fs := fs.(files := fs.files - {downloadPath});
        return Err(if existed then OSError(DownloadFailed) else FileNotFoundError(downloadPath));
      }
      fs := fs.(files := fs.files[downloadPath := got.body]);

      var ok := Verify(lib, fs, downloadPath, file.archiveHash);
      if ok != Ok(true) {
        return Err(OSError(ArchiveHashMismatch(file.archiveHash, lib.sha1(fs.files[downloadPath]))));
      }

      var code := Extract(downloadPath, extractedPath, file.algo);
      if code.Err? {
        return Err(code.exc);
      }
      if code.value != 0 {
        return Err(OSError(ExtractFailed));
      }

      ok := Verify(lib, fs, extractedPath, file.fileHash);
      if ok == Ok(true) {
        return Ok(file.(filename := fileTarget + "~"));
      }
      return Err(OSError(FileHashMismatch));
    }

    /** `download_game_files`: acquires each needed file, renaming its entry. */
    method DownloadGameFiles() returns (r: Option<Exc>)
      modifies this`fs, this`filesNeeded
      ensures (fs, filesNeeded, r) == AcquireFrom(lib, old(fs), gameDirectory, updateUrl, old(filesNeeded), 0)
    {
      var i := 0;
      while i < |filesNeeded|
        invariant 0 <= i <= |filesNeeded|
        invariant AcquireFrom(lib, fs, gameDirectory, updateUrl, filesNeeded, i)
               == AcquireFrom(lib, old(fs), gameDirectory, updateUrl, old(filesNeeded), 0)
      {
        var acquired := AcquireFile(filesNeeded[i]);
        if acquired.Err? {
          return Some(acquired.exc);
        }
        filesNeeded := filesNeeded[i := acquired.value];
        i := i + 1;
      }
      return None;
    }

    /** `replace_game_files`: moves every needed file into place, then
        empties both lists; a raise leaves the lists as they were. */
    method ReplaceGameFiles() returns (r: Option<Exc>)
      modifies this`fs, this`patchManifest, this`filesNeeded
      ensures (fs, r) == ReplaceAll(old(fs), gameDirectory, old(filesNeeded))
      ensures r.None? ==> patchManifest == [] && filesNeeded == []
      ensures r.Some? ==> patchManifest == old(patchManifest) && filesNeeded == old(filesNeeded)
    {
      var i := 0;
      assert filesNeeded[0..] == filesNeeded;
      while i < |filesNeeded|
        invariant 0 <= i <= |filesNeeded|
        invariant patchManifest == old(patchManifest) && filesNeeded == old(filesNeeded)
        invariant ReplaceAll(old(fs), gameDirectory, filesNeeded) == ReplaceAll(fs, gameDirectory, filesNeeded[i..])
      {
        assert filesNeeded[i..][1..] == filesNeeded[i + 1..];
        var file := filesNeeded[i];
        var localPath := gameDirectory + file.path;
        var localDir := DirName(localPath);
        if localDir in fs.dirs {
          if localPath in fs.files {
            fs := fs.(files := fs.files - {localPath});
          }
        } else {
          var made := MakeDir(fs, localDir);
          if made.Err? {
            return Some(made.exc);
          }
          fs := made.value;
        }
        var moved := Move(fs, gameDirectory + file.filename, localPath);
        if moved.Err? {
          return Some(moved.exc);
        }
        fs := moved.value;
        i := i + 1;
      }
      patchManifest := [];
      filesNeeded := [];
      return None;
    }

    /** `run`: fetch, diff, download, replace; the first raise ends the run. */
    method Run(parts: seq<Partial>) returns (r: Option<Exc>)
      modifies this`fs, this`patchManifest, this`filesNeeded
      ensures Gather(parts).1.Some? ==> r == Gather(parts).1 && fs == old(fs)
      ensures r.None? ==> patchManifest == [] && filesNeeded == []
      ensures r.None? ==>
        var acquired := AcquireFrom(lib, old(fs), gameDirectory, updateUrl,
          old(filesNeeded) + Diff(lib, old(fs), gameDirectory, old(patchManifest) + Gather(parts).0), 0);
        acquired.2.None? && (fs, None) == ReplaceAll(acquired.0, gameDirectory, acquired.1)
      // once the manifest is fetched, the first download that raises ends
      // the run with its exception; otherwise the replacement decides
      ensures Gather(parts).1.None? ==>
        var acquired := AcquireFrom(lib, old(fs), gameDirectory, updateUrl,
          old(filesNeeded) + Diff(lib, old(fs), gameDirectory, old(patchManifest) + Gather(parts).0), 0);
        if acquired.2.Some? then r == acquired.2 && fs == acquired.0
        else (fs, r) == ReplaceAll(acquired.0, gameDirectory, acquired.1)
    {
      r := GetPatchManifest(parts);
      if r.Some? {
        return;
      }
      CheckLocalFiles();
      r := DownloadGameFiles();
      if r.Some? {
        return;
      }
      r := ReplaceGameFiles();
    }
  }
}
