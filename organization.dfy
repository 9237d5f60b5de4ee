/**
 * The organization engine (backend/internal/downloads/organization.go).
 *
 * Organize resolves its configuration, builds the target directory from a
 * path template, remaps the torrent's file paths onto a local mount,
 * checks every source file and the free space, creates the target
 * directory, and then copies (all-or-nothing over the files already copied)
 * or moves (no rollback) every file into it.
 *
 * The filesystem is a class holding a map from path to contents and a set of
 * directories, with a fixed failure oracle that decides which operations
 * fail. The configuration is a map (an absent key is a failed lookup), the
 * remote file manifest is a parameter, and so is the iteration order of the
 * template variables.
 */
module Organization {
  import opened Strings
  import Sanitizer
  import Template
  import QBit
  import Models

  type Path = string
  type Bytes = seq<bv8>

  // ---------------------------------------------------------------------------
  // Configuration
  // ---------------------------------------------------------------------------

  const KeyDestination: string := "paths.destination"
  const KeyTemplate: string := "paths.template"
  const KeyNoSeriesTemplate: string := "paths.no_series_template"
  const KeyOperation: string := "paths.operation"
  const KeyLocalMount: string := "paths.local_mount"

  const DefaultTemplate: string := "{author}/{series}/{title}"
  const DefaultNoSeriesTemplate: string := "{author}/{title}"
  const DefaultOperation: string := "copy"

  /** A configuration read that falls back to `default` when the lookup fails. */
  function Lookup(config: map<string, string>, key: string, default: string): (r: string)
    ensures key in config ==> r == config[key]
    ensures key !in config ==> r == default
  {
    if key in config then config[key] else default
  }

  /** The template for a download: the no-series one exactly when the series is empty. */
  function ChosenTemplate(config: map<string, string>, dl: Models.Download): (t: string)
    ensures dl.series == [] ==> t == Lookup(config, KeyNoSeriesTemplate, DefaultNoSeriesTemplate)
    ensures dl.series != [] ==> t == Lookup(config, KeyTemplate, DefaultTemplate)
  {
    if dl.series == [] then Lookup(config, KeyNoSeriesTemplate, DefaultNoSeriesTemplate)
    else Lookup(config, KeyTemplate, DefaultTemplate)
  }

  /** The variable map of a path template. */
  function VarMap(author: string, series: string, title: string): (vars: map<string, string>)
    ensures vars.Keys == {"author", "series", "title"}
    ensures vars["author"] == author && vars["series"] == series && vars["title"] == title
    ensures forall k :: k in vars ==> k == "author" || k == "series" || k == "title"
    ensures forall k :: k in vars ==> Template.BraceFree(k)
  {
    map["author" := author, "series" := series, "title" := title]
  }

  /** The template variables: author, series and title, each sanitised, so
      that no value holds a path separator or surrounding whitespace. There
      is no series_number variable. */
  function TemplateVars(dl: Models.Download): (vars: map<string, string>)
    ensures vars.Keys == {"author", "series", "title"}
    ensures Sanitizer.NoInvalid(vars["author"]) && Sanitizer.Trimmed(vars["author"])
    ensures Sanitizer.NoInvalid(vars["series"]) && Sanitizer.Trimmed(vars["series"])
    ensures Sanitizer.NoInvalid(vars["title"]) && Sanitizer.Trimmed(vars["title"])
  {
    VarMap(Sanitizer.SanitizePath(dl.author), Sanitizer.SanitizePath(dl.series), Sanitizer.SanitizePath(dl.title))
  }

  // ---------------------------------------------------------------------------
  // Paths
  // ---------------------------------------------------------------------------

  /** filepath.Join of two elements, without the lexical cleaning step: empty
      elements are dropped and the others are separated by one '/'. */
  function Join(a: Path, b: Path): (r: Path)
    ensures a == [] ==> r == b
    ensures b == [] ==> r == a
    ensures a != [] && b != [] ==> |r| == |a| + 1 + |b| && HasPrefix(r, a) && r[|a|] == '/' && r[|a| + 1..] == b
  {
    if a == [] then b else if b == [] then a else a + "/" + b
  }

  predicate IsSlash(c: char) { c == '/' }

  /** The text after the last '/'. */
  function AfterLastSlash(s: string): (r: string)
    ensures '/' !in r && |r| <= |s| && r == s[|s| - |r|..]
    ensures r == s || s[|s| - |r| - 1] == '/'
  {
    if s == [] then []
    else if s[|s| - 1] == '/' then []
    else AfterLastSlash(s[..|s| - 1]) + [s[|s| - 1]]
  }

  /** filepath.Base: the last element after trailing slashes are dropped;
      "." for the empty path and "/" for a path of slashes. */
  function Base(p: Path): (r: string)
    ensures r != []
    ensures r == "/" || '/' !in r
    ensures p == [] ==> r == "."
  {
    if p == [] then "."
    else
      var q := TrimRight(p, IsSlash);
      if q == [] then "/" else AfterLastSlash(q)
  }

  /** The directory a download is organized into, which always lies under
      the configured destination. */
  function TargetPath(config: map<string, string>, dl: Models.Download, order: seq<string>): (r: Path)
    requires KeyDestination in config
    requires Template.IsIterationOrder(order, TemplateVars(dl))
    ensures HasPrefix(r, config[KeyDestination])
    ensures config[KeyDestination] != [] && r != config[KeyDestination] ==> r[|config[KeyDestination]|] == '/'
  {
    Join(config[KeyDestination], Template.ParseTemplate(ChosenTemplate(config, dl), TemplateVars(dl), order))
  }

  /** The mount prefix applied to a source path. */
  function Remapped(files: seq<QBit.TorrentFile>, mount: string): (r: seq<QBit.TorrentFile>)
    ensures |r| == |files|
  {
    if mount == [] then files
    else seq(|files|, i requires 0 <= i < |files| => files[i].(path := Join(mount, files[i].path)))
  }

  /** The required space: the source total plus ten per cent, rounded down. */
  function RequiredSpace(total: nat): (r: nat)
    ensures 10 * r <= 11 * total < 10 * r + 10
    ensures total <= r
  {
    total * 11 / 10
  }

  // ---------------------------------------------------------------------------
  // Failures and outcomes
  // ---------------------------------------------------------------------------

  datatype CopyFault = OpenFails | CreateFails | WriteFails(written: nat) | SyncFails

  /** Which filesystem operations fail. */
  datatype Faults = Faults(
    denied: set<Path>,                  // os.Stat fails with an error other than "does not exist"
    mkdirFails: set<Path>,              // os.MkdirAll fails
    freeSpace: map<Path, int>,          // syscall.Statfs: available bytes; absent = the call fails
    renameFails: set<Path>,             // os.Rename of this source fails
    copyFaults: map<Path, CopyFault>,   // copyFile to this destination fails at the given step
    removeFails: set<Path>)             // os.Remove of this path fails (logged and ignored)

  datatype OrgError =
    | DestinationUnset
    | BaseDirFailed(dir: Path)
    | ManifestFailed
    | SourceMissing(path: Path)
    | SourceInaccessible(path: Path)
    | DiskCheckFailed
    | InsufficientSpace(required: int, available: int)
    | TargetDirFailed(dir: Path)
    | MoveFailed(name: string, src: Path, dest: Path)
    | CopyFailed(name: string, src: Path, dest: Path, fault: CopyFault)

  /** Each error's message, the amounts of the space check formatted as
      formatBytes shows them (the wrapped cause is not modelled). */
  function ErrorText(e: OrgError): (r: string)
    ensures |r| > 0
  {
    match e
    case DestinationUnset => "failed to get destination path"
    case BaseDirFailed(dir) => "failed to create base destination directory " + dir
    case ManifestFailed => "failed to get torrent files"
    case SourceMissing(p) => "source file does not exist: " + p
    case SourceInaccessible(p) => "source file is not accessible: " + p
    case DiskCheckFailed => "failed to check disk space at destination"
    case InsufficientSpace(need, have) =>
      "insufficient disk space: need " + SizeText(need) + ", only " + SizeText(have) + " available"
    case TargetDirFailed(_) => "failed to create directory"
    case MoveFailed(name, src, dest) => "failed to move file " + name + " (" + src + " -> " + dest + ")"
    case CopyFailed(name, src, dest, _) => "failed to copy file " + name + " (" + src + " -> " + dest + ")"
  }

  /** One file to transfer. */
  datatype Step = Step(name: string, src: Path, dest: Path)

  datatype Transfer = Transfer(files: map<Path, Bytes>, err: Option<OrgError>)

  /** The transfers in manifest order, each into the target under its base name. */
  function Plan(srcs: seq<QBit.TorrentFile>, target: Path): (plan: seq<Step>)
    ensures |plan| == |srcs|
    ensures forall i :: 0 <= i < |plan| ==>
              plan[i] == Step(srcs[i].name, srcs[i].path, Join(target, Base(srcs[i].name)))
  {
    seq(|srcs|, i requires 0 <= i < |srcs| => Step(srcs[i].name, srcs[i].path, Join(target, Base(srcs[i].name))))
  }

  // ---------------------------------------------------------------------------
  // Reference definitions of the checks and the transfers
  // ---------------------------------------------------------------------------

  /** The stat error of one source, if any. */
  function StatError(files: map<Path, Bytes>, denied: set<Path>, p: Path): Option<OrgError>
  {
    if p in denied then Some(SourceInaccessible(p))
    else if p !in files then Some(SourceMissing(p))
    else None
  }

  /** The preflight: the first source that cannot be stated is the error;
      otherwise the total size of the sources. */
  function PreflightSpec(files: map<Path, Bytes>, denied: set<Path>, srcs: seq<QBit.TorrentFile>): Result<nat, OrgError>
  {
    if srcs == [] then Ok(0)
    else match StatError(files, denied, srcs[0].path)
      case Some(e) => Err(e)
      case None =>
        match PreflightSpec(files, denied, srcs[1..])
        case Ok(t) => Ok(|files[srcs[0].path]| + t)
        case Err(e) => Err(e)
  }

  function Moved(files: map<Path, Bytes>, src: Path, dest: Path): map<Path, Bytes>
    requires src in files
  {
    (files - {src})[dest := files[src]]
  }

  /** Move mode: rename each file in turn; the first failure ends the loop and
      leaves the earlier renames in place. */
  function MoveAll(files: map<Path, Bytes>, plan: seq<Step>, renameFails: set<Path>): Transfer
    decreases |plan|
  {
    if plan == [] then Transfer(files, None)
    else
      var s := plan[0];
      if s.src !in files || s.src in renameFails then Transfer(files, Some(MoveFailed(s.name, s.src, s.dest)))
      else MoveAll(Moved(files, s.src, s.dest), plan[1..], renameFails)
  }

  /** copyFile: open the source, create (truncate) the destination, copy, sync.
      The copy reads the source after the create, so a file copied onto itself
      is emptied first. A failure after the create leaves the destination with
      what was written. */
  function CopyOne(files: map<Path, Bytes>, src: Path, dest: Path, faults: map<Path, CopyFault>): (map<Path, Bytes>, Option<CopyFault>)
  {
    if src !in files then (files, Some(OpenFails))
    else if dest in faults && faults[dest].OpenFails? then (files, Some(OpenFails))
    else if dest in faults && faults[dest].CreateFails? then (files, Some(CreateFails))
    else
      var created := files[dest := []];
      var data := created[src];
      if dest !in faults then (created[dest := data], None)
      else match faults[dest]
        case WriteFails(n) => (created[dest := data[..if n < |data| then n else |data|]], Some(WriteFails(n)))
        case SyncFails => (created[dest := data], Some(SyncFails))
  }

  /** Removal of each listed path in order; a failed removal leaves the path. */
  function RemoveAll(files: map<Path, Bytes>, paths: seq<Path>, removeFails: set<Path>): map<Path, Bytes>
    decreases |paths|
  {
    if paths == [] then files
    else RemoveAll(if paths[0] in removeFails then files else files - {paths[0]}, paths[1..], removeFails)
  }

  /** Copy mode: copy each file in turn, remembering the copied destinations;
      on the first failure remove them all and stop. */
  function CopyAll(files: map<Path, Bytes>, plan: seq<Step>, copied: seq<Path>, faults: Faults): Transfer
    decreases |plan|
  {
    if plan == [] then Transfer(files, None)
    else
      var s := plan[0];
      var (next, fault) := CopyOne(files, s.src, s.dest, faults.copyFaults);
      if fault.Some? then Transfer(RemoveAll(next, copied, faults.removeFails), Some(CopyFailed(s.name, s.src, s.dest, fault.value)))
      else CopyAll(next, plan[1..], copied + [s.dest], faults)
  }

  // ---------------------------------------------------------------------------
  // The filesystem
  // ---------------------------------------------------------------------------

  class FileSystem {
    var files: map<Path, Bytes>
    var dirs: set<Path>
    const faults: Faults

    constructor(files: map<Path, Bytes>, dirs: set<Path>, faults: Faults)
      ensures this.files == files && this.dirs == dirs && this.faults == faults
    {
      this.files := files;
      this.dirs := dirs;
      this.faults := faults;
    }

    /** os.MkdirAll: the directory exists afterwards unless the oracle says it fails. */
    method MkdirAll(p: Path) returns (ok: bool)
      modifies this
      ensures ok == (p !in faults.mkdirFails)
      ensures files == old(files)
      ensures dirs == if ok then old(dirs) + {p} else old(dirs)
    {
      ok := p !in faults.mkdirFails;
      if ok {
        dirs := dirs + {p};
      }
    }

    /** The pre-organization check of the sources, accumulating their sizes. */
    method Preflight(srcs: seq<QBit.TorrentFile>) returns (r: Result<nat, OrgError>)
      ensures r == PreflightSpec(files, faults.denied, srcs)
    {
      var total := 0;
      var i := 0;
      while i < |srcs|
        invariant 0 <= i <= |srcs|
        invariant PreflightSpec(files, faults.denied, srcs) ==
                  match PreflightSpec(files, faults.denied, srcs[i..])
                  case Ok(t) => Ok(total + t)
                  case Err(e) => Err(e)
      {
        assert srcs[i..][1..] == srcs[i + 1..];
        var p := srcs[i].path;
        if p in faults.denied {
          return Err(SourceInaccessible(p));
        }
        if p !in files {
          return Err(SourceMissing(p));
        }
        total := total + |files[p]|;
        i := i + 1;
      }
      assert srcs[i..] == [];
      r := Ok(total);
    }

    /** The move loop. */
    method MoveFiles(plan: seq<Step>) returns (err: Option<OrgError>)
      modifies this
      ensures Transfer(files, err) == MoveAll(old(files), plan, faults.renameFails)
      ensures dirs == old(dirs)
    {
      var i := 0;
      while i < |plan|
        invariant 0 <= i <= |plan| && dirs == old(dirs)
        invariant MoveAll(old(files), plan, faults.renameFails) == MoveAll(files, plan[i..], faults.renameFails)
      {
        assert plan[i..][1..] == plan[i + 1..];
        var s := plan[i];
        if s.src !in files || s.src in faults.renameFails {
          return Some(MoveFailed(s.name, s.src, s.dest));
        }
        files := Moved(files, s.src, s.dest);
        i := i + 1;
      }
      assert plan[i..] == [];
      err := None;
    }

    /** copyFile against the oracle. */
    method CopyFile(src: Path, dest: Path) returns (fault: Option<CopyFault>)
      modifies this
      ensures (files, fault) == CopyOne(old(files), src, dest, faults.copyFaults)
      ensures dirs == old(dirs)
    {
      if src !in files {
        return Some(OpenFails);
      }
      if dest in faults.copyFaults && faults.copyFaults[dest].OpenFails? {
        return Some(OpenFails);
      }
      if dest in faults.copyFaults && faults.copyFaults[dest].CreateFails? {
        return Some(CreateFails);
      }
      files := files[dest := []];
      var data := files[src];
      if dest !in faults.copyFaults {
        files := files[dest := data];
        return None;
      }
      match faults.copyFaults[dest]
      case WriteFails(n) =>
        files := files[dest := data[..if n < |data| then n else |data|]];
        fault := Some(WriteFails(n));
      case SyncFails =>
        files := files[dest := data];
        fault := Some(SyncFails);
    }

    /** The cleanup loop: remove every copied destination, ignoring failures. */
    method RemoveCopied(copied: seq<Path>)
      modifies this
      ensures files == RemoveAll(old(files), copied, faults.removeFails)
      ensures dirs == old(dirs)
    {
      var i := 0;
      while i < |copied|
        invariant 0 <= i <= |copied| && dirs == old(dirs)
        invariant RemoveAll(old(files), copied, faults.removeFails) == RemoveAll(files, copied[i..], faults.removeFails)
      {
        assert copied[i..][1..] == copied[i + 1..];
        if copied[i] !in faults.removeFails {
          files := files - {copied[i]};
        }
        i := i + 1;
      }
      assert copied[i..] == [];
    }

    /** The copy loop. */
    method CopyFiles(plan: seq<Step>) returns (err: Option<OrgError>)
      modifies this
      ensures Transfer(files, err) == CopyAll(old(files), plan, [], faults)
      ensures dirs == old(dirs)
    {
      var copied: seq<Path> := [];
      var i := 0;
      while i < |plan|
        invariant 0 <= i <= |plan| && dirs == old(dirs)
        invariant CopyAll(old(files), plan, [], faults) == CopyAll(files, plan[i..], copied, faults)
      {
        assert plan[i..][1..] == plan[i + 1..];
        var s := plan[i];
        var fault := CopyFile(s.src, s.dest);
        if fault.Some? {
          RemoveCopied(copied);
          return Some(CopyFailed(s.name, s.src, s.dest, fault.value));
        }
        copied := copied + [s.dest];
        i := i + 1;
      }
      assert plan[i..] == [];
      err := None;
    }
  }

  /** The loop that prepends the local mount to every source path. */
  method RemapPaths(files: seq<QBit.TorrentFile>, mount: string) returns (r: seq<QBit.TorrentFile>)
    ensures r == Remapped(files, mount)
    ensures mount == [] ==> r == files
    ensures mount != [] ==> forall i :: 0 <= i < |r| ==>
              r[i].name == files[i].name && r[i].size == files[i].size && r[i].path == Join(mount, files[i].path)
  {
    r := files;
    if mount != [] {
      var i := 0;
      while i < |r|
        invariant 0 <= i <= |r| && |r| == |files|
        invariant forall j :: 0 <= j < i ==> r[j] == files[j].(path := Join(mount, files[j].path))
        invariant forall j :: i <= j < |r| ==> r[j] == files[j]
      {
        r := r[i := r[i].(path := Join(mount, r[i].path))];
        i := i + 1;
      }
    }
  }

  // ---------------------------------------------------------------------------
  // Organize
  // ---------------------------------------------------------------------------

  /** The state after the checks and the transfer: the error, if any, the
      files and the directories. */
  datatype Placed = Placed(err: Option<OrgError>, files: map<Path, Bytes>, dirs: set<Path>)

  /** The reference definition of everything after the manifest is known:
      preflight, free space, the target directory, then the transfer. */
  function PlaceSpec(files: map<Path, Bytes>, dirs: set<Path>, faults: Faults, base: Path, target: Path,
                     srcs: seq<QBit.TorrentFile>, operation: string): Placed
  {
    match PreflightSpec(files, faults.denied, srcs)
    case Err(e) => Placed(Some(e), files, dirs)
    case Ok(total) =>
      if base !in faults.freeSpace then Placed(Some(DiskCheckFailed), files, dirs)
      else if faults.freeSpace[base] < RequiredSpace(total) then
        Placed(Some(InsufficientSpace(RequiredSpace(total), faults.freeSpace[base])), files, dirs)
      else if target in faults.mkdirFails then Placed(Some(TargetDirFailed(target)), files, dirs)
      else
        var plan := Plan(srcs, target);
        var t := if operation == "move" then MoveAll(files, plan, faults.renameFails) else CopyAll(files, plan, [], faults);
        Placed(t.err, t.files, dirs + {target})
  }

  /** What Organize leaves behind: its result, the files and the directories. */
  datatype Outcome = Outcome(result: Result<Models.Download, OrgError>, files: map<Path, Bytes>, dirs: set<Path>)

  /** The reference definition of Organize, step by step in the source's order. */
  function OrganizeSpec(files: map<Path, Bytes>, dirs: set<Path>, faults: Faults, config: map<string, string>,
                        dl: Models.Download, manifest: Option<seq<QBit.TorrentFile>>, order: seq<string>): Outcome
    requires Template.IsIterationOrder(order, TemplateVars(dl))
  {
    if KeyDestination !in config then Outcome(Err(DestinationUnset), files, dirs)
    else
      var base := config[KeyDestination];
      if base in faults.mkdirFails then Outcome(Err(BaseDirFailed(base)), files, dirs)
      else if manifest.None? then Outcome(Err(ManifestFailed), files, dirs + {base})
      else
        var target := TargetPath(config, dl, order);
        var srcs := Remapped(manifest.value, Lookup(config, KeyLocalMount, ""));
        var p := PlaceSpec(files, dirs + {base}, faults, base, target, srcs, Lookup(config, KeyOperation, DefaultOperation));
        Outcome(if p.err.None? then Ok(dl.(organizedPath := target)) else Err(p.err.value), p.files, p.dirs)
  }

  /** The checks and the transfer, on the filesystem. */
  method Place(fs: FileSystem, base: Path, target: Path, srcs: seq<QBit.TorrentFile>, operation: string)
    returns (err: Option<OrgError>)
    modifies fs
    ensures Placed(err, fs.files, fs.dirs) == PlaceSpec(old(fs.files), old(fs.dirs), fs.faults, base, target, srcs, operation)
  {
    var pre := fs.Preflight(srcs);
    if pre.Err? {
      return Some(pre.error);
    }
    var total := pre.value;
    if base !in fs.faults.freeSpace {
      return Some(DiskCheckFailed);
    }
    var available := fs.faults.freeSpace[base];
    var required := RequiredSpace(total);
    if available < required {
      return Some(InsufficientSpace(required, available));
    }
    var ok := fs.MkdirAll(target);
    if !ok {
      return Some(TargetDirFailed(target));
    }
    var plan := Plan(srcs, target);
    if operation == "move" {
      err := fs.MoveFiles(plan);
    } else {
      err := fs.CopyFiles(plan);
    }
  }

  /** Organize. `manifest` is what GetTorrentFiles returned (None for an error);
      `order` is the iteration order of the template variables. The result
      carries the download with its organized path set. */
  method Organize(fs: FileSystem, config: map<string, string>, dl: Models.Download,
                  manifest: Option<seq<QBit.TorrentFile>>, order: seq<string>)
    returns (r: Result<Models.Download, OrgError>)
    requires Template.IsIterationOrder(order, TemplateVars(dl))
    modifies fs
    ensures Outcome(r, fs.files, fs.dirs) == OrganizeSpec(old(fs.files), old(fs.dirs), fs.faults, config, dl, manifest, order)
  {
    if KeyDestination !in config {
      return Err(DestinationUnset);
    }
    var base := config[KeyDestination];
    var ok := fs.MkdirAll(base);
    if !ok {
      return Err(BaseDirFailed(base));
    }
    var operation := Lookup(config, KeyOperation, DefaultOperation);
    var pathTemplate := ChosenTemplate(config, dl);
    var path := Template.ParseTemplate(pathTemplate, TemplateVars(dl), order);
    var target := Join(base, path);
    if manifest.None? {
      return Err(ManifestFailed);
    }
    var mount := Lookup(config, KeyLocalMount, "");
    var srcs := RemapPaths(manifest.value, mount);
    var err := Place(fs, base, target, srcs, operation);
    if err.Some? {
      return Err(err.value);
    }
    r := Ok(dl.(organizedPath := target));
  }

  // ---------------------------------------------------------------------------
  // formatBytes
  // ---------------------------------------------------------------------------

  function Pow1024(e: nat): (r: nat)
    ensures r >= 1
  {
    if e == 0 then 1 else 1024 * Pow1024(e - 1)
  }

  /** A human-readable size: the value and the divisor it is shown against
      (the one-decimal rendering of the quotient is not modelled). */
  datatype ByteSize = InBytes(n: int) | Scaled(n: int, div: nat, exp: nat, unit: char)

  const Units: string := "KMGTPE"

  /** One more division by 1024 keeps the quotient's bracket. */
  lemma ScaleStep(bytes: int, div: nat, n: nat)
    requires div * n <= bytes < div * (n + 1)
    ensures div * 1024 * (n / 1024) <= bytes < div * 1024 * (n / 1024 + 1)
  {
    var q := n / 1024;
    var s := n % 1024;
    var big := div * 1024;
    assert n == 1024 * q + s;
    MulSplit(div, 1024 * q, s);
    MulSplit(div, 1024 * q, s + 1);
    MulAssoc(div, 1024, q);
    MulMono(div, s + 1, 1024);
    MulSplit(big, q, 1);
  }

  lemma MulSplit(a: int, b: int, c: int)
    ensures a * (b + c) == a * b + a * c
  {
  }

  lemma MulAssoc(a: int, b: int, c: int)
    ensures a * (b * c) == a * b * c
  {
  }

  lemma MulMono(a: nat, b: int, c: int)
    requires b <= c
    ensures a * b <= a * c
  {
    MulSplit(a, b, c - b);
  }

  lemma {:induction false} Pow1024Large(e: nat)
    requires e >= 7
    ensures Pow1024(e) >= 0x8000_0000_0000_0000
  {
    if e > 7 {
      Pow1024Large(e - 1);
    }
  }

  lemma FinalBracket(bytes: int, div: nat, n: nat)
    requires 1 <= n < 1024 && div * n <= bytes < div * (n + 1)
    ensures div <= bytes < 1024 * div
  {
    assert div * (n - 1) >= 0;
    assert div * (n + 1) <= div * 1024 by {
      assert div * (1024 - (n + 1)) >= 0;
    }
  }

  /** A divisor that fits in a signed 64-bit value is at most 1024^6. */
  lemma UnitInRange(exp: nat, bytes: int)
    requires Pow1024(exp + 1) <= bytes < 0x8000_0000_0000_0000
    ensures exp < |Units|
  {
    if exp + 1 >= 7 {
      Pow1024Large(exp + 1);
    }
  }

  /** The divisor and unit index the division loop settles on, from the
      quotient n of the value by div = 1024^(exp+1). */
  function ScaleFrom(n: nat, div: nat, exp: nat): (nat, nat)
    decreases n
  {
    if n < 1024 then (div, exp) else ScaleFrom(n / 1024, div * 1024, exp + 1)
  }

  /** The loop's bracket survives to its end. */
  lemma {:induction false} ScaleFromBracket(bytes: int, n: nat, div: nat, exp: nat)
    requires n >= 1 && div == Pow1024(exp + 1) && div * n <= bytes < div * (n + 1)
    ensures var (d, x) := ScaleFrom(n, div, exp);
            d == Pow1024(x + 1) && d <= bytes < 1024 * d
    decreases n
  {
    if n < 1024 {
      FinalBracket(bytes, div, n);
    } else {
      ScaleStep(bytes, div, n);
      ScaleFromBracket(bytes, n / 1024, div * 1024, exp + 1);
    }
  }

  /** formatBytes as a value: the count below 1024, otherwise the divisor
      and unit letter the loop settles on. */
  function Scale(bytes: int): (r: ByteSize)
    requires bytes < 0x8000_0000_0000_0000
    ensures r.Scaled? ==> r.n == bytes && r.exp < |Units| && r.unit == Units[r.exp] &&
                          r.div == Pow1024(r.exp + 1) && r.div <= bytes < 1024 * r.div
  {
    if bytes < 1024 then InBytes(bytes)
    else
      ScaleFromBracket(bytes, bytes / 1024, 1024, 0);
      var (div, exp) := ScaleFrom(bytes / 1024, 1024, 0);
      UnitInRange(exp, bytes);
      Scaled(bytes, div, exp, Units[exp])
  }

  /** a / b rounded to the nearest integer, a tie going to the even one, as
      Go's %.1f rounds an exact value. */
  function DivRoundEven(a: nat, b: nat): (q: nat)
    requires b > 0
  {
    var q := a / b;
    var r := a % b;
    if 2 * r > b || (2 * r == b && q % 2 == 1) then q + 1 else q
  }

  /** The rounded quotient is within half a unit of the exact one. */
  lemma DivRoundEvenNearest(a: nat, b: nat)
    requires b > 0
    ensures 2 * (a - DivRoundEven(a, b) * b) <= b && 2 * (DivRoundEven(a, b) * b - a) <= b
  {
    var q := a / b;
    var r := a % b;
    assert a == q * b + r;
    assert (q + 1) * b == q * b + b;
  }

  /** The text formatBytes returns: "%d B" below 1024, otherwise the
      quotient to one decimal and the unit, as in "1.5 KB". A value outside
      Go's 64-bit int, which the source cannot hold, is shown as a count. */
  function SizeText(bytes: int): (t: string)
  {
    if bytes >= 0x8000_0000_0000_0000 then FormatInt(bytes) + " B"
    else
      match Scale(bytes)
      case InBytes(n) => FormatInt(n) + " B"
      case Scaled(n, div, _, unit) =>
        var tenths := DivRoundEven(n * 10, div);
        FormatInt(tenths / 10) + "." + [DigitChar(tenths % 10)] + " " + [unit] + "B"
  }

  /** The shown quotient is the value divided by its divisor to within half
      a tenth, and the unit names that divisor. */
  lemma SizeTextScaled(bytes: int)
    requires 1024 <= bytes < 0x8000_0000_0000_0000
    ensures var s := Scale(bytes);
            var tenths := DivRoundEven(bytes * 10, s.div);
            SizeText(bytes) == FormatInt(tenths / 10) + "." + [DigitChar(tenths % 10)] + " " + [Units[s.exp]] + "B" &&
            2 * (bytes * 10 - tenths * s.div) <= s.div && 2 * (tenths * s.div - bytes * 10) <= s.div
  {
    DivRoundEvenNearest(bytes * 10, Scale(bytes).div);
  }

  /** Sample renderings: a count, one and a half kibibytes, and a tie
      (1.25) rounded to the even tenth. */
  lemma SizeTextExamples()
    ensures SizeText(1000) == "1000 B"
    ensures SizeText(1536) == "1.5 KB"
    ensures SizeText(1280) == "1.2 KB"
  {
    SizeTextBytes();
    SizeTextHalf();
    SizeTextTie();
  }

  lemma SizeTextBytes()
    ensures SizeText(1000) == "1000 B"
  {
    assert Digits(1000) == "1000" by {
      assert Digits(100) == "100" by { assert Digits(10) == "10"; }
    }
  }

  lemma SizeTextHalf()
    ensures SizeText(1536) == "1.5 KB"
  {
    assert Scale(1536) == Scaled(1536, 1024, 0, 'K');
    assert DivRoundEven(15360, 1024) == 15;
  }

  /** 1.25 is halfway: it rounds to the even digit. */
  lemma SizeTextTie()
    ensures SizeText(1280) == "1.2 KB"
  {
    assert Scale(1280) == Scaled(1280, 1024, 0, 'K');
    assert DivRoundEven(12800, 1024) == 12;
  }

  /** formatBytes: below 1024 the plain count; otherwise the largest power of
      1024 not above the value, with its unit letter. */
  method FormatBytes(bytes: int) returns (r: ByteSize)
    requires -0x8000_0000_0000_0000 <= bytes < 0x8000_0000_0000_0000
    ensures r == Scale(bytes)
    ensures bytes < 1024 <==> r.InBytes?
    ensures r.InBytes? ==> r.n == bytes
    ensures r.Scaled? ==> r.n == bytes && r.exp < |Units| && r.unit == Units[r.exp] &&
                          r.div == Pow1024(r.exp + 1) && r.div <= bytes < 1024 * r.div
  {
    if bytes < 1024 {
      return InBytes(bytes);
    }
    var div: nat := 1024;
    var exp: nat := 0;
    var n: nat := bytes / 1024;
    while n >= 1024
      invariant div == Pow1024(exp + 1) && n >= 1
      invariant div * n <= bytes < div * (n + 1)
      invariant ScaleFrom(n, div, exp) == ScaleFrom(bytes / 1024, 1024, 0)
      decreases n
    {
      ScaleStep(bytes, div, n);
      div := div * 1024;
      exp := exp + 1;
      n := n / 1024;
    }
    FinalBracket(bytes, div, n);
    UnitInRange(exp, bytes);
    r := Scaled(bytes, div, exp, Units[exp]);
  }
}
