/** The file-system primitives the installer uses, over an abstract tree: a
    map from path to asset for the user's side, and an immutable listing of
    the package's template directory. Copying overwrites, `listFiles` is a
    suffix filter over a directory listing in listing order, and the Claude
    structure is the `agents`, `commands` and `hooks` subdirectories. */
module FileTree {
  import opened Wrappers
  import opened Text

  /** A path as its segments; `path.join` of segments is concatenation. */
  type Path = seq<string>

  /** A file, or a directory of files (a skill). */
  datatype Asset = File(content: string) | Folder(files: map<string, string>)

  /** One directory entry, as `readdir` lists it. */
  datatype Entry = Entry(name: string, asset: Asset)

  /** The package's template directory: the listing of each category
      subdirectory that exists, in `readdir` order. */
  datatype Templates = Templates(dirs: map<string, seq<Entry>>)

  /** The errors the wrappers raise: a directory that cannot be listed, a
      source that cannot be copied. */
  datatype FsError = ListFailed(dir: string) | CopyFailed(subdir: string, item: string)

  // ---------------------------------------------------------------------------
  // Listing the templates
  // ---------------------------------------------------------------------------

  /** The names of the entries that end with `ext`, in listing order. */
  function NamesEndingWith(entries: seq<Entry>, ext: string): (r: seq<string>)
    ensures |r| <= |entries|
    ensures forall n :: n in r ==> EndsWith(n, ext)
    ensures forall i :: 0 <= i < |entries| && EndsWith(entries[i].name, ext) ==> entries[i].name in r
    ensures forall n :: n in r ==> exists i :: 0 <= i < |entries| && entries[i].name == n
    decreases |entries|
  {
    if entries == [] then []
    else
      var rest := NamesEndingWith(entries[1..], ext);
      assert forall i :: 1 <= i < |entries| ==> entries[i] == entries[1..][i - 1];
      if EndsWith(entries[0].name, ext) then [entries[0].name] + rest else rest
  }

  function AllNames(entries: seq<Entry>): (r: seq<string>)
    ensures |r| == |entries| && forall i :: 0 <= i < |r| ==> r[i] == entries[i].name
  {
    seq(|entries|, i requires 0 <= i < |entries| => entries[i].name)
  }

  /** `listFiles(dir, ext)`: with an extension, the names ending with it;
      without one, every name; an error when the directory is missing. */
  function ListFiles(t: Templates, subdir: string, ext: string): (r: Result<seq<string>, FsError>)
    ensures r.Failure? <==> subdir !in t.dirs
    ensures r.Failure? ==> r.error == ListFailed(subdir)
    ensures r.Success? ==> forall n :: n in r.value ==> EndsWith(n, ext)
    ensures r.Success? ==> forall i :: 0 <= i < |t.dirs[subdir]| && EndsWith(t.dirs[subdir][i].name, ext) ==>
      t.dirs[subdir][i].name in r.value
  {
    if subdir !in t.dirs then Failure(ListFailed(subdir))
    else if ext != "" then Success(NamesEndingWith(t.dirs[subdir], ext))
    else Success(AllNames(t.dirs[subdir]))
  }

  /** The names of the sub-directories in a listing, in listing order. */
  function FolderNames(entries: seq<Entry>): (r: seq<string>)
    ensures forall i :: 0 <= i < |entries| && entries[i].asset.Folder? ==> entries[i].name in r
    ensures forall n :: n in r ==> exists i :: 0 <= i < |entries| && entries[i].name == n && entries[i].asset.Folder?
    decreases |entries|
  {
    if entries == [] then []
    else
      var rest := FolderNames(entries[1..]);
      assert forall i :: 1 <= i < |entries| ==> entries[i] == entries[1..][i - 1];
      if entries[0].asset.Folder? then [entries[0].name] + rest else rest
  }

  /** The listing filters keep listing order: filtering a concatenation is
      concatenating the filtered parts, and a single entry is kept exactly
      when it passes the test. */
  lemma {:induction false} NamesEndingWithAppend(a: seq<Entry>, b: seq<Entry>, ext: string)
    ensures NamesEndingWith(a + b, ext) == NamesEndingWith(a, ext) + NamesEndingWith(b, ext)
    ensures |a| == 1 ==> NamesEndingWith(a, ext) == if EndsWith(a[0].name, ext) then [a[0].name] else []
    decreases |a|
  {
    if a != [] {
      var c := a + b;
      assert c[0] == a[0] && c[1..] == a[1..] + b;
      var keep := if EndsWith(a[0].name, ext) then [a[0].name] else [];
      assert NamesEndingWith(c, ext) == keep + NamesEndingWith(c[1..], ext);
      assert NamesEndingWith(a, ext) == keep + NamesEndingWith(a[1..], ext);
      NamesEndingWithAppend(a[1..], b, ext);
    } else {
      assert a + b == b;
    }
  }

  lemma {:induction false} FolderNamesAppend(a: seq<Entry>, b: seq<Entry>)
    ensures FolderNames(a + b) == FolderNames(a) + FolderNames(b)
    ensures |a| == 1 ==> FolderNames(a) == if a[0].asset.Folder? then [a[0].name] else []
    decreases |a|
  {
    if a != [] {
      var c := a + b;
      assert c[0] == a[0] && c[1..] == a[1..] + b;
      var keep := if a[0].asset.Folder? then [a[0].name] else [];
      assert FolderNames(c) == keep + FolderNames(c[1..]);
      assert FolderNames(a) == keep + FolderNames(a[1..]);
      FolderNamesAppend(a[1..], b);
    } else {
      assert a + b == b;
    }
  }

  /** `listDirs(dir)`: the sub-directories of a template directory. */
  function ListDirs(t: Templates, subdir: string): (r: Result<seq<string>, FsError>)
    ensures r.Failure? <==> subdir !in t.dirs
    ensures r.Failure? ==> r.error == ListFailed(subdir)
  {
    if subdir !in t.dirs then Failure(ListFailed(subdir)) else Success(FolderNames(t.dirs[subdir]))
  }

  /** The first entry of a listing with the given name. */
  function Lookup(entries: seq<Entry>, name: string): (r: Option<Asset>)
    decreases |entries|
  {
    if entries == [] then None
    else if entries[0].name == name then Some(entries[0].asset)
    else
      Lookup(entries[1..], name)
  }

  /** A lookup succeeds exactly when the listing holds an entry of that name. */
  lemma {:induction false} LookupFinds(entries: seq<Entry>, name: string)
    ensures Lookup(entries, name).Some? <==> exists i :: 0 <= i < |entries| && entries[i].name == name
    decreases |entries|
  {
    if entries != [] && entries[0].name != name {
      LookupFinds(entries[1..], name);
      assert forall i :: 1 <= i < |entries| ==> entries[i] == entries[1..][i - 1];
      if exists i :: 0 <= i < |entries| && entries[i].name == name {
        var i :| 0 <= i < |entries| && entries[i].name == name;
        assert entries[1..][i - 1].name == name;
      }
    }
  }

  /** The template `subdir/item`, if it exists. */
  function Source(t: Templates, subdir: string, item: string): Option<Asset> {
    if subdir in t.dirs then Lookup(t.dirs[subdir], item) else None
  }

  // ---------------------------------------------------------------------------
  // Copying into the target tree
  // ---------------------------------------------------------------------------

  function Get(files: map<Path, Asset>, p: Path): Option<Asset> {
    if p in files then Some(files[p]) else None
  }

  /** `a` holds a copy of `src`: the same file, or a directory with every one
      of `src`'s files. */
  predicate Holds(a: Asset, src: Asset) {
    match src
    case File(_) => a == src
    case Folder(fs) => a.Folder? && forall k :: k in fs ==> k in a.files && a.files[k] == fs[k]
  }

  /** What an overwriting copy of `src` leaves at a destination holding
      `existing`: a file replaces whatever was there; a directory copied onto
      a directory merges into it, its own files winning. */
  function Place(existing: Option<Asset>, src: Asset): (r: Asset)
    ensures Holds(r, src)
    ensures src.File? ==> r == src
  {
    if src.Folder? && existing.Some? && existing.value.Folder? then Folder(existing.value.files + src.files)
    else src
  }

  /** Copy `templateDir/subdir/item` to `root/subdir/item`. */
  datatype CopyOp = CopyOp(subdir: string, item: string)

  function Dest(root: Path, op: CopyOp): (p: Path)
    ensures |p| == |root| + 2 && p[..|root|] == root && p[|root|] == op.subdir && p[|root| + 1] == op.item
  {
    root + [op.subdir, op.item]
  }

  /** Two copies land on the same path only when they are the same copy. */
  lemma DestInjective(root: Path, a: CopyOp, b: CopyOp)
    requires Dest(root, a) == Dest(root, b)
    ensures a == b
  {
    assert Dest(root, a)[|root|] == Dest(root, b)[|root|];
    assert Dest(root, a)[|root| + 1] == Dest(root, b)[|root| + 1];
  }

  /** One copy per item of a category, in list order. */
  function Ops(subdir: string, items: seq<string>): (r: seq<CopyOp>)
    ensures |r| == |items| && forall i :: 0 <= i < |r| ==> r[i] == CopyOp(subdir, items[i])
  {
    seq(|items|, i requires 0 <= i < |items| => CopyOp(subdir, items[i]))
  }

  /** The tree after a run of copies, the paths written in order, and the
      error of the copy that stopped the run, if one did. */
  datatype Outcome = Outcome(files: map<Path, Asset>, written: seq<Path>, error: Option<FsError>)

  /** Copies run one after another; the first source that is missing throws
      and ends the run, leaving the earlier copies in place. */
  function RunCopies(files: map<Path, Asset>, t: Templates, root: Path, ops: seq<CopyOp>): Outcome
    decreases |ops|
  {
    if ops == [] then Outcome(files, [], None)
    else match Source(t, ops[0].subdir, ops[0].item)
      case None => Outcome(files, [], Some(CopyFailed(ops[0].subdir, ops[0].item)))
      case Some(src) =>
        var dest := Dest(root, ops[0]);
        var rest := RunCopies(files[dest := Place(Get(files, dest), src)], t, root, ops[1..]);
        Outcome(rest.files, [dest] + rest.written, rest.error)
  }

  /** Running `a` and then `b` is running `a + b`, unless `a` stopped. */
  function Then(first: Outcome, t: Templates, root: Path, ops: seq<CopyOp>): Outcome {
    if first.error.Some? then first
    else
      var second := RunCopies(first.files, t, root, ops);
      Outcome(second.files, first.written + second.written, second.error)
  }

  lemma {:induction false} RunCopiesAppend(files: map<Path, Asset>, t: Templates, root: Path, a: seq<CopyOp>, b: seq<CopyOp>)
    ensures RunCopies(files, t, root, a + b) == Then(RunCopies(files, t, root, a), t, root, b)
    decreases |a|
  {
    if a == [] {
      assert a + b == b;
      var o := RunCopies(files, t, root, b);
      assert [] + o.written == o.written;
    } else {
      assert (a + b)[0] == a[0] && (a + b)[1..] == a[1..] + b;
      match Source(t, a[0].subdir, a[0].item)
      case None =>
      case Some(src) =>
        var dest := Dest(root, a[0]);
        var next := files[dest := Place(Get(files, dest), src)];
        RunCopiesAppend(next, t, root, a[1..], b);
        var first := RunCopies(next, t, root, a[1..]);
        if first.error.None? {
          var second := RunCopies(first.files, t, root, b);
          assert [dest] + (first.written + second.written) == ([dest] + first.written) + second.written;
        }
    }
  }

  /** One more copy after a run that has not stopped. */
  lemma RunCopiesSnoc(files: map<Path, Asset>, t: Templates, root: Path, ops: seq<CopyOp>, i: int)
    requires 0 <= i < |ops|
    ensures RunCopies(files, t, root, ops[..i + 1]) == Then(RunCopies(files, t, root, ops[..i]), t, root, [ops[i]])
  {
    RunCopiesAppend(files, t, root, ops[..i], [ops[i]]);
    assert ops[..i + 1] == ops[..i] + [ops[i]];
  }

  /** A run that stopped at copy `i` is the whole run. */
  lemma RunCopiesStopped(files: map<Path, Asset>, t: Templates, root: Path, ops: seq<CopyOp>, i: int)
    requires 0 <= i < |ops| && RunCopies(files, t, root, ops[..i + 1]).error.Some?
    ensures RunCopies(files, t, root, ops) == RunCopies(files, t, root, ops[..i + 1])
  {
    RunCopiesAppend(files, t, root, ops[..i + 1], ops[i + 1..]);
    assert ops[..i + 1] + ops[i + 1..] == ops;
  }

  /** A run of copies stops exactly when some source is missing; when none
      is, every copy is written, in order. */
  lemma {:induction false} RunCopiesComplete(files: map<Path, Asset>, t: Templates, root: Path, ops: seq<CopyOp>)
    ensures RunCopies(files, t, root, ops).error.None? <==>
      forall i :: 0 <= i < |ops| ==> Source(t, ops[i].subdir, ops[i].item).Some?
    ensures RunCopies(files, t, root, ops).error.None? ==>
      RunCopies(files, t, root, ops).written == seq(|ops|, i requires 0 <= i < |ops| => Dest(root, ops[i]))
    decreases |ops|
  {
    if ops != [] {
      match Source(t, ops[0].subdir, ops[0].item)
      case None =>
      case Some(src) =>
        var dest := Dest(root, ops[0]);
        RunCopiesComplete(files[dest := Place(Get(files, dest), src)], t, root, ops[1..]);
        assert forall i :: 1 <= i < |ops| ==> ops[i] == ops[1..][i - 1];
    }
  }

  /** Nothing outside the destinations of the copies changes. */
  lemma {:induction false} RunCopiesFrame(files: map<Path, Asset>, t: Templates, root: Path, ops: seq<CopyOp>, p: Path)
    requires forall i :: 0 <= i < |ops| ==> p != Dest(root, ops[i])
    ensures Get(RunCopies(files, t, root, ops).files, p) == Get(files, p)
    decreases |ops|
  {
    if ops != [] {
      match Source(t, ops[0].subdir, ops[0].item)
      case None =>
      case Some(src) =>
        var dest := Dest(root, ops[0]);
        assert forall i :: 1 <= i < |ops| ==> ops[i] == ops[1..][i - 1];
        RunCopiesFrame(files[dest := Place(Get(files, dest), src)], t, root, ops[1..], p);
    }
  }

  /** After a run that did not stop, every destination holds a copy of its
      source. */
  lemma {:induction false} RunCopiesLand(files: map<Path, Asset>, t: Templates, root: Path, ops: seq<CopyOp>, k: int)
    requires 0 <= k < |ops| && RunCopies(files, t, root, ops).error.None?
    ensures Source(t, ops[k].subdir, ops[k].item).Some?
    ensures Dest(root, ops[k]) in RunCopies(files, t, root, ops).files
    ensures Holds(RunCopies(files, t, root, ops).files[Dest(root, ops[k])], Source(t, ops[k].subdir, ops[k].item).value)
    decreases |ops|
  {
    var src := Source(t, ops[0].subdir, ops[0].item).value;
    var dest := Dest(root, ops[0]);
    var next := files[dest := Place(Get(files, dest), src)];
    if k > 0 {
      assert ops[k] == ops[1..][k - 1];
      RunCopiesLand(next, t, root, ops[1..], k - 1);
    } else if exists i :: 1 <= i < |ops| && Dest(root, ops[i]) == dest {
      var i :| 1 <= i < |ops| && Dest(root, ops[i]) == dest;
      assert ops[i] == ops[1..][i - 1];
      DestInjective(root, ops[i], ops[0]);
      RunCopiesLand(next, t, root, ops[1..], i - 1);
    } else {
      assert forall i :: 0 <= i < |ops[1..]| ==> dest != Dest(root, ops[1..][i]);
      RunCopiesFrame(next, t, root, ops[1..], dest);
    }
  }

  /** The error that stops a run names the copy whose source is missing. */
  lemma {:induction false} RunCopiesFailure(files: map<Path, Asset>, t: Templates, root: Path, ops: seq<CopyOp>)
    ensures RunCopies(files, t, root, ops).error.Some? ==>
      exists i :: 0 <= i < |ops| && Source(t, ops[i].subdir, ops[i].item).None? &&
        RunCopies(files, t, root, ops).error.value == CopyFailed(ops[i].subdir, ops[i].item)
    decreases |ops|
  {
    if ops != [] {
      match Source(t, ops[0].subdir, ops[0].item)
      case None =>
      case Some(src) =>
        var dest := Dest(root, ops[0]);
        var next := files[dest := Place(Get(files, dest), src)];
        RunCopiesFailure(next, t, root, ops[1..]);
        if RunCopies(next, t, root, ops[1..]).error.Some? {
          var i :| 0 <= i < |ops[1..]| && Source(t, ops[1..][i].subdir, ops[1..][i].item).None? &&
            RunCopies(next, t, root, ops[1..]).error.value == CopyFailed(ops[1..][i].subdir, ops[1..][i].item);
          assert ops[1..][i] == ops[i + 1];
        }
    }
  }

  /** Every name `listFiles` returns is a template of that directory. */
  lemma ListedFound(t: Templates, subdir: string, ext: string)
    requires subdir in t.dirs
    ensures forall n :: n in ListFiles(t, subdir, ext).value ==> Source(t, subdir, n).Some?
  {
    forall n | n in ListFiles(t, subdir, ext).value
      ensures Source(t, subdir, n).Some?
    {
      LookupFinds(t.dirs[subdir], n);
      if ext == "" {
        var i :| 0 <= i < |AllNames(t.dirs[subdir])| && AllNames(t.dirs[subdir])[i] == n;
      }
    }
  }

  /** Every name `listDirs` returns is a template of that directory. */
  lemma ListedDirsFound(t: Templates, subdir: string)
    requires subdir in t.dirs
    ensures forall n :: n in ListDirs(t, subdir).value ==> Source(t, subdir, n).Some?
  {
    forall n | n in ListDirs(t, subdir).value
      ensures Source(t, subdir, n).Some?
    {
      LookupFinds(t.dirs[subdir], n);
    }
  }

  lemma AppendAssoc<T>(a: seq<T>, b: seq<T>, c: seq<T>)
    ensures (a + b) + c == a + (b + c)
  {
  }

  /** The home and working directories. */
  datatype Env = Env(home: Path, cwd: Path)

  /** `getProjectClaudeDir()` for a project installation, `getGlobalClaudeDir()`
      otherwise: the `.claude` directory under the working or the home directory. */
  function TargetDir(project: bool, env: Env): Path {
    if project then env.cwd + [".claude"] else env.home + [".claude"]
  }

  /** The directories `createClaudeStructure` ensures: no `skills`. */
  function StructureDirs(root: Path): set<Path> {
    {root + ["agents"], root + ["commands"], root + ["hooks"]}
  }

  /** The user's side of the file system. `written` records, in order, every
      path a write or copy has targeted. */
  class FileSystem {
    var files: map<Path, Asset>
    var dirs: set<Path>
    ghost var written: seq<Path>

    constructor (files: map<Path, Asset>, dirs: set<Path>)
      ensures this.files == files && this.dirs == dirs && written == []
    {
      this.files := files;
      this.dirs := dirs;
      written := [];
    }

    /** `ensureDir`: the directory exists afterwards. */
    method EnsureDir(p: Path)
      modifies this
      ensures dirs == old(dirs) + {p}
      ensures files == old(files) && written == old(written)
    {
      dirs := dirs + {p};
    }

    /** `createClaudeStructure`: `agents`, `commands` and `hooks` under the
        root, and nothing else. */
    method CreateClaudeStructure(root: Path)
      modifies this
      ensures dirs == old(dirs) + StructureDirs(root)
      ensures files == old(files) && written == old(written)
    {
      EnsureDir(root + ["agents"]);
      EnsureDir(root + ["commands"]);
      EnsureDir(root + ["hooks"]);
    }

    /** `writeFile`: the file holds `content`, whatever was there before. */
    method WriteFile(p: Path, content: string)
      modifies this
      ensures files == old(files)[p := File(content)]
      ensures written == old(written) + [p] && dirs == old(dirs)
    {
      files := files[p := File(content)];
      written := written + [p];
    }

    /** `copyFile`/`copyDir` of one template into the root: an overwriting
        copy, or an error when the source is missing. */
    method Copy(t: Templates, root: Path, op: CopyOp) returns (err: Option<FsError>)
      modifies this
      ensures var o := RunCopies(old(files), t, root, [op]);
        files == o.files && written == old(written) + o.written && err == o.error
      ensures dirs == old(dirs)
    {
      var src := Source(t, op.subdir, op.item);
      if src.None? {
        err := Some(CopyFailed(op.subdir, op.item));
      } else {
        var dest := Dest(root, op);
        files := files[dest := Place(Get(files, dest), src.value)];
        written := written + [dest];
        err := None;
      }
    }

    /** Copy each template in turn, stopping at the first that fails. */
    method CopyEach(t: Templates, root: Path, ops: seq<CopyOp>) returns (err: Option<FsError>)
      modifies this
      ensures var o := RunCopies(old(files), t, root, ops);
        files == o.files && written == old(written) + o.written && err == o.error
      ensures dirs == old(dirs)
    {
      var i := 0;
      while i < |ops|
        invariant 0 <= i <= |ops| && dirs == old(dirs)
        invariant var o := RunCopies(old(files), t, root, ops[..i]);
          o.error.None? && files == o.files && written == old(written) + o.written
      {
        err := Copy(t, root, ops[i]);
        RunCopiesSnoc(old(files), t, root, ops, i);
        if err.Some? {
          RunCopiesStopped(old(files), t, root, ops, i);
          return;
        }
        i := i + 1;
      }
      assert ops[..i] == ops;
      err := None;
    }
  }
}
