/** The advanced `install` command: the named (or all) agents, commands, hooks
    and skills are copied from the templates into the target `.claude`
    directory. Names given on the command line are validated first, so that
    none of them can leave the template and target directories. */
module Install {
  import opened Wrappers
  import opened Text
  import opened FileTree

  // ---------------------------------------------------------------------------
  // Asset categories
  // ---------------------------------------------------------------------------

  /** The four kinds of asset, in the order `install` copies them. */
  datatype Category = Agents | Commands | Hooks | Skills {
    /** The template and target sub-directory. */
    function Subdir(): string {
      match this
      case Agents => "agents"
      case Commands => "commands"
      case Hooks => "hooks"
      case Skills => "skills"
    }

    /** The word used in error messages. */
    function Kind(): string {
      match this
      case Agents => "agent"
      case Commands => "command"
      case Hooks => "hook"
      case Skills => "skill"
    }

    /** What a bare name is completed with: skills are directories. */
    function Suffix(): string {
      match this
      case Agents => ".md"
      case Commands => ".md"
      case Hooks => ".cjs"
      case Skills => ""
    }
  }

  const CategoryOrder: seq<Category> := [Agents, Commands, Hooks, Skills]

  // ---------------------------------------------------------------------------
  // Name validation
  // ---------------------------------------------------------------------------

  /** A character of the class `[a-zA-Z0-9_-]`. */
  predicate IsNameChar(c: char) {
    ('a' <= c <= 'z') || ('A' <= c <= 'Z') || ('0' <= c <= '9') || c == '_' || c == '-'
  }

  /** The whole name matches `^[a-zA-Z0-9_-]+$`. */
  predicate MatchesNamePattern(name: string) {
    |name| > 0 && forall c :: c in name ==> IsNameChar(c)
  }

  function PatternError(kind: string, name: string): string {
    "Invalid " + kind + " name: \"" + name + "\". Only alphanumeric, dash, and underscore allowed."
  }

  function TraversalError(kind: string, name: string): string {
    "Invalid " + kind + " name: \"" + name + "\". Path traversal detected."
  }

  /** A name that matches the pattern holds none of `..`, `/` and `\`: the
      second check of `validateAssetName` never rejects anything. */
  lemma TraversalCheckRedundant(name: string)
    requires MatchesNamePattern(name)
    ensures !Includes(name, "..") && !Includes(name, "/") && !Includes(name, "\\")
  {
    assert !IsNameChar('.') && !IsNameChar('/') && !IsNameChar('\\');
    NotIncluded(name, "..", 0);
    NotIncluded(name, "/", 0);
    NotIncluded(name, "\\", 0);
  }

  /** `validateAssetName(name, kind)`: the name itself, or the pattern error. */
  function ValidateAssetName(name: string, kind: string): (r: Result<string, string>)
    ensures r.Success? <==> MatchesNamePattern(name)
    ensures r.Success? ==> r.value == name
    ensures r.Failure? ==> r.error == PatternError(kind, name)
  {
    if !MatchesNamePattern(name) then Failure(PatternError(kind, name))
    else
      TraversalCheckRedundant(name);
      if Includes(name, "..") || Includes(name, "/") || Includes(name, "\\") then
        Failure(TraversalError(kind, name))
      else Success(name)
  }

  // ---------------------------------------------------------------------------
  // Resolving what to install
  // ---------------------------------------------------------------------------

  /** Piece `i` is the first whose trimmed text is not a valid name. */
  ghost predicate FirstInvalid(pieces: seq<string>, i: int) {
    && 0 <= i < |pieces|
    && !MatchesNamePattern(Trim(pieces[i]))
    && forall j :: 0 <= j < i ==> MatchesNamePattern(Trim(pieces[j]))
  }

  /** `pieces.map(s => validateAssetName(s.trim(), kind) + suffix)`: the
      first invalid piece throws. */
  function ResolvePieces(pieces: seq<string>, kind: string, suffix: string): (r: Result<seq<string>, string>)
    ensures r.Success? <==> forall i :: 0 <= i < |pieces| ==> MatchesNamePattern(Trim(pieces[i]))
    ensures r.Success? ==> |r.value| == |pieces|
    ensures r.Success? ==> forall i :: 0 <= i < |pieces| ==> r.value[i] == Trim(pieces[i]) + suffix
    decreases |pieces|
  {
    if pieces == [] then Success([])
    else
      assert forall i :: 1 <= i < |pieces| ==> pieces[i] == pieces[1..][i - 1];
      match ValidateAssetName(Trim(pieces[0]), kind)
      case Failure(e) => Failure(e)
      case Success(name) =>
        match ResolvePieces(pieces[1..], kind, suffix)
        case Failure(e) => Failure(e)
        case Success(rest) => Success([name + suffix] + rest)
  }

  /** A rejected selection reports its first invalid piece. */
  lemma {:induction false} ResolvePiecesError(pieces: seq<string>, kind: string, suffix: string)
    requires ResolvePieces(pieces, kind, suffix).Failure?
    ensures exists i :: (FirstInvalid(pieces, i)
      && ResolvePieces(pieces, kind, suffix).error == PatternError(kind, Trim(pieces[i])))
    decreases |pieces|
  {
    if ValidateAssetName(Trim(pieces[0]), kind).Failure? {
      assert FirstInvalid(pieces, 0);
    } else {
      ResolvePiecesError(pieces[1..], kind, suffix);
      var i :| FirstInvalid(pieces[1..], i)
        && ResolvePieces(pieces[1..], kind, suffix).error == PatternError(kind, Trim(pieces[1..][i]));
      assert pieces[1..][i] == pieces[i + 1];
      assert FirstInvalid(pieces, i + 1);
    }
  }

  /** A trailing comma adds an empty piece. */
  lemma {:induction false} SplitSnocSep(s: string)
    ensures Split(s + [','], ',') == Split(s, ',') + [""]
    decreases |s|
  {
    if s == [] {
      assert [','][1..] == [];
    } else {
      assert (s + [','])[1..] == s[1..] + [','];
      SplitSnocSep(s[1..]);
    }
  }

  /** A selection with a trailing comma, such as `"a,"`, is rejected: the
      empty last piece is not a name. */
  lemma TrailingCommaRejected(s: string, kind: string, suffix: string)
    ensures ResolvePieces(Split(s + [','], ','), kind, suffix).Failure?
  {
    SplitSnocSep(s);
    var pieces := Split(s + [','], ',');
    assert pieces[|pieces| - 1] == "";
    assert Trim("") == "";
  }

  datatype InstallOptions = InstallOptions(
    project: bool,
    agents: Option<string>,
    commands: Option<string>,
    hooks: Option<string>,
    skills: Option<string>)

  function Selection(options: InstallOptions, c: Category): Option<string> {
    match c
    case Agents => options.agents
    case Commands => options.commands
    case Hooks => options.hooks
    case Skills => options.skills
  }

  /** The option is truthy: present and not the empty string. */
  predicate Given(sel: Option<string>) {
    sel.Some? && sel.value != ""
  }

  datatype InstallError = InvalidName(message: string) | Fs(error: FsError)

  /** What to install of one category: the validated names of a given
      selection, otherwise every template of the category, unvalidated. */
  function ResolveCategory(t: Templates, options: InstallOptions, c: Category): (r: Result<seq<string>, InstallError>)
  {
    var sel := Selection(options, c);
    if Given(sel) then
      match ResolvePieces(Split(sel.value, ','), c.Kind(), c.Suffix())
      case Failure(e) => Failure(InvalidName(e))
      case Success(names) => Success(names)
    else
      var listing := if c == Skills then ListDirs(t, c.Subdir()) else ListFiles(t, c.Subdir(), c.Suffix());
      match listing
      case Failure(e) => Failure(Fs(e))
      case Success(names) => Success(names)
  }

  /** A given selection is accepted exactly when every trimmed piece is a
      valid name, and then installs those names with the category's suffix,
      in the order given. */
  lemma ResolveSelected(t: Templates, options: InstallOptions, c: Category)
    requires Given(Selection(options, c))
    ensures var pieces := Split(Selection(options, c).value, ',');
      var r := ResolveCategory(t, options, c);
      && (r.Success? <==> forall i :: 0 <= i < |pieces| ==> MatchesNamePattern(Trim(pieces[i])))
      && (r.Success? ==> |r.value| == |pieces| && forall i :: 0 <= i < |pieces| ==> r.value[i] == Trim(pieces[i]) + c.Suffix())
      && (r.Failure? ==> r.error.InvalidName?)
  {
  }

  /** Without a selection, the whole template directory is installed: every
      file with the suffix (every folder for skills), names unvalidated; a
      missing directory is an error. */
  lemma ResolveListed(t: Templates, options: InstallOptions, c: Category)
    requires !Given(Selection(options, c))
    ensures var r := ResolveCategory(t, options, c);
      && (r.Success? <==> c.Subdir() in t.dirs)
      && (r.Failure? ==> r.error == Fs(ListFailed(c.Subdir())))
      && (r.Success? && c != Skills ==>
            (forall n :: n in r.value ==> EndsWith(n, c.Suffix()))
            && forall e :: e in t.dirs[c.Subdir()] && EndsWith(e.name, c.Suffix()) ==> e.name in r.value)
      && (r.Success? && c == Skills ==> forall e :: e in t.dirs[c.Subdir()] && e.asset.Folder? ==> e.name in r.value)
  {
  }

  /** The selections resolved in turn: the first failure is the outcome,
      otherwise every list, in order. */
  function Combine(results: seq<Result<seq<string>, InstallError>>): (r: Result<seq<seq<string>>, InstallError>)
    ensures r.Success? <==> forall k :: 0 <= k < |results| ==> results[k].Success?
    ensures r.Success? ==> |r.value| == |results|
    ensures r.Success? ==> forall k :: 0 <= k < |results| ==> r.value[k] == results[k].value
    decreases |results|
  {
    if results == [] then Success([])
    else
      assert forall k :: 1 <= k < |results| ==> results[k] == results[1..][k - 1];
      match results[0]
      case Failure(e) => Failure(e)
      case Success(items) =>
        match Combine(results[1..])
        case Failure(e) => Failure(e)
        case Success(rest) => Success([items] + rest)
  }

  /** A failed combination reports the first failure. */
  lemma {:induction false} CombineError(results: seq<Result<seq<string>, InstallError>>)
    requires Combine(results).Failure?
    ensures exists k :: (0 <= k < |results| && results[k] == Failure(Combine(results).error)
      && forall j :: 0 <= j < k ==> results[j].Success?)
    decreases |results|
  {
    if results[0].Success? {
      CombineError(results[1..]);
      var k :| 0 <= k < |results[1..]| && results[1..][k] == Failure(Combine(results[1..]).error)
        && forall j :: 0 <= j < k ==> results[1..][j].Success?;
      assert forall j :: 1 <= j < |results| ==> results[j] == results[1..][j - 1];
      assert results[k + 1] == Failure(Combine(results).error);
    }
  }

  /** The four selections of `install`, in category order. */
  function ResolveAll(t: Templates, options: InstallOptions): Result<seq<seq<string>>, InstallError> {
    Combine([ResolveCategory(t, options, Agents), ResolveCategory(t, options, Commands),
             ResolveCategory(t, options, Hooks), ResolveCategory(t, options, Skills)])
  }

  /** One failed category makes the whole combination fail. */
  lemma CombineFails(results: seq<Result<seq<string>, InstallError>>, k: int)
    requires 0 <= k < |results| && results[k].Failure?
    ensures Combine(results).Failure?
  {
  }

  /** A category that fails makes the whole resolution fail. */
  lemma CategoryFailureStops(t: Templates, options: InstallOptions, c: Category)
    requires ResolveCategory(t, options, c).Failure?
    ensures ResolveAll(t, options).Failure?
  {
    var results := [ResolveCategory(t, options, Agents), ResolveCategory(t, options, Commands),
                    ResolveCategory(t, options, Hooks), ResolveCategory(t, options, Skills)];
    var k := if c == Agents then 0 else if c == Commands then 1 else if c == Hooks then 2 else 3;
    assert results[k] == ResolveCategory(t, options, c);
    CombineFails(results, k);
  }

  /** One bad name in any explicit selection stops the whole installation. */
  lemma InvalidNameStops(t: Templates, options: InstallOptions, c: Category, i: int)
    requires Given(Selection(options, c))
    requires 0 <= i < |Split(Selection(options, c).value, ',')|
    requires !MatchesNamePattern(Trim(Split(Selection(options, c).value, ',')[i]))
    ensures ResolveAll(t, options).Failure?
  {
    ResolveSelected(t, options, c);
    CategoryFailureStops(t, options, c);
  }

  // ---------------------------------------------------------------------------
  // Copying
  // ---------------------------------------------------------------------------

  /** The copies of several groups, group after group. */
  function GroupOps(cats: seq<Category>, groups: seq<seq<string>>): (r: seq<CopyOp>)
    requires |cats| == |groups|
    decreases |cats|
  {
    if cats == [] then [] else Ops(cats[0].Subdir(), groups[0]) + GroupOps(cats[1..], groups[1..])
  }

  lemma {:induction false} GroupOpsAppend(cats: seq<Category>, groups: seq<seq<string>>, k: int)
    requires |cats| == |groups| && 0 <= k <= |cats|
    ensures GroupOps(cats, groups) == GroupOps(cats[..k], groups[..k]) + GroupOps(cats[k..], groups[k..])
    decreases k
  {
    if k > 0 {
      assert cats[..k][1..] == cats[1..][..k - 1] && groups[..k][1..] == groups[1..][..k - 1];
      assert cats[k..] == cats[1..][k - 1..] && groups[k..] == groups[1..][k - 1..];
      GroupOpsAppend(cats[1..], groups[1..], k - 1);
    } else {
      assert cats[..0] == [] && cats[0..] == cats && groups[0..] == groups;
    }
  }

  lemma GroupOpsSnoc(cats: seq<Category>, groups: seq<seq<string>>, k: int)
    requires |cats| == |groups| && 0 <= k < |cats|
    ensures GroupOps(cats[..k + 1], groups[..k + 1]) == GroupOps(cats[..k], groups[..k]) + Ops(cats[k].Subdir(), groups[k])
  {
    GroupOpsAppend(cats[..k + 1], groups[..k + 1], k);
    assert cats[..k + 1][..k] == cats[..k] && groups[..k + 1][..k] == groups[..k];
    assert cats[..k + 1][k..] == [cats[k]] && groups[..k + 1][k..] == [groups[k]];
  }

  /** Every copy of `install`, in the order it makes them. */
  function InstallOps(groups: seq<seq<string>>): seq<CopyOp>
    requires |groups| == |CategoryOrder|
  {
    GroupOps(CategoryOrder, groups)
  }

  /** The copies are exactly the selected items of each category, each under
      its own category's sub-directory. */
  lemma {:induction false} GroupOpsCover(cats: seq<Category>, groups: seq<seq<string>>)
    requires |cats| == |groups|
    ensures forall k, i :: 0 <= k < |cats| && 0 <= i < |groups[k]| ==>
      CopyOp(cats[k].Subdir(), groups[k][i]) in GroupOps(cats, groups)
    ensures forall op :: op in GroupOps(cats, groups) ==>
      exists k :: 0 <= k < |cats| && op.subdir == cats[k].Subdir() && op.item in groups[k]
    decreases |cats|
  {
    if cats != [] {
      GroupOpsCover(cats[1..], groups[1..]);
      var here := Ops(cats[0].Subdir(), groups[0]);
      assert forall k :: 1 <= k < |cats| ==> cats[k] == cats[1..][k - 1] && groups[k] == groups[1..][k - 1];
      forall k, i | 0 <= k < |cats| && 0 <= i < |groups[k]|
        ensures CopyOp(cats[k].Subdir(), groups[k][i]) in GroupOps(cats, groups)
      {
        if k == 0 {
          assert here[i] == CopyOp(cats[0].Subdir(), groups[0][i]);
        }
      }
      forall op | op in GroupOps(cats, groups)
        ensures exists k :: 0 <= k < |cats| && op.subdir == cats[k].Subdir() && op.item in groups[k]
      {
        if op in here {
          var i :| 0 <= i < |here| && here[i] == op;
          assert op.item == groups[0][i];
        } else {
          var k :| 0 <= k < |cats[1..]| && op.subdir == cats[1..][k].Subdir() && op.item in groups[1..][k];
          assert op.subdir == cats[k + 1].Subdir() && op.item in groups[k + 1];
        }
      }
    }
  }

  /** The copies of one more group follow those of the groups before it,
      and when they stop, the whole run stops there. */
  lemma GroupRunStep(files: map<Path, Asset>, t: Templates, root: Path, cats: seq<Category>, groups: seq<seq<string>>, k: int)
    requires |cats| == |groups| && 0 <= k < |groups|
    requires RunCopies(files, t, root, GroupOps(cats[..k], groups[..k])).error.None?
    ensures var before := RunCopies(files, t, root, GroupOps(cats[..k], groups[..k]));
      var step := RunCopies(before.files, t, root, Ops(cats[k].Subdir(), groups[k]));
      && RunCopies(files, t, root, GroupOps(cats[..k + 1], groups[..k + 1])) == Outcome(step.files, before.written + step.written, step.error)
      && (step.error.Some? ==> RunCopies(files, t, root, GroupOps(cats, groups)) == Outcome(step.files, before.written + step.written, step.error))
  {
    GroupOpsSnoc(cats, groups, k);
    RunCopiesAppend(files, t, root, GroupOps(cats[..k], groups[..k]), Ops(cats[k].Subdir(), groups[k]));
    GroupOpsAppend(cats, groups, k + 1);
    RunCopiesAppend(files, t, root, GroupOps(cats[..k + 1], groups[..k + 1]), GroupOps(cats[k + 1..], groups[k + 1..]));
  }

  /** An empty group adds no copies. */
  lemma GroupRunEmpty(files: map<Path, Asset>, t: Templates, root: Path, cats: seq<Category>, groups: seq<seq<string>>, k: int)
    requires |cats| == |groups| && 0 <= k < |groups| && groups[k] == []
    ensures RunCopies(files, t, root, GroupOps(cats[..k + 1], groups[..k + 1])) == RunCopies(files, t, root, GroupOps(cats[..k], groups[..k]))
  {
    GroupOpsSnoc(cats, groups, k);
    assert GroupOps(cats[..k], groups[..k]) + Ops(cats[k].Subdir(), groups[k]) == GroupOps(cats[..k], groups[..k]);
  }

  /** One turn of the copy loop of `install`: group `k` is copied unless it
      is empty. */
  method CopyGroup(fs: FileSystem, t: Templates, target: Path, cats: seq<Category>, groups: seq<seq<string>>, k: int,
                   ghost files0: map<Path, Asset>, ghost written0: seq<Path>) returns (err: Option<FsError>)
    requires |cats| == |groups| && 0 <= k < |groups|
    requires var o := RunCopies(files0, t, target, GroupOps(cats[..k], groups[..k]));
      o.error.None? && fs.files == o.files && fs.written == written0 + o.written
    modifies fs
    ensures fs.dirs == old(fs.dirs)
    ensures err.None? ==> var o := RunCopies(files0, t, target, GroupOps(cats[..k + 1], groups[..k + 1]));
      o.error.None? && fs.files == o.files && fs.written == written0 + o.written
    ensures err.Some? ==> var o := RunCopies(files0, t, target, GroupOps(cats, groups));
      fs.files == o.files && fs.written == written0 + o.written && err == o.error
  {
    ghost var before := RunCopies(files0, t, target, GroupOps(cats[..k], groups[..k]));
    if |groups[k]| > 0 {
      ghost var step := RunCopies(fs.files, t, target, Ops(cats[k].Subdir(), groups[k]));
      err := fs.CopyEach(t, target, Ops(cats[k].Subdir(), groups[k]));
      GroupRunStep(files0, t, target, cats, groups, k);
      AppendAssoc(written0, before.written, step.written);
      assert fs.files == step.files && err == step.error && fs.written == written0 + (before.written + step.written);
    } else {
      GroupRunEmpty(files0, t, target, cats, groups, k);
      err := None;
    }
  }

  /** The copy loop of `install`: each non-empty group in turn, the first
      copy error ending the run. */
  method CopyGroups(fs: FileSystem, t: Templates, target: Path, cats: seq<Category>, groups: seq<seq<string>>)
    returns (err: Option<FsError>)
    requires |cats| == |groups|
    modifies fs
    ensures var o := RunCopies(old(fs.files), t, target, GroupOps(cats, groups));
      fs.files == o.files && fs.written == old(fs.written) + o.written && err == o.error
    ensures fs.dirs == old(fs.dirs)
  {
    ghost var files0, written0 := fs.files, fs.written;
    assert fs.written == written0 + [];
    var k := 0;
    while k < |groups|
      invariant 0 <= k <= |groups|
      invariant fs.dirs == old(fs.dirs)
      invariant var o := RunCopies(files0, t, target, GroupOps(cats[..k], groups[..k]));
        o.error.None? && fs.files == o.files && fs.written == written0 + o.written
    {
      err := CopyGroup(fs, t, target, cats, groups, k, files0, written0);
      if err.Some? {
        return;
      }
      k := k + 1;
    }
    assert cats[..k] == cats && groups[..k] == groups;
    err := None;
  }

  /** `install(options)`: the structure is created, every selection is
      resolved (an invalid name stops everything before any copy), then the
      groups are copied. */
  method Install(fs: FileSystem, env: Env, t: Templates, options: InstallOptions) returns (r: Result<(), InstallError>)
    modifies fs
    ensures fs.dirs == old(fs.dirs) + StructureDirs(TargetDir(options.project, env))
    ensures ResolveAll(t, options).Failure? ==>
      r == Failure(ResolveAll(t, options).error) && fs.files == old(fs.files) && fs.written == old(fs.written)
    ensures ResolveAll(t, options).Success? ==>
      var o := RunCopies(old(fs.files), t, TargetDir(options.project, env), InstallOps(ResolveAll(t, options).value));
      && fs.files == o.files
      && fs.written == old(fs.written) + o.written
      && (o.error.None? ==> r == Success(()))
      && (o.error.Some? ==> r == Failure(Fs(o.error.value)))
  {
    var target := TargetDir(options.project, env);
    fs.CreateClaudeStructure(target);
    var resolved := ResolveAll(t, options);
    if resolved.Failure? {
      return Failure(resolved.error);
    }
    var err := CopyGroups(fs, t, target, CategoryOrder, resolved.value);
    if err.Some? {
      return Failure(Fs(err.value));
    }
    r := Success(());
  }
}
