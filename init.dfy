/** The `init` command: choose a stack (detected, confirmed or picked), create
    the `.claude` structure, write the two generated agents, then copy the
    tech-agnostic agents, the hooks and the skills from the templates. A failed
    skills step is reported but does not fail the command. */
module Init {
  import opened Wrappers
  import opened Text
  import DetectStack
  import opened Stacks
  import opened GenerateAgents
  import opened FileTree

  // ---------------------------------------------------------------------------
  // Choosing the stack
  // ---------------------------------------------------------------------------

  datatype InitOptions = InitOptions(project: bool, yes: bool)

  /** What the user answers to the prompts: whether to go on without the
      Claude Code CLI, whether to use the detected stack, and the stack id
      picked from the menu. An answer is only read when its prompt is shown. */
  datatype Answers = Answers(proceed: bool, useDetected: bool, pick: string)

  /** `getStack` returned nothing and the code read a property of it. */
  datatype InitError = MissingStack(id: string) | FsFailure(error: FsError)

  /** The stack id `init` settles on: an id without a catalog entry throws
      where its entry is read, first for the detected id (when something was
      detected), then for the final choice. The description of the detection
      is non-empty exactly when the merged record is not `Empty`, and
      `GetStack` finds exactly the ids of `StackOrder` (their contracts), so
      those are the tests written here. */
  function ChooseStack(d: DetectStack.StackDetection, yes: bool, answers: Answers): (r: Result<string, InitError>)
    ensures r.Success? ==> r.value in StackOrder
    ensures r.Failure? ==> r.error.MissingStack? && r.error.id !in StackOrder
  {
    var detected := d.merged != DetectStack.Empty;
    if detected && d.stackId.Some? && d.stackId.value !in StackOrder then
      Failure(MissingStack(d.stackId.value))
    else
      var selected :=
        if detected then (if !yes && !answers.useDetected then Some(answers.pick) else d.stackId)
        else if !yes then Some(answers.pick)
        else d.stackId;
      var id := if selected.None? || selected.value == "" then "generic" else selected.value;
      if id !in StackOrder then Failure(MissingStack(id)) else Success(id)
  }

  /** The branch on a non-empty description of the detection is the branch
      on a non-empty merged record. */
  lemma DetectedTechIff(d: DetectStack.StackDetection)
    ensures |DetectStack.DescribeStack(d.merged)| > 0 <==> d.merged != DetectStack.Empty
  {
  }

  /** A detection as `detectStack` returns it: the id is the mapping of the
      merged record, and nothing is set when no language is. */
  ghost predicate FromDetect(d: DetectStack.StackDetection) {
    && d.stackId == DetectStack.MapToStackTemplate(d.merged)
    && (d.merged.language.None? ==> d.merged == DetectStack.Empty)
  }

  /** With `--yes`, a detected stack is used when the catalog has it; nothing
      detected means `generic`; a detected id the catalog lacks fails. */
  lemma ChooseStackUnattended(d: DetectStack.StackDetection, answers: Answers)
    requires FromDetect(d)
    ensures var r := ChooseStack(d, true, answers);
      && (r.Success? <==> d.stackId.None? || d.stackId.value in StackOrder)
      && (r.Success? ==> r.value == d.stackId.GetOr("generic"))
  {
    if d.stackId.Some? {
      assert d.merged.language.Some?;
      assert d.merged != DetectStack.Empty;
    }
  }

  /** When the menu is shown (nothing detected, or the detected stack
      declined), the picked catalog id is used. */
  lemma ChooseStackPicked(d: DetectStack.StackDetection, answers: Answers)
    requires answers.pick in StackOrder
    requires d.merged == DetectStack.Empty || (!answers.useDetected && (d.stackId.None? || d.stackId.value in StackOrder))
    ensures ChooseStack(d, false, answers) == Success(answers.pick)
  {
  }

  /** The default interactive path: something was detected and the user
      accepts it, so the detected id is used, or `generic` when the detection
      matched no template. */
  lemma ChooseStackAccepted(d: DetectStack.StackDetection, answers: Answers)
    requires d.merged != DetectStack.Empty && answers.useDetected
    requires d.stackId.None? || d.stackId.value in StackOrder
    ensures ChooseStack(d, false, answers) == Success(d.stackId.GetOr("generic"))
  {
  }

  /** A detected id without a catalog entry ends `init` whatever the options
      and answers. */
  lemma UncataloguedDetectionFails(d: DetectStack.StackDetection, yes: bool, answers: Answers)
    requires d.merged != DetectStack.Empty && d.stackId.Some? && d.stackId.value !in StackOrder
    ensures ChooseStack(d, yes, answers) == Failure(MissingStack(d.stackId.value))
  {
  }

  /** A project detected only as TypeScript maps to `node-generic`, which the
      catalog does not hold, so `init` fails on it. */
  lemma TypeScriptOnlyFails(raw: DetectStack.Raw, yes: bool, answers: Answers)
    ensures var merged := DetectStack.Detection(Some("typescript"), None, None, None, None, None);
      var d := DetectStack.StackDetection(merged, DetectStack.MapToStackTemplate(merged), raw);
      && FromDetect(d)
      && d.stackId == Some("node-generic")
      && ChooseStack(d, yes, answers) == Failure(MissingStack("node-generic"))
  {
    var merged := DetectStack.Detection(Some("typescript"), None, None, None, None, None);
    assert merged != DetectStack.Empty;
    assert "node-generic" !in StackOrder;
  }

  // ---------------------------------------------------------------------------
  // The tech-agnostic agents
  // ---------------------------------------------------------------------------

  /** The names of the generated files without their first `.md`. */
  function Stems(agents: seq<(string, string)>): set<string> {
    set i | 0 <= i < |agents| :: ReplaceFirst(agents[i].0, ".md", "")
  }

  /** The listed agent templates whose stem is not a generated agent's. */
  function TechAgnostic(files: seq<string>, stems: set<string>): (r: seq<string>)
    ensures |r| <= |files|
    ensures forall f :: f in r ==> f in files && ReplaceFirst(f, ".md", "") !in stems
    ensures forall f :: f in files && ReplaceFirst(f, ".md", "") !in stems ==> f in r
    decreases |files|
  {
    if files == [] then []
    else
      var rest := TechAgnostic(files[1..], stems);
      assert forall f :: f in files[1..] ==> f in files;
      assert forall f :: f in files ==> f == files[0] || f in files[1..];
      if ReplaceFirst(files[0], ".md", "") !in stems then [files[0]] + rest else rest
  }

  /** The filter keeps listing order: filtering a concatenation is
      concatenating the filtered parts, and a single file is kept exactly when
      its stem is not a generated agent's. */
  lemma {:induction false} TechAgnosticAppend(a: seq<string>, b: seq<string>, stems: set<string>)
    ensures TechAgnostic(a + b, stems) == TechAgnostic(a, stems) + TechAgnostic(b, stems)
    ensures |a| == 1 ==> TechAgnostic(a, stems) == if ReplaceFirst(a[0], ".md", "") !in stems then [a[0]] else []
    decreases |a|
  {
    if a != [] {
      assert (a + b)[1..] == a[1..] + b;
      TechAgnosticAppend(a[1..], b, stems);
    } else {
      assert a + b == b;
    }
  }

  /** Removing the first `.md` of `stem.md` gives the stem back when the stem
      has no dot. */
  lemma StemOfMd(stem: string)
    requires '.' !in stem
    ensures ReplaceFirst(stem + ".md", ".md", "") == stem
  {
    ReplaceFirstAfter(stem, ".md", "", "");
    assert stem + ".md" + "" == stem + ".md" && stem + "" + "" == stem;
  }

  /** The stems of two agents named `stem.md` are those stems. */
  lemma StemsOfMd(s1: string, s2: string, c1: string, c2: string)
    requires '.' !in s1 && '.' !in s2
    ensures Stems([(s1 + ".md", c1), (s2 + ".md", c2)]) == {s1, s2}
  {
    var agents := [(s1 + ".md", c1), (s2 + ".md", c2)];
    StemOfMd(s1);
    StemOfMd(s2);
    assert ReplaceFirst(agents[0].0, ".md", "") == s1;
    assert ReplaceFirst(agents[1].0, ".md", "") == s2;
  }

  /** The filter drops exactly the listed `.md` files of the generated
      agents, whatever else the listing holds. */
  lemma TechAgnosticDrops(files: seq<string>, s1: string, s2: string, c1: string, c2: string)
    requires '.' !in s1 && '.' !in s2
    requires forall f :: f in files ==> EndsWith(f, ".md")
    ensures var r := TechAgnostic(files, Stems([(s1 + ".md", c1), (s2 + ".md", c2)]));
      forall f :: f in files ==> (f in r <==> f != s1 + ".md" && f != s2 + ".md")
  {
    StemsOfMd(s1, s2, c1, c2);
    StemOfMd(s1);
    StemOfMd(s2);
    forall f | f in files && ReplaceFirst(f, ".md", "") in {s1, s2}
      ensures f == s1 + ".md" || f == s2 + ".md"
    {
      StripMdStem(f);
    }
  }

  /** `init`'s filter keeps every agent template except `developer.md` and
      `database.md`. */
  lemma TechAgnosticDropsGenerated(files: seq<string>, developer: string, database: string)
    requires forall f :: f in files ==> EndsWith(f, ".md")
    ensures var r := TechAgnostic(files, Stems([("developer.md", developer), ("database.md", database)]));
      forall f :: f in files ==> (f in r <==> f != "developer.md" && f != "database.md")
  {
    assert "developer" + ".md" == "developer.md" && "database" + ".md" == "database.md";
    TechAgnosticDrops(files, "developer", "database", developer, database);
  }

  // ---------------------------------------------------------------------------
  // What `init` does to the target tree
  // ---------------------------------------------------------------------------

  /** Where a generated agent is written. */
  function AgentPath(root: Path, name: string): Path {
    Dest(root, CopyOp("agents", name))
  }

  /** The tree after the generated agents are written in order. */
  function WriteAll(files: map<Path, Asset>, root: Path, agents: seq<(string, string)>): map<Path, Asset>
    decreases |agents|
  {
    if agents == [] then files
    else
      var last := agents[|agents| - 1];
      WriteAll(files, root, agents[..|agents| - 1])[AgentPath(root, last.0) := File(last.1)]
  }

  function AgentPaths(root: Path, agents: seq<(string, string)>): (r: seq<Path>)
    ensures |r| == |agents| && forall i :: 0 <= i < |r| ==> r[i] == AgentPath(root, agents[i].0)
  {
    seq(|agents|, i requires 0 <= i < |agents| => AgentPath(root, agents[i].0))
  }

  /** Each generated agent holds its content afterwards, and nothing outside
      the generated paths changes. */
  lemma {:induction false} WriteAllHolds(files: map<Path, Asset>, root: Path, agents: seq<(string, string)>)
    requires forall i, j :: 0 <= i < j < |agents| ==> agents[i].0 != agents[j].0
    ensures forall i :: 0 <= i < |agents| ==> Get(WriteAll(files, root, agents), AgentPath(root, agents[i].0)) == Some(File(agents[i].1))
    ensures forall p :: p !in AgentPaths(root, agents) ==> Get(WriteAll(files, root, agents), p) == Get(files, p)
    decreases |agents|
  {
    if agents != [] {
      var n := |agents| - 1;
      var init := agents[..n];
      WriteAllHolds(files, root, init);
      forall i | 0 <= i < n
        ensures AgentPath(root, agents[i].0) != AgentPath(root, agents[n].0)
      {
        if AgentPath(root, agents[i].0) == AgentPath(root, agents[n].0) {
          DestInjective(root, CopyOp("agents", agents[i].0), CopyOp("agents", agents[n].0));
        }
      }
      assert forall i :: 0 <= i < n ==> init[i] == agents[i];
      forall p | p !in AgentPaths(root, agents)
        ensures Get(WriteAll(files, root, agents), p) == Get(files, p)
      {
        assert AgentPaths(root, agents)[n] == AgentPath(root, agents[n].0);
        assert forall i :: 0 <= i < n ==> AgentPaths(root, init)[i] == AgentPaths(root, agents)[i];
        assert p !in AgentPaths(root, init);
      }
    }
  }

  /** How far the installation got: the tree, the paths written in order, the
      error that ended it, and the error that skipped the skills. */
  datatype Progress = Progress(files: map<Path, Asset>, written: seq<Path>, error: Option<FsError>, skipped: Option<FsError>)

  /** A listing followed by its copies; an earlier error or a failed listing
      ends the run. */
  function CopyStage(prev: Progress, t: Templates, root: Path, subdir: string, listing: Result<seq<string>, FsError>): Progress {
    if prev.error.Some? then prev
    else match listing
      case Failure(e) => prev.(error := Some(e))
      case Success(items) =>
        var o := RunCopies(prev.files, t, root, Ops(subdir, items));
        Progress(o.files, prev.written + o.written, o.error, None)
  }

  /** The skills step: its errors are caught and recorded as `skipped`. */
  function SkillStage(prev: Progress, t: Templates, root: Path): Progress {
    if prev.error.Some? then prev
    else match ListDirs(t, "skills")
      case Failure(e) => prev.(skipped := Some(e))
      case Success(items) =>
        var o := RunCopies(prev.files, t, root, Ops("skills", items));
        Progress(o.files, prev.written + o.written, None, o.error)
  }

  /** The agent templates to copy: the listing without the generated agents. */
  function AgnosticListing(t: Templates, agents: seq<(string, string)>): Result<seq<string>, FsError> {
    match ListFiles(t, "agents", ".md")
    case Failure(e) => Failure(e)
    case Success(all) => Success(TechAgnostic(all, Stems(agents)))
  }

  /** Everything `init` does after the structure exists: generated agents,
      tech-agnostic agents, hooks, then skills. */
  function InitCopies(files: map<Path, Asset>, t: Templates, root: Path, agents: seq<(string, string)>): Progress {
    var generated := Progress(WriteAll(files, root, agents), AgentPaths(root, agents), None, None);
    var agentsDone := CopyStage(generated, t, root, "agents", AgnosticListing(t, agents));
    var hooksDone := CopyStage(agentsDone, t, root, "hooks", ListFiles(t, "hooks", ".cjs"));
    SkillStage(hooksDone, t, root)
  }

  /** No tech-agnostic copy lands on a generated agent. */
  lemma AgnosticAvoidsGenerated(t: Templates, root: Path, agents: seq<(string, string)>, i: int)
    requires 0 <= i < |agents| && AgnosticListing(t, agents).Success?
    ensures var ops := Ops("agents", AgnosticListing(t, agents).value);
      forall k :: 0 <= k < |ops| ==> AgentPath(root, agents[i].0) != Dest(root, ops[k])
  {
    var items := AgnosticListing(t, agents).value;
    var ops := Ops("agents", items);
    var p := AgentPath(root, agents[i].0);
    forall k | 0 <= k < |ops| ensures p != Dest(root, ops[k]) {
      assert items[k] in items;
      assert ReplaceFirst(agents[i].0, ".md", "") in Stems(agents);
      assert Dest(root, ops[k])[|root| + 1] == items[k] && p[|root| + 1] == agents[i].0;
    }
  }

  /** The path is `root/subdir/<name>` for some name. */
  ghost predicate UnderSubdir(root: Path, p: Path, subdir: string) {
    |p| == |root| + 2 && p[..|root|] == root && p[|root|] == subdir
  }

  /** Copies into `subdir` touch nothing outside it. */
  lemma StageFrame(files: map<Path, Asset>, t: Templates, root: Path, subdir: string, items: seq<string>, p: Path)
    requires !UnderSubdir(root, p, subdir)
    ensures Get(RunCopies(files, t, root, Ops(subdir, items)).files, p) == Get(files, p)
  {
    var ops := Ops(subdir, items);
    forall k | 0 <= k < |ops| ensures p != Dest(root, ops[k]) {
      assert UnderSubdir(root, Dest(root, ops[k]), subdir);
    }
    RunCopiesFrame(files, t, root, ops, p);
  }

  /** The generated agents survive: no later copy lands on them. */
  lemma GeneratedSurvive(files: map<Path, Asset>, t: Templates, root: Path, agents: seq<(string, string)>)
    requires forall i, j :: 0 <= i < j < |agents| ==> agents[i].0 != agents[j].0
    ensures forall i :: 0 <= i < |agents| ==>
      Get(InitCopies(files, t, root, agents).files, AgentPath(root, agents[i].0)) == Some(File(agents[i].1))
  {
    WriteAllHolds(files, root, agents);
    var f1 := WriteAll(files, root, agents);
    forall i | 0 <= i < |agents|
      ensures Get(InitCopies(files, t, root, agents).files, AgentPath(root, agents[i].0)) == Some(File(agents[i].1))
    {
      var name := agents[i].0;
      if AgnosticListing(t, agents).Success? {
        var ops := Ops("agents", AgnosticListing(t, agents).value);
        AgnosticAvoidsGenerated(t, root, agents, i);
        RunCopiesFrame(f1, t, root, ops, AgentPath(root, name));
        var f2 := RunCopies(f1, t, root, ops).files;
        if ListFiles(t, "hooks", ".cjs").Success? {
          StageFrame(f2, t, root, "hooks", ListFiles(t, "hooks", ".cjs").value, AgentPath(root, name));
          var f3 := RunCopies(f2, t, root, Ops("hooks", ListFiles(t, "hooks", ".cjs").value)).files;
          if ListDirs(t, "skills").Success? {
            StageFrame(f3, t, root, "skills", ListDirs(t, "skills").value, AgentPath(root, name));
          }
        }
      }
    }
  }

  /** `init` changes nothing outside `agents`, `hooks` and `skills`. */
  lemma InitCopiesFrame(files: map<Path, Asset>, t: Templates, root: Path, agents: seq<(string, string)>, p: Path)
    requires forall i, j :: 0 <= i < j < |agents| ==> agents[i].0 != agents[j].0
    requires !UnderSubdir(root, p, "agents") && !UnderSubdir(root, p, "hooks") && !UnderSubdir(root, p, "skills")
    ensures Get(InitCopies(files, t, root, agents).files, p) == Get(files, p)
  {
    WriteAllHolds(files, root, agents);
    forall i | 0 <= i < |agents| ensures AgentPaths(root, agents)[i] != p {
      assert UnderSubdir(root, AgentPaths(root, agents)[i], "agents");
    }
    var f1 := WriteAll(files, root, agents);
    if AgnosticListing(t, agents).Success? {
      StageFrame(f1, t, root, "agents", AgnosticListing(t, agents).value, p);
      var f2 := RunCopies(f1, t, root, Ops("agents", AgnosticListing(t, agents).value)).files;
      if ListFiles(t, "hooks", ".cjs").Success? {
        StageFrame(f2, t, root, "hooks", ListFiles(t, "hooks", ".cjs").value, p);
        var f3 := RunCopies(f2, t, root, Ops("hooks", ListFiles(t, "hooks", ".cjs").value)).files;
        if ListDirs(t, "skills").Success? {
          StageFrame(f3, t, root, "skills", ListDirs(t, "skills").value, p);
        }
      }
    }
  }

  /** `init` installs no commands. */
  lemma NoCommands(files: map<Path, Asset>, t: Templates, root: Path, agents: seq<(string, string)>, name: string)
    requires forall i, j :: 0 <= i < j < |agents| ==> agents[i].0 != agents[j].0
    ensures Get(InitCopies(files, t, root, agents).files, root + ["commands", name]) == Get(files, root + ["commands", name])
  {
    var p := root + ["commands", name];
    assert p[|root|] == "commands";
    InitCopiesFrame(files, t, root, agents, p);
  }

  /** `b` carries on from `a`: the paths `a` wrote come first in `b`. */
  ghost predicate Extends(a: Progress, b: Progress) {
    |a.written| <= |b.written| && b.written[..|a.written|] == a.written
  }

  lemma StagesExtend(prev: Progress, t: Templates, root: Path, subdir: string, listing: Result<seq<string>, FsError>)
    ensures Extends(prev, CopyStage(prev, t, root, subdir, listing))
    ensures Extends(prev, SkillStage(prev, t, root))
  {
  }

  lemma ExtendsTrans(a: Progress, b: Progress, c: Progress)
    requires Extends(a, b) && Extends(b, c)
    ensures Extends(a, c)
  {
    assert c.written[..|a.written|] == c.written[..|b.written|][..|a.written|];
  }

  /** The generated agents are the first paths written, before any template
      is copied. */
  lemma GeneratedWrittenFirst(files: map<Path, Asset>, t: Templates, root: Path, agents: seq<(string, string)>)
    ensures var s := InitCopies(files, t, root, agents);
      |agents| <= |s.written| && s.written[..|agents|] == AgentPaths(root, agents)
  {
    var generated := Progress(WriteAll(files, root, agents), AgentPaths(root, agents), None, None);
    var agentsDone := CopyStage(generated, t, root, "agents", AgnosticListing(t, agents));
    var hooksDone := CopyStage(agentsDone, t, root, "hooks", ListFiles(t, "hooks", ".cjs"));
    StagesExtend(generated, t, root, "agents", AgnosticListing(t, agents));
    StagesExtend(agentsDone, t, root, "hooks", ListFiles(t, "hooks", ".cjs"));
    StagesExtend(hooksDone, t, root, "skills", Failure(ListFailed("skills")));
    ExtendsTrans(generated, agentsDone, hooksDone);
    ExtendsTrans(generated, hooksDone, SkillStage(hooksDone, t, root));
  }

  /** The directory an error is about. */
  function ErrorDir(e: FsError): string {
    match e
    case ListFailed(dir) => dir
    case CopyFailed(subdir, _) => subdir
  }

  /** A run of copies into `subdir` can only fail on `subdir`. */
  lemma StageFailure(files: map<Path, Asset>, t: Templates, root: Path, subdir: string, items: seq<string>)
    ensures RunCopies(files, t, root, Ops(subdir, items)).error.Some? ==>
      ErrorDir(RunCopies(files, t, root, Ops(subdir, items)).error.value) == subdir
  {
    RunCopiesFailure(files, t, root, Ops(subdir, items));
  }

  /** Skills errors are never fatal: the error that ends `init` is about
      `agents` or `hooks`, and a skipped skills step leaves `init` to
      complete. */
  lemma SkillsNonFatal(files: map<Path, Asset>, t: Templates, root: Path, agents: seq<(string, string)>)
    ensures var s := InitCopies(files, t, root, agents);
      && (s.error.Some? ==> ErrorDir(s.error.value) == "agents" || ErrorDir(s.error.value) == "hooks")
      && (s.skipped.Some? ==> s.error.None? && ErrorDir(s.skipped.value) == "skills")
  {
    var f1 := WriteAll(files, root, agents);
    if AgnosticListing(t, agents).Success? {
      StageFailure(f1, t, root, "agents", AgnosticListing(t, agents).value);
      var o1 := RunCopies(f1, t, root, Ops("agents", AgnosticListing(t, agents).value));
      if o1.error.None? && ListFiles(t, "hooks", ".cjs").Success? {
        StageFailure(o1.files, t, root, "hooks", ListFiles(t, "hooks", ".cjs").value);
        var o2 := RunCopies(o1.files, t, root, Ops("hooks", ListFiles(t, "hooks", ".cjs").value));
        if o2.error.None? && ListDirs(t, "skills").Success? {
          StageFailure(o2.files, t, root, "skills", ListDirs(t, "skills").value);
        }
      }
    }
  }

  /** `init` copies everything, with nothing skipped, exactly when the
      template directory has `agents`, `hooks` and `skills`. */
  lemma InitCompletes(files: map<Path, Asset>, t: Templates, root: Path, agents: seq<(string, string)>)
    ensures var s := InitCopies(files, t, root, agents);
      s.error.None? && s.skipped.None? <==> "agents" in t.dirs && "hooks" in t.dirs && "skills" in t.dirs
  {
    if "agents" in t.dirs && "hooks" in t.dirs && "skills" in t.dirs {
      var f1 := WriteAll(files, root, agents);
      var items1 := AgnosticListing(t, agents).value;
      ListedFound(t, "agents", ".md");
      AllFound(f1, t, root, "agents", items1);
      var o1 := RunCopies(f1, t, root, Ops("agents", items1));
      var items2 := ListFiles(t, "hooks", ".cjs").value;
      ListedFound(t, "hooks", ".cjs");
      AllFound(o1.files, t, root, "hooks", items2);
      var o2 := RunCopies(o1.files, t, root, Ops("hooks", items2));
      ListedDirsFound(t, "skills");
      AllFound(o2.files, t, root, "skills", ListDirs(t, "skills").value);
    }
  }

  /** Copies of templates that all exist run to the end. */
  lemma AllFound(files: map<Path, Asset>, t: Templates, root: Path, subdir: string, items: seq<string>)
    requires forall n :: n in items ==> Source(t, subdir, n).Some?
    ensures RunCopies(files, t, root, Ops(subdir, items)).error.None?
  {
    var ops := Ops(subdir, items);
    forall i | 0 <= i < |ops| ensures Source(t, ops[i].subdir, ops[i].item).Some? {
      assert items[i] in items;
    }
    RunCopiesComplete(files, t, root, ops);
  }

  /** Step 5 of `init`: write each generated agent under `agents`, in order. */
  method WriteGenerated(fs: FileSystem, root: Path, agents: seq<(string, string)>)
    modifies fs
    ensures fs.files == WriteAll(old(fs.files), root, agents)
    ensures fs.written == old(fs.written) + AgentPaths(root, agents) && fs.dirs == old(fs.dirs)
  {
    ghost var files0, written0 := fs.files, fs.written;
    var i := 0;
    while i < |agents|
      invariant 0 <= i <= |agents| && fs.dirs == old(fs.dirs)
      invariant fs.files == WriteAll(files0, root, agents[..i])
      invariant fs.written == written0 + AgentPaths(root, agents[..i])
    {
      fs.WriteFile(AgentPath(root, agents[i].0), agents[i].1);
      assert agents[..i + 1][..i] == agents[..i];
      assert AgentPaths(root, agents[..i + 1]) == AgentPaths(root, agents[..i]) + [AgentPath(root, agents[i].0)];
      AppendAssoc(written0, AgentPaths(root, agents[..i]), [AgentPath(root, agents[i].0)]);
      i := i + 1;
    }
    assert agents[..i] == agents;
  }

  /** Steps 5 to 8 of `init` on an existing structure: the generated agents,
      then the tech-agnostic agents, the hooks and the skills. */
  method InitCore(fs: FileSystem, t: Templates, root: Path, agents: seq<(string, string)>) returns (err: Option<FsError>, skipped: Option<FsError>)
    modifies fs
    ensures var s := InitCopies(old(fs.files), t, root, agents);
      fs.files == s.files && fs.written == old(fs.written) + s.written && err == s.error && skipped == s.skipped
    ensures fs.dirs == old(fs.dirs)
  {
    ghost var written0 := fs.written;
    WriteGenerated(fs, root, agents);
    ghost var generated := Progress(fs.files, AgentPaths(root, agents), None, None);
    skipped := None;
    var all := ListFiles(t, "agents", ".md");
    if all.Failure? {
      err := Some(all.error);
      return;
    }
    var agnostic := TechAgnostic(all.value, Stems(agents));
    err := fs.CopyEach(t, root, Ops("agents", agnostic));
    ghost var agentsDone := CopyStage(generated, t, root, "agents", AgnosticListing(t, agents));
    AppendAssoc(written0, generated.written, RunCopies(generated.files, t, root, Ops("agents", agnostic)).written);
    assert fs.files == agentsDone.files && err == agentsDone.error && fs.written == written0 + agentsDone.written;
    if err.Some? {
      return;
    }
    var hooks := ListFiles(t, "hooks", ".cjs");
    if hooks.Failure? {
      err := Some(hooks.error);
      return;
    }
    err := fs.CopyEach(t, root, Ops("hooks", hooks.value));
    ghost var hooksDone := CopyStage(agentsDone, t, root, "hooks", hooks);
    AppendAssoc(written0, agentsDone.written, RunCopies(agentsDone.files, t, root, Ops("hooks", hooks.value)).written);
    assert fs.files == hooksDone.files && err == hooksDone.error && fs.written == written0 + hooksDone.written;
    if err.Some? {
      return;
    }
    var skills := ListDirs(t, "skills");
    if skills.Failure? {
      skipped := Some(skills.error);
      return;
    }
    if |skills.value| > 0 {
      skipped := fs.CopyEach(t, root, Ops("skills", skills.value));
      AppendAssoc(written0, hooksDone.written, RunCopies(hooksDone.files, t, root, Ops("skills", skills.value)).written);
    } else {
      assert Ops("skills", skills.value) == [];
      assert hooksDone.written + [] == hooksDone.written;
    }
  }

  /** The agents generated for a catalogued stack: `developer.md` and
      `database.md`, whose names differ. */
  function Generated(id: string): (r: seq<(string, string)>)
    requires id in StackOrder
  {
    GenerateStackAgents(id).value
  }

  /** How a run of `init` ends. */
  datatype InitResult = Cancelled | Failed(error: InitError) | Done(stackId: string, skipped: Option<FsError>)

  /** `init`: the check for the Claude Code CLI (a missing CLI asks whether
      to go on unless `yes`), the choice of stack, the structure under the
      target directory and the copies. The detection result and the answers
      to the prompts are inputs. */
  method Init(fs: FileSystem, env: Env, t: Templates, cliInstalled: bool, options: InitOptions, answers: Answers,
              detection: DetectStack.StackDetection) returns (r: InitResult)
    modifies fs
    ensures !cliInstalled && !options.yes && !answers.proceed ==> r == Cancelled && unchanged(fs)
    ensures (cliInstalled || options.yes || answers.proceed) && ChooseStack(detection, options.yes, answers).Failure? ==>
      r == Failed(ChooseStack(detection, options.yes, answers).error) && unchanged(fs)
    ensures (cliInstalled || options.yes || answers.proceed) && ChooseStack(detection, options.yes, answers).Success? ==>
      var id := ChooseStack(detection, options.yes, answers).value;
      var root := TargetDir(options.project, env);
      var s := InitCopies(old(fs.files), t, root, Generated(id));
      fs.dirs == old(fs.dirs) + StructureDirs(root) && fs.files == s.files && fs.written == old(fs.written) + s.written &&
      r == (if s.error.Some? then Failed(FsFailure(s.error.value)) else Done(id, s.skipped))
  {
    if !cliInstalled && !options.yes && !answers.proceed {
      return Cancelled;
    }
    var chosen := ChooseStack(detection, options.yes, answers);
    if chosen.Failure? {
      return Failed(chosen.error);
    }
    var root := TargetDir(options.project, env);
    fs.CreateClaudeStructure(root);
    var agents := Generated(chosen.value);
    var err, skipped := InitCore(fs, t, root, agents);
    if err.Some? {
      return Failed(FsFailure(err.value));
    }
    return Done(chosen.value, skipped);
  }
}
