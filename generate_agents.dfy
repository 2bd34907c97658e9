/** The two agent generators: each looks a stack up in the catalog and splices
    the fields of its developer or database record into a fixed markdown
    document with a YAML frontmatter. A JavaScript template literal is modelled
    as what it is, a list of constant strings interleaved with substituted
    values. */
module GenerateAgents {
  import opened Wrappers
  import opened Text
  import opened Stacks

  // ---------------------------------------------------------------------------
  // Template literals
  // ---------------------------------------------------------------------------

  /** The YAML frontmatter both documents open with. */
  function Frontmatter(name: string, role: string, description: string, tools: string, color: string): string {
    "---\nname: " + name + "\nrole: " + role + "\ndescription: " + description
      + "\ntools: " + tools + "\nmodel: sonnet\ncolor: " + color + "\n---\n"
  }

  /** The body of a document after its frontmatter: for each substituted
      value, the constant text before it (a lead followed by the value's
      heading) and then the value; `tail` closes the document. */
  function Render(leads: seq<string>, headings: seq<string>, values: seq<string>, tail: string): string
    requires |leads| == |headings| == |values|
    decreases |values|
  {
    if values == [] then tail
    else leads[0] + headings[0] + values[0] + Render(leads[1..], headings[1..], values[1..], tail)
  }

  /** Each value together with the heading right before it. */
  function Sections(headings: seq<string>, values: seq<string>): (r: seq<string>)
    requires |headings| == |values|
    ensures |r| == |values|
    ensures forall i :: 0 <= i < |r| ==> r[i] == headings[i] + values[i]
  {
    seq(|values|, i requires 0 <= i < |values| => headings[i] + values[i])
  }

  /** A rendered body holds every section, each value directly after its
      heading, in the order of the values. */
  lemma {:induction false} RenderSections(leads: seq<string>, headings: seq<string>, values: seq<string>, tail: string)
    requires |leads| == |headings| == |values|
    ensures InOrder(Render(leads, headings, values, tail), Sections(headings, values))
    decreases |values|
  {
    if values != [] {
      var rest := Render(leads[1..], headings[1..], values[1..], tail);
      RenderSections(leads[1..], headings[1..], values[1..], tail);
      assert Sections(headings[1..], values[1..]) == Sections(headings, values)[1..];
      InOrderCons(leads[0], headings[0] + values[0], rest, Sections(headings[1..], values[1..]));
      assert leads[0] + headings[0] + values[0] + rest == leads[0] + (headings[0] + values[0]) + rest;
      assert [headings[0] + values[0]] + Sections(headings[1..], values[1..]) == Sections(headings, values);
    }
  }

  /** What is in order in a suffix of a document is in order in the document. */
  lemma {:induction false} InOrderWeaken(doc: string, j: nat, parts: seq<string>)
    requires j <= |doc| && InOrder(doc[j..], parts)
    ensures InOrder(doc, parts)
  {
    if parts != [] {
      var i :| OccursAt(doc[j..], parts[0], i) && InOrder(doc[j..][i + |parts[0]|..], parts[1..]);
      assert doc[j..][i..i + |parts[0]|] == doc[j + i..j + i + |parts[0]|];
      assert doc[j..][i + |parts[0]|..] == doc[j + i + |parts[0]|..];
      assert OccursAt(doc, parts[0], j + i) && InOrder(doc[j + i + |parts[0]|..], parts[1..]);
    }
  }

  /** A document made of a frontmatter and a rendered body starts with the
      frontmatter and holds the body's sections in order. */
  lemma DocumentShape(front: string, leads: seq<string>, headings: seq<string>, values: seq<string>, tail: string)
    requires |leads| == |headings| == |values|
    ensures StartsWith(front + Render(leads, headings, values, tail), front)
    ensures InOrder(front + Render(leads, headings, values, tail), Sections(headings, values))
  {
    var body := Render(leads, headings, values, tail);
    RenderSections(leads, headings, values, tail);
    assert (front + body)[|front|..] == body;
    InOrderWeaken(front + body, |front|, Sections(headings, values));
  }

  // ---------------------------------------------------------------------------
  // generateDeveloperAgent
  // ---------------------------------------------------------------------------

  const DeveloperTools := "Read, Edit, MultiEdit, Write, Grep, Glob, Bash"

  /** The developer document's fixed text between the frontmatter and the
      tail, split before each of the four headings; its prose paragraphs are
      placeholders. */
  const DeveloperLeads: seq<string> := [
    "\n# Purpose\n\n<developer purpose>\n\n",
    "\n\n",
    "\n\n### 4. Test\n<testing steps>\n\n### 5. Report\n<report step>\n\n",
    "\n\n"]

  const DeveloperHeadings: seq<string> := [
    "## Tech Stack\n\n",
    "## Instructions\n\nWhen invoked, follow these steps:\n\n",
    "## Important Boundaries\n\n",
    "## File Structure\n\n```text\n"]

  const DeveloperTail :=
    "\n```\n\n## Universal Response Format\n\n```text\n<developer response format>\n```\n\n"
      + "## Integration with Other Agents\n\n<developer hand-offs>\n"

  function DeveloperDocument(dev: DeveloperProfile): string {
    Frontmatter(dev.name, "developer", dev.description, DeveloperTools, "green")
      + Render(DeveloperLeads, DeveloperHeadings,
               [dev.techStack, dev.instructions, dev.boundaries, dev.fileStructure], DeveloperTail)
  }

  /** `doc` opens with the developer frontmatter of `dev` and then holds its
      tech stack, instructions, boundaries and file structure, each right
      after its heading, in that order. */
  ghost predicate DeveloperShaped(doc: string, dev: DeveloperProfile) {
    && StartsWith(doc, Frontmatter(dev.name, "developer", dev.description, DeveloperTools, "green"))
    && InOrder(doc, [
         "## Tech Stack\n\n" + dev.techStack,
         "## Instructions\n\nWhen invoked, follow these steps:\n\n" + dev.instructions,
         "## Important Boundaries\n\n" + dev.boundaries,
         "## File Structure\n\n```text\n" + dev.fileStructure])
  }

  lemma DeveloperDocumentShape(dev: DeveloperProfile)
    ensures DeveloperShaped(DeveloperDocument(dev), dev)
  {
    var values := [dev.techStack, dev.instructions, dev.boundaries, dev.fileStructure];
    DocumentShape(Frontmatter(dev.name, "developer", dev.description, DeveloperTools, "green"),
      DeveloperLeads, DeveloperHeadings, values, DeveloperTail);
    assert Sections(DeveloperHeadings, values) == [
      "## Tech Stack\n\n" + dev.techStack,
      "## Instructions\n\nWhen invoked, follow these steps:\n\n" + dev.instructions,
      "## Important Boundaries\n\n" + dev.boundaries,
      "## File Structure\n\n```text\n" + dev.fileStructure];
  }

  /** `generateDeveloperAgent`: the developer document of a catalog stack, or
      the error `Unknown stack: <id>`. */
  function GenerateDeveloperAgent(stackId: string): (r: Result<string, string>)
    ensures r.Failure? <==> stackId !in StackOrder
    ensures r.Failure? ==> r.error == "Unknown stack: " + stackId
  {
    match GetStack(stackId)
    case None => Failure("Unknown stack: " + stackId)
    case Some(stack) => Success(DeveloperDocument(stack.developer))
  }

  /** For a catalog stack the developer agent is its developer document. */
  lemma DeveloperAgentShaped(stackId: string)
    requires stackId in StackOrder
    ensures GenerateDeveloperAgent(stackId).Success?
    ensures DeveloperShaped(GenerateDeveloperAgent(stackId).value, GetStack(stackId).value.developer)
  {
    DeveloperDocumentShape(GetStack(stackId).value.developer);
  }

  // ---------------------------------------------------------------------------
  // generateDatabaseAgent
  // ---------------------------------------------------------------------------

  const DatabaseTools := "Read, Write, Edit, MultiEdit, Bash, Glob, Grep"

  /** The database document's fixed text between the frontmatter and the
      tail, split before each of the five headings; its prose paragraphs are
      placeholders. */
  const DatabaseLeads: seq<string> := [
    "\n# Purpose\n\n<database purpose>\n\n",
    "\n\n",
    "\n\n",
    "\n\n### Report Results\n<report step>\n\n## Important Boundaries\n\n<ownership lists>\n\n"
      + "## Safe vs Dangerous Commands\n\n",
    "\n\n"]

  const DatabaseHeadings: seq<string> := [
    "## Tech Stack\n\n",
    "## CRITICAL PROTECTION RULES\n\n",
    "## Instructions\n\nWhen invoked, follow these steps:\n\n",
    "### Safe (No Approval Needed)\n",
    "### DANGEROUS (Require User Approval)\n"]

  const DatabaseTail :=
    "\n\n## Universal Response Format\n\n```text\n<database response format>\n```\n\n"
      + "## Integration with Other Agents\n\n<database hand-offs>\n"

  function DatabaseDocument(db: DatabaseProfile): string {
    Frontmatter(db.name, "database", db.description, DatabaseTools, "blue")
      + Render(DatabaseLeads, DatabaseHeadings,
               [db.techStack, db.protectionRules, db.instructions, db.safeCommands, db.dangerousCommands],
               DatabaseTail)
  }

  /** `doc` opens with the database frontmatter of `db` and then holds its
      tech stack, protection rules, instructions, safe commands and dangerous
      commands, each right after its heading, in that order. */
  ghost predicate DatabaseShaped(doc: string, db: DatabaseProfile) {
    && StartsWith(doc, Frontmatter(db.name, "database", db.description, DatabaseTools, "blue"))
    && InOrder(doc, [
         "## Tech Stack\n\n" + db.techStack,
         "## CRITICAL PROTECTION RULES\n\n" + db.protectionRules,
         "## Instructions\n\nWhen invoked, follow these steps:\n\n" + db.instructions,
         "### Safe (No Approval Needed)\n" + db.safeCommands,
         "### DANGEROUS (Require User Approval)\n" + db.dangerousCommands])
  }

  lemma DatabaseDocumentShape(db: DatabaseProfile)
    ensures DatabaseShaped(DatabaseDocument(db), db)
  {
    var values := [db.techStack, db.protectionRules, db.instructions, db.safeCommands, db.dangerousCommands];
    DocumentShape(Frontmatter(db.name, "database", db.description, DatabaseTools, "blue"),
      DatabaseLeads, DatabaseHeadings, values, DatabaseTail);
    assert Sections(DatabaseHeadings, values) == [
      "## Tech Stack\n\n" + db.techStack,
      "## CRITICAL PROTECTION RULES\n\n" + db.protectionRules,
      "## Instructions\n\nWhen invoked, follow these steps:\n\n" + db.instructions,
      "### Safe (No Approval Needed)\n" + db.safeCommands,
      "### DANGEROUS (Require User Approval)\n" + db.dangerousCommands];
  }

  /** `generateDatabaseAgent`: the database document of a catalog stack, or
      the error `Unknown stack: <id>`. */
  function GenerateDatabaseAgent(stackId: string): (r: Result<string, string>)
    ensures r.Failure? <==> stackId !in StackOrder
    ensures r.Failure? ==> r.error == "Unknown stack: " + stackId
  {
    match GetStack(stackId)
    case None => Failure("Unknown stack: " + stackId)
    case Some(stack) => Success(DatabaseDocument(stack.database))
  }

  /** For a catalog stack the database agent is its database document. */
  lemma DatabaseAgentShaped(stackId: string)
    requires stackId in StackOrder
    ensures GenerateDatabaseAgent(stackId).Success?
    ensures DatabaseShaped(GenerateDatabaseAgent(stackId).value, GetStack(stackId).value.database)
  {
    DatabaseDocumentShape(GetStack(stackId).value.database);
  }

  // ---------------------------------------------------------------------------
  // generateStackAgents
  // ---------------------------------------------------------------------------


  /** `generateStackAgents`: `developer.md` and `database.md`, in that order,
      mapped to the two generators' documents; the developer generator runs
      first, so its error is the one reported for an unknown id. */
  function GenerateStackAgents(stackId: string): (r: Result<seq<(string, string)>, string>)
    ensures r.Failure? <==> stackId !in StackOrder
    ensures r.Failure? ==> r.error == "Unknown stack: " + stackId
    ensures r.Success? ==> |r.value| == 2 && r.value[0].0 == "developer.md" && r.value[1].0 == "database.md"
  {
    match GenerateDeveloperAgent(stackId)
    case Failure(e) => Failure(e)
    case Success(developer) =>
      match GenerateDatabaseAgent(stackId)
      case Failure(e) => Failure(e)
      case Success(database) => Success([("developer.md", developer), ("database.md", database)])
  }

  /** For a catalog stack, `developer.md` holds the developer document and
      `database.md` the database document of that stack. */
  lemma StackAgentsShaped(stackId: string)
    requires stackId in StackOrder
    ensures GenerateStackAgents(stackId).Success?
    ensures GenerateStackAgents(stackId).value[0].1 == GenerateDeveloperAgent(stackId).value
    ensures GenerateStackAgents(stackId).value[1].1 == GenerateDatabaseAgent(stackId).value
    ensures DeveloperShaped(GenerateStackAgents(stackId).value[0].1, GetStack(stackId).value.developer)
    ensures DatabaseShaped(GenerateStackAgents(stackId).value[1].1, GetStack(stackId).value.database)
  {
    DeveloperAgentShaped(stackId);
    DatabaseAgentShaped(stackId);
  }
}
