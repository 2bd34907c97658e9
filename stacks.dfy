/** The stack catalog: a constant map from template id to the records the
    two agent generators splice into their documents, with lookup and the
    projection offered to the user as choices. The long prose fields are
    stood in for by distinct non-empty strings. */
module Stacks {
  import opened Wrappers

  datatype DeveloperProfile = DeveloperProfile(
    name: string,
    description: string,
    techStack: string,
    fileStructure: string,
    instructions: string,
    boundaries: string)

  datatype DatabaseProfile = DatabaseProfile(
    name: string,
    description: string,
    techStack: string,
    instructions: string,
    safeCommands: string,
    dangerousCommands: string,
    protectionRules: string)

  datatype StackTemplate = StackTemplate(
    id: string,
    name: string,
    description: string,
    developer: DeveloperProfile,
    database: DatabaseProfile)

  /** One `{id, name, description}` entry of the selection list. */
  datatype StackChoice = StackChoice(id: string, name: string, description: string)

  /** The catalog's keys in declaration order (the order `Object.values`
      enumerates them). */
  const StackOrder: seq<string> := [
    "nextjs-supabase", "react-express-postgres", "python-django-postgres",
    "python-fastapi-postgres", "vue-express-mongodb", "generic"]

  /** The stand-in for the prose field `field` of entry `id`. */
  function Prose(id: string, field: string): (r: string)
    ensures r != []
  {
    "<" + id + " " + field + ">"
  }

  /** An entry whose `id` field is `id`, whose agent names are `developer` and
      `database`, and whose other fields are prose. */
  function Entry(id: string, name: string, description: string): StackTemplate {
    StackTemplate(id, name, description,
      DeveloperProfile("developer", Prose(id, "developer.description"), Prose(id, "developer.techStack"),
        Prose(id, "developer.fileStructure"), Prose(id, "developer.instructions"), Prose(id, "developer.boundaries")),
      DatabaseProfile("database", Prose(id, "database.description"), Prose(id, "database.techStack"),
        Prose(id, "database.instructions"), Prose(id, "database.safeCommands"),
        Prose(id, "database.dangerousCommands"), Prose(id, "database.protectionRules")))
  }

  /** The fields of an entry written out in the catalog; the remaining ones
      are prose. */
  datatype Heading = Heading(id: string, name: string, description: string)

  const Headings: map<string, Heading> := map[
    "nextjs-supabase" := Heading("nextjs-supabase", "Next.js + Supabase",
      "Full-stack TypeScript with Next.js 14, React 18, shadcn/ui, and Supabase"),
    "react-express-postgres" := Heading("react-express-postgres", "React + Express + PostgreSQL",
      "React frontend with Express.js backend and PostgreSQL database"),
    "python-django-postgres" := Heading("python-django-postgres", "Python + Django + PostgreSQL",
      "Full-featured Python web framework with Django ORM and PostgreSQL"),
    "python-fastapi-postgres" := Heading("python-fastapi-postgres", "Python + FastAPI + PostgreSQL",
      "Modern async Python API framework with automatic OpenAPI documentation"),
    "vue-express-mongodb" := Heading("vue-express-mongodb", "Vue.js + Express + MongoDB",
      "Vue.js 3 frontend with Express.js backend and MongoDB database"),
    "generic" := Heading("generic", "Generic (Tech-Agnostic)",
      "Flexible agents that adapt to any tech stack by analyzing your codebase")]

  /** `stacks`: each key's heading completed with its prose. */
  const Catalog: map<string, StackTemplate> :=
    map key | key in Headings :: Entry(Headings[key].id, Headings[key].name, Headings[key].description)

  /** The shape every entry has: its `id` is its key, its agent records are
      named `developer` and `database`, and the fields the documents show are
      non-empty. */
  predicate WellFormed(id: string, t: StackTemplate) {
    && t.id == id
    && t.name != [] && t.description != []
    && t.developer.name == "developer"
    && t.developer.description != [] && t.developer.techStack != []
    && t.database.name == "database"
    && t.database.description != [] && t.database.techStack != []
  }

  /** Every entry's `id` field is its key, and its name and description are
      non-empty. */
  lemma HeadingsWellFormed()
    ensures forall key :: key in Headings ==>
      Headings[key].id == key && Headings[key].name != [] && Headings[key].description != []
  {
  }

  lemma EntryWellFormed(id: string, name: string, description: string)
    requires name != [] && description != []
    ensures WellFormed(id, Entry(id, name, description))
  {
  }

  /** The catalog holds exactly the six ids ... */
  lemma CatalogKeys()
    ensures Catalog.Keys == set id | id in StackOrder
  {
  }

  /** ... each of them once. */
  lemma StackOrderDistinct()
    ensures |StackOrder| == 6
    ensures forall i, j :: 0 <= i < j < |StackOrder| ==> StackOrder[i] != StackOrder[j]
  {
  }

  /** `getStack`: the entry for a catalog key, null for any other id. */
  function GetStack(id: string): (r: Option<StackTemplate>)
    ensures r.Some? <==> id in StackOrder
    ensures r.Some? ==> WellFormed(id, r.value)
  {
    CatalogKeys();
    if id in Catalog then
      HeadingsWellFormed();
      EntryWellFormed(id, Headings[id].name, Headings[id].description);
      Some(Catalog[id])
    else None
  }

  /** `getStackChoices`: one choice per entry, in declaration order, copied
      from that entry. */
  function GetStackChoices(): (r: seq<StackChoice>)
    ensures |r| == |StackOrder|
    ensures forall i :: 0 <= i < |r| ==>
      && r[i].id == StackOrder[i]
      && StackOrder[i] in Catalog
      && r[i].name == Catalog[StackOrder[i]].name
      && r[i].description == Catalog[StackOrder[i]].description
  {
    CatalogKeys();
    HeadingsWellFormed();
    seq(|StackOrder|, i requires 0 <= i < |StackOrder| => Choice(Catalog[StackOrder[i]]))
  }

  /** Every offered choice resolves through `GetStack` to a well-formed entry. */
  lemma ChoicesResolve(c: StackChoice)
    requires c in GetStackChoices()
    ensures GetStack(c.id).Some? && WellFormed(c.id, GetStack(c.id).value)
    ensures GetStack(c.id).value.name == c.name
  {
  }

  function Choice(t: StackTemplate): StackChoice {
    StackChoice(t.id, t.name, t.description)
  }
}
