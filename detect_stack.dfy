/** Tech-stack detection: five ecosystem probes (JavaScript/TypeScript, Python,
    Go, Ruby, Rust) each turn the manifest files of a project into a partial
    record of six tags; the partial records are merged first-non-null in that
    fixed order, and the merged record is mapped to a stack template id by an
    ordered rule table. The project directory is given as a value. */
module DetectStack {
  import opened Wrappers
  import opened Text

  // ---------------------------------------------------------------------------
  // Inputs: the project directory as a value
  // ---------------------------------------------------------------------------

  /** A JSON value as `JSON.parse` produces it, kept only as far as truthiness. */
  datatype JsonValue = JString(s: string) | JNumber(n: int) | JBool(b: bool) | JNull | JObject | JArray

  /** JavaScript truthiness (`!!v`). */
  predicate Truthy(v: JsonValue) {
    match v
    case JString(s) => s != ""
    case JNumber(n) => n != 0
    case JBool(b) => b
    case JNull => false
    case JObject => true
    case JArray => true
  }

  /** One dependency section; `None` when the key is missing or is not an object. */
  type Section = Option<map<string, JsonValue>>

  /** A parsed, truthy `package.json`. */
  datatype PackageJson = PackageJson(dependencies: Section, devDependencies: Section, peerDependencies: Section)

  /** A manifest read with `existsSync` + `readFileSync`. */
  datatype FileState = Absent | Unreadable | Contents(text: string)

  predicate Exists(f: FileState) { !f.Absent? }

  /** `readFileSafe(path) || ''`: the text, or the empty string when the file is
      missing or cannot be read. */
  function ReadSafe(f: FileState): string {
    if f.Contents? then f.text else ""
  }

  /** What the probes look at. `packageJson` is `None` when the file is missing,
      unreadable, not valid JSON, or parses to a falsy value. */
  datatype Project = Project(
    packageJson: Option<PackageJson>,
    tsconfigJson: bool,
    componentsJson: bool,
    requirementsTxt: FileState,
    pyprojectToml: FileState,
    pipfile: bool,
    setupPy: bool,
    goMod: FileState,
    gemfile: FileState,
    cargoToml: FileState)

  // ---------------------------------------------------------------------------
  // The six-field detection record
  // ---------------------------------------------------------------------------

  datatype Detection = Detection(
    language: Option<string>,
    frontend: Option<string>,
    backend: Option<string>,
    database: Option<string>,
    testing: Option<string>,
    ui: Option<string>)

  const Empty := Detection(None, None, None, None, None, None)

  datatype Field = Language | Frontend | Backend | Database | Testing | Ui

  function Get(d: Detection, f: Field): Option<string> {
    match f
    case Language => d.language
    case Frontend => d.frontend
    case Backend => d.backend
    case Database => d.database
    case Testing => d.testing
    case Ui => d.ui
  }

  /** The languages a probe can report. */
  const Languages: set<string> := {"typescript", "javascript", "python", "go", "ruby", "rust"}

  /** What every probe guarantees: either nothing was found, or the language is
      one of the six known ones. */
  ghost predicate ProbeShape(d: Detection) {
    d == Empty || (d.language.Some? && d.language.value in Languages)
  }

  // ---------------------------------------------------------------------------
  // JavaScript / TypeScript probe
  // ---------------------------------------------------------------------------

  predicate SectionHas(section: Section, name: string) {
    section.Some? && name in section.value && Truthy(section.value[name])
  }

  /** `hasDependency`: false without a package; otherwise true when any of the
      three dependency sections maps `name` to a truthy value. */
  function HasDependency(pkg: Option<PackageJson>, name: string): (r: bool)
    ensures pkg.None? ==> !r
    ensures pkg.Some? && SectionHas(pkg.value.devDependencies, name) ==> r
  {
    match pkg
    case None => false
    case Some(p) =>
      SectionHas(p.dependencies, name) || SectionHas(p.devDependencies, name) || SectionHas(p.peerDependencies, name)
  }

  /** A dependency is found exactly when one of the three sections maps it to
      a truthy value; a falsy value (`false`, `0`, `""`, `null`) counts as absent. */
  lemma HasDependencyIff(pkg: PackageJson, name: string)
    ensures HasDependency(Some(pkg), name) <==>
      exists s :: s in [pkg.dependencies, pkg.devDependencies, pkg.peerDependencies]
                  && s.Some? && name in s.value && Truthy(s.value[name])
  {
    var sections := [pkg.dependencies, pkg.devDependencies, pkg.peerDependencies];
    if HasDependency(Some(pkg), name) {
      if SectionHas(pkg.dependencies, name) { assert sections[0] == pkg.dependencies; }
      else if SectionHas(pkg.devDependencies, name) { assert sections[1] == pkg.devDependencies; }
      else { assert sections[2] == pkg.peerDependencies; }
    }
  }

  /** `hasDependency` applied to a parsed package. */
  predicate Has(pkg: PackageJson, name: string) {
    HasDependency(Some(pkg), name)
  }

  function JsLanguage(pkg: PackageJson, tsconfig: bool): (r: string)
    ensures r == "typescript" <==> HasDependency(Some(pkg), "typescript") || tsconfig
    ensures r == "typescript" || r == "javascript"
  {
    if Has(pkg, "typescript") || tsconfig then "typescript" else "javascript"
  }

  function JsFrontend(pkg: PackageJson): Option<string> {
    if Has(pkg, "next") then Some("nextjs")
    else if Has(pkg, "nuxt") then Some("nuxt")
    else if Has(pkg, "vue") then Some("vue")
    else if Has(pkg, "react") then Some("react")
    else if Has(pkg, "@angular/core") then Some("angular")
    else if Has(pkg, "svelte") then Some("svelte")
    else None
  }

  /** The backend packages, then the Next.js default for an unset backend. */
  function JsBackend(pkg: PackageJson, frontend: Option<string>): Option<string> {
    var matched :=
      if Has(pkg, "express") then Some("express")
      else if Has(pkg, "@nestjs/core") then Some("nestjs")
      else if Has(pkg, "fastify") then Some("fastify")
      else if Has(pkg, "koa") then Some("koa")
      else if Has(pkg, "hono") then Some("hono")
      else None;
    if frontend == Some("nextjs") && matched.None? then Some("nextjs") else matched
  }

  /** The database packages, then the Prisma default for an unset database. */
  function JsDatabase(pkg: PackageJson): Option<string> {
    var matched :=
      if Has(pkg, "@supabase/supabase-js") then Some("supabase")
      else if Has(pkg, "firebase") || Has(pkg, "firebase-admin") then Some("firebase")
      else if Has(pkg, "mongodb") || Has(pkg, "mongoose") then Some("mongodb")
      else if Has(pkg, "pg") || Has(pkg, "postgres") || Has(pkg, "@prisma/client") then Some("postgresql")
      else if Has(pkg, "mysql") || Has(pkg, "mysql2") then Some("mysql")
      else if Has(pkg, "better-sqlite3") || Has(pkg, "sqlite3") then Some("sqlite")
      else None;
    if (Has(pkg, "prisma") || Has(pkg, "@prisma/client")) && matched.None? then Some("postgresql") else matched
  }

  function JsTesting(pkg: PackageJson): Option<string> {
    if Has(pkg, "vitest") then Some("vitest")
    else if Has(pkg, "jest") then Some("jest")
    else if Has(pkg, "mocha") then Some("mocha")
    else if Has(pkg, "@playwright/test") then Some("playwright")
    else if Has(pkg, "cypress") then Some("cypress")
    else None
  }

  /** `tailwind` is set first and then replaced by any later match. */
  function JsUi(pkg: PackageJson, componentsJson: bool): Option<string> {
    var tailwind := if Has(pkg, "tailwindcss") then Some("tailwind") else None;
    if Has(pkg, "@radix-ui/react-slot") || componentsJson then Some("shadcn")
    else if Has(pkg, "@chakra-ui/react") then Some("chakra")
    else if Has(pkg, "@mui/material") then Some("mui")
    else if Has(pkg, "bootstrap") || Has(pkg, "react-bootstrap") then Some("bootstrap")
    else tailwind
  }

  /** The packages the backend chain tests, the database chain tests and the
      ui chain tests after `tailwindcss`, each in the source's order. */
  const JsBackendPackages := ["express", "@nestjs/core", "fastify", "koa", "hono"]
  const JsDatabasePackages := ["@supabase/supabase-js", "firebase", "firebase-admin", "mongodb", "mongoose",
                               "pg", "postgres", "@prisma/client", "mysql", "mysql2", "better-sqlite3", "sqlite3"]
  const JsUiPackages := ["@radix-ui/react-slot", "@chakra-ui/react", "@mui/material", "bootstrap", "react-bootstrap"]

  /** Some package of `names` is a dependency of `pkg`. */
  predicate HasAny(pkg: PackageJson, names: seq<string>) {
    exists i :: 0 <= i < |names| && Has(pkg, names[i])
  }

  /** Two packages agree on every name of `names`. */
  predicate AgreeOn(p1: PackageJson, p2: PackageJson, names: seq<string>) {
    forall i :: 0 <= i < |names| ==> Has(p1, names[i]) == Has(p2, names[i])
  }

  /** `HasAny` over each list, written out name by name. */
  lemma HasAnyBackend(pkg: PackageJson)
    ensures HasAny(pkg, JsBackendPackages) <==>
      Has(pkg, "express") || Has(pkg, "@nestjs/core") || Has(pkg, "fastify") || Has(pkg, "koa") || Has(pkg, "hono")
  {
    var n := JsBackendPackages;
    assert n[0] == "express" && n[1] == "@nestjs/core" && n[2] == "fastify" && n[3] == "koa" && n[4] == "hono";
  }

  lemma HasAnyDatabase(pkg: PackageJson)
    ensures HasAny(pkg, JsDatabasePackages) <==>
      Has(pkg, "@supabase/supabase-js") || Has(pkg, "firebase") || Has(pkg, "firebase-admin") ||
      Has(pkg, "mongodb") || Has(pkg, "mongoose") || Has(pkg, "pg") || Has(pkg, "postgres") ||
      Has(pkg, "@prisma/client") || Has(pkg, "mysql") || Has(pkg, "mysql2") ||
      Has(pkg, "better-sqlite3") || Has(pkg, "sqlite3")
  {
    var n := JsDatabasePackages;
    assert n[0] == "@supabase/supabase-js" && n[1] == "firebase" && n[2] == "firebase-admin";
    assert n[3] == "mongodb" && n[4] == "mongoose" && n[5] == "pg" && n[6] == "postgres";
    assert n[7] == "@prisma/client" && n[8] == "mysql" && n[9] == "mysql2";
    assert n[10] == "better-sqlite3" && n[11] == "sqlite3";
  }

  lemma HasAnyUi(pkg: PackageJson)
    ensures HasAny(pkg, JsUiPackages) <==>
      Has(pkg, "@radix-ui/react-slot") || Has(pkg, "@chakra-ui/react") || Has(pkg, "@mui/material") ||
      Has(pkg, "bootstrap") || Has(pkg, "react-bootstrap")
  {
    var n := JsUiPackages;
    assert n[0] == "@radix-ui/react-slot" && n[1] == "@chakra-ui/react" && n[2] == "@mui/material";
    assert n[3] == "bootstrap" && n[4] == "react-bootstrap";
  }

  /** The Next.js backend default applies exactly when the frontend is Next.js
      and no backend package matched; with no match and another frontend the
      backend stays null. */
  lemma JsBackendDefault(pkg: PackageJson, frontend: Option<string>)
    ensures JsBackend(pkg, frontend) == Some("nextjs") <==>
              frontend == Some("nextjs") && !HasAny(pkg, JsBackendPackages)
    ensures JsBackend(pkg, frontend).None? <==>
              frontend != Some("nextjs") && !HasAny(pkg, JsBackendPackages)
  {
    HasAnyBackend(pkg);
  }

  /** A matched backend package is never replaced by the Next.js default: the
      frontend then has no effect on the backend. */
  lemma JsBackendMatchKept(pkg: PackageJson, frontend: Option<string>)
    requires HasAny(pkg, JsBackendPackages)
    ensures JsBackend(pkg, frontend) == JsBackend(pkg, None) != Some("nextjs")
  {
    HasAnyBackend(pkg);
  }

  /** The Prisma default: with no database package matched, the database is
      `postgresql` exactly when `prisma` is a dependency, and null otherwise. */
  lemma JsDatabaseDefault(pkg: PackageJson)
    ensures !HasAny(pkg, JsDatabasePackages) ==>
              (JsDatabase(pkg) == Some("postgresql") <==> Has(pkg, "prisma")) &&
              (JsDatabase(pkg).None? <==> !Has(pkg, "prisma"))
    ensures HasAny(pkg, JsDatabasePackages) ==> JsDatabase(pkg).Some?
  {
    HasAnyDatabase(pkg);
  }

  /** A matched database package is never replaced by the Prisma default: two
      packages that agree on the database packages, whatever they hold for
      `prisma`, detect the same database once one of them matched. */
  lemma JsDatabaseMatchKept(p1: PackageJson, p2: PackageJson)
    requires AgreeOn(p1, p2, JsDatabasePackages)
    requires HasAny(p1, JsDatabasePackages)
    ensures JsDatabase(p1) == JsDatabase(p2)
  {
    HasAnyDatabase(p1);
    var n := JsDatabasePackages;
    assert n[0] == "@supabase/supabase-js" && n[1] == "firebase" && n[2] == "firebase-admin";
    assert n[3] == "mongodb" && n[4] == "mongoose" && n[5] == "pg" && n[6] == "postgres";
    assert n[7] == "@prisma/client" && n[8] == "mysql" && n[9] == "mysql2";
    assert n[10] == "better-sqlite3" && n[11] == "sqlite3";
  }

  /** `tailwind` survives exactly when no later ui package matched and there is
      no `components.json`; the ui is null exactly when nothing matched. */
  lemma JsUiTailwind(pkg: PackageJson, componentsJson: bool)
    ensures JsUi(pkg, componentsJson) == Some("tailwind") <==>
              Has(pkg, "tailwindcss") && !componentsJson && !HasAny(pkg, JsUiPackages)
    ensures JsUi(pkg, componentsJson).None? <==>
              !Has(pkg, "tailwindcss") && !componentsJson && !HasAny(pkg, JsUiPackages)
  {
    HasAnyUi(pkg);
  }

  /** A later ui match replaces `tailwind`: once `components.json` exists or a
      ui package matched, `tailwindcss` has no effect on the ui. */
  lemma JsUiMatchReplaces(p1: PackageJson, p2: PackageJson, componentsJson: bool)
    requires AgreeOn(p1, p2, JsUiPackages)
    requires componentsJson || HasAny(p1, JsUiPackages)
    ensures JsUi(p1, componentsJson) == JsUi(p2, componentsJson) != Some("tailwind")
  {
    HasAnyUi(p1);
    var n := JsUiPackages;
    assert n[0] == "@radix-ui/react-slot" && n[1] == "@chakra-ui/react" && n[2] == "@mui/material";
    assert n[3] == "bootstrap" && n[4] == "react-bootstrap";
  }

  /** `detectFromPackageJson`. */
  function JsProbe(p: Project): (r: Detection)
    ensures p.packageJson.None? ==> r == Empty
    ensures p.packageJson.Some? ==> r.language.Some?
    ensures ProbeShape(r)
  {
    match p.packageJson
    case None => Empty
    case Some(pkg) =>
      var frontend := JsFrontend(pkg);
      Detection(Some(JsLanguage(pkg, p.tsconfigJson)), frontend, JsBackend(pkg, frontend),
                JsDatabase(pkg), JsTesting(pkg), JsUi(pkg, p.componentsJson))
  }

  // ---------------------------------------------------------------------------
  // Python, Go, Ruby and Rust probes: substring search over lower-cased text
  // ---------------------------------------------------------------------------

  predicate HasPythonMarker(p: Project) {
    Exists(p.pyprojectToml) || Exists(p.requirementsTxt) || p.pipfile || p.setupPy
  }

  /** The text the Python probe searches: `requirements.txt`, a newline, then
      `pyproject.toml`, lower-cased (`Pipfile` and `setup.py` are not read). */
  function PythonText(p: Project): string {
    Lower(ReadSafe(p.requirementsTxt) + "\n" + ReadSafe(p.pyprojectToml))
  }

  function PythonBackend(text: string): Option<string> {
    if Includes(text, "django") then Some("django")
    else if Includes(text, "fastapi") then Some("fastapi")
    else if Includes(text, "flask") then Some("flask")
    else if Includes(text, "tornado") then Some("tornado")
    else if Includes(text, "starlette") then Some("starlette")
    else None
  }

  /** The database markers, then the SQLAlchemy default for an unset database. */
  function PythonDatabase(text: string): Option<string> {
    var matched :=
      if Includes(text, "supabase") then Some("supabase")
      else if Includes(text, "psycopg") || Includes(text, "asyncpg") || Includes(text, "postgresql") then Some("postgresql")
      else if Includes(text, "pymongo") || Includes(text, "motor") then Some("mongodb")
      else if Includes(text, "mysql") || Includes(text, "pymysql") then Some("mysql")
      else if Includes(text, "sqlite") then Some("sqlite")
      else None;
    if Includes(text, "sqlalchemy") && matched.None? then Some("postgresql") else matched
  }

  /** The markers the Python database chain searches for, in the source's order. */
  const PythonDatabaseMarkers := ["supabase", "psycopg", "asyncpg", "postgresql", "pymongo", "motor",
                                  "mysql", "pymysql", "sqlite"]

  predicate IncludesAny(text: string, markers: seq<string>) {
    exists i :: 0 <= i < |markers| && Includes(text, markers[i])
  }

  lemma IncludesAnyDatabase(text: string)
    ensures IncludesAny(text, PythonDatabaseMarkers) <==>
      Includes(text, "supabase") || Includes(text, "psycopg") || Includes(text, "asyncpg") ||
      Includes(text, "postgresql") || Includes(text, "pymongo") || Includes(text, "motor") ||
      Includes(text, "mysql") || Includes(text, "pymysql") || Includes(text, "sqlite")
  {
    var n := PythonDatabaseMarkers;
    assert n[0] == "supabase" && n[1] == "psycopg" && n[2] == "asyncpg" && n[3] == "postgresql";
    assert n[4] == "pymongo" && n[5] == "motor" && n[6] == "mysql" && n[7] == "pymysql" && n[8] == "sqlite";
  }

  /** The SQLAlchemy default: with no database marker found, the database is
      `postgresql` exactly when `sqlalchemy` occurs, and null otherwise. */
  lemma PythonDatabaseDefault(text: string)
    ensures !IncludesAny(text, PythonDatabaseMarkers) ==>
              (PythonDatabase(text) == Some("postgresql") <==> Includes(text, "sqlalchemy")) &&
              (PythonDatabase(text).None? <==> !Includes(text, "sqlalchemy"))
    ensures IncludesAny(text, PythonDatabaseMarkers) ==> PythonDatabase(text).Some?
  {
    IncludesAnyDatabase(text);
  }

  /** A found database marker is never replaced by the SQLAlchemy default: two
      texts that agree on the markers, whatever they hold for `sqlalchemy`,
      detect the same database once one of them found a marker. */
  lemma PythonDatabaseMatchKept(t1: string, t2: string)
    requires forall i :: 0 <= i < |PythonDatabaseMarkers| ==>
               Includes(t1, PythonDatabaseMarkers[i]) == Includes(t2, PythonDatabaseMarkers[i])
    requires IncludesAny(t1, PythonDatabaseMarkers)
    ensures PythonDatabase(t1) == PythonDatabase(t2)
  {
    IncludesAnyDatabase(t1);
    var n := PythonDatabaseMarkers;
    assert n[0] == "supabase" && n[1] == "psycopg" && n[2] == "asyncpg" && n[3] == "postgresql";
    assert n[4] == "pymongo" && n[5] == "motor" && n[6] == "mysql" && n[7] == "pymysql" && n[8] == "sqlite";
  }

  function PythonTesting(text: string): Option<string> {
    if Includes(text, "pytest") then Some("pytest")
    else if Includes(text, "unittest") then Some("unittest")
    else None
  }

  /** `detectFromPython`. */
  function PythonProbe(p: Project): (r: Detection)
    ensures !HasPythonMarker(p) ==> r == Empty
    ensures HasPythonMarker(p) ==> r.language == Some("python") && r.frontend.None? && r.ui.None?
    ensures ProbeShape(r)
  {
    if !HasPythonMarker(p) then Empty
    else
      var text := PythonText(p);
      Detection(Some("python"), None, PythonBackend(text), PythonDatabase(text), PythonTesting(text), None)
  }

  function GoBackend(text: string): Option<string> {
    if Includes(text, "gin-gonic/gin") then Some("gin")
    else if Includes(text, "labstack/echo") then Some("echo")
    else if Includes(text, "gofiber/fiber") then Some("fiber")
    else if Includes(text, "gorilla/mux") then Some("gorilla")
    else None
  }

  function GoDatabase(text: string): Option<string> {
    if Includes(text, "lib/pq") || Includes(text, "jackc/pgx") then Some("postgresql")
    else if Includes(text, "go-sql-driver/mysql") then Some("mysql")
    else if Includes(text, "mongodb/mongo-go-driver") then Some("mongodb")
    else None
  }

  /** `detectFromGo`: testing is always the built-in `go-test`. */
  function GoProbe(p: Project): (r: Detection)
    ensures !Exists(p.goMod) ==> r == Empty
    ensures Exists(p.goMod) ==> r.language == Some("go") && r.testing == Some("go-test")
    ensures ProbeShape(r)
  {
    if !Exists(p.goMod) then Empty
    else
      var text := Lower(ReadSafe(p.goMod));
      Detection(Some("go"), None, GoBackend(text), GoDatabase(text), Some("go-test"), None)
  }

  function RubyBackend(text: string): Option<string> {
    if Includes(text, "rails") then Some("rails")
    else if Includes(text, "sinatra") then Some("sinatra")
    else if Includes(text, "hanami") then Some("hanami")
    else None
  }

  function RubyDatabase(text: string): Option<string> {
    if Includes(text, "pg") then Some("postgresql")
    else if Includes(text, "mysql2") then Some("mysql")
    else if Includes(text, "sqlite3") then Some("sqlite")
    else if Includes(text, "mongoid") then Some("mongodb")
    else None
  }

  function RubyTesting(text: string): Option<string> {
    if Includes(text, "rspec") then Some("rspec")
    else if Includes(text, "minitest") then Some("minitest")
    else None
  }

  /** `detectFromRuby`. */
  function RubyProbe(p: Project): (r: Detection)
    ensures !Exists(p.gemfile) ==> r == Empty
    ensures Exists(p.gemfile) ==> r.language == Some("ruby") && r.frontend.None? && r.ui.None?
    ensures ProbeShape(r)
  {
    if !Exists(p.gemfile) then Empty
    else
      var text := Lower(ReadSafe(p.gemfile));
      Detection(Some("ruby"), None, RubyBackend(text), RubyDatabase(text), RubyTesting(text), None)
  }

  function RustBackend(text: string): Option<string> {
    if Includes(text, "actix-web") then Some("actix")
    else if Includes(text, "axum") then Some("axum")
    else if Includes(text, "rocket") then Some("rocket")
    else if Includes(text, "warp") then Some("warp")
    else None
  }

  /** PostgreSQL is `tokio-postgres`, or `sqlx` together with `postgres`. */
  function RustDatabase(text: string): Option<string> {
    if Includes(text, "tokio-postgres") || (Includes(text, "sqlx") && Includes(text, "postgres")) then Some("postgresql")
    else if Includes(text, "mongodb") then Some("mongodb")
    else None
  }

  /** `detectFromRust`: testing is always the built-in `cargo-test`. */
  function RustProbe(p: Project): (r: Detection)
    ensures !Exists(p.cargoToml) ==> r == Empty
    ensures Exists(p.cargoToml) ==> r.language == Some("rust") && r.testing == Some("cargo-test")
    ensures ProbeShape(r)
  {
    if !Exists(p.cargoToml) then Empty
    else
      var text := Lower(ReadSafe(p.cargoToml));
      Detection(Some("rust"), None, RustBackend(text), RustDatabase(text), Some("cargo-test"), None)
  }

  /** The five probes in merge order. */
  function Probes(p: Project): (r: seq<Detection>)
    ensures |r| == 5
    ensures forall i :: 0 <= i < 5 ==> ProbeShape(r[i])
  {
    [JsProbe(p), PythonProbe(p), GoProbe(p), RubyProbe(p), RustProbe(p)]
  }

  // ---------------------------------------------------------------------------
  // Merge: first non-null per field
  // ---------------------------------------------------------------------------

  /** One step of the merge loop: a field of `acc` that is still null takes the
      value of `d`. */
  function Overlay(acc: Detection, d: Detection): Detection {
    Detection(
      if acc.language.Some? then acc.language else d.language,
      if acc.frontend.Some? then acc.frontend else d.frontend,
      if acc.backend.Some? then acc.backend else d.backend,
      if acc.database.Some? then acc.database else d.database,
      if acc.testing.Some? then acc.testing else d.testing,
      if acc.ui.Some? then acc.ui else d.ui)
  }

  /** The merge loop run over `ds`, as a left fold. */
  function MergeAll(ds: seq<Detection>): Detection
    decreases |ds|
  {
    if ds == [] then Empty else Overlay(MergeAll(ds[..|ds| - 1]), ds[|ds| - 1])
  }

  /** The first non-null value of a list. */
  function FirstSome(xs: seq<Option<string>>): (r: Option<string>)
    ensures r.Some? <==> exists i :: 0 <= i < |xs| && xs[i].Some?
    ensures r.Some? ==> exists i :: 0 <= i < |xs| && xs[i] == r && forall j :: 0 <= j < i ==> xs[j].None?
    decreases |xs|
  {
    if xs == [] then None
    else if xs[0].Some? then xs[0]
    else
      var r := FirstSome(xs[1..]);
      assert forall i :: 1 <= i < |xs| ==> xs[i] == xs[1..][i - 1];
      r
  }

  function Column(ds: seq<Detection>, f: Field): (r: seq<Option<string>>)
    ensures |r| == |ds| && forall i :: 0 <= i < |ds| ==> r[i] == Get(ds[i], f)
  {
    seq(|ds|, i requires 0 <= i < |ds| => Get(ds[i], f))
  }

  lemma {:induction false} FirstSomeSnoc(xs: seq<Option<string>>, x: Option<string>)
    ensures FirstSome(xs + [x]) == if FirstSome(xs).Some? then FirstSome(xs) else x
    decreases |xs|
  {
    if xs != [] {
      assert (xs + [x])[1..] == xs[1..] + [x];
      FirstSomeSnoc(xs[1..], x);
    }
  }

  /** The merge takes, field by field, the first non-null value in probe order:
      a later probe never overrides a field an earlier one set. */
  lemma {:induction false} MergeIsFirstNonNull(ds: seq<Detection>, f: Field)
    ensures Get(MergeAll(ds), f) == FirstSome(Column(ds, f))
    decreases |ds|
  {
    if ds != [] {
      var init := ds[..|ds| - 1];
      MergeIsFirstNonNull(init, f);
      assert Column(ds, f) == Column(init, f) + [Get(ds[|ds| - 1], f)];
      FirstSomeSnoc(Column(init, f), Get(ds[|ds| - 1], f));
    }
  }

  /** Appending a probe keeps every field that was already set. */
  lemma MergeKeepsSetFields(ds: seq<Detection>, d: Detection, f: Field)
    requires Get(MergeAll(ds), f).Some?
    ensures Get(MergeAll(ds + [d]), f) == Get(MergeAll(ds), f)
  {
    assert (ds + [d])[..|ds|] == ds;
  }

  // ---------------------------------------------------------------------------
  // Template mapping
  // ---------------------------------------------------------------------------

  /** `mapToStackTemplate`: twelve rules in order, then a generic id per
      language, else null. */
  function MapToStackTemplate(d: Detection): (r: Option<string>)
    ensures r.Some? ==> r.value in TemplateIds
    ensures d.language.Some? && d.language.value in Languages ==> r.Some?
    ensures d.frontend.None? && d.backend.None? ==>
      (r.Some? <==> d.language.Some? && d.language.value in Languages)
  {
    var fe, be, db, lang := d.frontend, d.backend, d.database, d.language;
    if fe == Some("nextjs") && db == Some("supabase") then Some("nextjs-supabase")
    else if fe == Some("nextjs") && db == Some("postgresql") then Some("nextjs-postgres")
    else if fe == Some("react") && be == Some("express") && db == Some("postgresql") then Some("react-express-postgres")
    else if fe == Some("react") && be == Some("express") && db == Some("mongodb") then Some("react-express-mongodb")
    else if fe == Some("vue") && be == Some("express") && db == Some("mongodb") then Some("vue-express-mongodb")
    else if fe == Some("vue") && (be == Some("express") || be == Some("fastify")) && db == Some("postgresql") then Some("vue-node-postgres")
    else if be == Some("django") && (db == Some("postgresql") || db.None?) then Some("python-django-postgres")
    else if be == Some("fastapi") && (db == Some("postgresql") || db.None?) then Some("python-fastapi-postgres")
    else if be == Some("flask") then Some("python-flask-postgres")
    else if be == Some("rails") then Some("ruby-rails-postgres")
    else if lang == Some("go") && db == Some("postgresql") then Some("go-gin-postgres")
    else if lang == Some("rust") && be == Some("actix") then Some("rust-actix-postgres")
    else if lang == Some("python") then Some("python-generic")
    else if lang == Some("go") then Some("go-generic")
    else if lang == Some("ruby") then Some("ruby-generic")
    else if lang == Some("rust") then Some("rust-generic")
    else if lang == Some("typescript") || lang == Some("javascript") then Some("node-generic")
    else None
  }

  /** Every id the mapping can return: twelve specific templates and five
      generic ones. */
  const TemplateIds: set<string> := {
    "nextjs-supabase", "nextjs-postgres", "react-express-postgres", "react-express-mongodb",
    "vue-express-mongodb", "vue-node-postgres", "python-django-postgres", "python-fastapi-postgres",
    "python-flask-postgres", "ruby-rails-postgres", "go-gin-postgres", "rust-actix-postgres",
    "python-generic", "go-generic", "ruby-generic", "rust-generic", "node-generic"}

  /** A record merged from probe results: every field is null when the
      language is, and a set language is one of the six known ones. */
  ghost predicate MergedShape(d: Detection) {
    && (d.language.None? ==> d == Empty)
    && (d.language.Some? ==> d.language.value in Languages)
  }

  lemma {:induction false} MergeShape(ds: seq<Detection>)
    requires forall i :: 0 <= i < |ds| ==> ProbeShape(ds[i])
    ensures MergedShape(MergeAll(ds))
    decreases |ds|
  {
    if ds != [] {
      MergeShape(ds[..|ds| - 1]);
    }
  }

  /** A record whose frontend is `nextjs` never reaches the Django/FastAPI rules
      when its database is Supabase or PostgreSQL: rules 1 and 2 come first. */
  lemma NextjsRulesComeFirst(d: Detection)
    requires d.frontend == Some("nextjs")
    ensures d.database == Some("supabase") ==> MapToStackTemplate(d) == Some("nextjs-supabase")
    ensures d.database == Some("postgresql") ==> MapToStackTemplate(d) == Some("nextjs-postgres")
  {
  }

  /** When none of the twelve rules applies, the id depends on the language alone. */
  lemma LanguageFallback(d: Detection)
    requires d.frontend.None? && d.backend.None? && d.database.None?
    ensures MapToStackTemplate(d) ==
      if d.language == Some("python") then Some("python-generic")
      else if d.language == Some("go") then Some("go-generic")
      else if d.language == Some("ruby") then Some("ruby-generic")
      else if d.language == Some("rust") then Some("rust-generic")
      else if d.language == Some("typescript") || d.language == Some("javascript") then Some("node-generic")
      else None
  {
  }

  // ---------------------------------------------------------------------------
  // detectStack
  // ---------------------------------------------------------------------------

  /** Each probe's own result, kept for diagnostics. */
  datatype Raw = Raw(javascript: Detection, python: Detection, go: Detection, ruby: Detection, rust: Detection)

  datatype StackDetection = StackDetection(merged: Detection, stackId: Option<string>, raw: Raw)

  /** The merge loop of `detectStack`: for each probe result in order, every
      field still null takes that result's value. */
  method Merge(stacks: seq<Detection>) returns (result: Detection)
    ensures result == MergeAll(stacks)
    ensures forall f: Field :: Get(result, f) == FirstSome(Column(stacks, f))
  {
    result := Empty;
    for i := 0 to |stacks|
      invariant result == MergeAll(stacks[..i])
    {
      var s := stacks[i];
      ghost var before := result;
      if s.language.Some? && result.language.None? { result := result.(language := s.language); }
      if s.frontend.Some? && result.frontend.None? { result := result.(frontend := s.frontend); }
      if s.backend.Some? && result.backend.None? { result := result.(backend := s.backend); }
      if s.database.Some? && result.database.None? { result := result.(database := s.database); }
      if s.testing.Some? && result.testing.None? { result := result.(testing := s.testing); }
      if s.ui.Some? && result.ui.None? { result := result.(ui := s.ui); }
      assert result == Overlay(before, s);
      MergeSnoc(stacks[..i], s);
      assert stacks[..i + 1] == stacks[..i] + [s];
    }
    assert stacks[..|stacks|] == stacks;
    forall f: Field ensures Get(result, f) == FirstSome(Column(stacks, f)) {
      MergeIsFirstNonNull(stacks, f);
    }
  }

  /** `detectStack`: runs the probes, merges them in the order JavaScript,
      Python, Go, Ruby, Rust, and maps the merged record to a template id,
      which is null exactly when no language was detected. */
  method Detect(p: Project) returns (r: StackDetection)
    ensures forall f: Field :: Get(r.merged, f) == FirstSome(Column(Probes(p), f))
    ensures r.stackId == MapToStackTemplate(r.merged)
    ensures r.stackId.None? <==> r.merged.language.None?
    ensures r.merged.language.None? ==> r.merged == Empty
    ensures r.raw == Raw(JsProbe(p), PythonProbe(p), GoProbe(p), RubyProbe(p), RustProbe(p))
  {
    var stacks := Probes(p);
    var merged := Merge(stacks);
    MergeShape(stacks);
    r := StackDetection(merged, MapToStackTemplate(merged), Raw(stacks[0], stacks[1], stacks[2], stacks[3], stacks[4]));
  }

  /** The merged record, as a function of the project (what `Detect` returns,
      for use in lemmas). */
  function Resolve(p: Project): (d: Detection)
    ensures MergedShape(d)
  {
    MergeShape(Probes(p));
    MergeAll(Probes(p))
  }

  lemma MergeSnoc(ds: seq<Detection>, d: Detection)
    ensures MergeAll(ds + [d]) == Overlay(MergeAll(ds), d)
  {
    assert (ds + [d])[..|ds|] == ds;
  }

  lemma MergeFive(a: Detection, b: Detection, c: Detection, d: Detection, e: Detection)
    ensures MergeAll([a, b, c, d, e]) == Overlay(Overlay(Overlay(Overlay(Overlay(Empty, a), b), c), d), e)
  {
    MergeSnoc([], a);
    assert [a] == [] + [a];
    MergeSnoc([a], b);
    assert [a, b] == [a] + [b];
    MergeSnoc([a, b], c);
    assert [a, b, c] == [a, b] + [c];
    MergeSnoc([a, b, c], d);
    assert [a, b, c, d] == [a, b, c] + [d];
    MergeSnoc([a, b, c, d], e);
    assert [a, b, c, d, e] == [a, b, c, d] + [e];
  }

  /** `Resolve` spelled out as the merge loop's five steps. */
  lemma ResolveSteps(p: Project)
    ensures Resolve(p) ==
      Overlay(Overlay(Overlay(Overlay(Overlay(Empty, JsProbe(p)), PythonProbe(p)), GoProbe(p)), RubyProbe(p)), RustProbe(p))
  {
    MergeFive(JsProbe(p), PythonProbe(p), GoProbe(p), RubyProbe(p), RustProbe(p));
  }

  /** With only JavaScript manifests present, the merge is the JavaScript probe. */
  lemma ResolveOnlyJs(p: Project)
    requires !HasPythonMarker(p) && !Exists(p.goMod) && !Exists(p.gemfile) && !Exists(p.cargoToml)
    ensures Resolve(p) == JsProbe(p)
  {
    ResolveSteps(p);
  }

  /** With only Python manifests present, the merge is the Python probe. */
  lemma ResolveOnlyPython(p: Project)
    requires p.packageJson.None? && !Exists(p.goMod) && !Exists(p.gemfile) && !Exists(p.cargoToml)
    ensures Resolve(p) == PythonProbe(p)
  {
    ResolveSteps(p);
  }

  // ---------------------------------------------------------------------------
  // describeStack
  // ---------------------------------------------------------------------------

  /** `map[tag] || tag`: the display name, or the tag itself when unmapped
      (every display name below is non-empty). */
  function DisplayName(names: map<string, string>, tag: string): string {
    if tag in names then names[tag] else tag
  }

  const LanguageNames := map["typescript" := "TypeScript", "javascript" := "JavaScript", "python" := "Python",
                             "go" := "Go", "ruby" := "Ruby", "rust" := "Rust"]
  const FrontendNames := map["nextjs" := "Next.js", "react" := "React", "vue" := "Vue.js", "angular" := "Angular",
                             "svelte" := "Svelte", "nuxt" := "Nuxt"]
  const BackendNames := map["express" := "Express.js", "nestjs" := "NestJS", "fastify" := "Fastify",
                            "django" := "Django", "fastapi" := "FastAPI", "flask" := "Flask",
                            "rails" := "Ruby on Rails", "gin" := "Gin", "actix" := "Actix Web"]
  const DatabaseNames := map["supabase" := "Supabase", "postgresql" := "PostgreSQL", "mongodb" := "MongoDB",
                             "mysql" := "MySQL", "sqlite" := "SQLite", "firebase" := "Firebase"]
  const UiNames := map["shadcn" := "shadcn/ui", "tailwind" := "Tailwind CSS", "chakra" := "Chakra UI",
                       "mui" := "Material UI", "bootstrap" := "Bootstrap"]
  const TestingNames := map["jest" := "Jest", "vitest" := "Vitest", "pytest" := "pytest", "rspec" := "RSpec",
                            "go-test" := "Go testing", "cargo-test" := "Cargo test"]

  /** One optional entry of the description. */
  function Describe(names: map<string, string>, tag: Option<string>): (r: seq<string>)
    ensures tag.None? ==> r == []
    ensures tag.Some? ==> r == [DisplayName(names, tag.value)]
  {
    if tag.Some? then [DisplayName(names, tag.value)] else []
  }

  /** The backend as `describeStack` shows it: not when it equals the frontend. */
  function ShownBackend(d: Detection): (r: Option<string>)
    ensures r.Some? <==> d.backend.Some? && d.backend != d.frontend
    ensures r.Some? ==> r == d.backend
  {
    if d.backend != d.frontend then d.backend else None
  }

  /** One entry for a set field, none for a null one. */
  function Present(tag: Option<string>): nat {
    if tag.Some? then 1 else 0
  }

  /** The six display-name tables of `describeStack`, one per field. */
  datatype NameTables = NameTables(language: map<string, string>, frontend: map<string, string>,
                                   backend: map<string, string>, database: map<string, string>,
                                   ui: map<string, string>, testing: map<string, string>)

  const DisplayTables := NameTables(LanguageNames, FrontendNames, BackendNames, DatabaseNames, UiNames, TestingNames)

  /** The description built from any tables. */
  function DescribeWith(d: Detection, n: NameTables): (r: seq<string>)
    ensures r == [] <==> d == Empty
    ensures |r| <= 6
  {
    Describe(n.language, d.language)
    + Describe(n.frontend, d.frontend)
    + Describe(n.backend, ShownBackend(d))
    + Describe(n.database, d.database)
    + Describe(n.ui, d.ui)
    + Describe(n.testing, d.testing)
  }

  /** `describeStack`: display names in the order language, frontend, backend
      (skipped when equal to the frontend), database, ui, testing. The list is
      empty exactly when nothing was detected. */
  function DescribeStack(d: Detection): (r: seq<string>)
    ensures r == [] <==> d == Empty
    ensures |r| <= 6
  {
    DescribeWith(d, DisplayTables)
  }

  /** A piece holds one entry exactly when its field is set. */
  lemma DescribePiece(names: map<string, string>, tag: Option<string>)
    ensures |Describe(names, tag)| == Present(tag)
    ensures tag.Some? ==> Describe(names, tag)[0] == DisplayName(names, tag.value)
  {
  }

  /** Positions in a concatenation of six pieces of at most one entry. */
  lemma SixPieces(p0: seq<string>, p1: seq<string>, p2: seq<string>, p3: seq<string>, p4: seq<string>, p5: seq<string>)
    requires |p0| <= 1 && |p1| <= 1 && |p2| <= 1 && |p3| <= 1 && |p4| <= 1 && |p5| <= 1
    ensures var r := p0 + p1 + p2 + p3 + p4 + p5;
      var i1 := |p0|;
      var i2 := i1 + |p1|;
      var i3 := i2 + |p2|;
      var i4 := i3 + |p3|;
      var i5 := i4 + |p4|;
      && |r| == i5 + |p5|
      && (|p0| == 1 ==> r[0] == p0[0])
      && (|p1| == 1 ==> r[i1] == p1[0])
      && (|p2| == 1 ==> r[i2] == p2[0])
      && (|p3| == 1 ==> r[i3] == p3[0])
      && (|p4| == 1 ==> r[i4] == p4[0])
      && (|p5| == 1 ==> r[i5] == p5[0])
  {
  }

  /** The description holds one entry per set field, in the order language,
      frontend, backend, database, ui, testing, each at the position the set
      fields before it leave; a backend equal to the frontend takes no entry,
      so the frontend is not repeated. */
  lemma DescribeWithLayout(d: Detection, n: NameTables)
    ensures var r := DescribeWith(d, n);
      var fe := Present(d.language);
      var be := fe + Present(d.frontend);
      var db := be + Present(ShownBackend(d));
      var ui := db + Present(d.database);
      var ts := ui + Present(d.ui);
      && |r| == ts + Present(d.testing)
      && (d.language.Some? ==> r[0] == DisplayName(n.language, d.language.value))
      && (d.frontend.Some? ==> r[fe] == DisplayName(n.frontend, d.frontend.value))
      && (ShownBackend(d).Some? ==> r[be] == DisplayName(n.backend, d.backend.value))
      && (d.database.Some? ==> r[db] == DisplayName(n.database, d.database.value))
      && (d.ui.Some? ==> r[ui] == DisplayName(n.ui, d.ui.value))
      && (d.testing.Some? ==> r[ts] == DisplayName(n.testing, d.testing.value))
  {
    var p0, p1, p2 := Describe(n.language, d.language), Describe(n.frontend, d.frontend), Describe(n.backend, ShownBackend(d));
    var p3, p4, p5 := Describe(n.database, d.database), Describe(n.ui, d.ui), Describe(n.testing, d.testing);
    assert DescribeWith(d, n) == p0 + p1 + p2 + p3 + p4 + p5;
    DescribePiece(n.language, d.language);
    DescribePiece(n.frontend, d.frontend);
    DescribePiece(n.backend, ShownBackend(d));
    DescribePiece(n.database, d.database);
    DescribePiece(n.ui, d.ui);
    DescribePiece(n.testing, d.testing);
    SixPieces(p0, p1, p2, p3, p4, p5);
  }

  /** `describeStack` with its own tables: each set field is named at its
      position, and a backend equal to the frontend adds no entry. */
  lemma DescribeStackMentions(d: Detection)
    ensures var r := DescribeStack(d);
      var fe := Present(d.language);
      var be := fe + Present(d.frontend);
      var db := be + Present(ShownBackend(d));
      var ui := db + Present(d.database);
      var ts := ui + Present(d.ui);
      && |r| == ts + Present(d.testing)
      && (d.language.Some? ==> r[0] == DisplayName(LanguageNames, d.language.value))
      && (d.frontend.Some? ==> r[fe] == DisplayName(FrontendNames, d.frontend.value))
      && (ShownBackend(d).Some? ==> r[be] == DisplayName(BackendNames, d.backend.value))
      && (d.database.Some? ==> r[db] == DisplayName(DatabaseNames, d.database.value))
      && (d.ui.Some? ==> r[ui] == DisplayName(UiNames, d.ui.value))
      && (d.testing.Some? ==> r[ts] == DisplayName(TestingNames, d.testing.value))
    ensures d.backend == d.frontend ==>
      |DescribeStack(d)| == Present(d.language) + Present(d.frontend) + Present(d.database) + Present(d.ui) + Present(d.testing)
  {
    DescribeWithLayout(d, DisplayTables);
  }

  // ---------------------------------------------------------------------------
  // Scenarios from the test suite
  // ---------------------------------------------------------------------------

  /** A project directory holding only the given `package.json` and Python
      requirements. */
  function OnlyManifests(pkg: Option<PackageJson>, requirements: FileState): Project {
    Project(pkg, false, false, requirements, Absent, false, false, Absent, Absent, Absent)
  }

  /** Next.js, React and Supabase dependencies with TypeScript as a dev
      dependency are the `nextjs-supabase` template. */
  lemma NextSupabaseScenario(pkg: PackageJson, p: Project)
    requires pkg == PackageJson(
      Some(map["next" := JString("^14.0.0"), "react" := JString("^18.0.0"),
               "@supabase/supabase-js" := JString("^2.0.0")]),
      Some(map["typescript" := JString("^5.0.0")]), None)
    requires p == OnlyManifests(Some(pkg), Absent)
    ensures Resolve(p).language == Some("typescript") && Resolve(p).frontend == Some("nextjs")
    ensures Resolve(p).database == Some("supabase")
    ensures MapToStackTemplate(Resolve(p)) == Some("nextjs-supabase")
  {
    ResolveOnlyJs(p);
    assert SectionHas(pkg.devDependencies, "typescript");
    assert SectionHas(pkg.dependencies, "next");
    assert SectionHas(pkg.dependencies, "@supabase/supabase-js");
    assert JsFrontend(pkg) == Some("nextjs");
    assert JsDatabase(pkg) == Some("supabase");
  }

  /** The React, Express and `pg` package of the test suite. */
  const ReactExpressPg := PackageJson(
    Some(map["react" := JString("^18.0.0"), "express" := JString("^4.0.0"), "pg" := JString("^8.0.0")]),
    None, None)

  lemma ReactExpressPgFields()
    ensures JsFrontend(ReactExpressPg) == Some("react")
    ensures JsBackend(ReactExpressPg, Some("react")) == Some("express")
    ensures JsDatabase(ReactExpressPg) == Some("postgresql")
  {
    var pkg := ReactExpressPg;
    assert SectionHas(pkg.dependencies, "react");
    assert SectionHas(pkg.dependencies, "express");
    assert SectionHas(pkg.dependencies, "pg");
    assert !Has(pkg, "next") && !Has(pkg, "nuxt") && !Has(pkg, "vue");
    assert !Has(pkg, "@supabase/supabase-js") && !Has(pkg, "firebase") && !Has(pkg, "firebase-admin");
    assert !Has(pkg, "mongodb") && !Has(pkg, "mongoose");
  }

  /** React, Express and `pg` dependencies give React, Express and PostgreSQL. */
  lemma ReactExpressPgScenario(p: Project)
    requires p == OnlyManifests(Some(ReactExpressPg), Absent)
    ensures Resolve(p).frontend == Some("react") && Resolve(p).backend == Some("express")
    ensures Resolve(p).database == Some("postgresql")
  {
    ResolveOnlyJs(p);
    ReactExpressPgFields();
  }

  /** The Vue, Express and Mongoose package of the test suite. */
  const VueMongo := PackageJson(
    Some(map["vue" := JString("^3.0.0"), "express" := JString("^4.0.0"), "mongoose" := JString("^8.0.0")]),
    None, None)

  lemma VueMongoFields()
    ensures JsFrontend(VueMongo) == Some("vue")
    ensures JsBackend(VueMongo, Some("vue")) == Some("express")
    ensures JsDatabase(VueMongo) == Some("mongodb")
  {
    var pkg := VueMongo;
    assert SectionHas(pkg.dependencies, "vue");
    assert SectionHas(pkg.dependencies, "express");
    assert SectionHas(pkg.dependencies, "mongoose");
    assert !Has(pkg, "next") && !Has(pkg, "nuxt");
    assert !Has(pkg, "@supabase/supabase-js") && !Has(pkg, "firebase") && !Has(pkg, "firebase-admin");
  }

  /** Vue, Express and Mongoose dependencies give Vue, Express and MongoDB. */
  lemma VueMongoScenario(p: Project)
    requires p == OnlyManifests(Some(VueMongo), Absent)
    ensures Resolve(p).frontend == Some("vue") && Resolve(p).backend == Some("express")
    ensures Resolve(p).database == Some("mongodb")
  {
    ResolveOnlyJs(p);
    VueMongoFields();
  }

  /** The lower-cased Python text of the Django scenario (the requirements,
      a newline, and the missing `pyproject.toml` read as empty). */
  const DjangoRequirements := "django>=5.0\npsycopg2>=2.9\n"

  lemma DjangoTextFound(text: string)
    requires text == DjangoRequirements + "\n"
    ensures Includes(text, "django") && Includes(text, "psycopg")
  {
    IncludedAt(text, "django", 0);
    assert text[12..19] == "psycopg";
    IncludedAt(text, "psycopg", 12);
  }

  /** The Django text has no `u`, so no `supabase`. */
  lemma DjangoTextMissing(text: string)
    requires text == DjangoRequirements + "\n"
    ensures !Includes(text, "supabase")
  {
    assert 'u' !in text;
    NotIncluded(text, "supabase", 1);
  }

  /** The Python text of a project whose only manifest is `requirements.txt`. */
  lemma PythonTextOfRequirements(p: Project, requirements: string)
    requires p == OnlyManifests(None, Contents(requirements))
    ensures PythonText(p) == Lower(requirements + "\n")
  {
    assert requirements + "\n" + "" == requirements + "\n";
  }

  /** The Django text has no `t`, so neither `pytest` nor `unittest`. */
  lemma DjangoTextNoTests(text: string)
    requires text == DjangoRequirements + "\n"
    ensures !Includes(text, "pytest") && !Includes(text, "unittest")
  {
    assert 't' !in text;
    NotIncluded(text, "pytest", 2);
    NotIncluded(text, "unittest", 2);
  }

  lemma DjangoText(text: string)
    requires text == Lower(DjangoRequirements + "\n")
    ensures PythonBackend(text) == Some("django") && PythonDatabase(text) == Some("postgresql")
    ensures PythonTesting(text).None?
  {
    LowerOfLower(DjangoRequirements + "\n");
    DjangoTextFound(text);
    DjangoTextMissing(text);
    DjangoTextNoTests(text);
  }

  /** A requirements file naming Django and psycopg2 is detected as Python,
      Django and PostgreSQL ... */
  lemma DjangoDetection(p: Project)
    requires p == OnlyManifests(None, Contents(DjangoRequirements))
    ensures Resolve(p) == Detection(Some("python"), None, Some("django"), Some("postgresql"), None, None)
  {
    ResolveOnlyPython(p);
    PythonTextOfRequirements(p, DjangoRequirements);
    DjangoText(PythonText(p));
  }

  /** ... and so as the Django template. */
  lemma DjangoScenario(p: Project)
    requires p == OnlyManifests(None, Contents(DjangoRequirements))
    ensures Resolve(p).language == Some("python") && Resolve(p).backend == Some("django")
    ensures MapToStackTemplate(Resolve(p)) == Some("python-django-postgres")
  {
    DjangoDetection(p);
  }

  const FastApiRequirements := "fastapi>=0.100.0\nasyncpg>=0.27.0\n"

  lemma FastApiTextFound(text: string)
    requires text == FastApiRequirements + "\n"
    ensures Includes(text, "fastapi") && Includes(text, "asyncpg")
  {
    IncludedAt(text, "fastapi", 0);
    assert text[17..24] == "asyncpg";
    IncludedAt(text, "asyncpg", 17);
  }

  /** The FastAPI text has no `j`, so no `django`. */
  lemma FastApiTextNoDjango(text: string)
    requires text == FastApiRequirements + "\n"
    ensures !Includes(text, "django")
  {
    assert 'j' !in text;
    NotIncluded(text, "django", 1);
  }

  /** The FastAPI text has no `u`, so no `supabase`. */
  lemma FastApiTextNoSupabase(text: string)
    requires text == FastApiRequirements + "\n"
    ensures !Includes(text, "supabase")
  {
    assert 'u' !in text;
    NotIncluded(text, "supabase", 1);
  }

  /** The FastAPI text has no `o`, so no `psycopg`. */
  lemma FastApiTextNoPsycopg(text: string)
    requires text == FastApiRequirements + "\n"
    ensures !Includes(text, "psycopg")
  {
    assert 'o' !in text;
    NotIncluded(text, "psycopg", 4);
  }

  lemma FastApiText(text: string)
    requires text == Lower(FastApiRequirements + "\n")
    ensures PythonBackend(text) == Some("fastapi") && PythonDatabase(text) == Some("postgresql")
  {
    LowerOfLower(FastApiRequirements + "\n");
    FastApiTextFound(text);
    FastApiTextNoDjango(text);
    FastApiTextNoSupabase(text);
    FastApiTextNoPsycopg(text);
  }

  /** A requirements file naming FastAPI and asyncpg is FastAPI over PostgreSQL. */
  lemma FastApiScenario(p: Project)
    requires p == OnlyManifests(None, Contents(FastApiRequirements))
    ensures Resolve(p).language == Some("python") && Resolve(p).backend == Some("fastapi")
    ensures Resolve(p).database == Some("postgresql")
  {
    ResolveOnlyPython(p);
    PythonTextOfRequirements(p, FastApiRequirements);
    FastApiText(PythonText(p));
  }

  /** An empty directory, or one whose `package.json` does not parse, detects
      nothing and maps to no template. */
  lemma NothingDetectedScenario(p: Project)
    requires p == OnlyManifests(None, Absent)
    ensures Resolve(p) == Empty
    ensures MapToStackTemplate(Resolve(p)).None?
  {
    ResolveSteps(p);
  }

  /** Next.js and Supabase dependencies, with TypeScript and Jest as dev
      dependencies. */
  const NextJestPackage := PackageJson(
    Some(map["next" := JString("^14.0.0"), "@supabase/supabase-js" := JString("^2.0.0")]),
    Some(map["typescript" := JString("^5.0.0"), "jest" := JString("^29.0.0")]), None)

  lemma NextJestFrontend()
    ensures JsFrontend(NextJestPackage) == Some("nextjs")
    ensures JsBackend(NextJestPackage, Some("nextjs")) == Some("nextjs")
  {
    assert Has(NextJestPackage, "next");
  }

  lemma NextJestDatabase()
    ensures JsDatabase(NextJestPackage) == Some("supabase")
  {
    assert Has(NextJestPackage, "@supabase/supabase-js");
  }

  lemma NextJestTesting()
    ensures JsLanguage(NextJestPackage, false) == "typescript"
    ensures JsTesting(NextJestPackage) == Some("jest")
  {
    assert Has(NextJestPackage, "typescript");
    assert Has(NextJestPackage, "jest");
  }

  lemma NextJestUi()
    ensures JsUi(NextJestPackage, false).None?
  {
  }

  /** The project holding only that `package.json` is detected as TypeScript,
      Next.js (as both frontend and backend), Supabase and Jest ... */
  lemma NextJestDetection(p: Project)
    requires p == OnlyManifests(Some(NextJestPackage), Absent)
    ensures Resolve(p) == Detection(Some("typescript"), Some("nextjs"), Some("nextjs"), Some("supabase"), Some("jest"), None)
  {
    ResolveOnlyJs(p);
    NextJestFrontend();
    NextJestDatabase();
    NextJestTesting();
    NextJestUi();
  }

  lemma DescribeNextJest(d: Detection)
    requires d == Detection(Some("typescript"), Some("nextjs"), Some("nextjs"), Some("supabase"), Some("jest"), None)
    ensures DescribeStack(d) == ["TypeScript", "Next.js", "Supabase", "Jest"]
  {
    assert DisplayName(LanguageNames, "typescript") == "TypeScript";
    assert DisplayName(FrontendNames, "nextjs") == "Next.js";
    assert DisplayName(DatabaseNames, "supabase") == "Supabase";
    assert DisplayName(TestingNames, "jest") == "Jest";
  }

  /** ... and described as TypeScript, Next.js, Supabase and Jest (the backend
      is not repeated because it equals the frontend). */
  lemma DescribeScenario(p: Project)
    requires p == OnlyManifests(Some(NextJestPackage), Absent)
    ensures DescribeStack(Resolve(p)) == ["TypeScript", "Next.js", "Supabase", "Jest"]
  {
    NextJestDetection(p);
    DescribeNextJest(Resolve(p));
  }
}
