/** The detection chains of `lib/detect-stack.js` read as ordered rule tables.
    Every if/else-if chain of the probes, and `mapToStackTemplate`, sets the
    tag of its first branch whose test holds; here each chain is written out
    as a table of (markers, tag) rows, proved equal to the transcribed chain,
    and first-match precedence is proved once for all tables. */
module DetectTables {
  import opened Wrappers
  import opened Text
  import opened DetectStack

  // ---------------------------------------------------------------------------
  // First match wins
  // ---------------------------------------------------------------------------

  /** The tag of the first rule that fires, or null when none does. */
  function FirstWins<R>(rules: seq<R>, fires: R -> bool, tag: R -> string): Option<string>
    decreases |rules|
  {
    if rules == [] then None
    else if fires(rules[0]) then Some(tag(rules[0]))
    else FirstWins(rules[1..], fires, tag)
  }

  /** Rule `i` wins exactly when it fires and no earlier rule does, provided
      no two rules share a tag. */
  lemma {:induction false} FirstWinsAt<R>(rules: seq<R>, fires: R -> bool, tag: R -> string, i: int)
    requires 0 <= i < |rules|
    requires forall j, k :: 0 <= j < k < |rules| ==> tag(rules[j]) != tag(rules[k])
    ensures FirstWins(rules, fires, tag) == Some(tag(rules[i])) <==>
              fires(rules[i]) && forall j :: 0 <= j < i ==> !fires(rules[j])
    decreases i
  {
    var tail := rules[1..];
    assert forall j :: 0 <= j < |tail| ==> tail[j] == rules[j + 1];
    if fires(rules[0]) {
      if i > 0 {
        assert tag(rules[0]) != tag(rules[i]);
      }
    } else if i == 0 {
      if FirstWins(tail, fires, tag).Some? {
        var k := FirstWinsRow(tail, fires, tag);
        assert tag(rules[0]) != tag(rules[k + 1]);
      }
    } else {
      FirstWinsAt(tail, fires, tag, i - 1);
      assert (forall j :: 0 <= j < i ==> !fires(rules[j])) <==> (forall j :: 0 <= j < i - 1 ==> !fires(tail[j]));
    }
  }

  /** What is set is the tag of a row that fires. */
  lemma {:induction false} FirstWinsRow<R>(rules: seq<R>, fires: R -> bool, tag: R -> string) returns (k: int)
    requires FirstWins(rules, fires, tag).Some?
    ensures 0 <= k < |rules| && fires(rules[k]) && FirstWins(rules, fires, tag) == Some(tag(rules[k]))
    decreases |rules|
  {
    if fires(rules[0]) {
      k := 0;
    } else {
      var j := FirstWinsRow(rules[1..], fires, tag);
      k := j + 1;
    }
  }

  /** Nothing is set exactly when no rule fires. */
  lemma {:induction false} FirstWinsNone<R>(rules: seq<R>, fires: R -> bool, tag: R -> string)
    ensures FirstWins(rules, fires, tag).None? <==> forall i :: 0 <= i < |rules| ==> !fires(rules[i])
    decreases |rules|
  {
    if rules != [] && !fires(rules[0]) {
      var tail := rules[1..];
      FirstWinsNone(tail, fires, tag);
      assert forall j :: 0 <= j < |tail| ==> tail[j] == rules[j + 1];
      assert forall j :: 1 <= j < |rules| ==> rules[j] == tail[j - 1];
    }
  }

  /** One step of the reading, from row `n` on. */
  lemma FirstWinsFrom<R>(rules: seq<R>, fires: R -> bool, tag: R -> string, n: int)
    requires 0 <= n < |rules|
    ensures FirstWins(rules[n..], fires, tag) ==
              if fires(rules[n]) then Some(tag(rules[n])) else FirstWins(rules[n + 1..], fires, tag)
  {
    assert rules[n..][0] == rules[n];
    assert rules[n..][1..] == rules[n + 1..];
  }

  // ---------------------------------------------------------------------------
  // Marker tables: a row sets its tag when any of its markers is found
  // ---------------------------------------------------------------------------

  datatype MarkerRule = MarkerRule(markers: seq<string>, tag: string)

  predicate DistinctTags(rules: seq<MarkerRule>) {
    forall j, k :: 0 <= j < k < |rules| ==> rules[j].tag != rules[k].tag
  }

  /** A row fires on a package when one of its markers is a dependency. */
  predicate Found(pkg: PackageJson, rule: MarkerRule) {
    HasAny(pkg, rule.markers)
  }

  /** A row fires on a manifest text when one of its markers occurs in it. */
  predicate Occurs(text: string, rule: MarkerRule) {
    IncludesAny(text, rule.markers)
  }

  function PackageChain(rules: seq<MarkerRule>, pkg: PackageJson): Option<string> {
    FirstWins(rules, (r: MarkerRule) => Found(pkg, r), (r: MarkerRule) => r.tag)
  }

  function TextChain(rules: seq<MarkerRule>, text: string): Option<string> {
    FirstWins(rules, (r: MarkerRule) => Occurs(text, r), (r: MarkerRule) => r.tag)
  }

  /** Row `i` is the first row that fires on the package. */
  predicate FirstFoundAt(pkg: PackageJson, rules: seq<MarkerRule>, i: int)
    requires 0 <= i < |rules|
  {
    Found(pkg, rules[i]) && forall j :: 0 <= j < i ==> !Found(pkg, rules[j])
  }

  /** Row `i` is the first row that fires on the text. */
  predicate FirstOccursAt(text: string, rules: seq<MarkerRule>, i: int)
    requires 0 <= i < |rules|
  {
    Occurs(text, rules[i]) && forall j :: 0 <= j < i ==> !Occurs(text, rules[j])
  }

  /** A package chain with distinct tags sets row `i`'s tag exactly when row
      `i` is the first to fire, and nothing exactly when no row fires. */
  lemma PackageChainAt(rules: seq<MarkerRule>, pkg: PackageJson, i: int)
    requires 0 <= i < |rules| && DistinctTags(rules)
    ensures PackageChain(rules, pkg) == Some(rules[i].tag) <==> FirstFoundAt(pkg, rules, i)
    ensures PackageChain(rules, pkg).None? <==> forall j :: 0 <= j < |rules| ==> !Found(pkg, rules[j])
  {
    var fires, tag := (r: MarkerRule) => Found(pkg, r), (r: MarkerRule) => r.tag;
    FirstWinsAt(rules, fires, tag, i);
    FirstWinsNone(rules, fires, tag);
  }

  /** The same for a text chain. */
  lemma TextChainAt(rules: seq<MarkerRule>, text: string, i: int)
    requires 0 <= i < |rules| && DistinctTags(rules)
    ensures TextChain(rules, text) == Some(rules[i].tag) <==> FirstOccursAt(text, rules, i)
    ensures TextChain(rules, text).None? <==> forall j :: 0 <= j < |rules| ==> !Occurs(text, rules[j])
  {
    var fires, tag := (r: MarkerRule) => Occurs(text, r), (r: MarkerRule) => r.tag;
    FirstWinsAt(rules, fires, tag, i);
    FirstWinsNone(rules, fires, tag);
  }

  /** `HasAny` and `IncludesAny` over short marker lists. */
  lemma FoundOne(pkg: PackageJson, a: string)
    ensures HasAny(pkg, [a]) == Has(pkg, a)
  {
    if Has(pkg, a) { assert [a][0] == a; }
  }

  lemma FoundTwo(pkg: PackageJson, a: string, b: string)
    ensures HasAny(pkg, [a, b]) == (Has(pkg, a) || Has(pkg, b))
  {
    var m := [a, b];
    assert m[0] == a && m[1] == b;
  }

  lemma FoundThree(pkg: PackageJson, a: string, b: string, c: string)
    ensures HasAny(pkg, [a, b, c]) == (Has(pkg, a) || Has(pkg, b) || Has(pkg, c))
  {
    var m := [a, b, c];
    assert m[0] == a && m[1] == b && m[2] == c;
  }

  lemma OccursOne(text: string, a: string)
    ensures IncludesAny(text, [a]) == Includes(text, a)
  {
    if Includes(text, a) { assert [a][0] == a; }
  }

  lemma OccursTwo(text: string, a: string, b: string)
    ensures IncludesAny(text, [a, b]) == (Includes(text, a) || Includes(text, b))
  {
    var m := [a, b];
    assert m[0] == a && m[1] == b;
  }

  lemma OccursThree(text: string, a: string, b: string, c: string)
    ensures IncludesAny(text, [a, b, c]) == (Includes(text, a) || Includes(text, b) || Includes(text, c))
  {
    var m := [a, b, c];
    assert m[0] == a && m[1] == b && m[2] == c;
  }

  // ---------------------------------------------------------------------------
  // The probes' chains
  // ---------------------------------------------------------------------------

  const JsFrontendRules := [
    MarkerRule(["next"], "nextjs"),
    MarkerRule(["nuxt"], "nuxt"),
    MarkerRule(["vue"], "vue"),
    MarkerRule(["react"], "react"),
    MarkerRule(["@angular/core"], "angular"),
    MarkerRule(["svelte"], "svelte")]

  lemma JsFrontendTable(pkg: PackageJson)
    ensures JsFrontend(pkg) == PackageChain(JsFrontendRules, pkg)
  {
    var R, fires, tag := JsFrontendRules, (r: MarkerRule) => Found(pkg, r), (r: MarkerRule) => r.tag;
    FoundOne(pkg, "next");
    FoundOne(pkg, "nuxt");
    FoundOne(pkg, "vue");
    FoundOne(pkg, "react");
    FoundOne(pkg, "@angular/core");
    FoundOne(pkg, "svelte");
    FirstWinsFrom(R, fires, tag, 5);
    FirstWinsFrom(R, fires, tag, 4);
    FirstWinsFrom(R, fires, tag, 3);
    FirstWinsFrom(R, fires, tag, 2);
    FirstWinsFrom(R, fires, tag, 1);
    FirstWinsFrom(R, fires, tag, 0);
    assert R[6..] == [] && R[0..] == R;
  }

  /** The frontend: the first of `next`, `nuxt`, `vue`, `react`, `@angular/core`
      and `svelte` that is a dependency, so `next` with `react` is Next.js. */
  lemma JsFrontendChain(pkg: PackageJson, i: int)
    requires 0 <= i < |JsFrontendRules|
    ensures JsFrontend(pkg) == PackageChain(JsFrontendRules, pkg)
    ensures PackageChain(JsFrontendRules, pkg) == Some(JsFrontendRules[i].tag) <==> FirstFoundAt(pkg, JsFrontendRules, i)
    ensures PackageChain(JsFrontendRules, pkg).None? <==> forall j :: 0 <= j < |JsFrontendRules| ==> !Found(pkg, JsFrontendRules[j])
  {
    JsFrontendTable(pkg);
    PackageChainAt(JsFrontendRules, pkg, i);
  }

  const JsBackendRules := [
    MarkerRule(["express"], "express"),
    MarkerRule(["@nestjs/core"], "nestjs"),
    MarkerRule(["fastify"], "fastify"),
    MarkerRule(["koa"], "koa"),
    MarkerRule(["hono"], "hono")]

  lemma JsBackendTable(pkg: PackageJson, frontend: Option<string>)
    ensures JsBackend(pkg, frontend) == if frontend == Some("nextjs") && PackageChain(JsBackendRules, pkg).None? then Some("nextjs") else PackageChain(JsBackendRules, pkg)
  {
    var R, fires, tag := JsBackendRules, (r: MarkerRule) => Found(pkg, r), (r: MarkerRule) => r.tag;
    FoundOne(pkg, "express");
    FoundOne(pkg, "@nestjs/core");
    FoundOne(pkg, "fastify");
    FoundOne(pkg, "koa");
    FoundOne(pkg, "hono");
    FirstWinsFrom(R, fires, tag, 4);
    FirstWinsFrom(R, fires, tag, 3);
    FirstWinsFrom(R, fires, tag, 2);
    FirstWinsFrom(R, fires, tag, 1);
    FirstWinsFrom(R, fires, tag, 0);
    assert R[5..] == [] && R[0..] == R;
  }

  /** The backend: the first backend package found, else `nextjs` for a Next.js
      frontend. */
  lemma JsBackendChain(pkg: PackageJson, frontend: Option<string>, i: int)
    requires 0 <= i < |JsBackendRules|
    ensures JsBackend(pkg, frontend) == if frontend == Some("nextjs") && PackageChain(JsBackendRules, pkg).None? then Some("nextjs") else PackageChain(JsBackendRules, pkg)
    ensures PackageChain(JsBackendRules, pkg) == Some(JsBackendRules[i].tag) <==> FirstFoundAt(pkg, JsBackendRules, i)
    ensures PackageChain(JsBackendRules, pkg).None? <==> forall j :: 0 <= j < |JsBackendRules| ==> !Found(pkg, JsBackendRules[j])
  {
    JsBackendTable(pkg, frontend);
    PackageChainAt(JsBackendRules, pkg, i);
  }

  const JsDatabaseRules := [
    MarkerRule(["@supabase/supabase-js"], "supabase"),
    MarkerRule(["firebase", "firebase-admin"], "firebase"),
    MarkerRule(["mongodb", "mongoose"], "mongodb"),
    MarkerRule(["pg", "postgres", "@prisma/client"], "postgresql"),
    MarkerRule(["mysql", "mysql2"], "mysql"),
    MarkerRule(["better-sqlite3", "sqlite3"], "sqlite")]

  lemma JsDatabaseTable(pkg: PackageJson)
    ensures JsDatabase(pkg) == if (Has(pkg, "prisma") || Has(pkg, "@prisma/client")) && PackageChain(JsDatabaseRules, pkg).None? then Some("postgresql") else PackageChain(JsDatabaseRules, pkg)
  {
    var R, fires, tag := JsDatabaseRules, (r: MarkerRule) => Found(pkg, r), (r: MarkerRule) => r.tag;
    FoundOne(pkg, "@supabase/supabase-js");
    FoundTwo(pkg, "firebase", "firebase-admin");
    FoundTwo(pkg, "mongodb", "mongoose");
    FoundThree(pkg, "pg", "postgres", "@prisma/client");
    FoundTwo(pkg, "mysql", "mysql2");
    FoundTwo(pkg, "better-sqlite3", "sqlite3");
    FirstWinsFrom(R, fires, tag, 5);
    FirstWinsFrom(R, fires, tag, 4);
    FirstWinsFrom(R, fires, tag, 3);
    FirstWinsFrom(R, fires, tag, 2);
    FirstWinsFrom(R, fires, tag, 1);
    FirstWinsFrom(R, fires, tag, 0);
    assert R[6..] == [] && R[0..] == R;
  }

  /** The database: the first row with a package found, else `postgresql` for
      Prisma. */
  lemma JsDatabaseChain(pkg: PackageJson, i: int)
    requires 0 <= i < |JsDatabaseRules|
    ensures JsDatabase(pkg) == if (Has(pkg, "prisma") || Has(pkg, "@prisma/client")) && PackageChain(JsDatabaseRules, pkg).None? then Some("postgresql") else PackageChain(JsDatabaseRules, pkg)
    ensures PackageChain(JsDatabaseRules, pkg) == Some(JsDatabaseRules[i].tag) <==> FirstFoundAt(pkg, JsDatabaseRules, i)
    ensures PackageChain(JsDatabaseRules, pkg).None? <==> forall j :: 0 <= j < |JsDatabaseRules| ==> !Found(pkg, JsDatabaseRules[j])
  {
    JsDatabaseTable(pkg);
    PackageChainAt(JsDatabaseRules, pkg, i);
  }

  const JsTestingRules := [
    MarkerRule(["vitest"], "vitest"),
    MarkerRule(["jest"], "jest"),
    MarkerRule(["mocha"], "mocha"),
    MarkerRule(["@playwright/test"], "playwright"),
    MarkerRule(["cypress"], "cypress")]

  lemma JsTestingTable(pkg: PackageJson)
    ensures JsTesting(pkg) == PackageChain(JsTestingRules, pkg)
  {
    var R, fires, tag := JsTestingRules, (r: MarkerRule) => Found(pkg, r), (r: MarkerRule) => r.tag;
    FoundOne(pkg, "vitest");
    FoundOne(pkg, "jest");
    FoundOne(pkg, "mocha");
    FoundOne(pkg, "@playwright/test");
    FoundOne(pkg, "cypress");
    FirstWinsFrom(R, fires, tag, 4);
    FirstWinsFrom(R, fires, tag, 3);
    FirstWinsFrom(R, fires, tag, 2);
    FirstWinsFrom(R, fires, tag, 1);
    FirstWinsFrom(R, fires, tag, 0);
    assert R[5..] == [] && R[0..] == R;
  }

  /** The test framework: the first of `vitest`, `jest`, `mocha`,
      `@playwright/test` and `cypress` found. */
  lemma JsTestingChain(pkg: PackageJson, i: int)
    requires 0 <= i < |JsTestingRules|
    ensures JsTesting(pkg) == PackageChain(JsTestingRules, pkg)
    ensures PackageChain(JsTestingRules, pkg) == Some(JsTestingRules[i].tag) <==> FirstFoundAt(pkg, JsTestingRules, i)
    ensures PackageChain(JsTestingRules, pkg).None? <==> forall j :: 0 <= j < |JsTestingRules| ==> !Found(pkg, JsTestingRules[j])
  {
    JsTestingTable(pkg);
    PackageChainAt(JsTestingRules, pkg, i);
  }

  const JsUiRules := [
    MarkerRule(["@radix-ui/react-slot"], "shadcn"),
    MarkerRule(["@chakra-ui/react"], "chakra"),
    MarkerRule(["@mui/material"], "mui"),
    MarkerRule(["bootstrap", "react-bootstrap"], "bootstrap")]

  lemma JsUiTable(pkg: PackageJson, componentsJson: bool)
    ensures JsUi(pkg, componentsJson) == if componentsJson then Some("shadcn") else if PackageChain(JsUiRules, pkg).Some? then PackageChain(JsUiRules, pkg) else if Has(pkg, "tailwindcss") then Some("tailwind") else None
  {
    var R, fires, tag := JsUiRules, (r: MarkerRule) => Found(pkg, r), (r: MarkerRule) => r.tag;
    FoundOne(pkg, "@radix-ui/react-slot");
    FoundOne(pkg, "@chakra-ui/react");
    FoundOne(pkg, "@mui/material");
    FoundTwo(pkg, "bootstrap", "react-bootstrap");
    FirstWinsFrom(R, fires, tag, 3);
    FirstWinsFrom(R, fires, tag, 2);
    FirstWinsFrom(R, fires, tag, 1);
    FirstWinsFrom(R, fires, tag, 0);
    assert R[4..] == [] && R[0..] == R;
  }

  /** The ui library: `shadcn` with a `components.json`, else the first row
      with a package found, else `tailwind` for `tailwindcss`. */
  lemma JsUiChain(pkg: PackageJson, componentsJson: bool, i: int)
    requires 0 <= i < |JsUiRules|
    ensures JsUi(pkg, componentsJson) == if componentsJson then Some("shadcn") else if PackageChain(JsUiRules, pkg).Some? then PackageChain(JsUiRules, pkg) else if Has(pkg, "tailwindcss") then Some("tailwind") else None
    ensures PackageChain(JsUiRules, pkg) == Some(JsUiRules[i].tag) <==> FirstFoundAt(pkg, JsUiRules, i)
    ensures PackageChain(JsUiRules, pkg).None? <==> forall j :: 0 <= j < |JsUiRules| ==> !Found(pkg, JsUiRules[j])
  {
    JsUiTable(pkg, componentsJson);
    PackageChainAt(JsUiRules, pkg, i);
  }

  const PythonBackendRules := [
    MarkerRule(["django"], "django"),
    MarkerRule(["fastapi"], "fastapi"),
    MarkerRule(["flask"], "flask"),
    MarkerRule(["tornado"], "tornado"),
    MarkerRule(["starlette"], "starlette")]

  lemma PythonBackendTable(text: string)
    ensures PythonBackend(text) == TextChain(PythonBackendRules, text)
  {
    var R, fires, tag := PythonBackendRules, (r: MarkerRule) => Occurs(text, r), (r: MarkerRule) => r.tag;
    OccursOne(text, "django");
    OccursOne(text, "fastapi");
    OccursOne(text, "flask");
    OccursOne(text, "tornado");
    OccursOne(text, "starlette");
    FirstWinsFrom(R, fires, tag, 4);
    FirstWinsFrom(R, fires, tag, 3);
    FirstWinsFrom(R, fires, tag, 2);
    FirstWinsFrom(R, fires, tag, 1);
    FirstWinsFrom(R, fires, tag, 0);
    assert R[5..] == [] && R[0..] == R;
  }

  /** The Python backend: the first of `django`, `fastapi`, `flask`, `tornado`
      and `starlette` occurring in the text. */
  lemma PythonBackendChain(text: string, i: int)
    requires 0 <= i < |PythonBackendRules|
    ensures PythonBackend(text) == TextChain(PythonBackendRules, text)
    ensures TextChain(PythonBackendRules, text) == Some(PythonBackendRules[i].tag) <==> FirstOccursAt(text, PythonBackendRules, i)
    ensures TextChain(PythonBackendRules, text).None? <==> forall j :: 0 <= j < |PythonBackendRules| ==> !Occurs(text, PythonBackendRules[j])
  {
    PythonBackendTable(text);
    TextChainAt(PythonBackendRules, text, i);
  }

  const PythonDatabaseRules := [
    MarkerRule(["supabase"], "supabase"),
    MarkerRule(["psycopg", "asyncpg", "postgresql"], "postgresql"),
    MarkerRule(["pymongo", "motor"], "mongodb"),
    MarkerRule(["mysql", "pymysql"], "mysql"),
    MarkerRule(["sqlite"], "sqlite")]

  lemma PythonDatabaseTable(text: string)
    ensures PythonDatabase(text) == if Includes(text, "sqlalchemy") && TextChain(PythonDatabaseRules, text).None? then Some("postgresql") else TextChain(PythonDatabaseRules, text)
  {
    var R, fires, tag := PythonDatabaseRules, (r: MarkerRule) => Occurs(text, r), (r: MarkerRule) => r.tag;
    OccursOne(text, "supabase");
    OccursThree(text, "psycopg", "asyncpg", "postgresql");
    OccursTwo(text, "pymongo", "motor");
    OccursTwo(text, "mysql", "pymysql");
    OccursOne(text, "sqlite");
    FirstWinsFrom(R, fires, tag, 4);
    FirstWinsFrom(R, fires, tag, 3);
    FirstWinsFrom(R, fires, tag, 2);
    FirstWinsFrom(R, fires, tag, 1);
    FirstWinsFrom(R, fires, tag, 0);
    assert R[5..] == [] && R[0..] == R;
  }

  /** The Python database: the first row with a marker in the text, else
      `postgresql` for SQLAlchemy. */
  lemma PythonDatabaseChain(text: string, i: int)
    requires 0 <= i < |PythonDatabaseRules|
    ensures PythonDatabase(text) == if Includes(text, "sqlalchemy") && TextChain(PythonDatabaseRules, text).None? then Some("postgresql") else TextChain(PythonDatabaseRules, text)
    ensures TextChain(PythonDatabaseRules, text) == Some(PythonDatabaseRules[i].tag) <==> FirstOccursAt(text, PythonDatabaseRules, i)
    ensures TextChain(PythonDatabaseRules, text).None? <==> forall j :: 0 <= j < |PythonDatabaseRules| ==> !Occurs(text, PythonDatabaseRules[j])
  {
    PythonDatabaseTable(text);
    TextChainAt(PythonDatabaseRules, text, i);
  }

  const PythonTestingRules := [
    MarkerRule(["pytest"], "pytest"),
    MarkerRule(["unittest"], "unittest")]

  lemma PythonTestingTable(text: string)
    ensures PythonTesting(text) == TextChain(PythonTestingRules, text)
  {
    var R, fires, tag := PythonTestingRules, (r: MarkerRule) => Occurs(text, r), (r: MarkerRule) => r.tag;
    OccursOne(text, "pytest");
    OccursOne(text, "unittest");
    FirstWinsFrom(R, fires, tag, 1);
    FirstWinsFrom(R, fires, tag, 0);
    assert R[2..] == [] && R[0..] == R;
  }

  /** The Python test framework: `pytest` before `unittest`. */
  lemma PythonTestingChain(text: string, i: int)
    requires 0 <= i < |PythonTestingRules|
    ensures PythonTesting(text) == TextChain(PythonTestingRules, text)
    ensures TextChain(PythonTestingRules, text) == Some(PythonTestingRules[i].tag) <==> FirstOccursAt(text, PythonTestingRules, i)
    ensures TextChain(PythonTestingRules, text).None? <==> forall j :: 0 <= j < |PythonTestingRules| ==> !Occurs(text, PythonTestingRules[j])
  {
    PythonTestingTable(text);
    TextChainAt(PythonTestingRules, text, i);
  }

  const GoBackendRules := [
    MarkerRule(["gin-gonic/gin"], "gin"),
    MarkerRule(["labstack/echo"], "echo"),
    MarkerRule(["gofiber/fiber"], "fiber"),
    MarkerRule(["gorilla/mux"], "gorilla")]

  lemma GoBackendTable(text: string)
    ensures GoBackend(text) == TextChain(GoBackendRules, text)
  {
    var R, fires, tag := GoBackendRules, (r: MarkerRule) => Occurs(text, r), (r: MarkerRule) => r.tag;
    OccursOne(text, "gin-gonic/gin");
    OccursOne(text, "labstack/echo");
    OccursOne(text, "gofiber/fiber");
    OccursOne(text, "gorilla/mux");
    FirstWinsFrom(R, fires, tag, 3);
    FirstWinsFrom(R, fires, tag, 2);
    FirstWinsFrom(R, fires, tag, 1);
    FirstWinsFrom(R, fires, tag, 0);
    assert R[4..] == [] && R[0..] == R;
  }

  /** The Go backend: the first of the gin, echo, fiber and gorilla module paths
      in `go.mod`. */
  lemma GoBackendChain(text: string, i: int)
    requires 0 <= i < |GoBackendRules|
    ensures GoBackend(text) == TextChain(GoBackendRules, text)
    ensures TextChain(GoBackendRules, text) == Some(GoBackendRules[i].tag) <==> FirstOccursAt(text, GoBackendRules, i)
    ensures TextChain(GoBackendRules, text).None? <==> forall j :: 0 <= j < |GoBackendRules| ==> !Occurs(text, GoBackendRules[j])
  {
    GoBackendTable(text);
    TextChainAt(GoBackendRules, text, i);
  }

  const GoDatabaseRules := [
    MarkerRule(["lib/pq", "jackc/pgx"], "postgresql"),
    MarkerRule(["go-sql-driver/mysql"], "mysql"),
    MarkerRule(["mongodb/mongo-go-driver"], "mongodb")]

  lemma GoDatabaseTable(text: string)
    ensures GoDatabase(text) == TextChain(GoDatabaseRules, text)
  {
    var R, fires, tag := GoDatabaseRules, (r: MarkerRule) => Occurs(text, r), (r: MarkerRule) => r.tag;
    OccursTwo(text, "lib/pq", "jackc/pgx");
    OccursOne(text, "go-sql-driver/mysql");
    OccursOne(text, "mongodb/mongo-go-driver");
    FirstWinsFrom(R, fires, tag, 2);
    FirstWinsFrom(R, fires, tag, 1);
    FirstWinsFrom(R, fires, tag, 0);
    assert R[3..] == [] && R[0..] == R;
  }

  /** The Go database: PostgreSQL drivers, then MySQL, then MongoDB. */
  lemma GoDatabaseChain(text: string, i: int)
    requires 0 <= i < |GoDatabaseRules|
    ensures GoDatabase(text) == TextChain(GoDatabaseRules, text)
    ensures TextChain(GoDatabaseRules, text) == Some(GoDatabaseRules[i].tag) <==> FirstOccursAt(text, GoDatabaseRules, i)
    ensures TextChain(GoDatabaseRules, text).None? <==> forall j :: 0 <= j < |GoDatabaseRules| ==> !Occurs(text, GoDatabaseRules[j])
  {
    GoDatabaseTable(text);
    TextChainAt(GoDatabaseRules, text, i);
  }

  const RubyBackendRules := [
    MarkerRule(["rails"], "rails"),
    MarkerRule(["sinatra"], "sinatra"),
    MarkerRule(["hanami"], "hanami")]

  lemma RubyBackendTable(text: string)
    ensures RubyBackend(text) == TextChain(RubyBackendRules, text)
  {
    var R, fires, tag := RubyBackendRules, (r: MarkerRule) => Occurs(text, r), (r: MarkerRule) => r.tag;
    OccursOne(text, "rails");
    OccursOne(text, "sinatra");
    OccursOne(text, "hanami");
    FirstWinsFrom(R, fires, tag, 2);
    FirstWinsFrom(R, fires, tag, 1);
    FirstWinsFrom(R, fires, tag, 0);
    assert R[3..] == [] && R[0..] == R;
  }

  /** The Ruby backend: `rails`, then `sinatra`, then `hanami`. */
  lemma RubyBackendChain(text: string, i: int)
    requires 0 <= i < |RubyBackendRules|
    ensures RubyBackend(text) == TextChain(RubyBackendRules, text)
    ensures TextChain(RubyBackendRules, text) == Some(RubyBackendRules[i].tag) <==> FirstOccursAt(text, RubyBackendRules, i)
    ensures TextChain(RubyBackendRules, text).None? <==> forall j :: 0 <= j < |RubyBackendRules| ==> !Occurs(text, RubyBackendRules[j])
  {
    RubyBackendTable(text);
    TextChainAt(RubyBackendRules, text, i);
  }

  const RubyDatabaseRules := [
    MarkerRule(["pg"], "postgresql"),
    MarkerRule(["mysql2"], "mysql"),
    MarkerRule(["sqlite3"], "sqlite"),
    MarkerRule(["mongoid"], "mongodb")]

  lemma RubyDatabaseTable(text: string)
    ensures RubyDatabase(text) == TextChain(RubyDatabaseRules, text)
  {
    var R, fires, tag := RubyDatabaseRules, (r: MarkerRule) => Occurs(text, r), (r: MarkerRule) => r.tag;
    OccursOne(text, "pg");
    OccursOne(text, "mysql2");
    OccursOne(text, "sqlite3");
    OccursOne(text, "mongoid");
    FirstWinsFrom(R, fires, tag, 3);
    FirstWinsFrom(R, fires, tag, 2);
    FirstWinsFrom(R, fires, tag, 1);
    FirstWinsFrom(R, fires, tag, 0);
    assert R[4..] == [] && R[0..] == R;
  }

  /** The Ruby database: `pg`, then `mysql2`, `sqlite3` and `mongoid`. */
  lemma RubyDatabaseChain(text: string, i: int)
    requires 0 <= i < |RubyDatabaseRules|
    ensures RubyDatabase(text) == TextChain(RubyDatabaseRules, text)
    ensures TextChain(RubyDatabaseRules, text) == Some(RubyDatabaseRules[i].tag) <==> FirstOccursAt(text, RubyDatabaseRules, i)
    ensures TextChain(RubyDatabaseRules, text).None? <==> forall j :: 0 <= j < |RubyDatabaseRules| ==> !Occurs(text, RubyDatabaseRules[j])
  {
    RubyDatabaseTable(text);
    TextChainAt(RubyDatabaseRules, text, i);
  }

  const RubyTestingRules := [
    MarkerRule(["rspec"], "rspec"),
    MarkerRule(["minitest"], "minitest")]

  lemma RubyTestingTable(text: string)
    ensures RubyTesting(text) == TextChain(RubyTestingRules, text)
  {
    var R, fires, tag := RubyTestingRules, (r: MarkerRule) => Occurs(text, r), (r: MarkerRule) => r.tag;
    OccursOne(text, "rspec");
    OccursOne(text, "minitest");
    FirstWinsFrom(R, fires, tag, 1);
    FirstWinsFrom(R, fires, tag, 0);
    assert R[2..] == [] && R[0..] == R;
  }

  /** The Ruby test framework: `rspec` before `minitest`. */
  lemma RubyTestingChain(text: string, i: int)
    requires 0 <= i < |RubyTestingRules|
    ensures RubyTesting(text) == TextChain(RubyTestingRules, text)
    ensures TextChain(RubyTestingRules, text) == Some(RubyTestingRules[i].tag) <==> FirstOccursAt(text, RubyTestingRules, i)
    ensures TextChain(RubyTestingRules, text).None? <==> forall j :: 0 <= j < |RubyTestingRules| ==> !Occurs(text, RubyTestingRules[j])
  {
    RubyTestingTable(text);
    TextChainAt(RubyTestingRules, text, i);
  }

  const RustBackendRules := [
    MarkerRule(["actix-web"], "actix"),
    MarkerRule(["axum"], "axum"),
    MarkerRule(["rocket"], "rocket"),
    MarkerRule(["warp"], "warp")]

  lemma RustBackendTable(text: string)
    ensures RustBackend(text) == TextChain(RustBackendRules, text)
  {
    var R, fires, tag := RustBackendRules, (r: MarkerRule) => Occurs(text, r), (r: MarkerRule) => r.tag;
    OccursOne(text, "actix-web");
    OccursOne(text, "axum");
    OccursOne(text, "rocket");
    OccursOne(text, "warp");
    FirstWinsFrom(R, fires, tag, 3);
    FirstWinsFrom(R, fires, tag, 2);
    FirstWinsFrom(R, fires, tag, 1);
    FirstWinsFrom(R, fires, tag, 0);
    assert R[4..] == [] && R[0..] == R;
  }

  /** The Rust backend: `actix-web`, then `axum`, `rocket` and `warp`. */
  lemma RustBackendChain(text: string, i: int)
    requires 0 <= i < |RustBackendRules|
    ensures RustBackend(text) == TextChain(RustBackendRules, text)
    ensures TextChain(RustBackendRules, text) == Some(RustBackendRules[i].tag) <==> FirstOccursAt(text, RustBackendRules, i)
    ensures TextChain(RustBackendRules, text).None? <==> forall j :: 0 <= j < |RustBackendRules| ==> !Occurs(text, RustBackendRules[j])
  {
    RustBackendTable(text);
    TextChainAt(RustBackendRules, text, i);
  }

  /** The Rust database: PostgreSQL for `tokio-postgres`, or for `sqlx`
      together with `postgres`, before MongoDB. As `tokio-postgres` contains
      `postgres`, PostgreSQL is detected exactly when `postgres` occurs along
      with `tokio-postgres` or `sqlx`. */
  lemma RustDatabaseRule(text: string)
    ensures RustDatabase(text) == Some("postgresql") <==>
              Includes(text, "postgres") && (Includes(text, "tokio-postgres") || Includes(text, "sqlx"))
    ensures RustDatabase(text).None? <==>
              !Includes(text, "mongodb") && !(Includes(text, "postgres") && (Includes(text, "tokio-postgres") || Includes(text, "sqlx")))
  {
    if Includes(text, "tokio-postgres") {
      assert "tokio-postgres"[6..14] == "postgres";
      IncludesPart(text, "tokio-postgres", "postgres", 6);
    }
  }

  // ---------------------------------------------------------------------------
  // mapToStackTemplate
  // ---------------------------------------------------------------------------

  /** A test on one field: any value, or one of the listed values (`None`
      standing for null). */
  datatype FieldTest = AnyValue | OneOf(values: set<Option<string>>)

  predicate Passes(t: FieldTest, v: Option<string>) {
    t.AnyValue? || v in t.values
  }

  function Is(tag: string): FieldTest {
    OneOf({Some(tag)})
  }

  /** A row of the template table: the id, when all four tests pass. */
  datatype TemplateRule = TemplateRule(language: FieldTest, frontend: FieldTest, backend: FieldTest,
                                       database: FieldTest, id: string)

  predicate Matches(rule: TemplateRule, d: Detection) {
    Passes(rule.language, d.language) && Passes(rule.frontend, d.frontend)
    && Passes(rule.backend, d.backend) && Passes(rule.database, d.database)
  }

  /** Rules 1 to 6 of `mapToStackTemplate`, on the frontend. */
  const FrontendTemplateRules := [
    TemplateRule(AnyValue, Is("nextjs"), AnyValue, Is("supabase"), "nextjs-supabase"),
    TemplateRule(AnyValue, Is("nextjs"), AnyValue, Is("postgresql"), "nextjs-postgres"),
    TemplateRule(AnyValue, Is("react"), Is("express"), Is("postgresql"), "react-express-postgres"),
    TemplateRule(AnyValue, Is("react"), Is("express"), Is("mongodb"), "react-express-mongodb"),
    TemplateRule(AnyValue, Is("vue"), Is("express"), Is("mongodb"), "vue-express-mongodb"),
    TemplateRule(AnyValue, Is("vue"), OneOf({Some("express"), Some("fastify")}), Is("postgresql"), "vue-node-postgres")]

  /** Rules 7 to 12, on the backend and the language; a database test that
      lists `None` also accepts a null database. */
  const BackendTemplateRules := [
    TemplateRule(AnyValue, AnyValue, Is("django"), OneOf({Some("postgresql"), None}), "python-django-postgres"),
    TemplateRule(AnyValue, AnyValue, Is("fastapi"), OneOf({Some("postgresql"), None}), "python-fastapi-postgres"),
    TemplateRule(AnyValue, AnyValue, Is("flask"), AnyValue, "python-flask-postgres"),
    TemplateRule(AnyValue, AnyValue, Is("rails"), AnyValue, "ruby-rails-postgres"),
    TemplateRule(Is("go"), AnyValue, AnyValue, Is("postgresql"), "go-gin-postgres"),
    TemplateRule(Is("rust"), AnyValue, Is("actix"), AnyValue, "rust-actix-postgres")]

  /** The fallbacks by language. */
  const FallbackTemplateRules := [
    TemplateRule(Is("python"), AnyValue, AnyValue, AnyValue, "python-generic"),
    TemplateRule(Is("go"), AnyValue, AnyValue, AnyValue, "go-generic"),
    TemplateRule(Is("ruby"), AnyValue, AnyValue, AnyValue, "ruby-generic"),
    TemplateRule(Is("rust"), AnyValue, AnyValue, AnyValue, "rust-generic"),
    TemplateRule(OneOf({Some("typescript"), Some("javascript")}), AnyValue, AnyValue, AnyValue, "node-generic")]

  /** The twelve rules in order, then the five language fallbacks. */
  const TemplateTable := FrontendTemplateRules + BackendTemplateRules + FallbackTemplateRules

  function TemplateChain(rules: seq<TemplateRule>, d: Detection): Option<string> {
    FirstWins(rules, (r: TemplateRule) => Matches(r, d), (r: TemplateRule) => r.id)
  }

  /** Reading two tables one after the other is reading their concatenation. */
  lemma {:induction false} FirstWinsAppend<R>(a: seq<R>, b: seq<R>, fires: R -> bool, tag: R -> string)
    ensures FirstWins(a + b, fires, tag) ==
              if FirstWins(a, fires, tag).Some? then FirstWins(a, fires, tag) else FirstWins(b, fires, tag)
    decreases |a|
  {
    if a == [] {
      assert a + b == b;
    } else {
      assert (a + b)[0] == a[0];
      assert (a + b)[1..] == a[1..] + b;
      FirstWinsAppend(a[1..], b, fires, tag);
    }
  }

  lemma FrontendTemplates(d: Detection)
    ensures TemplateChain(FrontendTemplateRules, d) ==
      var fe, be, db := d.frontend, d.backend, d.database;
      if fe == Some("nextjs") && db == Some("supabase") then Some("nextjs-supabase")
      else if fe == Some("nextjs") && db == Some("postgresql") then Some("nextjs-postgres")
      else if fe == Some("react") && be == Some("express") && db == Some("postgresql") then Some("react-express-postgres")
      else if fe == Some("react") && be == Some("express") && db == Some("mongodb") then Some("react-express-mongodb")
      else if fe == Some("vue") && be == Some("express") && db == Some("mongodb") then Some("vue-express-mongodb")
      else if fe == Some("vue") && (be == Some("express") || be == Some("fastify")) && db == Some("postgresql") then Some("vue-node-postgres")
      else None
  {
    var T, fires, tag := FrontendTemplateRules, (r: TemplateRule) => Matches(r, d), (r: TemplateRule) => r.id;
    FirstWinsFrom(T, fires, tag, 5);
    FirstWinsFrom(T, fires, tag, 4);
    FirstWinsFrom(T, fires, tag, 3);
    FirstWinsFrom(T, fires, tag, 2);
    FirstWinsFrom(T, fires, tag, 1);
    FirstWinsFrom(T, fires, tag, 0);
    assert T[6..] == [] && T[0..] == T;
  }

  lemma BackendTemplates(d: Detection)
    ensures TemplateChain(BackendTemplateRules, d) ==
      var be, db, lang := d.backend, d.database, d.language;
      if be == Some("django") && (db == Some("postgresql") || db.None?) then Some("python-django-postgres")
      else if be == Some("fastapi") && (db == Some("postgresql") || db.None?) then Some("python-fastapi-postgres")
      else if be == Some("flask") then Some("python-flask-postgres")
      else if be == Some("rails") then Some("ruby-rails-postgres")
      else if lang == Some("go") && db == Some("postgresql") then Some("go-gin-postgres")
      else if lang == Some("rust") && be == Some("actix") then Some("rust-actix-postgres")
      else None
  {
    var T, fires, tag := BackendTemplateRules, (r: TemplateRule) => Matches(r, d), (r: TemplateRule) => r.id;
    FirstWinsFrom(T, fires, tag, 5);
    FirstWinsFrom(T, fires, tag, 4);
    FirstWinsFrom(T, fires, tag, 3);
    FirstWinsFrom(T, fires, tag, 2);
    FirstWinsFrom(T, fires, tag, 1);
    FirstWinsFrom(T, fires, tag, 0);
    assert T[6..] == [] && T[0..] == T;
  }

  lemma FallbackTemplates(d: Detection)
    ensures TemplateChain(FallbackTemplateRules, d) ==
      var lang := d.language;
      if lang == Some("python") then Some("python-generic")
      else if lang == Some("go") then Some("go-generic")
      else if lang == Some("ruby") then Some("ruby-generic")
      else if lang == Some("rust") then Some("rust-generic")
      else if lang == Some("typescript") || lang == Some("javascript") then Some("node-generic")
      else None
  {
    var T, fires, tag := FallbackTemplateRules, (r: TemplateRule) => Matches(r, d), (r: TemplateRule) => r.id;
    FirstWinsFrom(T, fires, tag, 4);
    FirstWinsFrom(T, fires, tag, 3);
    FirstWinsFrom(T, fires, tag, 2);
    FirstWinsFrom(T, fires, tag, 1);
    FirstWinsFrom(T, fires, tag, 0);
    assert T[5..] == [] && T[0..] == T;
  }

  /** `mapToStackTemplate` is the template table read first-match. */
  lemma MapToStackTemplateTable(d: Detection)
    ensures MapToStackTemplate(d) == TemplateChain(TemplateTable, d)
  {
    var fires, tag := (r: TemplateRule) => Matches(r, d), (r: TemplateRule) => r.id;
    FrontendTemplates(d);
    BackendTemplates(d);
    FallbackTemplates(d);
    FirstWinsAppend(FrontendTemplateRules, BackendTemplateRules, fires, tag);
    FirstWinsAppend(FrontendTemplateRules + BackendTemplateRules, FallbackTemplateRules, fires, tag);
  }

  /** The seventeen ids are distinct. */
  lemma TemplateIdsDistinct()
    ensures forall j, k :: 0 <= j < k < |TemplateTable| ==> TemplateTable[j].id != TemplateTable[k].id
  {
  }

  /** Rule `i` decides the template exactly when it matches and no earlier
      rule does; no template comes back exactly when no rule matches. */
  lemma TemplateRuleWins(d: Detection, i: int)
    requires 0 <= i < |TemplateTable|
    ensures MapToStackTemplate(d) == Some(TemplateTable[i].id) <==>
              Matches(TemplateTable[i], d) && forall j :: 0 <= j < i ==> !Matches(TemplateTable[j], d)
    ensures MapToStackTemplate(d).None? <==> forall j :: 0 <= j < |TemplateTable| ==> !Matches(TemplateTable[j], d)
  {
    var fires, tag := (r: TemplateRule) => Matches(r, d), (r: TemplateRule) => r.id;
    MapToStackTemplateTable(d);
    TemplateIdsDistinct();
    FirstWinsAt(TemplateTable, fires, tag, i);
    FirstWinsNone(TemplateTable, fires, tag);
  }
}
