# claude-agent-kit: stack detection, agent generation, install and init

This project models, in Dafny, the core of `claude-agent-kit`, a command-line
installer that copies Claude Code agents, commands, hooks and skills into a
`.claude` directory. The modelled parts are:

- **Stack detection** (`DetectStack`, `lib/detect-stack.js`).
  - Five probes look at a project:
    - JavaScript/TypeScript, through a parsed `package.json`;
    - Python, Go, Ruby and Rust, through a case-insensitive substring search of their manifests.
  - Each probe fills a six-field record: language, frontend, backend, database, testing and ui.
  - The records are merged field by field, the first non-null value winning.
  - `mapToStackTemplate` maps the merged record to a template id. It applies twelve ordered rules, then a fallback per language.
  - `describeStack` lists the display names of what was found.
- **The detection chains as rule tables** (`DetectTables`). Each if/else-if chain of the probes, and `mapToStackTemplate`, is written out as an ordered table and proved equal to the transcribed chain. First-match precedence is proved once, for any table.
- **The stack catalog** (`Stacks`, `lib/stacks/index.js`).
  - Six entries keyed by id, with `getStack` and `getStackChoices`.
  - The catalog's prose is kept as opaque, non-empty strings.
- **Agent generation** (`GenerateAgents`, `lib/generate-agents.js`). The developer and database documents are a fixed frontmatter and markdown skeleton, with the catalog's fields spliced in.
- **The file tree** (`FileTree`). This is the small part of `lib/file-operations.js` the commands rely on:
  - the user's side is a map from path to asset;
  - the package's template directory is an immutable listing;
  - a copy overwrites, and a copy whose source is missing throws.

  `FileTree.FileSystem` is the tree the commands change in place.
- **`install`** (`Install`, `lib/install.js`).
  - Selections are split on `,`, trimmed, validated with `validateAssetName` and given their suffixes.
  - Without a selection, the template listing is used.
  - All four categories are resolved before the first copy.
  - The copies run in the order agents, commands, hooks, skills, stopping at the first failure.
- **`init`** (`Init`, `lib/init.js`).
  - The stack is chosen from the detection and the prompt answers.
  - The structure is created and the two generated agents are written.
  - The template agents are copied, except those whose stem is a generated agent's.
  - The hooks are copied, then the skills, whose errors are caught and skipped.

JavaScript's string operations are modelled in `Text` with their JavaScript meaning:
- `includes` is a plain substring search;
- `split(',')` keeps empty pieces;
- `trim` removes ECMAScript white space and line terminators;
- `replace` with a string pattern replaces only the first occurrence;
- `toLowerCase` is the ASCII mapping.

One behaviour of the source is modelled as written rather than assumed away. `mapToStackTemplate` can return ids that are not in the catalog:
- `node-generic` for a plain JavaScript or TypeScript project;
- `nextjs-postgres`, `react-express-mongodb` and the other uncatalogued templates.

`init` dereferences `getStack(detection.stackId).name` at lib/init.js:81-84 without a null check, so for such an id it throws before creating any directory. `Init.ChooseStack` makes this the explicit failure `MissingStack(id)`:
- `Init.UncataloguedDetectionFails` states it in general;
- `Init.TypeScriptOnlyFails` shows it for a project whose only finding is `typescript`.

`ChooseStack` tests "something was detected" as `merged != Empty` and "`getStack` found it" as `id in StackOrder`. `DetectStack.DescribeStack` and `Stacks.GetStack` prove these equivalent to `detectedTech.length > 0` and to a non-null `getStack` (`Init.DetectedTechIff`, `Stacks.GetStack`).

## Model

| member | source | states |
|---|---|---|
| Text.IncludesIff | lib/detect-stack.js:212-246 | `includes` holds exactly when the pattern occurs at some index of the text |
| Text.NotIncluded | lib/detect-stack.js:212-246 | a pattern containing a character the text lacks is not found |
| Text.IncludesPart | lib/detect-stack.js:388 | a text that holds a string holds every part of it |
| Text.Split | lib/install.js:67 | `split` yields at least one piece, and no piece contains the separator |
| Text.JoinSplit | lib/install.js:67 | joining the pieces of `split` with the separator gives back the text, so empty pieces are kept |
| Text.LowerOfLower | lib/detect-stack.js:209 | lower-casing a text with no upper-case ASCII letter leaves it unchanged |
| Text.Trim | lib/install.js:67 | the trimmed text sits inside the input with only white space around it, and it neither starts nor ends with white space |
| Text.ReplaceFirstAfter | lib/init.js:143-145 | `replace` with a string pattern rewrites the first occurrence and leaves the rest of the text alone |
| Text.StripMdStem | lib/init.js:143-145 | for a name ending in `.md` whose stem has no dot, removing the first `.md` leaves the stem, and the stem plus `.md` is the name |
| DetectStack.HasDependency | lib/detect-stack.js:53-60 | no package means no dependency; a truthy `devDependencies` entry is found |
| DetectStack.HasDependencyIff | lib/detect-stack.js:53-60 | a dependency is found exactly when one of `dependencies`, `devDependencies` and `peerDependencies` maps it to a truthy value |
| DetectStack.JsLanguage | lib/detect-stack.js:80-85 | the language is `typescript` exactly when there is a `typescript` dependency or a `tsconfig.json`, and `javascript` otherwise |
| DetectStack.JsProbe | lib/detect-stack.js:67-168 | a missing or unparsable `package.json` gives the all-null record; otherwise the language is set, and a record with a null language has every field null |
| DetectStack.HasAnyBackend | lib/detect-stack.js:102-112 | some backend package is a dependency exactly when one of `express`, `@nestjs/core`, `fastify`, `koa` and `hono` is |
| DetectStack.HasAnyDatabase | lib/detect-stack.js:120-132 | some database package is a dependency exactly when one of the twelve packages the database chain tests is |
| DetectStack.HasAnyUi | lib/detect-stack.js:156-164 | some ui package is a dependency exactly when one of the five packages tested after `tailwindcss` is |
| DetectStack.JsBackendDefault | lib/detect-stack.js:102-117 | the backend is `nextjs` exactly when the frontend is Next.js and no backend package matched; it is null exactly when neither holds |
| DetectStack.JsBackendMatchKept | lib/detect-stack.js:102-117 | once a backend package matched, the frontend has no effect on the backend and the Next.js default never replaces it |
| DetectStack.JsDatabaseDefault | lib/detect-stack.js:120-137 | with no database package matched, the database is `postgresql` exactly when `prisma` is a dependency and null otherwise; a matched package always gives a database |
| DetectStack.JsDatabaseMatchKept | lib/detect-stack.js:120-137 | once a database package matched, packages that agree on the database packages detect the same database whatever they hold for `prisma` |
| DetectStack.JsUiTailwind | lib/detect-stack.js:153-164 | the ui is `tailwind` exactly when `tailwindcss` is a dependency, there is no `components.json` and no later ui package matched; it is null exactly when nothing matched |
| DetectStack.JsUiMatchReplaces | lib/detect-stack.js:153-164 | a `components.json` or a later ui package replaces `tailwind`: the ui then does not depend on `tailwindcss` and is never `tailwind` |
| DetectStack.PythonProbe | lib/detect-stack.js:175-250 | without any of the four Python markers, all fields are null; with one, the language is `python` and frontend and ui stay null |
| DetectStack.IncludesAnyDatabase | lib/detect-stack.js:224-234 | some database marker occurs exactly when one of the nine markers the database chain searches for does |
| DetectStack.PythonDatabaseDefault | lib/detect-stack.js:224-239 | with no database marker found, the database is `postgresql` exactly when `sqlalchemy` occurs and null otherwise; a found marker always gives a database |
| DetectStack.PythonDatabaseMatchKept | lib/detect-stack.js:224-239 | once a database marker is found, texts that agree on the markers detect the same database whatever they hold for `sqlalchemy` |
| DetectStack.GoProbe | lib/detect-stack.js:257-297 | without `go.mod`, all fields are null; with it, the language is `go` and testing is `go-test` |
| DetectStack.RubyProbe | lib/detect-stack.js:304-350 | without a `Gemfile`, all fields are null; with it, the language is `ruby` and frontend and ui stay null |
| DetectStack.RustProbe | lib/detect-stack.js:357-395 | without `Cargo.toml`, all fields are null; with it, the language is `rust` and testing is `cargo-test` |
| DetectStack.Probes | lib/detect-stack.js:503-519 | there are five probe results, each either all-null or with its language set |
| DetectStack.FirstSome | lib/detect-stack.js:521-528 | the first non-null value: non-null exactly when some entry is, and every entry before it is null |
| DetectStack.FirstSomeSnoc | lib/detect-stack.js:521-528 | a later entry is used only if every earlier one is null |
| DetectStack.MergeIsFirstNonNull | lib/detect-stack.js:519-528 | for each field, the merged record holds the first non-null value of that field across the probes, in probe order |
| DetectStack.MergeKeepsSetFields | lib/detect-stack.js:522-527 | a later probe never overrides a field that is already set |
| DetectStack.MergeShape | lib/detect-stack.js:519-528 | a merge of probe results whose language is null has every field null |
| DetectStack.Merge | lib/detect-stack.js:519-528 | the merge loop computes the fold of the records and, field by field, the first non-null value |
| DetectStack.MapToStackTemplate | lib/detect-stack.js:402-483 | every id returned is one of the seventeen template ids; a known language always gives an id; without frontend and backend, an id comes back exactly when the language is known |
| DetectStack.NextjsRulesComeFirst | lib/detect-stack.js:405-414 | Next.js with Supabase maps to `nextjs-supabase`, and with PostgreSQL to `nextjs-postgres`, whatever the other fields hold |
| DetectStack.LanguageFallback | lib/detect-stack.js:465-482 | when no rule applies, the id is the language's generic template, or null for no or an unknown language |
| DetectStack.Detect | lib/detect-stack.js:490-534 | each merged field is the first non-null across the probes; the id is the mapping of the merged record; the id is null exactly when the language is; the raw results are kept |
| DetectStack.Resolve | lib/detect-stack.js:490-534 | the merged record of a project has every field null when its language is null |
| DetectStack.ResolveSteps | lib/detect-stack.js:519-528 | the merge is the five probes overlaid in the order JavaScript, Python, Go, Ruby, Rust |
| DetectStack.ResolveOnlyJs | lib/detect-stack.js:503-528 | with only JavaScript manifests, the merged record is the JavaScript probe's |
| DetectStack.ResolveOnlyPython | lib/detect-stack.js:503-528 | with only Python manifests, the merged record is the Python probe's |
| DetectStack.DescribeStack | lib/detect-stack.js:541-619 | the description is empty exactly when nothing was detected, and has at most six entries |
| DetectStack.ShownBackend | lib/detect-stack.js:568 | the backend is shown exactly when it is set and differs from the frontend |
| DetectStack.DescribePiece | lib/detect-stack.js:541-619 | each field contributes one display name when set and none when null |
| DetectStack.DescribeWithLayout | lib/detect-stack.js:541-619 | for any name tables, the description has one entry per shown field, each at the position the shown fields before it leave, in the order language, frontend, backend, database, ui, testing |
| DetectStack.DescribeStackMentions | lib/detect-stack.js:541-619 | with the source's tables, every set field is named at its position in that order, and a backend equal to the frontend adds no entry, so the length counts the other set fields only |
| DetectStack.NextSupabaseScenario | test/init.test.js:31-51 | Next.js, React and Supabase dependencies with TypeScript give TypeScript, Next.js, Supabase and `nextjs-supabase` |
| DetectStack.ReactExpressPgFields | test/init.test.js:53-68 | the test's React, Express and `pg` package gives frontend `react`, backend `express` and database `postgresql` |
| DetectStack.ReactExpressPgScenario | test/init.test.js:53-68 | a project holding only that package is detected as React, Express and PostgreSQL |
| DetectStack.VueMongoFields | test/init.test.js:91-106 | the test's Vue, Express and Mongoose package gives frontend `vue`, backend `express` and database `mongodb` |
| DetectStack.VueMongoScenario | test/init.test.js:91-106 | a project holding only that package is detected as Vue, Express and MongoDB |
| DetectStack.DjangoDetection | test/init.test.js:70-79 | a `requirements.txt` naming Django and psycopg2 gives Python, Django and PostgreSQL, and nothing else |
| DetectStack.DjangoScenario | test/init.test.js:70-79 | that project maps to `python-django-postgres` |
| DetectStack.FastApiScenario | test/init.test.js:81-89 | a `requirements.txt` naming FastAPI and asyncpg gives Python, FastAPI and PostgreSQL |
| DetectStack.NothingDetectedScenario | test/init.test.js:108-121 | an empty project, or one whose `package.json` does not parse, gives the all-null record and a null id |
| DetectStack.NextJestDetection | test/init.test.js:123-144 | Next.js and Supabase with TypeScript and Jest give exactly those fields, the backend being `nextjs` |
| DetectStack.DescribeScenario | test/init.test.js:123-144 | that project is described as TypeScript, Next.js, Supabase, Jest |
| DetectTables.FirstWinsAt | lib/detect-stack.js:87-100 | in a table read first-match whose tags differ, row i's tag comes back exactly when row i fires and no earlier row does |
| DetectTables.FirstWinsNone | lib/detect-stack.js:87-100 | a table read first-match sets nothing exactly when no row fires |
| DetectTables.FirstWinsAppend | lib/detect-stack.js:402-483 | reading two tables one after the other is reading their concatenation: the second is consulted only when the first sets nothing |
| DetectTables.PackageChainAt | lib/detect-stack.js:87-165 | a table of package rows sets row i's tag exactly when some package of row i is a dependency and no package of an earlier row is, and nothing when no row's package is |
| DetectTables.TextChainAt | lib/detect-stack.js:212-247 | a table of marker rows sets row i's tag exactly when a marker of row i occurs in the text and no marker of an earlier row does, and nothing when no marker occurs |
| DetectTables.JsFrontendChain | lib/detect-stack.js:87-100 | the frontend is the table `next`, `nuxt`, `vue`, `react`, `@angular/core`, `svelte` read first-match, so `next` with `react` gives `nextjs`; it is null exactly when none is a dependency |
| DetectTables.JsBackendChain | lib/detect-stack.js:102-118 | the backend is the first of `express`, `@nestjs/core`, `fastify`, `koa`, `hono` found, and `nextjs` only for a Next.js frontend with none found |
| DetectTables.JsDatabaseChain | lib/detect-stack.js:120-138 | the database is the first of the rows supabase, firebase, mongodb, postgresql (`pg`, `postgres`, `@prisma/client`), mysql, sqlite with a package found, and `postgresql` for `prisma` only when no row fired |
| DetectTables.JsTestingChain | lib/detect-stack.js:140-151 | the test framework is the first of `vitest`, `jest`, `mocha`, `@playwright/test`, `cypress` found |
| DetectTables.JsUiChain | lib/detect-stack.js:153-165 | the ui is `shadcn` for a `components.json`, else the first of the radix, chakra, mui and bootstrap rows found, else `tailwind` for `tailwindcss` |
| DetectTables.PythonBackendChain | lib/detect-stack.js:211-222 | the Python backend is the first of `django`, `fastapi`, `flask`, `tornado`, `starlette` occurring in the lower-cased text |
| DetectTables.PythonDatabaseChain | lib/detect-stack.js:224-240 | the Python database is the first of the rows supabase, postgresql (`psycopg`, `asyncpg`, `postgresql`), mongodb, mysql, sqlite with a marker in the text, and `postgresql` for `sqlalchemy` only when no row fired |
| DetectTables.PythonTestingChain | lib/detect-stack.js:242-247 | `pytest` is found before `unittest` |
| DetectTables.GoBackendChain | lib/detect-stack.js:276-285 | the Go backend is the first of the gin, echo, fiber and gorilla module paths in `go.mod` |
| DetectTables.GoDatabaseChain | lib/detect-stack.js:287-294 | the Go database is PostgreSQL for `lib/pq` or `jackc/pgx`, then MySQL, then MongoDB |
| DetectTables.RubyBackendChain | lib/detect-stack.js:322-329 | the Ruby backend is the first of `rails`, `sinatra`, `hanami` in the `Gemfile` |
| DetectTables.RubyDatabaseChain | lib/detect-stack.js:331-340 | the Ruby database is the first of `pg`, `mysql2`, `sqlite3`, `mongoid` in the `Gemfile` |
| DetectTables.RubyTestingChain | lib/detect-stack.js:342-347 | `rspec` is found before `minitest` |
| DetectTables.RustBackendChain | lib/detect-stack.js:376-385 | the Rust backend is the first of `actix-web`, `axum`, `rocket`, `warp` in `Cargo.toml` |
| DetectTables.RustDatabaseRule | lib/detect-stack.js:387-392 | PostgreSQL is detected exactly when `postgres` occurs together with `tokio-postgres` or `sqlx`; the database is null exactly when neither that nor `mongodb` holds |
| DetectTables.FrontendTemplates | lib/detect-stack.js:405-434 | rules 1 to 6, read as a table, are the frontend rules of `mapToStackTemplate` |
| DetectTables.BackendTemplates | lib/detect-stack.js:436-464 | rules 7 to 12, read as a table, are the backend and language rules, a null database passing the Django and FastAPI rules |
| DetectTables.FallbackTemplates | lib/detect-stack.js:465-482 | the five fallbacks, read as a table, give the language's generic id, or null |
| DetectTables.MapToStackTemplateTable | lib/detect-stack.js:402-483 | `mapToStackTemplate` is its seventeen-row table read first-match |
| DetectTables.TemplateIdsDistinct | lib/detect-stack.js:402-483 | the seventeen ids of the table are distinct |
| DetectTables.TemplateRuleWins | lib/detect-stack.js:402-483 | rule i decides the template exactly when it matches and no earlier rule does; the id is null exactly when no rule matches |
| Stacks.HeadingsWellFormed | lib/stacks/index.js:7-10 | every written-out entry's `id` field is its key, and its name and description are non-empty |
| Stacks.EntryWellFormed | lib/stacks/index.js:13-16 | an entry's agent records are named `developer` and `database`, and their prose fields are non-empty |
| Stacks.CatalogKeys | lib/stacks/index.js:6-634 | the catalog's keys are exactly the six ids |
| Stacks.StackOrderDistinct | lib/stacks/index.js:6-634 | the declaration order lists six ids, each once |
| Stacks.GetStack | lib/stacks/index.js:641-643 | an entry is returned exactly for a catalog key, and that entry is well formed under its key |
| Stacks.GetStackChoices | lib/stacks/index.js:649-655 | one choice per entry, in declaration order, with the id, name and description copied from that entry |
| Stacks.ChoicesResolve | test/init.test.js:161-174 | every offered choice resolves through `getStack` to a well-formed entry with the same name |
| GenerateAgents.RenderSections | lib/generate-agents.js:29-55 | a rendered body holds every heading-and-value section, in order |
| GenerateAgents.DocumentShape | lib/generate-agents.js:16-55 | a document starts with its frontmatter and then holds its sections in order |
| GenerateAgents.DeveloperDocumentShape | lib/generate-agents.js:16-55 | the developer document opens with its frontmatter and holds tech stack, instructions, boundaries and file structure in that order, each right after its heading |
| GenerateAgents.GenerateDeveloperAgent | lib/generate-agents.js:8-12 | it fails exactly for an id not in the catalog, with `Unknown stack: <id>` |
| GenerateAgents.DeveloperAgentShaped | lib/generate-agents.js:8-79 | for a catalog id, the developer agent is shaped by that entry's developer record |
| GenerateAgents.DatabaseDocumentShape | lib/generate-agents.js:94-144 | the database document opens with its frontmatter and holds tech stack, the protection rules right after `## CRITICAL PROTECTION RULES`, instructions, safe commands and dangerous commands, in that order |
| GenerateAgents.GenerateDatabaseAgent | lib/generate-agents.js:86-90 | it fails exactly for an id not in the catalog, with `Unknown stack: <id>` |
| GenerateAgents.DatabaseAgentShaped | lib/generate-agents.js:86-168 | for a catalog id, the database agent is shaped by that entry's database record |
| GenerateAgents.GenerateStackAgents | lib/generate-agents.js:175-180 | it fails exactly for an id not in the catalog, with the developer generator's message; otherwise it returns exactly `developer.md` then `database.md` |
| GenerateAgents.StackAgentsShaped | lib/generate-agents.js:175-180 | for a catalog id, the two entries are the two generators' documents, shaped by the entry's developer and database records |
| FileTree.NamesEndingWith | lib/file-operations.js:39-41 | the names kept are exactly the listed names ending with the extension |
| FileTree.NamesEndingWithAppend | lib/file-operations.js:39-41 | the filter keeps listing order: filtering a concatenation concatenates the filtered parts, and one entry is kept exactly when its name ends with the extension |
| FileTree.ListFiles | lib/file-operations.js:36-45 | a missing directory is an error; otherwise every name returned ends with the extension, and every listed name that does is returned |
| FileTree.FolderNames | lib/install.js:80 | the sub-directories listed are exactly the folder entries |
| FileTree.FolderNamesAppend | lib/install.js:80 | the folder filter keeps listing order: filtering a concatenation concatenates the filtered parts, and one entry is kept exactly when it is a folder |
| FileTree.ListDirs | lib/init.js:176 | a missing directory is an error naming it |
| FileTree.LookupFinds | lib/file-operations.js:22-28 | a source is found exactly when the listing has an entry of that name |
| FileTree.Place | lib/file-operations.js:22-28 | after an overwriting copy, the destination holds the source; a file copied onto a file replaces it |
| FileTree.DestInjective | lib/install.js:94-95 | different copies have different destinations |
| FileTree.RunCopiesAppend | lib/install.js:90-100 | running two lists of copies one after the other is running their concatenation, unless the first stopped |
| FileTree.RunCopiesComplete | lib/install.js:93-97 | a run stops exactly when some source is missing; otherwise every destination is written, in order |
| FileTree.RunCopiesFrame | lib/file-operations.js:22-28 | nothing outside the destinations of the copies changes |
| FileTree.RunCopiesLand | lib/file-operations.js:22-28 | after a run that did not stop, every destination holds a copy of its source |
| FileTree.RunCopiesFailure | lib/file-operations.js:25-27 | the error that stops a run names a copy whose source is missing |
| FileTree.ListedFound | lib/file-operations.js:36-41 | every name `listFiles` returns is a template of that directory |
| FileTree.ListedDirsFound | lib/init.js:176 | every name `listDirs` returns is a template of that directory |
| FileTree.FileSystem.EnsureDir | lib/file-operations.js:9-15 | the directory exists afterwards and nothing else changes |
| FileTree.FileSystem.CreateClaudeStructure | lib/file-operations.js:89-93 | exactly `agents`, `commands` and `hooks` are added under the root, and no `skills` |
| FileTree.FileSystem.WriteFile | lib/init.js:134-138 | the path holds the content, whatever was there, and it is recorded as written |
| FileTree.FileSystem.Copy | lib/file-operations.js:22-28 | one copy, as the run of copies specifies it |
| FileTree.FileSystem.CopyEach | lib/install.js:93-97 | the copy loop leaves the tree, the written paths and the error the run of copies specifies |
| Install.TraversalCheckRedundant | lib/install.js:24-33 | a name that passes the character-class test holds none of `..`, `/` and `\`, so the second test cannot fire |
| Install.ValidateAssetName | lib/install.js:22-36 | a name is accepted exactly when it is non-empty and made of ASCII letters, digits, `_` and `-`; it is returned unchanged, and otherwise the pattern error names it |
| Install.ResolvePieces | lib/install.js:67-79 | a selection is accepted exactly when every trimmed piece is a valid name; each result is the trimmed piece plus the suffix |
| Install.ResolvePiecesError | lib/install.js:67-79 | a rejected selection reports the error of its first invalid piece |
| Install.SplitSnocSep | lib/install.js:67 | a trailing comma adds one empty piece |
| Install.TrailingCommaRejected | lib/install.js:67-79 | a selection ending in a comma is rejected |
| Install.ResolveSelected | lib/install.js:66-79 | a given selection is accepted exactly when every trimmed piece is valid, yields piece plus suffix, and fails only with an invalid-name error |
| Install.ResolveListed | lib/install.js:68-80 | without a selection, the listing succeeds exactly when the template directory exists; it holds every entry with the suffix, or every folder for skills, and it is not validated |
| Install.Combine | lib/install.js:66-80 | the four selections succeed together exactly when each succeeds, keeping each result |
| Install.CombineError | lib/install.js:66-80 | a failed resolution reports the first category that failed |
| Install.CombineFails | lib/install.js:66-80 | one failed category makes the resolution fail |
| Install.CategoryFailureStops | lib/install.js:66-100 | a category that fails stops everything before any copy |
| Install.InvalidNameStops | lib/install.js:66-100 | one invalid name in any explicit selection stops the whole installation |
| Install.GroupOpsAppend | lib/install.js:90-100 | the copies of the groups are those of a prefix of the groups followed by those of the rest |
| Install.GroupOpsCover | lib/install.js:83-97 | every selected item of every category is copied under its sub-directory, and nothing else is |
| Install.GroupRunStep | lib/install.js:90-100 | copying one more group continues the run from where the earlier groups left it |
| Install.GroupRunEmpty | lib/install.js:91 | an empty group adds no copies |
| Install.CopyGroup | lib/install.js:91-99 | one turn of the loop advances the run by one group, or ends it with that group's error |
| Install.CopyGroups | lib/install.js:90-100 | the copy loop leaves the tree, the written paths and the error the run of every group's copies specifies |
| Install.Install | lib/install.js:48-115 | the structure is always created; an invalid or unlistable selection fails with no copy made; otherwise the copies run in category order and the first failure is rethrown |
| Init.ChooseStack | lib/init.js:66-116 | the chosen id is in the catalog; a failure names an id that is not |
| Init.DetectedTechIff | lib/init.js:68-72 | the description is non-empty exactly when something was detected |
| Init.ChooseStackUnattended | lib/init.js:70-112 | with `--yes`, the choice is the detected id, or `generic` when there is none, and it fails only for an uncatalogued id |
| Init.ChooseStackPicked | lib/init.js:89-107 | a catalog stack picked at the prompt is used, when nothing was detected or the detected one was declined |
| Init.ChooseStackAccepted | lib/init.js:89-111 | without `--yes`, when something was detected and the user accepts it, the detected id is used, or `generic` when the detection matched no template |
| Init.UncataloguedDetectionFails | lib/init.js:80-86 | a detected id that is not in the catalog makes `init` fail with it |
| Init.TypeScriptOnlyFails | lib/detect-stack.js:478-479 | a project whose only finding is `typescript` maps to `node-generic`, and `init` fails on it |
| Init.TechAgnostic | lib/init.js:143-145 | the filter keeps exactly the listed files whose stem is not a generated agent's |
| Init.TechAgnosticAppend | lib/init.js:143-145 | the filter keeps listing order: filtering a concatenation concatenates the filtered parts, and one file is kept exactly when its stem is not a generated agent's |
| Init.TechAgnosticDrops | lib/init.js:143-145 | for `.md` listings, the filter drops exactly the two generated file names |
| Init.TechAgnosticDropsGenerated | lib/init.js:143-145 | the template agents copied are the listed ones other than `developer.md` and `database.md` |
| Init.WriteAllHolds | lib/init.js:133-139 | after the write loop, each generated agent holds its content, and nothing else changes |
| Init.AgnosticAvoidsGenerated | lib/init.js:143-152 | no tech-agnostic copy lands on a generated agent |
| Init.StageFrame | lib/init.js:156-187 | copies into one sub-directory touch nothing outside it |
| Init.GeneratedSurvive | lib/init.js:133-187 | after `init`, every generated agent still holds its generated content |
| Init.InitCopiesFrame | lib/init.js:133-187 | `init` changes nothing outside `agents`, `hooks` and `skills` |
| Init.NoCommands | lib/init.js:156-187 | `init` installs no commands |
| Init.StagesExtend | lib/init.js:147-187 | each step keeps the paths written before it first |
| Init.GeneratedWrittenFirst | lib/init.js:133-152 | the generated agents are the first paths written, before any template is copied |
| Init.StageFailure | lib/init.js:147-171 | a run of copies into one sub-directory can only fail on it |
| Init.SkillsNonFatal | lib/init.js:174-187 | the error that ends `init` is about `agents` or `hooks`; a skills error is only recorded as skipped, and `init` completes |
| Init.InitCompletes | lib/init.js:143-187 | `init` copies everything, with nothing skipped, exactly when the templates have `agents`, `hooks` and `skills` |
| Init.AllFound | lib/init.js:147-151 | copies whose templates all exist run to the end |
| Init.WriteGenerated | lib/init.js:133-139 | the write loop leaves the tree the generated agents specify, and records their paths in order |
| Init.InitCore | lib/init.js:133-187 | the steps after the structure leave the tree, the written paths, the error and the skipped skills error as the step-by-step specification gives them |
| Init.Init | lib/init.js:28-187 | a declined prompt without the CLI cancels with nothing changed; an uncatalogued stack fails with nothing changed; otherwise the structure is created under the project or global directory, and the copies follow the specification, a copy error failing `init` and a skills error being skipped |

## Left out

- The prose of the catalog and the fixed prose paragraphs of the two documents are opaque, non-empty stand-ins. Only the headings, frontmatter and field positions are kept.
- `toLowerCase` is modelled on ASCII letters only. Non-ASCII case mappings are not modelled.
- `getStack` is a finite map. Inherited object keys such as `constructor`, which JavaScript would also find, are not modelled.
- Truthiness of JSON dependency values is modelled for strings, booleans, null, objects and arrays. Numbers are integers: only a number's truthiness matters, so a fraction stands as any non-zero integer, and floating point is not modelled.
- Reading files and parsing JSON are inputs: a project is an already-read value, and `readJsonSafe`'s failure is "absent".
- The working directory, the home directory, the package's template directory and the CLI check are parameters of the commands.
- Prompts (`confirm`, `select`) and console or spinner output are not modelled. The answers are inputs to `Init.Init`.
- `Init.Init` takes the result of `detectStack` as an input, rather than running the probes on the working directory.
- File-system errors are abstracted to "cannot list a directory" and "cannot copy a source". Permission or disk errors on the target side are not modelled, and `ensureDir` is modelled as a set insertion.
- There is no path containment beyond `validateAssetName`. None exists in the code: the copy helpers are bare overwriting copies.
- `copyDir`, `listDirs`, `writeFile` and `templateDir` are not part of this model's sources. `copyDir` is modelled as a merge of the source's files into the destination directory, and `listDirs` as the folder entries of a listing.
- `getAvailableStacks` (lib/detect-stack.js:626-628) only returns `getStackChoices()`; see `Stacks.GetStackChoices`.
- `detectClaudeCode` and `getInstallInstructions` (lib/detect-claude-code.js) are not part of this model. Whether the CLI is installed is an input.
- bin/cli.js is not modelled. Its default scope (bin/cli.js:41-44 sets `project` unless `--global` is given) is left to the caller: `project` is an input of `Install.Install` and `Init.Init`, and both choose the project or the global directory from it exactly as lib/install.js:53 and lib/init.js:120 do.
- `installCounts` and the printed summary only report counts, so they are not modelled.
- Concurrency and the `async` interleavings are not modelled: every `await` runs to completion in program order.
- DetectStack.HasDependency: its own contract states only the `devDependencies` case. `DetectStack.HasDependencyIff` states all three sections.
- Init.ChooseStack: its contract states only that a success is catalogued and a failure is not. The branches are stated by `Init.ChooseStackUnattended` (`--yes`), `Init.ChooseStackAccepted` (the detection accepted at the prompt), `Init.ChooseStackPicked` (nothing detected, or the detection declined) and `Init.UncataloguedDetectionFails` (a detected id the catalog lacks). Prompt answers outside the catalog cannot occur, since `select` offers only catalog ids.
- Init.GeneratedSurvive: it is stated for any list of agents with distinct names. `GenerateAgents.GenerateStackAgents` states that its two names, `developer.md` and `database.md`, differ. The combined statement about the catalog's documents is not proved as one lemma.
- FileTree.Place: a file copied onto an existing directory, or a directory onto an existing file, replaces what was there in the model. `fs.copy` throws in both cases instead, so `FileTree.RunCopies` reports no error for these two clashes in the target tree.
- DetectStack.Merge: a field holding the empty string would count as set in the model, while JavaScript treats `""` as falsy and would let a later probe fill it. No probe ever returns an empty tag, so the difference cannot show.
- DetectStack.MapToStackTemplate: the `!database` tests of the Django and FastAPI rules accept a null database only; JavaScript would also accept `""`, which no probe returns.
