# Skillbook tooling: a Dafny model

This project models the build tooling of a skill catalog ("skillbook").
The catalog holds bilingual (Korean and English) skills and categories.
Three Node scripts work on it. The project models their logic, not their I/O.

- **tools/sync-engine.mjs** turns the catalog into the website's typed module `data.ts`. It also bumps the plugin version and rewrites `plugin.json` and `marketplace.json` with the new version and a description that counts the workflow and domain skills. Modelled parts:
  - the TypeScript string-literal renderer `tsStr`;
  - the two `{ ko, en }` renderers, `bilingualOneLine` and `bilingualMultiLine`;
  - the line-list builder `generateDataTs`;
  - the decision inside `countSkillLines`;
  - `bumpVersion` and `buildDescription`;
  - the two copy-with-override updaters;
  - the workflow/domain count.
- **tools/migrate-add-category.mjs** gives every skill document a `category:` line. It builds an id → category map from the catalog. It then walks the skill directories, inserts `category: <cat>` after the first `name: …` line of each SKILL.md, and counts the documents it updated, skipped and warned about.
- **tools/track-usage.mjs** records one use of a skill in a stats map. The record's count goes up by one, `lastUsed` becomes today, and today is prepended to a history capped at 90 entries (a day used twice appears twice).

Modules, one or two per concern:

| module | file | what it holds |
|---|---|---|
| `Wrappers` | wrappers.dfy | `Option` and `Result` |
| `Text` | text.dfy | the JavaScript string operations the scripts use (`split`, `join`, `includes`, decimal rendering and reading); lemmas about them |
| `Catalog` | catalog.dfy | the catalog entities: bilingual text, category, skill, the `ui` table, the whole meta |
| `TsRender` | ts_render.dfy | `tsStr` and the bilingual renderers, plus a reader of the TypeScript literals they write (the round-trip partner) |
| `DataTs` | data_ts.dfy | `generateDataTs` as a method that pushes lines in nested loops, proved equal to the function `DataTsLines` of the line list; lemmas about the layout |
| `LineCount` | line_count.dfy | the pure decision of `countSkillLines` |
| `Semver` | semver.dfy | `bumpVersion` as a method over a three-slot array, proved against the function `BumpResult`; its error cases and the examples from the repository's tests |
| `Manifests` | manifests.dfy | `buildDescription` with its reader, JSON values, object spread, `updatePluginJson`, `updateMarketplaceJson` and the workflow/domain split |
| `MigrateCategory` | migrate_category.dfy | the category map loop, the multi-line regex replacement, the per-directory classification and the counter loop, with idempotence |
| `TrackUsage` | track_usage.dfy | the record update and the bounded history |

Inputs the scripts read and clocks they consult are parameters:

- the contents of SKILL.md, as `Option<string>`;
- the skills directory, as a map from directory name to file text;
- the parsed stats file, as `Option<map>`;
- the current day, as a string;
- the command-line skill id, as `Option<string>`.

Results the scripts write become return values.

`bumpVersion` checks only that the dot-split gives three pieces (tools/sync-engine.mjs:205), so a piece such as `x` becomes `NaN` and is not rejected.

## Model

| member | source | states |
|---|---|---|
| TsRender.Escape | tools/sync-engine.mjs:57-60 | the three global replacements in their order: every `\` doubled, then every `"` and every LF written as `\"` and `\n` |
| TsRender.ReplaceAll | tools/sync-engine.mjs:58-60 | one `s.replace(/c/g, rep)`: each character equal to `c` becomes `rep`, the others are kept in order |
| TsRender.ReplaceAllEvery | tools/sync-engine.mjs:58-60 | the `g` flag: no `c` is left unless `rep` holds one, and the length grows by `|rep| - 1` per occurrence |
| TsRender.TsStr | tools/sync-engine.mjs:55-62 | `tsStr(v)`: `v` with `\`, then `"`, then newline escaped, between double quotes; its properties are the lemmas below |
| TsRender.BilingualOneLine | tools/sync-engine.mjs:68-70 | `bilingualOneLine(obj)`: `{ ko: <tsStr>, en: <tsStr> }` on one line |
| TsRender.BilingualMultiLine | tools/sync-engine.mjs:76-83 | `bilingualMultiLine(obj, indent)`: the four lines `{`, the indented `ko` and `en` texts, and the indented `}`, joined with newlines |
| TsRender.TsStrShape | tools/sync-engine.mjs:55-62 | a `tsStr` literal has length at least 2, starts and ends with `"`, and contains no raw newline |
| TsRender.EscapeIsEach | tools/sync-engine.mjs:55-62 | the three global replaces, in the order backslash, quote, newline, equal escaping each character on its own: every `\` becomes `\\`, every `"` becomes `\"`, every newline becomes `\n`, and nothing is escaped twice |
| TsRender.ReadTsStr | tools/sync-engine.mjs:55-62 | for a text without a carriage return, a TypeScript reader of double-quoted literals (which refuses a raw line feed or carriage return) reads `tsStr(v)` followed by any text back as exactly `v` and that text |
| TsRender.CarriageReturnUnreadable | tools/sync-engine.mjs:55-62 | `tsStr` leaves a carriage return raw, so for a text holding one the output holds one too and no TypeScript reader accepts it as a literal |
| TsRender.OneLineNoNewline | tools/sync-engine.mjs:68-70 | `bilingualOneLine` renders on a single line |
| TsRender.OneLineRoundTrip | tools/sync-engine.mjs:68-70 | `bilingualOneLine(b)` parses back to `b` when neither text holds a carriage return |
| TsRender.MultiLineSplit | tools/sync-engine.mjs:76-83 | `bilingualMultiLine` with a newline-free indent splits into exactly its four lines `{`, `  ko: …,`, `  en: …,`, `}` |
| TsRender.MultiLineRoundTrip | tools/sync-engine.mjs:76-83 | the rendering has four lines, and it parses back to the pair it was made from when neither text holds a carriage return |
| DataTs.DataTsLines | tools/sync-engine.mjs:107-195 | the line list of data.ts: the 22 type-declaration lines, the `ui` section, the `categories` section and the `skills` section, in this order |
| DataTs.CategoryLines | tools/sync-engine.mjs:149 | a category is one line: `  { id: …, label: …, icon: …, description: … },` with id, label and icon rendered by `tsStr` and the description by `bilingualOneLine` |
| DataTs.ItemLines | tools/sync-engine.mjs:178 | an element of `principles` or `antiPatterns` is one line: six spaces, its `bilingualOneLine` rendering and a comma |
| DataTs.SkillLines | tools/sync-engine.mjs:157-193 | a skill's block is `  {`, the lines of the ten fields in field order, and `  },` |
| DataTs.UiEntryLines | tools/sync-engine.mjs:138 | one `    key: "value",` line, with the key written as it is and the value through `tsStr` |
| DataTs.GenerateDataTs | tools/sync-engine.mjs:106-198 | the text is the line list `DataTsLines` joined with newlines; it starts with the `Lang` type declaration and ends with `\n];` |
| DataTs.PushUi | tools/sync-engine.mjs:134-143 | the `ui` loops push the header, then for each language in order a `<lang>: {` line, its entries and `},`, then `};` and an empty line |
| DataTs.PushUiEntries | tools/sync-engine.mjs:137-139 | the inner loop pushes one `key: "value",` line per entry, in insertion order |
| DataTs.PushCategories | tools/sync-engine.mjs:146-152 | the categories loop pushes the header, one line per category in order, `];` and an empty line |
| DataTs.PushSkills | tools/sync-engine.mjs:155-195 | the skills loop pushes the header, one block per skill in order, and the closing `];` |
| DataTs.PushSkill | tools/sync-engine.mjs:157-193 | one skill pushes `{`, the lines of its ten fields in field order, and `},` |
| DataTs.PushFirstFields | tools/sync-engine.mjs:158-173 | pushes the `id`, `name`, `description`, `category` and `role` lines in this order |
| DataTs.PushListFields | tools/sync-engine.mjs:176-190 | pushes the `principles`, `processSteps` and `antiPatterns` lines in this order, after the first five fields |
| DataTs.PushLastFields | tools/sync-engine.mjs:191-192 | pushes the `lineCount` and `path` lines, after the first eight fields, completing all ten |
| DataTs.PushBlock | tools/sync-engine.mjs:162-165 | `description` and `role` push a header line, the `ko` and `en` texts and `},` |
| DataTs.PushList | tools/sync-engine.mjs:176-180 | `principles` and `antiPatterns` push a header line, one line per element and `],` |
| DataTs.DataTsBegins | tools/sync-engine.mjs:110 | data.ts starts with `export type Lang = "ko" \| "en";` |
| DataTs.DataTsEnds | tools/sync-engine.mjs:195-197 | data.ts ends with the line `];` that closes the skills array, with nothing after it |
| DataTs.CategoryOneLine | tools/sync-engine.mjs:147-150 | every category renders as exactly one line, holding no newline |
| DataTs.ItemLinesAt | tools/sync-engine.mjs:177-179 | a list renders exactly one line per element, and line `i` is the one-line record of element `i` |
| DataTs.ListLinesAt | tools/sync-engine.mjs:176-189 | a list field has `len + 2` lines: the `[` header, one one-line record per element in order, then `],`, so an empty list gives just the two bracket lines |
| DataTs.FieldLabelled | tools/sync-engine.mjs:157-193 | every field renders at least one line, and its first line starts with the four-space indent and the field's label |
| DataTs.FieldInBlock | tools/sync-engine.mjs:157-193 | the lines of each field stand in the skill block, consecutive, from the field's start index on (the slice of the block there is exactly the field's lines) |
| DataTs.FieldLineInBlock | tools/sync-engine.mjs:157-193 | in a skill block, the start line of each field carries the field's label |
| DataTs.FieldStartsOrdered | tools/sync-engine.mjs:157-193 | in a skill block, an earlier field in the order starts at a smaller index |
| DataTs.SkillFieldLine | tools/sync-engine.mjs:157-193 | in a skill block, the start lines of two fields carry their labels and come in field order |
| DataTs.SkillBlockAt | tools/sync-engine.mjs:155-195 | the block of skill `k` stands in the file's line list from its start index on |
| DataTs.FieldLineInFile | tools/sync-engine.mjs:155-195 | the start line of field `f` of skill `k` is in the file and starts with the field's label |
| DataTs.SkillFieldOrder | tools/sync-engine.mjs:156-194 | for every skill, the lines of `id`, `name`, `description`, `category`, `role`, `principles`, `processSteps`, `antiPatterns`, `lineCount` and `path` come in this order in data.ts, and each starts with its label |
| DataTs.FieldLabelInText | tools/sync-engine.mjs:156-197 | in the joined text, the label of field `f` of skill `k` stands right after the four-space indent of its line |
| DataTs.SkillFieldOrderInText | tools/sync-engine.mjs:156-197 | in the joined text, each field's label stands right after the indent of its line, and an earlier field sits at a smaller character offset |
| DataTs.DescriptionMultiLine | tools/sync-engine.mjs:162-165 | the `description` lines pushed one by one join to `bilingualMultiLine` with a four-space indent, behind the field label |
| DataTs.RoleMultiLine | tools/sync-engine.mjs:170-173 | the `role` lines pushed one by one join to `bilingualMultiLine` with a four-space indent, behind the field label |
| DataTs.RankInverse | tools/sync-engine.mjs:157-193 | the field order lists every field once, at its rank |
| LineCount.CountSkillLines | tools/sync-engine.mjs:89-98 | with no readable file the result is `fallback`; otherwise it is the number of `\n` in the content plus one |
| LineCount.CountSkillLinesAppend | tools/sync-engine.mjs:94 | appending a line adds one to the count, and empty content counts one line |
| LineCount.SkillDocDir | tools/sync-engine.mjs:90 | a final `.md` is removed from the skill path, and any other path is kept |
| Semver.Message | tools/sync-engine.mjs:205-217 | the two error texts: `Invalid semver: ` followed by the version, and `Invalid bump type: "…". Must be one of: patch, minor, major` |
| Semver.Bump | tools/sync-engine.mjs:207-215 | patch adds one to the patch number; minor adds one to the minor and resets patch; major adds one to the major and resets minor and patch |
| Semver.BumpResult | tools/sync-engine.mjs:203-221 | what `bumpVersion` returns or throws: the semver error when the piece count is not three, then the bump-type error, then the bumped parts joined with dots |
| Semver.BumpVersion | tools/sync-engine.mjs:203-221 | for pieces of digits up to `Number.MAX_SAFE_INTEGER`, the in-place bump of the parts array returns exactly `BumpResult`: the semver error, the bump-type error, or the joined bumped parts |
| Semver.ParseBumpType | tools/sync-engine.mjs:207-217 | a bump type is accepted exactly when it is `patch`, `minor` or `major` |
| Semver.ParseVersion | tools/sync-engine.mjs:204-205 | a version is rejected exactly when its dot-split does not have three pieces |
| Semver.VersionRoundTrip | tools/sync-engine.mjs:204-220 | a version joined with dots splits and reads back as the same three numbers |
| Semver.BumpReadsBack | tools/sync-engine.mjs:207-220 | a successful bump reads back as `(a, b, c+1)` for patch, `(a, b+1, 0)` for minor and `(a+1, 0, 0)` for major |
| Semver.SemverCheckedFirst | tools/sync-engine.mjs:205 | a version without three pieces is rejected as an invalid semver whatever the bump type, and the message contains the version |
| Semver.BumpTypeRejected | tools/sync-engine.mjs:216-218 | with three pieces, every other type is rejected with a message that names the type and the accepted types |
| Semver.OneDigitBump | tools/sync-engine.mjs:203-221 | on one-digit versions, the bump's text is the bumped digits joined with dots |
| Semver.BumpPatchExample | tools/tests/sync-engine.test.mjs:198-200 | `bumpVersion("1.2.3", "patch")` is `1.2.4` |
| Semver.BumpMinorExample | tools/tests/sync-engine.test.mjs:202-204 | `bumpVersion("1.2.3", "minor")` is `1.3.0` |
| Semver.BumpMajorExample | tools/tests/sync-engine.test.mjs:206-208 | `bumpVersion("1.2.3", "major")` is `2.0.0` |
| Semver.ZeroPatchExample | tools/tests/sync-engine.test.mjs:211 | `bumpVersion("0.0.1", "patch")` is `0.0.2` |
| Semver.ZeroMinorExample | tools/tests/sync-engine.test.mjs:212 | `bumpVersion("0.0.9", "minor")` is `0.1.0` |
| Semver.ZeroMajorExample | tools/tests/sync-engine.test.mjs:213 | `bumpVersion("0.9.9", "major")` is `1.0.0` |
| Semver.LaterPatchExample | tools/tests/sync-engine.test.mjs:220-222 | `bumpVersion("3.2.0", "patch")` is `3.2.1` |
| Semver.LaterMinorExample | tools/tests/sync-engine.test.mjs:224-226 | `bumpVersion("3.2.0", "minor")` is `3.3.0` |
| Semver.BumpTypeExample | tools/tests/sync-engine.test.mjs:216-218 | `bumpVersion("1.0.0", "invalid")` fails with the bump-type error |
| Manifests.BuildDescription | tools/sync-engine.mjs:226-231 | the long or the short description text, holding the total, workflow and domain counts in this order |
| Manifests.DescriptionRoundTrip | tools/sync-engine.mjs:226-231 | both descriptions, long and short, read back to exactly the total, workflow and domain counts they were built from |
| Manifests.ReadCountsRoundTrip | tools/sync-engine.mjs:226-231 | three numbers followed by their fixed fragments read back as the three numbers |
| Manifests.Spread | tools/sync-engine.mjs:238 | `{ ...v }`: an object's own fields, an array's elements and a string's characters under their decimal indexes, and nothing for any other value |
| Manifests.Override | tools/sync-engine.mjs:237-241 | `{ ...v, version: newVersion, description: text }` |
| Manifests.OverrideFields | tools/sync-engine.mjs:237-241 | `{ ...v, version, description }` has the keys of `v` plus the two, the two new values, and every other value of `v` |
| Manifests.UpdatePluginJson | tools/sync-engine.mjs:236-242 | the copy has the original's keys plus `version` and `description`; `version` is the new version; `description` is the long description; every other key keeps its value |
| Manifests.PluginDescriptionCounts | tools/sync-engine.mjs:236-242 | the new description of plugin.json reads back to the three counts |
| Manifests.UpdateMarketplaceJson | tools/sync-engine.mjs:248-263 | the update succeeds exactly when `plugins` is an array, and fails with the `TypeError` of `.map` otherwise |
| Manifests.UpdatePlugins | tools/sync-engine.mjs:253-260 | the mapped array has the same length; element 0 is the override with the short description; every later element is a spread copy |
| Manifests.MarketplaceRoot | tools/sync-engine.mjs:248-263 | at the root: the keys are the original's plus `version`, `description` and `plugins`; `version` and the long description are set; `plugins` is the mapped array; every other key is unchanged |
| Manifests.MarketplacePlugins | tools/sync-engine.mjs:253-260 | `plugins` keeps its length; `plugins[0]` gets the new version and the short description and keeps its other keys; every later object plugin equals the original |
| Manifests.WorkflowSkills | tools/sync-engine.mjs:303 | the skills whose id is one of the workflow ids, in list order |
| Manifests.WorkflowSkillsAre | tools/sync-engine.mjs:303 | the filter keeps exactly the skills whose id is a workflow id, and is never longer than the list |
| Manifests.WorkflowSkillsAppend | tools/sync-engine.mjs:303 | filtering a concatenation is the concatenation of the filters |
| Manifests.NoneWorkflow | tools/sync-engine.mjs:303 | with no skill whose id is a workflow id, the filter is empty |
| Manifests.AllWorkflow | tools/sync-engine.mjs:303 | with every skill's id a workflow id, the filter keeps the whole list |
| Manifests.SkillCounts | tools/sync-engine.mjs:303-305 | total is the number of skills; workflow plus domain is the total; workflow is the size of the filter; no workflow skill gives workflow 0; all workflow skills give domain 0 |
| MigrateCategory.CategoryMapOf | tools/migrate-add-category.mjs:8-11 | the id → category map built skill by skill, so a later skill with the same id overwrites an earlier one |
| MigrateCategory.BuildCategoryMap | tools/migrate-add-category.mjs:8-11 | the loop builds `CategoryMapOf`, which sets each skill's id in turn |
| MigrateCategory.CategoryMapKeys | tools/migrate-add-category.mjs:8-11 | the map has an entry for an id exactly when some skill has that id |
| MigrateCategory.CategoryMapLast | tools/migrate-add-category.mjs:8-11 | the entry of an id is the category of the last skill with that id |
| MigrateCategory.LineEnd | tools/migrate-add-category.mjs:48 | the end of a line is the first line terminator (`\n`, `\r`, U+2028, U+2029) at or after the position, or the end of the text |
| MigrateCategory.NameLineAt | tools/migrate-add-category.mjs:48 | position `p` is a match of `/^(name: .+)$/m`: it starts a line, the line begins with `name: `, and at least one character follows before the line ends |
| MigrateCategory.FirstNameLine | tools/migrate-add-category.mjs:47-50 | a found position is at or after the start and is a match of `^(name: .+)$` under the `m` flag |
| MigrateCategory.FirstNameLineIsFirst | tools/migrate-add-category.mjs:47-50 | the search finds the first match, and finds none only when there is no match at all |
| MigrateCategory.CategoryLine | tools/migrate-add-category.mjs:49 | the text appended after the matched line: a newline, `category: ` and the category |
| MigrateCategory.InsertCategory | tools/migrate-add-category.mjs:47-50 | `content.replace(/^(name: .+)$/m, …)`: the category line inserted at the end of the first matching line, or the content as it was when no line matches |
| MigrateCategory.InsertCategoryPlaces | tools/migrate-add-category.mjs:47-50 | with no `name:` line the content is unchanged; otherwise `\ncategory: <cat>` is inserted right after the first `name: X` line (X non-empty), and the text before and after it is kept |
| MigrateCategory.InsertChanges | tools/migrate-add-category.mjs:47-52 | the replacement changes the content exactly when there is a `name:` line |
| MigrateCategory.InsertedHasCategory | tools/migrate-add-category.mjs:40-50 | an inserted text contains `"\ncategory:"`, so a later run skips it |
| MigrateCategory.MappedCategory | tools/migrate-add-category.mjs:33-34 | the directory's category when the map holds a non-empty one; no category for a missing key or the empty string, both of which `!category` rejects |
| MigrateCategory.Classify | tools/migrate-add-category.mjs:24-59 | an unreadable file warns; a file with no mapping (absent or empty) warns; a file containing `"\ncategory:"` is skipped; otherwise a file with a `name:` line is updated to exactly `InsertCategory` of it, and a file without one warns with no write |
| MigrateCategory.Step | tools/migrate-add-category.mjs:22-61 | one turn of the loop raises exactly one counter: `warned` for an unreadable file, a missing mapping or no `name:` line; `skipped` for a file with a category; `updated` for a file with a `name:` line, which alone is written, with the insertion |
| MigrateCategory.Run | tools/migrate-add-category.mjs:18-61 | the counters and the files after the loop has visited the directories in order, one `Step` per directory, starting from zero counters |
| MigrateCategory.Migrate | tools/migrate-add-category.mjs:18-61 | the loop with its `continue` branches computes the counters and files of `Run`, and updated + skipped + warned equals the number of directories |
| MigrateCategory.RunTotal | tools/migrate-add-category.mjs:18-61 | every directory visited raises exactly one counter |
| MigrateCategory.RunWrites | tools/migrate-add-category.mjs:22-61 | no file appears or disappears; unvisited documents are unchanged; a changed document contains `"\ncategory:"` |
| MigrateCategory.RunSettles | tools/migrate-add-category.mjs:22-61 | after a run, no visited directory would be updated again |
| MigrateCategory.RunOnSettled | tools/migrate-add-category.mjs:22-61 | a run over settled directories updates nothing and writes nothing |
| MigrateCategory.MigrateIdempotent | tools/migrate-add-category.mjs:18-61 | running the migration a second time updates nothing and leaves every document as the first run left it |
| TrackUsage.RecordOf | tools/track-usage.mjs:21-23 | the stored record of the id, or `{count: 0, lastUsed: null, history: []}` when there is none |
| TrackUsage.Touch | tools/track-usage.mjs:24-29 | count goes up by exactly one; `lastUsed` is today; `history[0]` is today; the history is `[today] + old` cut to its first `min(old length + 1, 90)` entries |
| TrackUsage.Track | tools/track-usage.mjs:8-29 | a missing or empty skill id gives the usage error, and only then; otherwise the stats (empty when there is no file) get the touched record of the id, starting from `{count: 0, lastUsed: null, history: []}` when the id has none |
| TrackUsage.TrackKeepsOthers | tools/track-usage.mjs:21-29 | only the used id's record changes: the keys are the old keys plus that id, and every other record is as it was |
| TrackUsage.UsesFromFresh | tools/track-usage.mjs:21-29 | from no record, uses on a list of days give count = the number of days, `lastUsed` = the last day, and history = the days of the last 90 uses at most, newest first |
| Text.Split | tools/sync-engine.mjs:94 | JavaScript `split` on one character (also used at line 204): the pieces between separators, none holding the separator, at least one piece |
| Text.Join | tools/sync-engine.mjs:197 | JavaScript `join` (also used at lines 82 and 220): the elements with the separator between each two, nothing for the empty list |
| Text.Contains | tools/migrate-add-category.mjs:40 | JavaScript `includes`: `sub` occurs at some position of `s` |
| Text.NatToString | tools/sync-engine.mjs:182 | the `${n}` of a count (also at lines 191, 220, 228 and 230): a non-empty run of decimal digits |
| Text.DecimalValue | tools/sync-engine.mjs:204 | the `.map(Number)` of a digit piece, `""` read as 0; its partner is `Text.DecimalOfNatToString` |
| Text.DecimalOfNatToString | tools/sync-engine.mjs:204-220 | reading a rendered number back with `Number` gives the number |
| Text.NatToStringInjective | tools/sync-engine.mjs:220 | distinct numbers render to distinct texts |
| Text.SplitCount | tools/sync-engine.mjs:94 | `split` on a character gives one more piece than the character has occurrences |
| Text.SplitJoin | tools/sync-engine.mjs:204-220 | joining pieces without the separator and splitting again gives the pieces back |

## Left out

- File system, process and console. This covers `readFileSync`, `writeFileSync`, `existsSync`, `readdirSync`, `process.argv`, `process.exit` and every `console` call. Reads become parameters; writes become return values.
- The `main` driver of tools/sync-engine.mjs (lines 267-330) is not modelled. This includes its lineCount refresh loop (lines 283-285), which calls `countSkillLines`, and its own bump-type check (lines 272-275), which repeats the validation inside `bumpVersion`.
- Text.NatToString: renders every nat in plain decimal. JavaScript's `${n}` is exact only up to 2^53 and switches to exponent form from 1e21. This matters for `processSteps` and `lineCount` in data.ts (tools/sync-engine.mjs:182, 191) and for the counts in `buildDescription` (lines 226-231). No catalog comes near these sizes.
- `JSON.parse` and `JSON.stringify(…, null, 2)`. JSON is an abstract datatype, and an object is a map, so key order and formatting are not modelled.
- The clock: `new Date().toISOString().split("T")[0]` is the parameter `today`.
- Semver.BumpVersion: `Number()` is modelled only on pieces of decimal digits, with `""` read as 0, each at most `Number.MAX_SAFE_INTEGER` (2^53 - 1). When the split gives three pieces, the precondition requires this. `NaN`, signs, whitespace, exponents and fractions are not modelled. Neither is the rounding of larger pieces to the nearest double (`0.0.9007199254740992` bumps to itself in the source) or their growth to `Infinity`.
- Semver.BumpResult: carries the same `requires Readable(version)` as Semver.BumpVersion, so it has the same `Number()` limit: decimal digit pieces up to `Number.MAX_SAFE_INTEGER` only.
- Semver.ParseVersion: has the same precondition and limit as Semver.BumpResult. A version whose split does not give three pieces still gives `None`.
- TsRender.ReadTsStr, TsRender.OneLineRoundTrip and TsRender.MultiLineRoundTrip: the round trips are stated only for texts without a carriage return. `tsStr` does not escape `\r`, and TypeScript refuses a raw carriage return in a string literal, so data.ts with such a text does not compile; TsRender.CarriageReturnUnreadable states this.
- MigrateCategory.CategoryLine: a `$` pattern inside the category (such as `$&` or `$1`) would be expanded by `replace`. The model takes the category literally.
- Prototype keys such as `constructor` or `__proto__` in `categoryMap` and in the stats object are not modelled. The maps are plain maps.
- TrackUsage.Track: a stored record that is present but falsy is not modelled, because records are typed. So is a record without a `count` or `history` field. An existing record is always updated in place.
- Manifests.Spread: the spread of a string is keyed by code point, not by UTF-16 code unit. Numbers, booleans and `null` spread to `{}`, as in JavaScript.
- Manifests.MarketplacePlugins: the clause for the plugins after the first, "equal to the original", is stated only for plugins that are objects. A spread copy of an array or a string is an index-keyed object, not an equal value.
- DataTs.UiEntryLines: the `ui` keys and language names are written unquoted, as the source writes them, so a key that is not a valid TypeScript identifier gives invalid TypeScript. The model does not check this.
- DataTs.PushUi: JavaScript lists the keys of an object that look like array indexes first, in numeric order, before the other keys in insertion order. The `ui` table is modelled as a list of pairs in the order `Object.entries` gives, so that reordering is assumed to have happened already.
- LineCount.SkillDocDir: `resolve` against the skills directory and the `SKILL.md` suffix are path handling on the file system and are not modelled.
- tools/extract-meta.mjs is not part of this model. It only imports a TypeScript module and writes a file.
- `stripFrontmatter`, `generateIndexMd`, the legacy mirror and the reconciler are not modelled. The tests refer to them, but tools/sync-engine.mjs does not define them.
