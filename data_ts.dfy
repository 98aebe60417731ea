/**
 * `generateDataTs` of tools/sync-engine.mjs: the typed module data.ts,
 * built as a list of lines and joined with newlines.
 *
 * `DataTsLines` defines that list; the method builds it
 * the way the source does, by pushing lines in nested loops, and the
 * lemmas state the layout the website relies on: the fixed prologue, the
 * closing `];`, the one-line rendering of list items and the field order
 * inside every skill block.
 */
module DataTs {
  import opened Text
  import opened Catalog
  import opened TsRender

  const LangDeclaration := "export type Lang = \"ko\" | \"en\";"

  /** The type declarations at the head of data.ts, one element per line. */
  function TypeDeclarations(): (lines: seq<string>)
    ensures |lines| == 22
  {
    seq(22, TypeDeclarationLine)
  }

  function TypeDeclarationLine(i: int): string
    requires 0 <= i < 22
  {
    if i == 0 then LangDeclaration
    else if i == 1 then ""
    else if i == 2 then "export interface Skill {"
    else if i == 3 then "  id: string;"
    else if i == 4 then "  name: { ko: string; en: string };"
    else if i == 5 then "  description: { ko: string; en: string };"
    else if i == 6 then "  category: string;"
    else if i == 7 then "  role: { ko: string; en: string };"
    else if i == 8 then "  principles: { ko: string; en: string }[];"
    else if i == 9 then "  processSteps: number;"
    else if i == 10 then "  antiPatterns: { ko: string; en: string }[];"
    else if i == 11 then "  lineCount: number;"
    else if i == 12 then "  path: string;"
    else if i == 13 then "}"
    else if i == 14 then ""
    else if i == 15 then "export interface Category {"
    else if i == 16 then "  id: string;"
    else if i == 17 then "  label: string;"
    else if i == 18 then "  icon: string;"
    else if i == 19 then "  description: { ko: string; en: string };"
    else if i == 20 then "}"
    else ""
  }

  const UiHeader := "export const ui: Record<Lang, Record<string, string>> = {"
  const CategoriesHeader := "export const categories: Category[] = ["
  const SkillsHeader := "export const skills: Skill[] = ["

  // ---- the line list, as a function ----

  /** One `key: "value",` line of a language's UI table (the key is written as it is). */
  function UiEntryLines(entry: (string, string)): seq<string> {
    ["    " + entry.0 + ": " + TsStr(entry.1) + ","]
  }

  function UiLangLines(lang: (string, seq<(string, string)>)): seq<string> {
    ["  " + lang.0 + ": {"] + FlatMap(lang.1, UiEntryLines) + ["  },"]
  }

  function CategoryLines(c: Category): seq<string> {
    ["  { id: " + TsStr(c.id) + ", label: " + TsStr(c.labelText) + ", icon: " + TsStr(c.icon)
     + ", description: " + BilingualOneLine(c.description) + " },"]
  }

  /** One element of `principles` or `antiPatterns`. */
  function ItemLines(b: Bilingual): seq<string> {
    ["      " + BilingualOneLine(b) + ","]
  }

  /** The fields of a skill block, in their compatibility order. */
  datatype Field =
    | IdField | NameField | DescriptionField | CategoryField | RoleField
    | PrinciplesField | ProcessStepsField | AntiPatternsField | LineCountField | PathField

  const AllFields: seq<Field> := [
    IdField, NameField, DescriptionField, CategoryField, RoleField,
    PrinciplesField, ProcessStepsField, AntiPatternsField, LineCountField, PathField
  ]

  /** A one-line field of a skill: `    <tag><value>,`. */
  function FieldLine(tag: string, value: string): string {
    "    " + tag + value + ","
  }

  /** One text of a multi-line pair: `      <key><literal>,`. */
  function TextLine(key: string, v: string): string {
    "      " + key + TsStr(v) + ","
  }

  /** `description` and `role`: the header line, the two texts, and `},` on lines of their own. */
  function BlockLines(key: string, b: Bilingual): seq<string> {
    ["    " + key + "{", TextLine("ko: ", b.ko), TextLine("en: ", b.en), "    },"]
  }

  /** `principles` and `antiPatterns`: the header line, one line per element, and `],`. */
  function ListLines(key: string, xs: seq<Bilingual>): seq<string> {
    ["    " + key + "["] + FlatMap(xs, ItemLines) + ["    ],"]
  }

  /** The lines the source pushes for one field of a skill. */
  function FieldLines(s: Skill, f: Field): seq<string> {
    match f
    case IdField => [FieldLine("id: ", TsStr(s.id))]
    case NameField => [FieldLine("name: ", BilingualOneLine(s.name))]
    case DescriptionField => BlockLines("description: ", s.description)
    case CategoryField => [FieldLine("category: ", TsStr(s.category))]
    case RoleField => BlockLines("role: ", s.role)
    case PrinciplesField => ListLines("principles: ", s.principles)
    case ProcessStepsField => [FieldLine("processSteps: ", NatToString(s.processSteps))]
    case AntiPatternsField => ListLines("antiPatterns: ", s.antiPatterns)
    case LineCountField => [FieldLine("lineCount: ", NatToString(s.lineCount))]
    case PathField => [FieldLine("path: ", TsStr(s.path))]
  }

  function FieldLinesOf(s: Skill): Field -> seq<string> {
    f => FieldLines(s, f)
  }

  /** The block of one skill: `{`, the lines of every field in field order, `},`. */
  function SkillLines(s: Skill): seq<string> {
    ["  {"] + FlatMap(AllFields, FieldLinesOf(s)) + ["  },"]
  }

  /** The `ui` constant: one block per language. */
  function UiSection(ui: UiTable): seq<string> {
    [UiHeader] + FlatMap(ui, UiLangLines) + ["};", ""]
  }

  /** The `categories` constant: one line per category. */
  function CategorySection(categories: seq<Category>): seq<string> {
    [CategoriesHeader] + FlatMap(categories, CategoryLines) + ["];", ""]
  }

  /** The `skills` constant, the last thing in the file: one block per skill. */
  function SkillSection(skills: seq<Skill>): seq<string> {
    [SkillsHeader] + FlatMap(skills, SkillLines) + ["];"]
  }

  /** The lines of data.ts, in order. */
  function DataTsLines(meta: Meta): seq<string> {
    TypeDeclarations() + UiSection(meta.ui) + CategorySection(meta.categories) + SkillSection(meta.skills)
  }

  // ---- the generator ----

  /** `generateDataTs(meta)` */
  method GenerateDataTs(meta: Meta) returns (text: string)
    ensures text == Join(DataTsLines(meta), "\n")
    ensures StartsWith(text, LangDeclaration)
    ensures EndsWith(text, "\n];")
  {
    var lines := TypeDeclarations();
    lines := PushUi(lines, meta.ui);
    lines := PushCategories(lines, meta.categories);
    lines := PushSkills(lines, meta.skills);
    text := Join(lines, "\n");
    DataTsBegins(meta);
    DataTsEnds(meta);
  }

  /** The `ui` constant: one `<lang>: {` block per language. */
  method PushUi(lines0: seq<string>, ui: UiTable) returns (lines: seq<string>)
    ensures lines == lines0 + UiSection(ui)
  {
    lines := lines0 + [UiHeader];
    ghost var start := lines;
    for i := 0 to |ui|
      invariant lines == start + FlatMap(ui[..i], UiLangLines)
    {
      var (lang, dict) := ui[i];
      var open := "  " + lang + ": {";
      var entries := PushUiEntries([], dict);
      var close := "  },";
      assert [open] + entries + [close] == UiLangLines(ui[i]);
      ghost var before := lines;
      lines := lines + ([open] + entries + [close]);
      FlatMapPush(ui, UiLangLines, i, start, before, lines);
    }
    FlatMapClose(ui, UiLangLines, start, lines, ["};", ""]);
    lines := lines + ["};", ""];
    assert lines0 + UiSection(ui) == start + FlatMap(ui, UiLangLines) + ["};", ""];
  }

  /** The inner loop of the `ui` loop: one `key: "value",` line per entry of a language. */
  method PushUiEntries(lines0: seq<string>, dict: seq<(string, string)>) returns (lines: seq<string>)
    ensures lines == lines0 + FlatMap(dict, UiEntryLines)
  {
    lines := lines0;
    for j := 0 to |dict|
      invariant lines == lines0 + FlatMap(dict[..j], UiEntryLines)
    {
      var (key, value) := dict[j];
      var line := "    " + key + ": " + TsStr(value) + ",";
      assert [line] == UiEntryLines(dict[j]);
      lines := lines + [line];
      FlatMapStep(dict, UiEntryLines, j);
    }
    assert dict[..|dict|] == dict;
  }

  /** The `categories` constant: one line per category. */
  method PushCategories(lines0: seq<string>, categories: seq<Category>) returns (lines: seq<string>)
    ensures lines == lines0 + CategorySection(categories)
  {
    lines := lines0 + [CategoriesHeader];
    ghost var start := lines;
    for i := 0 to |categories|
      invariant lines == start + FlatMap(categories[..i], CategoryLines)
    {
      var cat := categories[i];
      var desc := BilingualOneLine(cat.description);
      var line := "  { id: " + TsStr(cat.id) + ", label: " + TsStr(cat.labelText) + ", icon: "
                  + TsStr(cat.icon) + ", description: " + desc + " },";
      assert [line] == CategoryLines(cat);
      ghost var before := lines;
      lines := lines + [line];
      FlatMapPush(categories, CategoryLines, i, start, before, lines);
    }
    FlatMapClose(categories, CategoryLines, start, lines, ["];", ""]);
    lines := lines + ["];", ""];
    assert lines0 + CategorySection(categories) == start + FlatMap(categories, CategoryLines) + ["];", ""];
  }

  /** The `skills` constant: one block per skill, then the closing `];`. */
  method PushSkills(lines0: seq<string>, skills: seq<Skill>) returns (lines: seq<string>)
    ensures lines == lines0 + SkillSection(skills)
  {
    lines := lines0 + [SkillsHeader];
    ghost var start := lines;
    for i := 0 to |skills|
      invariant lines == start + FlatMap(skills[..i], SkillLines)
    {
      ghost var before := lines;
      lines := PushSkill(lines, skills[i]);
      FlatMapPush(skills, SkillLines, i, start, before, lines);
    }
    FlatMapClose(skills, SkillLines, start, lines, ["];"]);
    lines := lines + ["];"];
    assert lines0 + SkillSection(skills) == start + FlatMap(skills, SkillLines) + ["];"];
  }

  /** The body of the skills loop: pushes the block of one skill onto `lines0`. */
  method PushSkill(lines0: seq<string>, skill: Skill) returns (lines: seq<string>)
    ensures lines == lines0 + SkillLines(skill)
  {
    lines := lines0 + ["  {"];
    var open := lines;
    lines := PushFirstFields(open, skill);
    lines := PushListFields(open, lines, skill);
    lines := PushLastFields(open, lines, skill);
    assert AllFields[..10] == AllFields;
    lines := lines + ["  },"];
  }

  /** Pushes `id`, `name`, `description`, `category` and `role`. */
  method PushFirstFields(open: seq<string>, skill: Skill) returns (lines: seq<string>)
    ensures lines == open + FlatMap(AllFields[..5], FieldLinesOf(skill))
  {
    var fields := FieldLinesOf(skill);
    lines := open;
    ghost var before := lines;

    lines := lines + [FieldLine("id: ", TsStr(skill.id))];
    assert AllFields[0] == IdField;
    FlatMapPush(AllFields, fields, 0, open, before, lines);
    before := lines;
    lines := lines + [FieldLine("name: ", BilingualOneLine(skill.name))];
    assert AllFields[1] == NameField;
    FlatMapPush(AllFields, fields, 1, open, before, lines);

    // description: always multi-line
    before := lines;
    lines := PushBlock(lines, "description: ", skill.description);
    assert AllFields[2] == DescriptionField;
    FlatMapPush(AllFields, fields, 2, open, before, lines);

    before := lines;
    lines := lines + [FieldLine("category: ", TsStr(skill.category))];
    assert AllFields[3] == CategoryField;
    FlatMapPush(AllFields, fields, 3, open, before, lines);

    // role: always multi-line
    before := lines;
    lines := PushBlock(lines, "role: ", skill.role);
    assert AllFields[4] == RoleField;
    FlatMapPush(AllFields, fields, 4, open, before, lines);
  }

  /** Pushes `principles`, `processSteps` and `antiPatterns`. */
  method PushListFields(ghost open: seq<string>, lines0: seq<string>, skill: Skill) returns (lines: seq<string>)
    requires lines0 == open + FlatMap(AllFields[..5], FieldLinesOf(skill))
    ensures lines == open + FlatMap(AllFields[..8], FieldLinesOf(skill))
  {
    var fields := FieldLinesOf(skill);
    lines := lines0;
    ghost var before := lines;

    // principles: array of bilingual one-liners
    lines := PushList(lines, "principles: ", skill.principles);
    assert AllFields[5] == PrinciplesField;
    FlatMapPush(AllFields, fields, 5, open, before, lines);

    before := lines;
    lines := lines + [FieldLine("processSteps: ", NatToString(skill.processSteps))];
    assert AllFields[6] == ProcessStepsField;
    FlatMapPush(AllFields, fields, 6, open, before, lines);

    before := lines;
    lines := PushList(lines, "antiPatterns: ", skill.antiPatterns);
    assert AllFields[7] == AntiPatternsField;
    FlatMapPush(AllFields, fields, 7, open, before, lines);
  }

  /** Pushes `lineCount` and `path`. */
  method PushLastFields(ghost open: seq<string>, lines0: seq<string>, skill: Skill) returns (lines: seq<string>)
    requires lines0 == open + FlatMap(AllFields[..8], FieldLinesOf(skill))
    ensures lines == open + FlatMap(AllFields[..10], FieldLinesOf(skill))
  {
    var fields := FieldLinesOf(skill);
    lines := lines0;
    ghost var before := lines;

    lines := lines + [FieldLine("lineCount: ", NatToString(skill.lineCount))];
    assert AllFields[8] == LineCountField;
    FlatMapPush(AllFields, fields, 8, open, before, lines);

    before := lines;
    lines := lines + [FieldLine("path: ", TsStr(skill.path))];
    assert AllFields[9] == PathField;
    FlatMapPush(AllFields, fields, 9, open, before, lines);
  }

  /** `description` and `role`: pushes the header, the two texts and `},`. */
  method PushBlock(lines0: seq<string>, key: string, b: Bilingual) returns (lines: seq<string>)
    ensures lines == lines0 + BlockLines(key, b)
  {
    lines := lines0 + ["    " + key + "{"];
    lines := lines + [TextLine("ko: ", b.ko)];
    lines := lines + [TextLine("en: ", b.en)];
    lines := lines + ["    },"];
  }

  /** `principles` and `antiPatterns`: pushes the header, one line per element and `],`. */
  method PushList(lines0: seq<string>, key: string, xs: seq<Bilingual>) returns (lines: seq<string>)
    ensures lines == lines0 + ListLines(key, xs)
  {
    lines := lines0 + ["    " + key + "["];
    for j := 0 to |xs|
      invariant lines == lines0 + ["    " + key + "["] + FlatMap(xs[..j], ItemLines)
    {
      lines := lines + ["      " + BilingualOneLine(xs[j]) + ","];
      FlatMapStep(xs, ItemLines, j);
    }
    lines := lines + ["    ],"];
    assert xs[..|xs|] == xs;
  }

  // ---- properties of the output ----

  /** data.ts starts with the `Lang` type declaration. */
  lemma DataTsBegins(meta: Meta)
    ensures StartsWith(Join(DataTsLines(meta), "\n"), LangDeclaration)
  {
    var rest := UiSection(meta.ui) + CategorySection(meta.categories) + SkillSection(meta.skills);
    assert DataTsLines(meta) == TypeDeclarations() + rest;
    assert (TypeDeclarations() + rest)[0] == TypeDeclarations()[0] == TypeDeclarationLine(0);
    JoinStartsWith(DataTsLines(meta), "\n");
  }

  /** data.ts ends with the line `];` that closes the skills array, and nothing after it. */
  lemma DataTsEnds(meta: Meta)
    ensures EndsWith(Join(DataTsLines(meta), "\n"), "\n];")
  {
    var init := TypeDeclarations() + UiSection(meta.ui) + CategorySection(meta.categories)
                + ([SkillsHeader] + FlatMap(meta.skills, SkillLines));
    assert DataTsLines(meta) == init + ["];"];
    assert |init| > 0;
    JoinSnoc(init, "];", "\n");
    EndsWithAppend(Join(init, "\n"), "\n];");
  }

  /** Every category is rendered on a single line of data.ts. */
  lemma CategoryOneLine(c: Category)
    ensures |CategoryLines(c)| == 1
    ensures '\n' !in CategoryLines(c)[0]
  {
    TsStrShape(c.id);
    TsStrShape(c.labelText);
    TsStrShape(c.icon);
    OneLineNoNewline(c.description);
  }

  /** A list of one-line items renders one `<item>,` line per element, in order. */
  lemma {:induction false} ItemLinesAt(xs: seq<Bilingual>)
    ensures |FlatMap(xs, ItemLines)| == |xs|
    ensures forall i :: 0 <= i < |xs| ==> FlatMap(xs, ItemLines)[i] == "      " + BilingualOneLine(xs[i]) + ","
  {
    if xs != [] {
      ItemLinesAt(xs[..|xs| - 1]);
    }
  }

  /**
   * `principles` and `antiPatterns`: the header line, one one-line record per
   * element, and the closing `],` right after the last element (right after
   * the header when the list is empty).
   */
  lemma ListLinesAt(key: string, xs: seq<Bilingual>)
    ensures |ListLines(key, xs)| == |xs| + 2
    ensures ListLines(key, xs)[0] == "    " + key + "["
    ensures forall i :: 0 <= i < |xs| ==> ListLines(key, xs)[1 + i] == "      " + BilingualOneLine(xs[i]) + ","
    ensures ListLines(key, xs)[|xs| + 1] == "    ],"
  {
    ItemLinesAt(xs);
  }

  function FieldRank(f: Field): nat {
    match f
    case IdField => 0
    case NameField => 1
    case DescriptionField => 2
    case CategoryField => 3
    case RoleField => 4
    case PrinciplesField => 5
    case ProcessStepsField => 6
    case AntiPatternsField => 7
    case LineCountField => 8
    case PathField => 9
  }

  lemma RankInverse(f: Field)
    ensures FieldRank(f) < |AllFields| && AllFields[FieldRank(f)] == f
  {
  }

  /** What the first line of a field starts with after its four-space indent. */
  function FieldLabel(f: Field): string {
    match f
    case IdField => "id: "
    case NameField => "name: "
    case DescriptionField => "description: "
    case CategoryField => "category: "
    case RoleField => "role: "
    case PrinciplesField => "principles: "
    case ProcessStepsField => "processSteps: "
    case AntiPatternsField => "antiPatterns: "
    case LineCountField => "lineCount: "
    case PathField => "path: "
  }

  lemma StartsWithAppend(a: string, b: string)
    ensures StartsWith(a + b, a)
  {
    assert (a + b)[..|a|] == a;
  }

  lemma FieldLineLabelled(tag: string, value: string)
    ensures StartsWith(FieldLine(tag, value), "    " + tag)
  {
    assert FieldLine(tag, value) == ("    " + tag) + (value + ",");
    StartsWithAppend("    " + tag, value + ",");
  }

  /** Every field renders at least one line, and the first starts with the field's label. */
  lemma FieldLabelled(s: Skill, f: Field)
    ensures FieldLines(s, f) != []
    ensures StartsWith(FieldLines(s, f)[0], "    " + FieldLabel(f))
  {
    match f
    case IdField => FieldLineLabelled("id: ", TsStr(s.id));
    case NameField => FieldLineLabelled("name: ", BilingualOneLine(s.name));
    case DescriptionField => StartsWithAppend("    description: ", "{");
    case CategoryField => FieldLineLabelled("category: ", TsStr(s.category));
    case RoleField => StartsWithAppend("    role: ", "{");
    case PrinciplesField => StartsWithAppend("    principles: ", "[");
    case ProcessStepsField => FieldLineLabelled("processSteps: ", NatToString(s.processSteps));
    case AntiPatternsField => StartsWithAppend("    antiPatterns: ", "[");
    case LineCountField => FieldLineLabelled("lineCount: ", NatToString(s.lineCount));
    case PathField => FieldLineLabelled("path: ", TsStr(s.path));
  }

  /** Index, inside the block of `s`, of the first line of field `f`. */
  function FieldStart(s: Skill, f: Field): nat {
    1 + |FlatMap(AllFields[..FieldRank(f)], FieldLinesOf(s))|
  }

  /** The lines of field `f` stand in the block of `s` from `FieldStart(s, f)` on. */
  lemma FieldInBlock(s: Skill, f: Field)
    ensures FieldStart(s, f) + |FieldLines(s, f)| < |SkillLines(s)|
    ensures SkillLines(s)[FieldStart(s, f)..FieldStart(s, f) + |FieldLines(s, f)|] == FieldLines(s, f)
  {
    RankInverse(f);
    FieldPartAt(s, FieldRank(f));
  }

  /** The lines of the field of rank `k` stand in the block of `s` after the `{` line and the fields before it. */
  lemma FieldPartAt(s: Skill, k: nat)
    requires k < |AllFields|
    ensures 1 + |FlatMap(AllFields[..k], FieldLinesOf(s))| + |FieldLines(s, AllFields[k])| < |SkillLines(s)|
    ensures SkillLines(s)[1 + |FlatMap(AllFields[..k], FieldLinesOf(s))|..1 + |FlatMap(AllFields[..k], FieldLinesOf(s))| + |FieldLines(s, AllFields[k])|]
      == FieldLines(s, AllFields[k])
  {
    PartInFrame(AllFields, FieldLinesOf(s), k, "  {", "  },");
  }

  /** The line where field `f` starts inside the block of `s` starts with the field's label. */
  lemma FieldLineInBlock(s: Skill, f: Field)
    ensures FieldStart(s, f) < |SkillLines(s)|
    ensures StartsWith(SkillLines(s)[FieldStart(s, f)], "    " + FieldLabel(f))
  {
    FieldInBlock(s, f);
    FieldLabelled(s, f);
    assert SkillLines(s)[FieldStart(s, f)] == SkillLines(s)[FieldStart(s, f)..FieldStart(s, f) + |FieldLines(s, f)|][0];
  }

  /** Fields start in field order inside a skill block. */
  lemma FieldStartsOrdered(s: Skill, f: Field, g: Field)
    requires FieldRank(f) < FieldRank(g)
    ensures FieldStart(s, f) < FieldStart(s, g)
  {
    RankInverse(f);
    assert FieldLinesOf(s)(AllFields[FieldRank(f)]) != [];
    FlatMapPrefixGrows(AllFields, FieldLinesOf(s), FieldRank(f), FieldRank(g));
  }

  /**
   * Inside the block of a skill every field has a line that starts with its
   * label, and these lines come in field order.
   */
  lemma SkillFieldLine(s: Skill, f: Field, g: Field)
    requires FieldRank(f) < FieldRank(g)
    ensures FieldStart(s, f) < FieldStart(s, g) < |SkillLines(s)|
    ensures StartsWith(SkillLines(s)[FieldStart(s, f)], "    " + FieldLabel(f))
    ensures StartsWith(SkillLines(s)[FieldStart(s, g)], "    " + FieldLabel(g))
  {
    FieldLineInBlock(s, f);
    FieldLineInBlock(s, g);
    FieldStartsOrdered(s, f, g);
  }

  /**
   * The `description` block of a skill, pushed line by line, is exactly the
   * `bilingualMultiLine` rendering with a four-space indent.
   */
  lemma DescriptionMultiLine(s: Skill)
    ensures Join(FieldLines(s, DescriptionField), "\n") == "    description: " + BilingualMultiLine(s.description, "    ") + ","
  {
    BlockIsMultiLine("description: ", s.description);
  }

  /** The same for the `role` block. */
  lemma RoleMultiLine(s: Skill)
    ensures Join(FieldLines(s, RoleField), "\n") == "    role: " + BilingualMultiLine(s.role, "    ") + ","
  {
    BlockIsMultiLine("role: ", s.role);
  }

  lemma BlockIsMultiLine(key: string, b: Bilingual)
    ensures Join(BlockLines(key, b), "\n") == "    " + key + BilingualMultiLine(b, "    ") + ","
  {
    var m := MultiLines(b, "    ");
    TextLineIndent(b.ko);
    TextLineIndent(b.en);
    assert "    " + "}" + "," == "    },";
    assert BlockLines(key, b) == ["    " + key + m[0], m[1], m[2], m[3] + ","];
    JoinFramed("    " + key, m[0], m[1], m[2], m[3], ",", "\n");
  }

  /** The six-space indent of a text line is the four-space indent plus the pair's own two. */
  lemma TextLineIndent(v: string)
    ensures TextLine("ko: ", v) == "    " + "  ko: " + TsStr(v) + ","
    ensures TextLine("en: ", v) == "    " + "  en: " + TsStr(v) + ","
  {
    var t := TsStr(v);
    assert "      " + "ko: " == "    " + "  ko: ";
    assert "      " + "en: " == "    " + "  en: ";
  }

  // ---- field order in the text itself ----

  /** Index, in `DataTsLines(meta)`, of the first line of the block of skill `k`. */
  function SkillStart(meta: Meta, k: nat): nat
    requires k <= |meta.skills|
  {
    |TypeDeclarations() + UiSection(meta.ui) + CategorySection(meta.categories)| + 1
    + |FlatMap(meta.skills[..k], SkillLines)|
  }

  /** The block of skill `k` stands in `DataTsLines(meta)` from `SkillStart(meta, k)` on. */
  lemma SkillBlockAt(meta: Meta, k: nat)
    requires k < |meta.skills|
    ensures SkillStart(meta, k) + |SkillLines(meta.skills[k])| < |DataTsLines(meta)|
    ensures forall j :: 0 <= j < |SkillLines(meta.skills[k])| ==>
      DataTsLines(meta)[SkillStart(meta, k) + j] == SkillLines(meta.skills[k])[j]
  {
    var pre := TypeDeclarations() + UiSection(meta.ui) + CategorySection(meta.categories);
    PartInSection(pre, SkillsHeader, meta.skills, SkillLines, ["];"], k);
  }

  /** Index, in `DataTsLines(meta)`, of the line where field `f` of skill `k` starts. */
  function FieldLineIndex(meta: Meta, k: nat, f: Field): nat
    requires k < |meta.skills|
  {
    SkillStart(meta, k) + FieldStart(meta.skills[k], f)
  }

  /** A line of the block of skill `k` that starts with `prefix` is a line of data.ts that does. */
  lemma SkillLineStarts(meta: Meta, k: nat, j: nat, prefix: string)
    requires k < |meta.skills| && j < |SkillLines(meta.skills[k])|
    requires StartsWith(SkillLines(meta.skills[k])[j], prefix)
    ensures SkillStart(meta, k) + j < |DataTsLines(meta)|
    ensures StartsWith(DataTsLines(meta)[SkillStart(meta, k) + j], prefix)
  {
    SkillBlockAt(meta, k);
  }

  /** The line where field `f` of skill `k` starts is in the file and starts with the field's label. */
  lemma FieldLineInFile(meta: Meta, k: nat, f: Field)
    requires k < |meta.skills|
    ensures FieldLineIndex(meta, k, f) < |DataTsLines(meta)|
    ensures StartsWith(DataTsLines(meta)[FieldLineIndex(meta, k, f)], "    " + FieldLabel(f))
  {
    var s := meta.skills[k];
    var q := FieldStart(s, f);
    var prefix := "    " + FieldLabel(f);
    FieldLineInBlock(s, f);
    assert q < |SkillLines(s)| && StartsWith(SkillLines(s)[q], prefix);
    SkillLineStarts(meta, k, q, prefix);
    assert FieldLineIndex(meta, k, f) == SkillStart(meta, k) + q;
  }

  /**
   * In data.ts the fields of every skill come in the order id < name <
   * description < category < role < principles < processSteps <
   * antiPatterns < lineCount < path: the line of a field starts with its
   * label, and an earlier field's line comes first.
   */
  lemma SkillFieldOrder(meta: Meta, k: nat, f: Field, g: Field)
    requires k < |meta.skills|
    requires FieldRank(f) < FieldRank(g)
    ensures FieldLineIndex(meta, k, f) < FieldLineIndex(meta, k, g) < |DataTsLines(meta)|
    ensures StartsWith(DataTsLines(meta)[FieldLineIndex(meta, k, f)], "    " + FieldLabel(f))
    ensures StartsWith(DataTsLines(meta)[FieldLineIndex(meta, k, g)], "    " + FieldLabel(g))
  {
    FieldLineInFile(meta, k, f);
    FieldLineInFile(meta, k, g);
    FieldStartsOrdered(meta.skills[k], f, g);
  }

  /**
   * In the joined text, the label of each field stands right after the
   * four-space indent of its line, and an earlier field's line starts first.
   */
  lemma SkillFieldOrderInText(meta: Meta, k: nat, f: Field, g: Field)
    requires k < |meta.skills|
    requires FieldRank(f) < FieldRank(g)
    ensures FieldLineIndex(meta, k, f) < FieldLineIndex(meta, k, g) < |DataTsLines(meta)|
    ensures OccursAt(Join(DataTsLines(meta), "\n"), FieldLabel(f), Offset(DataTsLines(meta), "\n", FieldLineIndex(meta, k, f)) + 4)
    ensures OccursAt(Join(DataTsLines(meta), "\n"), FieldLabel(g), Offset(DataTsLines(meta), "\n", FieldLineIndex(meta, k, g)) + 4)
    ensures Offset(DataTsLines(meta), "\n", FieldLineIndex(meta, k, f)) < Offset(DataTsLines(meta), "\n", FieldLineIndex(meta, k, g))
  {
    FieldLabelInText(meta, k, f);
    FieldLabelInText(meta, k, g);
    SkillFieldOrder(meta, k, f, g);
    OffsetIncreasing(DataTsLines(meta), "\n", FieldLineIndex(meta, k, f), FieldLineIndex(meta, k, g));
  }

  /** In the joined text, the label of field `f` of skill `k` stands right after the indent of its line. */
  lemma FieldLabelInText(meta: Meta, k: nat, f: Field)
    requires k < |meta.skills|
    ensures FieldLineIndex(meta, k, f) < |DataTsLines(meta)|
    ensures OccursAt(Join(DataTsLines(meta), "\n"), FieldLabel(f), Offset(DataTsLines(meta), "\n", FieldLineIndex(meta, k, f)) + 4)
  {
    FieldLineInFile(meta, k, f);
    JoinLabelAt(DataTsLines(meta), "\n", FieldLineIndex(meta, k, f), "    ", FieldLabel(f));
  }
}
