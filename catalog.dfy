/**
 * The catalog read from skills-meta.json: a UI string table, the ordered
 * categories and the ordered skills.
 */
module Catalog {

  /** A `{ ko, en }` pair of texts. */
  datatype Bilingual = Bilingual(ko: string, en: string)

  /** `labelText` is the JSON field `label` (a reserved word in Dafny). */
  datatype Category = Category(id: string, labelText: string, icon: string, description: Bilingual)

  datatype Skill = Skill(
    id: string,
    name: Bilingual,
    description: Bilingual,
    category: string,
    role: Bilingual,
    principles: seq<Bilingual>,
    processSteps: nat,
    antiPatterns: seq<Bilingual>,
    lineCount: nat,
    path: string)

  /**
   * `meta.ui`: for each language, in insertion order, its key/value pairs in
   * insertion order (the order `Object.entries` visits them).
   */
  type UiTable = seq<(string, seq<(string, string)>)>

  datatype Meta = Meta(ui: UiTable, categories: seq<Category>, skills: seq<Skill>)
}
