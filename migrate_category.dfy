/**
 * tools/migrate-add-category.mjs: build the id -> category map from the
 * catalog, then for every skill directory insert a `category:` line after
 * the first `name:` line of its SKILL.md, counting how many files were
 * updated, skipped or warned about.
 *
 * The skills directory is a map from directory name to the text of its
 * SKILL.md; a directory missing from the map has no readable SKILL.md.
 * The method returns the map with the files it wrote.
 */
module MigrateCategory {
  import opened Wrappers
  import opened Text
  import opened Catalog

  // ---- the category map ----

  /** `categoryMap` after the loop has visited `skills`: each id is set in turn, so a later skill overwrites an earlier one. */
  function CategoryMapOf(skills: seq<Skill>): map<string, string> {
    if skills == [] then map[]
    else
      var last := skills[|skills| - 1];
      CategoryMapOf(skills[..|skills| - 1])[last.id := last.category]
  }

  /** The loop of lines 8-11. */
  method BuildCategoryMap(skills: seq<Skill>) returns (categoryMap: map<string, string>)
    ensures categoryMap == CategoryMapOf(skills)
  {
    categoryMap := map[];
    for i := 0 to |skills|
      invariant categoryMap == CategoryMapOf(skills[..i])
    {
      var skill := skills[i];
      categoryMap := categoryMap[skill.id := skill.category];
      assert skills[..i + 1][..i] == skills[..i];
    }
    assert skills[..|skills|] == skills;
  }

  /** The map has an entry for exactly the ids of the skills. */
  lemma {:induction false} CategoryMapKeys(skills: seq<Skill>)
    ensures forall id :: id in CategoryMapOf(skills) <==> exists i :: 0 <= i < |skills| && skills[i].id == id
  {
    if skills != [] {
      var init := skills[..|skills| - 1];
      CategoryMapKeys(init);
      forall id | id in CategoryMapOf(skills)
        ensures exists i :: 0 <= i < |skills| && skills[i].id == id
      {
        if id != skills[|skills| - 1].id {
          assert id in CategoryMapOf(init);
          var i :| 0 <= i < |init| && init[i].id == id;
          assert skills[i] == init[i];
        }
      }
      forall id, i | 0 <= i < |skills| && skills[i].id == id
        ensures id in CategoryMapOf(skills)
      {
        if i < |init| {
          assert init[i] == skills[i];
        }
      }
    }
  }

  /** The entry of an id is the category of the last skill with that id. */
  lemma {:induction false} CategoryMapLast(skills: seq<Skill>, i: nat)
    requires i < |skills|
    requires forall j :: i < j < |skills| ==> skills[j].id != skills[i].id
    ensures skills[i].id in CategoryMapOf(skills)
    ensures CategoryMapOf(skills)[skills[i].id] == skills[i].category
  {
    var init := skills[..|skills| - 1];
    if i < |skills| - 1 {
      assert init[i] == skills[i];
      CategoryMapLast(init, i);
    }
  }

  // ---- the regular expression /^(name: .+)$/m ----

  /** The characters that end a line for `.`, `^` and `$` under the `m` flag. */
  predicate IsLineTerminator(c: char) {
    c == '\n' || c == '\r' || c == '\U{2028}' || c == '\U{2029}'
  }

  /** Where `^` matches under the `m` flag: at the start of the text or just after a line terminator. */
  predicate LineStart(s: string, p: nat) {
    p == 0 || (0 < p <= |s| && IsLineTerminator(s[p - 1]))
  }

  /** The end of the line holding position `p`: the first line terminator at or after `p`, or the end of the text. */
  function LineEnd(s: string, p: nat): (e: nat)
    requires p <= |s|
    ensures p <= e <= |s| && (e == |s| || IsLineTerminator(s[e]))
    ensures forall k :: p <= k < e ==> !IsLineTerminator(s[k])
    decreases |s| - p
  {
    if p == |s| || IsLineTerminator(s[p]) then p else LineEnd(s, p + 1)
  }

  /**
   * The pattern matches at `p`: a line starts there with `name: ` and at
   * least one more character before the line ends; the greedy `.+` then
   * runs to the end of the line, where `$` holds.
   */
  predicate NameLineAt(s: string, p: nat) {
    p <= |s| && LineStart(s, p) && p + 7 <= LineEnd(s, p) && s[p..p + 6] == "name: "
  }

  /** The first position at or after `p` where the pattern matches, as the search of `replace` finds it. */
  function FirstNameLine(s: string, p: nat): (r: Option<nat>)
    ensures r.Some? ==> p <= r.value && NameLineAt(s, r.value)
    decreases |s| + 1 - p
  {
    if p > |s| then None
    else if NameLineAt(s, p) then Some(p)
    else FirstNameLine(s, p + 1)
  }

  /** The search finds the first match, and finds none only when there is none. */
  lemma {:induction false} FirstNameLineIsFirst(s: string, p: nat)
    ensures FirstNameLine(s, p).Some? ==> forall q :: p <= q < FirstNameLine(s, p).value ==> !NameLineAt(s, q)
    ensures FirstNameLine(s, p).None? ==> forall q :: p <= q ==> !NameLineAt(s, q)
    decreases |s| + 1 - p
  {
    if p <= |s| && !NameLineAt(s, p) {
      FirstNameLineIsFirst(s, p + 1);
    }
  }

  /** The text the replacement puts after the matched line (the category is taken literally). */
  function CategoryLine(category: string): string {
    "\ncategory:" + " " + category
  }

  /** `content.replace(/^(name: .+)$/m, "$1\ncategory: " + category)` */
  function InsertCategory(content: string, category: string): string {
    match FirstNameLine(content, 0)
    case None => content
    case Some(p) =>
      var e := LineEnd(content, p);
      content[..e] + CategoryLine(category) + content[e..]
  }

  /**
   * Without a `name:` line the text is returned unchanged; otherwise the
   * category line goes right after the first `name:` line and all other
   * text is kept as it was, before and after it.
   */
  lemma InsertCategoryPlaces(content: string, category: string)
    ensures FirstNameLine(content, 0).None? ==> InsertCategory(content, category) == content
    ensures FirstNameLine(content, 0).Some? ==>
      var p := FirstNameLine(content, 0).value;
      var e := LineEnd(content, p);
      var r := InsertCategory(content, category);
      && StartsWith(content[p..e], "name: ")
      && (forall q :: 0 <= q < p ==> !NameLineAt(content, q))
      && r[..e] == content[..e]
      && r[e..e + |CategoryLine(category)|] == CategoryLine(category)
      && r[e + |CategoryLine(category)|..] == content[e..]
      && |r| == |content| + |CategoryLine(category)|
  {
    FirstNameLineIsFirst(content, 0);
    if FirstNameLine(content, 0).Some? {
      var p := FirstNameLine(content, 0).value;
      var e := LineEnd(content, p);
      assert content[p..e][..6] == content[p..p + 6];
      var line := CategoryLine(category);
      var r := content[..e] + line + content[e..];
      assert r[..e] == content[..e];
      assert r[e..e + |line|] == line;
      assert r[e + |line|..] == content[e..];
    }
  }

  /** The replacement changes the text exactly when it finds a `name:` line. */
  lemma InsertChanges(content: string, category: string)
    ensures InsertCategory(content, category) == content <==> FirstNameLine(content, 0).None?
  {
    InsertCategoryPlaces(content, category);
  }

  /** Text that went through an insertion contains `"\ncategory:"`. */
  lemma InsertedHasCategory(content: string, category: string)
    requires FirstNameLine(content, 0).Some?
    ensures Contains(InsertCategory(content, category), "\ncategory:")
  {
    InsertCategoryPlaces(content, category);
    var p := FirstNameLine(content, 0).value;
    var e := LineEnd(content, p);
    var r := InsertCategory(content, category);
    var line := CategoryLine(category);
    assert line[..10] == "\ncategory:";
    assert r[e..e + 10] == r[e..e + |line|][..10];
    assert OccursAt(r, "\ncategory:", e);
  }

  // ---- one directory ----

  /** What happens to one directory, in the order the source checks. */
  datatype Outcome =
    | NotFound            // SKILL.md could not be read: warned
    | NoMapping           // no category, or an empty one, for the directory: warned
    | AlreadyCategorized  // the text contains "\ncategory:": skipped
    | NoNameLine          // the replacement changed nothing: warned
    | Updated(content: string)  // the new text is written: updated

  /** `categoryMap[dir]`, with `undefined` and `""` both failing the `!category` test. */
  function MappedCategory(categoryMap: map<string, string>, dir: string): Option<string> {
    if dir in categoryMap && categoryMap[dir] != "" then Some(categoryMap[dir]) else None
  }

  /** The body of the directory loop, as a decision. */
  function Classify(file: Option<string>, category: Option<string>): (o: Outcome)
    ensures file.None? ==> o == NotFound
    ensures file.Some? && category.None? ==> o == NoMapping
    ensures file.Some? && category.Some? && Contains(file.value, "\ncategory:") ==> o == AlreadyCategorized
    ensures file.Some? && category.Some? && !Contains(file.value, "\ncategory:") ==>
      (o == NoNameLine <==> forall q :: !NameLineAt(file.value, q))
    ensures file.Some? && category.Some? && !Contains(file.value, "\ncategory:") && (exists q :: NameLineAt(file.value, q)) ==>
      o == Updated(InsertCategory(file.value, category.value))
    ensures o.Updated? ==>
      && file.Some? && category.Some?
      && o.content == InsertCategory(file.value, category.value)
      && Contains(o.content, "\ncategory:")
  {
    match file
    case None => NotFound
    case Some(content) =>
      match category
      case None => NoMapping
      case Some(cat) =>
        if Contains(content, "\ncategory:") then AlreadyCategorized
        else
          var newContent := InsertCategory(content, cat);
          InsertChanges(content, cat);
          FirstNameLineIsFirst(content, 0);
          if newContent == content then NoNameLine
          else
            InsertedHasCategory(content, cat);
            Updated(newContent)
  }

  // ---- the directory loop ----

  datatype Tally = Tally(updated: nat, skipped: nat, warned: nat)

  function Total(t: Tally): nat {
    t.updated + t.skipped + t.warned
  }

  /** `fs[dir]` as a read: `None` when there is no readable SKILL.md. */
  function ReadFile(fs: map<string, string>, dir: string): Option<string> {
    if dir in fs then Some(fs[dir]) else None
  }

  /**
   * One turn of the loop: an unreadable file, a missing mapping and a file
   * without a `name:` line raise `warned`, a file that has a category raises
   * `skipped`, and only a file with a `name:` line is written, raising
   * `updated`.
   */
  function Step(state: (Tally, map<string, string>), dir: string, categoryMap: map<string, string>): (r: (Tally, map<string, string>))
    ensures Total(r.0) == Total(state.0) + 1
    ensures dir !in state.1 ==> r == (state.0.(warned := state.0.warned + 1), state.1)
    ensures dir in state.1 && MappedCategory(categoryMap, dir).None? ==>
      r == (state.0.(warned := state.0.warned + 1), state.1)
    ensures dir in state.1 && MappedCategory(categoryMap, dir).Some? && Contains(state.1[dir], "\ncategory:") ==>
      r == (state.0.(skipped := state.0.skipped + 1), state.1)
    ensures dir in state.1 && MappedCategory(categoryMap, dir).Some? && !Contains(state.1[dir], "\ncategory:") ==>
      if exists q :: NameLineAt(state.1[dir], q) then
        r == (state.0.(updated := state.0.updated + 1), state.1[dir := InsertCategory(state.1[dir], MappedCategory(categoryMap, dir).value)])
      else
        r == (state.0.(warned := state.0.warned + 1), state.1)
  {
    var (t, fs) := state;
    match Classify(ReadFile(fs, dir), MappedCategory(categoryMap, dir))
    case Updated(content) => (t.(updated := t.updated + 1), fs[dir := content])
    case AlreadyCategorized => (t.(skipped := t.skipped + 1), fs)
    case _ => (t.(warned := t.warned + 1), fs)
  }

  /** The counters and the files after the loop has visited `dirs`. */
  function Run(dirs: seq<string>, files: map<string, string>, categoryMap: map<string, string>): (Tally, map<string, string>) {
    if dirs == [] then (Tally(0, 0, 0), files)
    else Step(Run(dirs[..|dirs| - 1], files, categoryMap), dirs[|dirs| - 1], categoryMap)
  }

  /** The loop of lines 18-61 over the directories, with its three counters. */
  method Migrate(dirs: seq<string>, files: map<string, string>, categoryMap: map<string, string>)
    returns (tally: Tally, written: map<string, string>)
    ensures (tally, written) == Run(dirs, files, categoryMap)
    ensures Total(tally) == |dirs|
  {
    var updated, skipped, warned := 0, 0, 0;
    written := files;
    for i := 0 to |dirs|
      invariant (Tally(updated, skipped, warned), written) == Run(dirs[..i], files, categoryMap)
    {
      var dir := dirs[i];
      assert dirs[..i + 1][..i] == dirs[..i];
      if dir !in written {
        warned := warned + 1;
        continue;
      }
      var content := written[dir];
      var category := MappedCategory(categoryMap, dir);
      if category.None? {
        warned := warned + 1;
        continue;
      }
      if Contains(content, "\ncategory:") {
        skipped := skipped + 1;
        continue;
      }
      var newContent := InsertCategory(content, category.value);
      if newContent == content {
        warned := warned + 1;
        continue;
      }
      written := written[dir := newContent];
      updated := updated + 1;
    }
    assert dirs[..|dirs|] == dirs;
    tally := Tally(updated, skipped, warned);
    RunTotal(dirs, files, categoryMap);
  }

  /** Every directory visited raises exactly one counter. */
  lemma {:induction false} RunTotal(dirs: seq<string>, files: map<string, string>, categoryMap: map<string, string>)
    ensures Total(Run(dirs, files, categoryMap).0) == |dirs|
  {
    if dirs != [] {
      RunTotal(dirs[..|dirs| - 1], files, categoryMap);
    }
  }

  /** Only visited directories with a readable SKILL.md can change, and a changed file gained its `category:` line. */
  lemma {:induction false} RunWrites(dirs: seq<string>, files: map<string, string>, categoryMap: map<string, string>)
    ensures Run(dirs, files, categoryMap).1.Keys == files.Keys
    ensures forall dir :: dir in files && dir !in dirs ==> Run(dirs, files, categoryMap).1[dir] == files[dir]
    ensures forall dir :: dir in files && Run(dirs, files, categoryMap).1[dir] != files[dir] ==>
      Contains(Run(dirs, files, categoryMap).1[dir], "\ncategory:")
  {
    if dirs != [] {
      RunWrites(dirs[..|dirs| - 1], files, categoryMap);
    }
  }

  /** Every visited directory is in a state the next run leaves alone: its outcome is not an update. */
  predicate Settled(fs: map<string, string>, dir: string, categoryMap: map<string, string>) {
    !Classify(ReadFile(fs, dir), MappedCategory(categoryMap, dir)).Updated?
  }

  lemma {:induction false} RunSettles(dirs: seq<string>, files: map<string, string>, categoryMap: map<string, string>)
    ensures forall i :: 0 <= i < |dirs| ==> Settled(Run(dirs, files, categoryMap).1, dirs[i], categoryMap)
  {
    if dirs != [] {
      var init := dirs[..|dirs| - 1];
      var dir := dirs[|dirs| - 1];
      RunSettles(init, files, categoryMap);
      var fs := Run(init, files, categoryMap).1;
      var fs' := Run(dirs, files, categoryMap).1;
      var o := Classify(ReadFile(fs, dir), MappedCategory(categoryMap, dir));
      if o.Updated? {
        assert fs' == fs[dir := o.content];
        assert ReadFile(fs', dir) == Some(o.content);
      } else {
        assert fs' == fs;
      }
      assert Settled(fs', dir, categoryMap);
      forall i | 0 <= i < |dirs|
        ensures Settled(fs', dirs[i], categoryMap)
      {
        if dirs[i] != dir {
          assert init[i] == dirs[i];
          assert ReadFile(fs', dirs[i]) == ReadFile(fs, dirs[i]);
        }
      }
    }
  }

  /** A run over directories that are all settled updates nothing and writes nothing. */
  lemma {:induction false} RunOnSettled(dirs: seq<string>, files: map<string, string>, categoryMap: map<string, string>)
    requires forall i :: 0 <= i < |dirs| ==> Settled(files, dirs[i], categoryMap)
    ensures Run(dirs, files, categoryMap).0.updated == 0
    ensures Run(dirs, files, categoryMap).1 == files
  {
    if dirs != [] {
      var init := dirs[..|dirs| - 1];
      forall i | 0 <= i < |init|
        ensures Settled(files, init[i], categoryMap)
      {
        assert init[i] == dirs[i];
      }
      RunOnSettled(init, files, categoryMap);
      assert Settled(files, dirs[|dirs| - 1], categoryMap);
    }
  }

  /** Running the migration a second time over the same directories updates nothing and writes nothing. */
  lemma MigrateIdempotent(dirs: seq<string>, files: map<string, string>, categoryMap: map<string, string>)
    ensures var once := Run(dirs, files, categoryMap).1;
      Run(dirs, once, categoryMap).0.updated == 0 && Run(dirs, once, categoryMap).1 == once
  {
    RunSettles(dirs, files, categoryMap);
    RunOnSettled(dirs, Run(dirs, files, categoryMap).1, categoryMap);
  }
}
