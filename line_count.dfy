/**
 * The decision part of `countSkillLines` in tools/sync-engine.mjs: where the
 * SKILL.md of a skill lives, and which line count is reported. The file
 * read itself is a parameter: `None` stands for a file that does not exist
 * or could not be read.
 */
module LineCount {
  import opened Wrappers
  import opened Text

  /**
   * `skillPath.replace(/\.md$/, "")`: the directory holding the skill's
   * SKILL.md is its path without a final `.md` (the pattern has no `m`
   * flag, so `$` is the end of the whole string).
   */
  function SkillDocDir(skillPath: string): (dir: string)
    ensures EndsWith(skillPath, ".md") ==> dir + ".md" == skillPath
    ensures !EndsWith(skillPath, ".md") ==> dir == skillPath
  {
    if EndsWith(skillPath, ".md") then
      var dir := skillPath[..|skillPath| - 3];
      assert dir + skillPath[|skillPath| - 3..] == skillPath;
      dir
    else
      skillPath
  }

  /**
   * `countSkillLines(skillPath, fallback)` once the file has been looked
   * up: the stored count when there is no readable file, otherwise the
   * number of pieces `content.split("\n")` yields.
   */
  function CountSkillLines(content: Option<string>, fallback: nat): (n: nat)
    ensures content.None? ==> n == fallback
    ensures content.Some? ==> n == Count(content.value, '\n') + 1
  {
    match content
    case None => fallback
    case Some(text) =>
      SplitCount(text, '\n');
      |Split(text, '\n')|
  }

  /** A file with an extra line reports one more line; an empty file reports one. */
  lemma CountSkillLinesAppend(text: string, line: string)
    requires '\n' !in line
    ensures CountSkillLines(Some(text + "\n" + line), 0) == CountSkillLines(Some(text), 0) + 1
    ensures CountSkillLines(Some(""), 0) == 1
  {
    CountAppend(text, "\n" + line, '\n');
    CountAppend("\n", line, '\n');
    CountAbsent(line, '\n');
    assert text + "\n" + line == text + ("\n" + line);
    assert "\n"[1..] == "";
  }

  lemma {:induction false} CountAppend(a: string, b: string, c: char)
    ensures Count(a + b, c) == Count(a, c) + Count(b, c)
  {
    if a != [] {
      assert (a + b)[1..] == a[1..] + b;
      CountAppend(a[1..], b, c);
    } else {
      assert a + b == b;
    }
  }

  lemma {:induction false} CountAbsent(s: string, c: char)
    requires c !in s
    ensures Count(s, c) == 0
  {
    if s != [] {
      assert c !in s[1..];
      CountAbsent(s[1..], c);
    }
  }
}
