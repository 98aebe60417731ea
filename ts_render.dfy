/**
 * The rendering helpers of tools/sync-engine.mjs: `tsStr` turns a string
 * into a double-quoted TypeScript literal, `bilingualOneLine` and
 * `bilingualMultiLine` render a `{ ko, en }` pair.
 *
 * Their partner is a reader: `ReadLiteral` decodes a double-quoted literal
 * the way TypeScript does for the escapes `tsStr` writes, and the
 * round-trip lemmas show that each rendering reads back to its input.
 * TypeScript refuses a raw line feed or carriage return inside a string
 * literal; `tsStr` escapes the first but not the second, so the round trips
 * hold for texts without a carriage return, and `CarriageReturnUnreadable`
 * shows that a text with one renders to a literal TypeScript cannot read.
 */
module TsRender {
  import opened Wrappers
  import opened Text
  import opened Catalog

  /** `s.replace(/c/g, rep)` for a one-character pattern. */
  function ReplaceAll(s: string, c: char, rep: string): string {
    if s == [] then [] else (if s[0] == c then rep else [s[0]]) + ReplaceAll(s[1..], c, rep)
  }

  /** The body of `tsStr`: backslashes first, then double quotes, then newlines. */
  function Escape(v: string): string {
    ReplaceAll(ReplaceAll(ReplaceAll(v, '\\', "\\\\"), '"', "\\\""), '\n', "\\n")
  }

  /** `tsStr(value)` */
  function TsStr(v: string): string {
    "\"" + Escape(v) + "\""
  }

  /** `bilingualOneLine(obj)` */
  function BilingualOneLine(b: Bilingual): string {
    "{ ko: " + TsStr(b.ko) + ", en: " + TsStr(b.en) + " }"
  }

  /** `bilingualMultiLine(obj, indent)` */
  function BilingualMultiLine(b: Bilingual, indent: string): string {
    Join(MultiLines(b, indent), "\n")
  }

  /** The four lines `bilingualMultiLine` joins. */
  function MultiLines(b: Bilingual, indent: string): seq<string> {
    ["{", indent + "  ko: " + TsStr(b.ko) + ",", indent + "  en: " + TsStr(b.en) + ",", indent + "}"]
  }

  // ---- the reader ----

  /** The character a two-character escape `\x` stands for, when `tsStr` can write it. */
  function EscapedChar(x: char): Option<char> {
    if x == 'n' then Some('\n')
    else if x == '\\' then Some('\\')
    else if x == '"' then Some('"')
    else None
  }

  /**
   * Decodes the inside of a literal up to its closing quote; returns the
   * decoded text and what follows the closing quote. A raw line feed or
   * carriage return, or a missing closing quote, is an error, as it is in
   * TypeScript.
   */
  function ReadBody(s: string): Option<(string, string)>
    decreases |s|
  {
    if s == [] then None
    else if s[0] == '"' then Some(([], s[1..]))
    else if s[0] == '\n' || s[0] == '\r' then None
    else if s[0] == '\\' then
      if |s| < 2 then None
      else
        match EscapedChar(s[1])
        case None => None
        case Some(c) =>
          match ReadBody(s[2..])
          case None => None
          case Some(r) => Some(([c] + r.0, r.1))
    else
      match ReadBody(s[1..])
      case None => None
      case Some(r) => Some(([s[0]] + r.0, r.1))
  }

  /** Reads one double-quoted literal at the start of `s`. */
  function ReadLiteral(s: string): Option<(string, string)> {
    if s != [] && s[0] == '"' then ReadBody(s[1..]) else None
  }

  /** Reads back a `bilingualOneLine` rendering. */
  function ParseOneLine(line: string): Option<Bilingual> {
    if !StartsWith(line, "{ ko: ") then None
    else
      match ReadLiteral(line[6..])
      case None => None
      case Some(first) =>
        if !StartsWith(first.1, ", en: ") then None
        else
          match ReadLiteral(first.1[6..])
          case None => None
          case Some(second) => if second.1 == " }" then Some(Bilingual(first.0, second.0)) else None
  }

  /** Reads back one `<prefix>"<text>",` line of a multi-line rendering. */
  function ParseField(line: string, prefix: string): Option<string> {
    if !StartsWith(line, prefix) then None
    else
      match ReadLiteral(line[|prefix|..])
      case None => None
      case Some(r) => if r.1 == "," then Some(r.0) else None
  }

  /** Reads back a `bilingualMultiLine` rendering made with `indent`. */
  function ParseMultiLine(text: string, indent: string): Option<Bilingual> {
    var lines := Split(text, '\n');
    if |lines| != 4 || lines[0] != "{" || lines[3] != indent + "}" then None
    else
      match ParseField(lines[1], indent + "  ko: ")
      case None => None
      case Some(ko) =>
        match ParseField(lines[2], indent + "  en: ")
        case None => None
        case Some(en) => Some(Bilingual(ko, en))
  }

  // ---- proofs ----

  /** The character-by-character view of `Escape`. */
  function EscapeChar(c: char): string {
    if c == '\\' then "\\\\" else if c == '"' then "\\\"" else if c == '\n' then "\\n" else [c]
  }

  function EscapeEach(v: string): string {
    if v == [] then [] else EscapeChar(v[0]) + EscapeEach(v[1..])
  }

  lemma {:induction false} ReplaceAllAppend(a: string, b: string, c: char, rep: string)
    ensures ReplaceAll(a + b, c, rep) == ReplaceAll(a, c, rep) + ReplaceAll(b, c, rep)
  {
    if a != [] {
      assert (a + b)[1..] == a[1..] + b;
      ReplaceAllAppend(a[1..], b, c, rep);
    } else {
      assert a + b == b;
    }
  }

  lemma ReplaceAllOne(x: char, c: char, rep: string)
    ensures ReplaceAll([x], c, rep) == if x == c then rep else [x]
  {
    assert [x][1..] == [];
  }

  lemma {:induction false} ReplaceAllAbsent(s: string, c: char, rep: string)
    requires c !in s
    ensures ReplaceAll(s, c, rep) == s
  {
    if s != [] {
      assert c !in s[1..];
      ReplaceAllAbsent(s[1..], c, rep);
      assert [s[0]] + s[1..] == s;
    }
  }

  /**
   * The replacement is global: every occurrence of `c` gives way to `rep`,
   * so none is left unless `rep` brings one, and the length grows by
   * `|rep| - 1` per occurrence.
   */
  lemma {:induction false} ReplaceAllEvery(s: string, c: char, rep: string)
    ensures c !in rep ==> c !in ReplaceAll(s, c, rep)
    ensures |ReplaceAll(s, c, rep)| == |s| + Count(s, c) * (|rep| - 1)
  {
    if s != [] {
      ReplaceAllEvery(s[1..], c, rep);
      var k := Count(s[1..], c);
      if s[0] == c {
        assert (1 + k) * (|rep| - 1) == (|rep| - 1) + k * (|rep| - 1);
      }
    }
  }

  lemma EscapeOne(c: char)
    ensures Escape([c]) == EscapeChar(c)
  {
    ReplaceAllOne(c, '\\', "\\\\");
    var r1 := ReplaceAll([c], '\\', "\\\\");
    if c == '\\' {
      ReplaceAllAbsent(r1, '"', "\\\"");
      ReplaceAllAbsent(r1, '\n', "\\n");
    } else {
      ReplaceAllOne(c, '"', "\\\"");
      var r2 := ReplaceAll(r1, '"', "\\\"");
      if c == '"' {
        ReplaceAllAbsent(r2, '\n', "\\n");
      } else {
        ReplaceAllOne(c, '\n', "\\n");
      }
    }
  }

  lemma EscapeAppend(a: string, b: string)
    ensures Escape(a + b) == Escape(a) + Escape(b)
  {
    var r1a, r1b := ReplaceAll(a, '\\', "\\\\"), ReplaceAll(b, '\\', "\\\\");
    ReplaceAllAppend(a, b, '\\', "\\\\");
    var r2a, r2b := ReplaceAll(r1a, '"', "\\\""), ReplaceAll(r1b, '"', "\\\"");
    ReplaceAllAppend(r1a, r1b, '"', "\\\"");
    ReplaceAllAppend(r2a, r2b, '\n', "\\n");
  }

  /** The three ordered passes escape each character independently of its neighbours. */
  lemma {:induction false} EscapeIsEach(v: string)
    ensures Escape(v) == EscapeEach(v)
  {
    if v != [] {
      assert v == [v[0]] + v[1..];
      EscapeAppend([v[0]], v[1..]);
      EscapeOne(v[0]);
      EscapeIsEach(v[1..]);
    }
  }

  lemma {:induction false} EscapeEachNoNewline(v: string)
    ensures '\n' !in EscapeEach(v)
  {
    if v != [] {
      EscapeEachNoNewline(v[1..]);
    }
  }

  /** A `tsStr` literal is enclosed in double quotes and holds no raw newline, so it fits on one line. */
  lemma TsStrShape(v: string)
    ensures |TsStr(v)| >= 2 && TsStr(v)[0] == '"' && TsStr(v)[|TsStr(v)| - 1] == '"'
    ensures '\n' !in TsStr(v)
  {
    EscapeIsEach(v);
    EscapeEachNoNewline(v);
  }

  /** `bilingualOneLine` renders on a single line. */
  lemma OneLineNoNewline(b: Bilingual)
    ensures '\n' !in BilingualOneLine(b)
  {
    TsStrShape(b.ko);
    TsStrShape(b.en);
  }

  /** The body written for `v`, then the closing quote and anything after it, reads back as `v` and that rest. */
  lemma {:induction false} ReadBodyEscaped(v: string, rest: string)
    requires '\r' !in v
    ensures ReadBody(EscapeEach(v) + "\"" + rest) == Some((v, rest))
  {
    var s := EscapeEach(v) + "\"" + rest;
    if v == [] {
      assert s == "\"" + rest;
    } else {
      var c := v[0];
      assert '\r' !in v[1..];
      ReadBodyEscaped(v[1..], rest);
      var tail := EscapeEach(v[1..]) + "\"" + rest;
      assert s == EscapeChar(c) + tail;
      if c == '\\' || c == '"' || c == '\n' {
        assert s[0] == '\\' && EscapedChar(s[1]) == Some(c);
        assert s[2..] == tail;
      } else {
        assert s[0] == c && s[1..] == tail;
      }
      assert [c] + v[1..] == v;
    }
  }

  /** A literal written by `tsStr` for a text without a carriage return reads back as that text, whatever follows it. */
  lemma ReadTsStr(v: string, rest: string)
    requires '\r' !in v
    ensures ReadLiteral(TsStr(v) + rest) == Some((v, rest))
  {
    EscapeIsEach(v);
    ReadBodyEscaped(v, rest);
    assert (TsStr(v) + rest)[1..] == EscapeEach(v) + "\"" + rest;
  }

  /** `bilingualOneLine` reads back to the pair it rendered when neither text holds a carriage return. */
  lemma OneLineRoundTrip(b: Bilingual)
    requires '\r' !in b.ko && '\r' !in b.en
    ensures ParseOneLine(BilingualOneLine(b)) == Some(b)
  {
    var afterKo := ", en: " + TsStr(b.en) + " }";
    assert BilingualOneLine(b) == "{ ko: " + (TsStr(b.ko) + afterKo);
    DropPrefix("{ ko: ", TsStr(b.ko) + afterKo);
    ReadTsStr(b.ko, afterKo);
    EnglishPartRead(b.en);
  }

  /** What follows the Korean literal of a one-line rendering: the English literal and ` }`. */
  lemma EnglishPartRead(en: string)
    requires '\r' !in en
    ensures var afterKo := ", en: " + TsStr(en) + " }";
      StartsWith(afterKo, ", en: ") && ReadLiteral(afterKo[6..]) == Some((en, " }"))
  {
    assert ", en: " + TsStr(en) + " }" == ", en: " + (TsStr(en) + " }");
    DropPrefix(", en: ", TsStr(en) + " }");
    ReadTsStr(en, " }");
  }

  /** The body written for a text with a carriage return is refused by the reader, whatever follows it. */
  lemma {:induction false} ReadBodyCarriageReturn(v: string, rest: string)
    requires '\r' in v
    ensures ReadBody(EscapeEach(v) + "\"" + rest).None?
  {
    var s := EscapeEach(v) + "\"" + rest;
    var c := v[0];
    var tail := EscapeEach(v[1..]) + "\"" + rest;
    assert s == EscapeChar(c) + tail;
    if c == '\r' {
      assert s[0] == '\r';
    } else {
      assert '\r' in v[1..];
      ReadBodyCarriageReturn(v[1..], rest);
      if c == '\\' || c == '"' || c == '\n' {
        assert s[0] == '\\' && s[2..] == tail;
      } else {
        assert s[1..] == tail;
      }
    }
  }

  /**
   * `tsStr` leaves a carriage return raw, so the literal it writes for a
   * text holding one is not a TypeScript string literal.
   */
  lemma CarriageReturnUnreadable(v: string, rest: string)
    requires '\r' in v
    ensures '\r' in TsStr(v)
    ensures ReadLiteral(TsStr(v) + rest).None?
  {
    EscapeIsEach(v);
    ReadBodyCarriageReturn(v, rest);
    assert (TsStr(v) + rest)[1..] == EscapeEach(v) + "\"" + rest;
    var i :| 0 <= i < |v| && v[i] == '\r';
    EscapeEachKeeps(v, i);
  }

  /** A character that `tsStr` does not escape stays in its output. */
  lemma {:induction false} EscapeEachKeeps(v: string, i: nat)
    requires i < |v| && v[i] != '\\' && v[i] != '"' && v[i] != '\n'
    ensures v[i] in EscapeEach(v)
  {
    assert EscapeEach(v) == EscapeChar(v[0]) + EscapeEach(v[1..]);
    if i > 0 {
      EscapeEachKeeps(v[1..], i - 1);
    }
  }

  lemma DropPrefix(prefix: string, rest: string)
    ensures StartsWith(prefix + rest, prefix) && (prefix + rest)[|prefix|..] == rest
  {
    assert (prefix + rest)[..|prefix|] == prefix;
  }

  lemma FieldRoundTrip(prefix: string, v: string)
    requires '\r' !in v
    ensures ParseField(prefix + TsStr(v) + ",", prefix) == Some(v)
  {
    assert prefix + TsStr(v) + "," == prefix + (TsStr(v) + ",");
    DropPrefix(prefix, TsStr(v) + ",");
    ReadTsStr(v, ",");
  }

  lemma MultiLineSplit(b: Bilingual, indent: string)
    requires '\n' !in indent
    ensures Split(BilingualMultiLine(b, indent), '\n') == MultiLines(b, indent)
  {
    TsStrShape(b.ko);
    TsStrShape(b.en);
    SplitJoin(MultiLines(b, indent), '\n');
  }

  /**
   * With an indent that holds no newline, `bilingualMultiLine` has four
   * lines, and it reads back to its pair when neither text holds a carriage
   * return.
   */
  lemma MultiLineRoundTrip(b: Bilingual, indent: string)
    requires '\n' !in indent
    requires '\r' !in b.ko && '\r' !in b.en
    ensures |Split(BilingualMultiLine(b, indent), '\n')| == 4
    ensures ParseMultiLine(BilingualMultiLine(b, indent), indent) == Some(b)
  {
    MultiLineSplit(b, indent);
    FieldRoundTrip(indent + "  ko: ", b.ko);
    FieldRoundTrip(indent + "  en: ", b.en);
  }
}
