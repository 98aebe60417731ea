/**
 * String utilities shared by the scripts: JavaScript's `split` on a
 * one-character separator, `Array.prototype.join`, decimal rendering of
 * non-negative integers (template literals and `Number#toString`) and
 * `Number` applied to a string of decimal digits.
 */
module Text {

  predicate IsDigit(c: char) {
    '0' <= c <= '9'
  }

  predicate AllDigits(s: string) {
    forall i :: 0 <= i < |s| ==> IsDigit(s[i])
  }

  predicate StartsWith(s: string, prefix: string) {
    |prefix| <= |s| && s[..|prefix|] == prefix
  }

  predicate EndsWith(s: string, suffix: string) {
    |suffix| <= |s| && s[|s| - |suffix|..] == suffix
  }

  /** `s.includes(sub)` */
  predicate Contains(s: string, sub: string) {
    exists i :: 0 <= i <= |s| - |sub| && OccursAt(s, sub, i)
  }

  predicate OccursAt(s: string, sub: string, i: nat) {
    i + |sub| <= |s| && s[i..i + |sub|] == sub
  }

  /** Number of occurrences of `c` in `s`. */
  function Count(s: string, c: char): nat {
    if s == [] then 0 else (if s[0] == c then 1 else 0) + Count(s[1..], c)
  }

  /**
   * `s.split(c)` for a one-character separator: the maximal pieces between
   * separators, always at least one (the empty string splits into [""]).
   */
  function Split(s: string, c: char): (pieces: seq<string>)
    ensures |pieces| >= 1
    ensures forall i :: 0 <= i < |pieces| ==> c !in pieces[i]
  {
    if s == [] then [""]
    else
      var rest := Split(s[1..], c);
      if s[0] == c then [""] + rest
      else [[s[0]] + rest[0]] + rest[1..]
  }

  /** `xs.join(sep)`; the empty array joins to the empty string. */
  function Join(xs: seq<string>, sep: string): string {
    if xs == [] then ""
    else if |xs| == 1 then xs[0]
    else xs[0] + sep + Join(xs[1..], sep)
  }

  /** `split` yields one piece more than there are separators. */
  lemma {:induction false} SplitCount(s: string, c: char)
    ensures |Split(s, c)| == Count(s, c) + 1
  {
    if s != [] {
      SplitCount(s[1..], c);
    }
  }

  /** Joining the pieces with the separator gives back the original string. */
  lemma {:induction false} JoinSplit(s: string, c: char)
    ensures Join(Split(s, c), [c]) == s
  {
    if s != [] {
      var rest := Split(s[1..], c);
      JoinSplit(s[1..], c);
      if s[0] == c {
        assert Split(s, c) == [""] + rest;
        assert ([""] + rest)[1..] == rest;
      } else {
        var pieces := Split(s, c);
        assert pieces == [[s[0]] + rest[0]] + rest[1..];
        if |rest| == 1 {
          assert pieces == [[s[0]] + rest[0]];
        } else {
          assert pieces[1..] == rest[1..];
          assert Join(rest, [c]) == rest[0] + [c] + Join(rest[1..], [c]);
        }
      }
    }
  }

  /** A string without the separator is a single piece. */
  lemma {:induction false} SplitWithout(s: string, c: char)
    requires c !in s
    ensures Split(s, c) == [s]
  {
    if s != [] {
      assert c !in s[1..] && s[0] != c;
      SplitWithout(s[1..], c);
      assert [s[0]] + s[1..] == s;
    }
  }

  /** A separator after a separator-free prefix ends the first piece. */
  lemma {:induction false} SplitAfter(a: string, c: char, b: string)
    requires c !in a
    ensures Split(a + [c] + b, c) == [a] + Split(b, c)
  {
    if a == [] {
      assert a + [c] + b == [c] + b;
      assert ([c] + b)[1..] == b;
    } else {
      var s := a + [c] + b;
      assert s[0] == a[0];
      assert s[1..] == a[1..] + [c] + b;
      assert c !in a[1..] && a[0] != c;
      SplitAfter(a[1..], c, b);
      var rest := Split(s[1..], c);
      assert rest == [a[1..]] + Split(b, c);
      assert [a[0]] + a[1..] == a;
      assert Split(s, c) == [[a[0]] + rest[0]] + rest[1..];
    }
  }

  /** Splitting a join of separator-free pieces gives back the pieces. */
  lemma {:induction false} SplitJoin(xs: seq<string>, c: char)
    requires xs != []
    requires forall i :: 0 <= i < |xs| ==> c !in xs[i]
    ensures Split(Join(xs, [c]), c) == xs
  {
    if |xs| == 1 {
      SplitWithout(xs[0], c);
    } else {
      SplitJoin(xs[1..], c);
      SplitAfter(xs[0], c, Join(xs[1..], [c]));
      assert [xs[0]] + xs[1..] == xs;
    }
  }

  /** `[x] + xs` joins as `x`, the separator, then the join of `xs`. */
  lemma JoinCons(x: string, xs: seq<string>, sep: string)
    requires xs != []
    ensures Join([x] + xs, sep) == x + sep + Join(xs, sep)
  {
    assert ([x] + xs)[1..] == xs;
  }

  /** Appending an element adds the separator and that element at the end. */
  lemma {:induction false} JoinSnoc(xs: seq<string>, y: string, sep: string)
    requires xs != []
    ensures Join(xs + [y], sep) == Join(xs, sep) + sep + y
  {
    if |xs| == 1 {
      assert xs + [y] == [xs[0], y];
      assert [xs[0], y][1..] == [y];
    } else {
      assert (xs + [y])[1..] == xs[1..] + [y];
      JoinSnoc(xs[1..], y, sep);
    }
  }

  /** The join of a non-empty sequence begins with its first element. */
  lemma JoinStartsWith(xs: seq<string>, sep: string)
    requires xs != []
    ensures StartsWith(Join(xs, sep), xs[0])
  {
    if |xs| > 1 {
      assert Join(xs, sep) == xs[0] + (sep + Join(xs[1..], sep));
    }
  }

  /** Position of element `i` in `Join(xs, sep)`: the elements before it, each followed by `sep`. */
  function Offset(xs: seq<string>, sep: string, i: nat): nat
    requires i <= |xs|
  {
    if i == 0 then 0 else Offset(xs, sep, i - 1) + |xs[i - 1]| + |sep|
  }

  /** Element `i` of the sequence stands in the join at `Offset(xs, sep, i)`. */
  lemma {:induction false} JoinElementAt(xs: seq<string>, sep: string, i: nat)
    requires i < |xs|
    ensures Offset(xs, sep, i) + |xs[i]| <= |Join(xs, sep)|
    ensures Join(xs, sep)[Offset(xs, sep, i)..Offset(xs, sep, i) + |xs[i]|] == xs[i]
  {
    if i == 0 {
      JoinStartsWith(xs, sep);
    } else {
      var tail := xs[1..];
      JoinElementAt(tail, sep, i - 1);
      OffsetTail(xs, sep, i);
      JoinCons(xs[0], tail, sep);
      assert [xs[0]] + tail == xs;
      var o := Offset(tail, sep, i - 1);
      var head := xs[0] + sep;
      assert Join(xs, sep) == head + Join(tail, sep);
      assert tail[i - 1] == xs[i];
      SliceAfter(head, Join(tail, sep), o, o + |xs[i]|);
    }
  }

  /** A slice of the second part of a concatenation. */
  lemma SliceAfter(a: string, b: string, lo: nat, hi: nat)
    requires lo <= hi <= |b|
    ensures (a + b)[|a| + lo..|a| + hi] == b[lo..hi]
  {
    assert forall k :: 0 <= k < hi - lo ==> (a + b)[|a| + lo..|a| + hi][k] == b[lo..hi][k];
  }

  lemma {:induction false} OffsetTail(xs: seq<string>, sep: string, i: nat)
    requires 0 < i <= |xs|
    ensures Offset(xs, sep, i) == |xs[0]| + |sep| + Offset(xs[1..], sep, i - 1)
  {
    if i > 1 {
      OffsetTail(xs, sep, i - 1);
    }
  }

  /** Later elements stand strictly later in the join when the separator is not empty. */
  lemma {:induction false} OffsetIncreasing(xs: seq<string>, sep: string, i: nat, j: nat)
    requires i < j <= |xs| && sep != []
    ensures Offset(xs, sep, i) < Offset(xs, sep, j)
  {
    if i < j - 1 {
      OffsetIncreasing(xs, sep, i, j - 1);
    }
  }

  lemma EndsWithAppend(a: string, b: string)
    ensures EndsWith(a + b, b)
  {
    assert (a + b)[|a|..] == b;
  }

  /** A line that starts with `pre + tag` puts `tag` right after `pre` in the joined text. */
  lemma JoinLabelAt(xs: seq<string>, sep: string, i: nat, pre: string, tag: string)
    requires i < |xs| && StartsWith(xs[i], pre + tag)
    ensures OccursAt(Join(xs, sep), tag, Offset(xs, sep, i) + |pre|)
  {
    JoinElementAt(xs, sep, i);
    var o := Offset(xs, sep, i);
    var text := Join(xs, sep);
    var line := xs[i];
    assert text[o..o + |line|] == line;
    assert line[..|pre| + |tag|] == pre + tag;
    forall j | 0 <= j < |tag|
      ensures text[o + |pre| + j] == tag[j]
    {
      assert text[o + |pre| + j] == text[o..o + |line|][|pre| + j];
      assert line[|pre| + j] == line[..|pre| + |tag|][|pre| + j] == (pre + tag)[|pre| + j];
    }
    assert text[o + |pre|..o + |pre| + |tag|] == tag;
  }

  /** Joining four lines whose first has a prefix and whose last has a suffix. */
  lemma JoinFramed(pre: string, a: string, b: string, c: string, d: string, post: string, sep: string)
    ensures Join([pre + a, b, c, d + post], sep) == pre + Join([a, b, c, d], sep) + post
  {
    Join4(pre + a, b, c, d + post, sep);
    Join4(a, b, c, d, sep);
  }

  lemma Join4(a: string, b: string, c: string, d: string, sep: string)
    ensures Join([a, b, c, d], sep) == a + sep + b + sep + c + sep + d
  {
    JoinCons(a, [b, c, d], sep);
    JoinCons(b, [c, d], sep);
    JoinCons(c, [d], sep);
    assert [a] + [b, c, d] == [a, b, c, d];
    assert [b] + [c, d] == [b, c, d];
    assert [c] + [d] == [c, d];
  }

  /** Concatenation of `f` over `xs`, element by element (a `for` loop that pushes lines). */
  function FlatMap<T>(xs: seq<T>, f: T -> seq<string>): seq<string> {
    if xs == [] then [] else FlatMap(xs[..|xs| - 1], f) + f(xs[|xs| - 1])
  }

  /** The part contributed by element `k`, with everything before and after it. */
  lemma {:induction false} FlatMapSplit<T>(xs: seq<T>, f: T -> seq<string>, k: nat)
    requires k < |xs|
    ensures FlatMap(xs, f) == FlatMap(xs[..k], f) + f(xs[k]) + FlatMap(xs[k + 1..], f)
  {
    if k < |xs| - 1 {
      var init := xs[..|xs| - 1];
      FlatMapSplit(init, f, k);
      assert init[..k] == xs[..k];
      assert init[k] == xs[k];
      assert xs[k + 1..][..|xs[k + 1..]| - 1] == init[k + 1..];
    } else {
      assert xs[k + 1..] == [];
      assert xs[..k] == xs[..|xs| - 1];
    }
  }

  /** The part of element `k` stands right after the parts of the elements before it. */
  lemma FlatMapPartAt<T>(xs: seq<T>, f: T -> seq<string>, k: nat)
    requires k < |xs|
    ensures |FlatMap(xs[..k], f)| + |f(xs[k])| <= |FlatMap(xs, f)|
    ensures forall j :: 0 <= j < |f(xs[k])| ==> FlatMap(xs, f)[|FlatMap(xs[..k], f)| + j] == f(xs[k])[j]
  {
    FlatMapSplit(xs, f, k);
  }

  /** The same, inside a frame of one opening and one closing line. */
  lemma PartInFrame<T>(xs: seq<T>, f: T -> seq<string>, k: nat, open: string, close: string)
    requires k < |xs|
    ensures 1 + |FlatMap(xs[..k], f)| + |f(xs[k])| < |[open] + FlatMap(xs, f) + [close]|
    ensures ([open] + FlatMap(xs, f) + [close])[1 + |FlatMap(xs[..k], f)|..1 + |FlatMap(xs[..k], f)| + |f(xs[k])|] == f(xs[k])
  {
    FlatMapPartAt(xs, f, k);
  }

  /** The part of element `k` inside a section: what comes before, a header line, the parts, closing lines. */
  lemma PartInSection<T>(pre: seq<string>, header: string, xs: seq<T>, f: T -> seq<string>, close: seq<string>, k: nat)
    requires k < |xs|
    ensures |pre| + 1 + |FlatMap(xs[..k], f)| + |f(xs[k])| + |close| <= |pre + ([header] + FlatMap(xs, f) + close)|
    ensures forall j :: 0 <= j < |f(xs[k])| ==>
      (pre + ([header] + FlatMap(xs, f) + close))[|pre| + 1 + |FlatMap(xs[..k], f)| + j] == f(xs[k])[j]
  {
    FlatMapPartAt(xs, f, k);
  }

  /** Parts that are never empty make the prefixes' parts strictly longer. */
  lemma FlatMapPrefixGrows<T>(xs: seq<T>, f: T -> seq<string>, k: nat, m: nat)
    requires k < m <= |xs| && f(xs[k]) != []
    ensures |FlatMap(xs[..k], f)| < |FlatMap(xs[..m], f)|
  {
    var prefix := xs[..m];
    FlatMapSplit(prefix, f, k);
    assert prefix[..k] == xs[..k];
    assert prefix[k] == xs[k];
  }

  /** One more element adds its lines at the end (the step of a pushing loop). */
  lemma FlatMapStep<T>(xs: seq<T>, f: T -> seq<string>, k: nat)
    requires k < |xs|
    ensures FlatMap(xs[..k + 1], f) == FlatMap(xs[..k], f) + f(xs[k])
  {
    assert xs[..k + 1][..k] == xs[..k];
  }

  /** Pushing the part of element `k` after the parts of the elements before it. */
  lemma FlatMapPush<T>(xs: seq<T>, f: T -> seq<string>, k: nat, start: seq<string>, before: seq<string>, after: seq<string>)
    requires k < |xs|
    requires before == start + FlatMap(xs[..k], f)
    requires after == before + f(xs[k])
    ensures after == start + FlatMap(xs[..k + 1], f)
  {
    FlatMapStep(xs, f, k);
  }

  /** Closing a section once every element has been pushed. */
  lemma FlatMapClose<T>(xs: seq<T>, f: T -> seq<string>, start: seq<string>, lines: seq<string>, close: seq<string>)
    requires lines == start + FlatMap(xs[..|xs|], f)
    ensures lines + close == start + FlatMap(xs, f) + close
  {
    assert xs[..|xs|] == xs;
  }

  function DigitChar(d: nat): (c: char)
    requires d < 10
    ensures IsDigit(c)
  {
    ('0' as int + d) as char
  }

  function DigitValue(c: char): nat
    requires IsDigit(c)
  {
    c as int - '0' as int
  }

  /** The decimal rendering of a non-negative integer (no sign, no leading zero). */
  function NatToString(n: nat): (s: string)
    ensures |s| >= 1 && AllDigits(s)
  {
    if n < 10 then [DigitChar(n)] else NatToString(n / 10) + [DigitChar(n % 10)]
  }

  /** `Number(s)` for a string of decimal digits; `Number("")` is 0. */
  function DecimalValue(s: string): nat
    requires AllDigits(s)
  {
    if s == [] then 0 else 10 * DecimalValue(s[..|s| - 1]) + DigitValue(s[|s| - 1])
  }

  /** Reading back a rendered number gives the number. */
  lemma {:induction false} DecimalOfNatToString(n: nat)
    ensures DecimalValue(NatToString(n)) == n
  {
    var s := NatToString(n);
    if n >= 10 {
      DecimalOfNatToString(n / 10);
      assert s[..|s| - 1] == NatToString(n / 10);
    }
  }

  /** Distinct numbers render differently. */
  lemma NatToStringInjective()
    ensures forall a: nat, b: nat :: NatToString(a) == NatToString(b) ==> a == b
  {
    forall a: nat, b: nat | NatToString(a) == NatToString(b)
      ensures a == b
    {
      DecimalOfNatToString(a);
      DecimalOfNatToString(b);
    }
  }

  /** The maximal leading run of digits, and what follows it. */
  function SpanDigits(s: string): (r: (string, string))
    ensures AllDigits(r.0) && r.0 + r.1 == s
    ensures r.1 == [] || !IsDigit(r.1[0])
  {
    if s != [] && IsDigit(s[0]) then
      var rest := SpanDigits(s[1..]);
      ([s[0]] + rest.0, rest.1)
    else
      ([], s)
  }

  /** A run of digits followed by a non-digit is split exactly there. */
  lemma {:induction false} SpanDigitsOf(d: string, rest: string)
    requires AllDigits(d)
    requires rest == [] || !IsDigit(rest[0])
    ensures SpanDigits(d + rest) == (d, rest)
  {
    if d != [] {
      assert (d + rest)[1..] == d[1..] + rest;
      var s := d + rest;
      assert s != [] && IsDigit(s[0]) && s[0] == d[0];
      assert s[1..] == d[1..] + rest;
      SpanDigitsOf(d[1..], rest);
      assert SpanDigits(s[1..]) == (d[1..], rest);
      assert [d[0]] + d[1..] == d;
      assert SpanDigits(s) == ([s[0]] + SpanDigits(s[1..]).0, SpanDigits(s[1..]).1);
    } else {
      assert d + rest == rest;
    }
  }
}
