/**
 * `bumpVersion(version, type)` of tools/sync-engine.mjs: split the version
 * on dots, turn the pieces into numbers, check there are three of them,
 * then bump one component in place and join the parts with dots.
 *
 * `Number` is modelled for pieces made of decimal digits only (`Number("")`
 * is 0), each at most `Number.MAX_SAFE_INTEGER`, where a double still holds
 * the piece and the piece plus one exactly; the precondition of
 * `BumpVersion` asks for that when there are three pieces, and any other
 * number of pieces reaches the semver error.
 */
module Semver {
  import opened Wrappers
  import opened Text

  datatype Version = Version(major: nat, minor: nat, patch: nat)

  datatype BumpType = Patch | Minor | Major

  /** The two exceptions `bumpVersion` throws. */
  datatype BumpError = InvalidSemver(version: string) | InvalidBumpType(bumpType: string)

  /** The text of the `Error` thrown. */
  function Message(e: BumpError): string {
    match e
    case InvalidSemver(v) => "Invalid semver: " + v
    case InvalidBumpType(t) => "Invalid bump type: \"" + t + "\". Must be one of: " + AcceptedTypes
  }

  const AcceptedTypes := "patch, minor, major"

  /** The type names the source accepts, compared with `===`. */
  function ParseBumpType(t: string): (r: Option<BumpType>)
    ensures r.Some? <==> t == "patch" || t == "minor" || t == "major"
  {
    if t == "patch" then Some(Patch)
    else if t == "minor" then Some(Minor)
    else if t == "major" then Some(Major)
    else None
  }

  /** Every dot-separated piece of `version` is a (possibly empty) run of decimal digits. */
  predicate NumericPieces(version: string) {
    forall i :: 0 <= i < |Split(version, '.')| ==> AllDigits(Split(version, '.')[i])
  }

  /** What the source demands of a version it does not reject as "Invalid semver". */
  predicate Readable(version: string) {
    |Split(version, '.')| == 3 ==> NumericPieces(version)
  }

  /** `Number.MAX_SAFE_INTEGER`, 2^53 - 1. */
  const MaxSafeInteger: nat := 9007199254740991

  /**
   * Every piece of a three-piece version is at most `Number.MAX_SAFE_INTEGER`,
   * so `Number` reads it exactly and adding one gives an exact double.
   */
  predicate SafePieces(version: string) {
    |Split(version, '.')| == 3 && NumericPieces(version) ==>
      forall i :: 0 <= i < 3 ==> DecimalValue(Split(version, '.')[i]) <= MaxSafeInteger
  }

  /** The three numbers of a version, or `None` when it does not have three pieces. */
  function ParseVersion(version: string): (r: Option<Version>)
    requires Readable(version)
    ensures r.None? <==> |Split(version, '.')| != 3
  {
    var pieces := Split(version, '.');
    if |pieces| != 3 then None
    else Some(Version(DecimalValue(pieces[0]), DecimalValue(pieces[1]), DecimalValue(pieces[2])))
  }

  /** `parts.join(".")` */
  function VersionString(v: Version): string {
    Join([NatToString(v.major), NatToString(v.minor), NatToString(v.patch)], ".")
  }

  /** The bump rule: the chosen component goes up by one and the ones after it restart at zero. */
  function Bump(v: Version, t: BumpType): Version {
    match t
    case Patch => v.(patch := v.patch + 1)
    case Minor => v.(minor := v.minor + 1, patch := 0)
    case Major => Version(v.major + 1, 0, 0)
  }

  /** What `bumpVersion` returns or throws: the piece count is checked before the type. */
  function BumpResult(version: string, bumpType: string): Result<string, BumpError>
    requires Readable(version)
  {
    match ParseVersion(version)
    case None => Err(InvalidSemver(version))
    case Some(v) =>
      match ParseBumpType(bumpType)
      case None => Err(InvalidBumpType(bumpType))
      case Some(t) => Ok(VersionString(Bump(v, t)))
  }

  /** `bumpVersion(version, type)`, updating the `parts` array in place as the source does. */
  method BumpVersion(version: string, bumpType: string) returns (r: Result<string, BumpError>)
    requires Readable(version) && SafePieces(version)
    ensures r == BumpResult(version, bumpType)
  {
    var pieces := Split(version, '.');
    if |pieces| != 3 {
      return Err(InvalidSemver(version));
    }
    var parts := new nat[3];
    parts[0], parts[1], parts[2] := DecimalValue(pieces[0]), DecimalValue(pieces[1]), DecimalValue(pieces[2]);
    ghost var v := Version(parts[0], parts[1], parts[2]);
    if bumpType == "patch" {
      parts[2] := parts[2] + 1;
    } else if bumpType == "minor" {
      parts[1] := parts[1] + 1;
      parts[2] := 0;
    } else if bumpType == "major" {
      parts[0] := parts[0] + 1;
      parts[1] := 0;
      parts[2] := 0;
    } else {
      return Err(InvalidBumpType(bumpType));
    }
    assert Version(parts[0], parts[1], parts[2]) == Bump(v, ParseBumpType(bumpType).value);
    r := Ok(Join([NatToString(parts[0]), NatToString(parts[1]), NatToString(parts[2])], "."));
  }

  // ---- properties ----

  /** A rendered version reads back as itself. */
  lemma VersionRoundTrip(v: Version)
    ensures Readable(VersionString(v))
    ensures ParseVersion(VersionString(v)) == Some(v)
  {
    var xs := [NatToString(v.major), NatToString(v.minor), NatToString(v.patch)];
    forall i | 0 <= i < |xs|
      ensures '.' !in xs[i] && AllDigits(xs[i])
    {
      assert AllDigits(xs[i]);
    }
    SplitJoin(xs, '.');
    DecimalOfNatToString(v.major);
    DecimalOfNatToString(v.minor);
    DecimalOfNatToString(v.patch);
  }

  /**
   * A successful bump yields a version whose three numbers are those of
   * the input with the rule of the type applied.
   */
  lemma BumpReadsBack(version: string, bumpType: string)
    requires Readable(version) && |Split(version, '.')| == 3
    requires ParseBumpType(bumpType).Some?
    ensures BumpResult(version, bumpType).Ok?
    ensures Readable(BumpResult(version, bumpType).value)
    ensures ParseVersion(BumpResult(version, bumpType).value)
            == Some(Bump(ParseVersion(version).value, ParseBumpType(bumpType).value))
  {
    var w := Bump(ParseVersion(version).value, ParseBumpType(bumpType).value);
    assert BumpResult(version, bumpType) == Ok(VersionString(w));
    VersionRoundTrip(w);
  }

  /**
   * A version without exactly three pieces is rejected as an invalid
   * semver whatever the type, so a bad type with a bad version reports the
   * version.
   */
  lemma SemverCheckedFirst(version: string, bumpType: string)
    requires |Split(version, '.')| != 3
    ensures BumpResult(version, bumpType) == Err(InvalidSemver(version))
    ensures Contains(Message(BumpResult(version, bumpType).error), version)
  {
    OccursAtEnd("Invalid semver: ", version);
  }

  /** With three numeric pieces, any other type is rejected with a message naming it and the accepted types. */
  lemma BumpTypeRejected(version: string, bumpType: string)
    requires Readable(version) && |Split(version, '.')| == 3
    requires ParseBumpType(bumpType).None?
    ensures BumpResult(version, bumpType) == Err(InvalidBumpType(bumpType))
    ensures Contains(Message(InvalidBumpType(bumpType)), bumpType)
    ensures Contains(Message(InvalidBumpType(bumpType)), AcceptedTypes)
  {
    var head, tail := "Invalid bump type: \"", "\". Must be one of: ";
    assert Message(InvalidBumpType(bumpType)) == head + bumpType + (tail + AcceptedTypes);
    assert Message(InvalidBumpType(bumpType)) == head + bumpType + tail + AcceptedTypes;
    OccursAtMiddle(head, bumpType, tail + AcceptedTypes);
    OccursAtEnd(head + bumpType + tail, AcceptedTypes);
  }

  lemma OccursAtEnd(a: string, b: string)
    ensures Contains(a + b, b)
  {
    assert OccursAt(a + b, b, |a|);
  }

  lemma OccursAtMiddle(a: string, b: string, c: string)
    ensures Contains(a + b + c, b)
  {
    assert (a + b + c)[|a|..|a| + |b|] == b;
    assert OccursAt(a + b + c, b, |a|);
  }

  /** `x.y.z` for three one-digit numbers. */
  function Digits3(x: nat, y: nat, z: nat): string
    requires x < 10 && y < 10 && z < 10
  {
    [DigitChar(x), '.', DigitChar(y), '.', DigitChar(z)]
  }

  lemma Join3(a: string, b: string, c: string)
    ensures Join([a, b, c], ".") == a + "." + b + "." + c
  {
    assert [a, b, c][1..] == [b, c];
    assert [b, c][1..] == [c];
    assert Join([c], ".") == c;
    assert Join([b, c], ".") == b + "." + c;
  }

  /** On versions of one-digit numbers the bump can be read off the text. */
  lemma OneDigitBump(x: nat, y: nat, z: nat, name: string, t: BumpType, a: nat, b: nat, c: nat)
    requires x < 10 && y < 10 && z < 10 && a < 10 && b < 10 && c < 10
    requires ParseBumpType(name) == Some(t) && Bump(Version(x, y, z), t) == Version(a, b, c)
    ensures Readable(Digits3(x, y, z))
    ensures BumpResult(Digits3(x, y, z), name) == Ok(Digits3(a, b, c))
  {
    var v := Version(x, y, z);
    OneDigitVersion(v);
    OneDigitVersion(Version(a, b, c));
    assert ParseVersion(Digits3(x, y, z)) == Some(v);
  }

  lemma OneDigitVersion(v: Version)
    requires v.major < 10 && v.minor < 10 && v.patch < 10
    ensures VersionString(v) == Digits3(v.major, v.minor, v.patch)
    ensures Readable(VersionString(v)) && ParseVersion(VersionString(v)) == Some(v)
  {
    Join3([DigitChar(v.major)], [DigitChar(v.minor)], [DigitChar(v.patch)]);
    VersionRoundTrip(v);
  }

  /** The bumps of the source's tests, one lemma per assertion: `bumpVersion(v, type)` returns the expected text. */
  lemma BumpPatchExample()
    ensures Readable("1.2.3")
    ensures BumpResult("1.2.3", "patch") == Ok("1.2.4")
  {
    assert DigitChar(1) == '1' && DigitChar(2) == '2' && DigitChar(3) == '3' && DigitChar(4) == '4';
    assert Digits3(1, 2, 3) == "1.2.3" && Digits3(1, 2, 4) == "1.2.4";
    OneDigitBump(1, 2, 3, "patch", Patch, 1, 2, 4);
  }

  lemma BumpMinorExample()
    ensures Readable("1.2.3")
    ensures BumpResult("1.2.3", "minor") == Ok("1.3.0")
  {
    assert DigitChar(0) == '0' && DigitChar(1) == '1' && DigitChar(2) == '2' && DigitChar(3) == '3';
    assert Digits3(1, 2, 3) == "1.2.3" && Digits3(1, 3, 0) == "1.3.0";
    OneDigitBump(1, 2, 3, "minor", Minor, 1, 3, 0);
  }

  lemma BumpMajorExample()
    ensures Readable("1.2.3")
    ensures BumpResult("1.2.3", "major") == Ok("2.0.0")
  {
    assert DigitChar(0) == '0' && DigitChar(1) == '1' && DigitChar(2) == '2' && DigitChar(3) == '3';
    assert Digits3(1, 2, 3) == "1.2.3" && Digits3(2, 0, 0) == "2.0.0";
    OneDigitBump(1, 2, 3, "major", Major, 2, 0, 0);
  }

  lemma ZeroPatchExample()
    ensures Readable("0.0.1")
    ensures BumpResult("0.0.1", "patch") == Ok("0.0.2")
  {
    assert DigitChar(0) == '0' && DigitChar(1) == '1' && DigitChar(2) == '2';
    assert Digits3(0, 0, 1) == "0.0.1" && Digits3(0, 0, 2) == "0.0.2";
    OneDigitBump(0, 0, 1, "patch", Patch, 0, 0, 2);
  }

  lemma ZeroMinorExample()
    ensures Readable("0.0.9")
    ensures BumpResult("0.0.9", "minor") == Ok("0.1.0")
  {
    assert DigitChar(0) == '0' && DigitChar(1) == '1' && DigitChar(9) == '9';
    assert Digits3(0, 0, 9) == "0.0.9" && Digits3(0, 1, 0) == "0.1.0";
    OneDigitBump(0, 0, 9, "minor", Minor, 0, 1, 0);
  }

  lemma ZeroMajorExample()
    ensures Readable("0.9.9")
    ensures BumpResult("0.9.9", "major") == Ok("1.0.0")
  {
    assert DigitChar(0) == '0' && DigitChar(1) == '1' && DigitChar(9) == '9';
    assert Digits3(0, 9, 9) == "0.9.9" && Digits3(1, 0, 0) == "1.0.0";
    OneDigitBump(0, 9, 9, "major", Major, 1, 0, 0);
  }

  lemma LaterPatchExample()
    ensures Readable("3.2.0")
    ensures BumpResult("3.2.0", "patch") == Ok("3.2.1")
  {
    assert DigitChar(0) == '0' && DigitChar(1) == '1' && DigitChar(2) == '2' && DigitChar(3) == '3';
    assert Digits3(3, 2, 0) == "3.2.0" && Digits3(3, 2, 1) == "3.2.1";
    OneDigitBump(3, 2, 0, "patch", Patch, 3, 2, 1);
  }

  lemma LaterMinorExample()
    ensures Readable("3.2.0")
    ensures BumpResult("3.2.0", "minor") == Ok("3.3.0")
  {
    assert DigitChar(0) == '0' && DigitChar(2) == '2' && DigitChar(3) == '3';
    assert Digits3(3, 2, 0) == "3.2.0" && Digits3(3, 3, 0) == "3.3.0";
    OneDigitBump(3, 2, 0, "minor", Minor, 3, 3, 0);
  }

  /** The rejected type of the source's tests. */
  lemma BumpTypeExample()
    ensures Readable("1.0.0")
    ensures BumpResult("1.0.0", "invalid") == Err(InvalidBumpType("invalid"))
  {
    assert DigitChar(0) == '0' && DigitChar(1) == '1';
    assert Digits3(1, 0, 0) == "1.0.0";
    OneDigitVersion(Version(1, 0, 0));
  }
}
