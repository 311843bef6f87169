/**
 * The package's `Version` named tuple: MAJOR.MINOR.PATCH parsed from and
 * printed to text, the three increments and the compatibility test.
 */
module SemVer {
  import opened Results
  import opened Text

  datatype Version = Version(major: int, minor: int, patch: int)

  /** What `from_str` raises on a string that is not three dotted digit runs. */
  datatype VersionError = InvalidFormat(text: string)

  /** The reference reading of `^\d+\.\d+\.\d+$`: three digit runs joined by single dots. */
  ghost predicate ThreeRuns(s: string) {
    exists a: string, b: string, c: string {:trigger a + "." + b + "." + c} ::
      s == a + "." + b + "." + c && DigitRun(a) && DigitRun(b) && DigitRun(c)
  }

  /** `Version.is_valid`: split at the dots and look at the pieces. */
  predicate IsValid(s: string) {
    var parts := Split(s, '.');
    |parts| == 3 && DigitRun(parts[0]) && DigitRun(parts[1]) && DigitRun(parts[2])
  }

  lemma {:induction false} SplitThree(a: string, b: string, c: string)
    requires '.' !in a && '.' !in b && '.' !in c
    ensures Split(a + "." + b + "." + c, '.') == [a, b, c]
  {
    assert a + "." + b + "." + c == a + ['.'] + (b + ['.'] + c);
    SplitAtSeparator(a, '.', b + ['.'] + c);
    SplitAtSeparator(b, '.', c);
    SplitNoSeparator(c, '.');
  }

  lemma DigitRunHasNoDot(s: string)
    requires AllDigits(s)
    ensures '.' !in s
  {
  }

  /** The split-based test accepts exactly the strings the pattern describes. */
  lemma IsValidMeansThreeRuns(s: string)
    ensures IsValid(s) <==> ThreeRuns(s)
  {
    if IsValid(s) {
      var parts := Split(s, '.');
      JoinSplit(s, '.');
      assert parts[1..] == [parts[1], parts[2]] && parts[1..][1..] == [parts[2]];
      assert Join(parts[1..][1..], ".") == parts[2];
      assert Join(parts[1..], ".") == parts[1] + "." + parts[2];
      assert Join(parts, ".") == parts[0] + "." + (parts[1] + "." + parts[2]);
      assert s == parts[0] + "." + parts[1] + "." + parts[2];
    }
    if ThreeRuns(s) {
      var a: string, b: string, c: string :| s == a + "." + b + "." + c && DigitRun(a) && DigitRun(b) && DigitRun(c);
      DigitRunHasNoDot(a);
      DigitRunHasNoDot(b);
      DigitRunHasNoDot(c);
      SplitThree(a, b, c);
    }
  }

  /** `str(v)`. */
  function ToString(v: Version): string {
    IntToString(v.major) + "." + IntToString(v.minor) + "." + IntToString(v.patch)
  }

  /** `Version.from_str`. */
  function FromStr(s: string): (r: Result<Version, VersionError>)
    ensures r.Err? <==> !IsValid(s)
    ensures r.Err? ==> r.error == InvalidFormat(s)
    ensures r.Ok? ==> var parts := Split(s, '.');
      r.value == Version(ParseNat(parts[0]), ParseNat(parts[1]), ParseNat(parts[2]))
    ensures r.Ok? ==> r.value.major >= 0 && r.value.minor >= 0 && r.value.patch >= 0
  {
    if !IsValid(s) then Err(InvalidFormat(s))
    else
      var parts := Split(s, '.');
      Ok(Version(ParseNat(parts[0]), ParseNat(parts[1]), ParseNat(parts[2])))
  }

  /** Printing and reading back returns the version, for non-negative components. */
  lemma RoundTrip(v: Version)
    requires v.major >= 0 && v.minor >= 0 && v.patch >= 0
    ensures FromStr(ToString(v)) == Ok(v)
  {
    var a, b, c := NatToString(v.major), NatToString(v.minor), NatToString(v.patch);
    SplitThree(a, b, c);
    ParseNatToString(v.major);
    ParseNatToString(v.minor);
    ParseNatToString(v.patch);
  }

  /** A leading zero does not change the number a digit string denotes. */
  lemma {:induction false} LeadingZeroIgnored(s: string)
    requires AllDigits(s)
    ensures AllDigits("0" + s) && ParseNat("0" + s) == ParseNat(s)
  {
    if s != [] {
      var init := s[..|s| - 1];
      assert ("0" + s)[..|"0" + s| - 1] == "0" + init;
      LeadingZeroIgnored(init);
    } else {
      assert ("0")[..0] == [];
    }
  }

  /**
   * Reading normalises leading zeros away: a version printed with a zero in
   * front reads back as the same version, so reading then printing does not
   * give such input back.
   */
  lemma LeadingZerosNormalised(v: Version)
    requires v.major >= 0 && v.minor >= 0 && v.patch >= 0
    ensures FromStr("0" + ToString(v)) == Ok(v)
    ensures ToString(v) != "0" + ToString(v)
  {
    var a, b, c := NatToString(v.major), NatToString(v.minor), NatToString(v.patch);
    assert "0" + ToString(v) == ("0" + a) + "." + b + "." + c;
    LeadingZeroIgnored(a);
    DigitRunHasNoDot("0" + a);
    DigitRunHasNoDot(b);
    DigitRunHasNoDot(c);
    SplitThree("0" + a, b, c);
    ParseNatToString(v.major);
    ParseNatToString(v.minor);
    ParseNatToString(v.patch);
  }

  function IncrementMajor(v: Version): Version {
    Version(v.major + 1, 0, 0)
  }

  function IncrementMinor(v: Version): Version {
    Version(v.major, v.minor + 1, 0)
  }

  function IncrementPatch(v: Version): Version {
    Version(v.major, v.minor, v.patch + 1)
  }

  /** Semantic-versioning precedence of release versions: major, then minor, then patch. */
  predicate Precedes(a: Version, b: Version) {
    a.major < b.major
    || (a.major == b.major && a.minor < b.minor)
    || (a.major == b.major && a.minor == b.minor && a.patch < b.patch)
  }

  /**
   * Each increment yields a later version, and the earliest one with that
   * component bumped: between a version and its increments lie only
   * versions that keep the bumped component, and every version that keeps
   * it comes before the increment, and no increment has a negative
   * component. Together these fix the increments as `(M+1, 0, 0)`,
   * `(M, m+1, 0)` and `(M, m, p+1)` (`MajorIncrementIsDetermined`,
   * `MinorIncrementIsDetermined`).
   */
  lemma IncrementsAdvance(v: Version, w: Version)
    requires v.major >= 0 && v.minor >= 0 && v.patch >= 0
    requires w.major >= 0 && w.minor >= 0 && w.patch >= 0
    ensures Precedes(v, IncrementMajor(v)) && Precedes(v, IncrementMinor(v)) && Precedes(v, IncrementPatch(v))
    ensures Precedes(v, w) && Precedes(w, IncrementMajor(v)) ==> w.major == v.major
    ensures Precedes(v, w) && Precedes(w, IncrementMinor(v)) ==> w.major == v.major && w.minor == v.minor
    ensures !(Precedes(v, w) && Precedes(w, IncrementPatch(v)))
    ensures w.major == v.major ==> Precedes(w, IncrementMajor(v))
    ensures w.major == v.major && w.minor == v.minor ==> Precedes(w, IncrementMinor(v))
    ensures IncrementMajor(v).minor >= 0 && IncrementMajor(v).patch >= 0 && IncrementMinor(v).patch >= 0
  {
  }

  /** The two properties of `IncrementMajor` in `IncrementsAdvance` leave no other candidate. */
  lemma MajorIncrementIsDetermined(v: Version, x: Version)
    requires v.major >= 0 && v.minor >= 0 && v.patch >= 0
    requires x.major >= 0 && x.minor >= 0 && x.patch >= 0
    requires Precedes(v, x)
    requires forall w: Version :: w.major >= 0 && w.minor >= 0 && w.patch >= 0 && Precedes(v, w) && Precedes(w, x) ==>
               w.major == v.major
    requires forall w: Version :: w.major == v.major ==> Precedes(w, x)
    ensures x == IncrementMajor(v)
  {
  }

  /** The two properties of `IncrementMinor` in `IncrementsAdvance` leave no other candidate. */
  lemma MinorIncrementIsDetermined(v: Version, x: Version)
    requires v.major >= 0 && v.minor >= 0 && v.patch >= 0
    requires x.major >= 0 && x.minor >= 0 && x.patch >= 0
    requires Precedes(v, x)
    requires forall w: Version :: w.major >= 0 && w.minor >= 0 && w.patch >= 0 && Precedes(v, w) && Precedes(w, x) ==>
               w.major == v.major && w.minor == v.minor
    requires forall w: Version :: w.major == v.major && w.minor == v.minor ==> Precedes(w, x)
    ensures x == IncrementMinor(v)
  {
    var next := Version(v.major, v.minor + 1, 0);
    assert Precedes(v, next) && (Precedes(next, x) ==> next.minor == v.minor);
    assert x.major == v.major && x.minor == v.minor ==> Precedes(x, x);
  }

  /** `is_compatible_with`. */
  predicate IsCompatibleWith(v: Version, other: Version) {
    v.major == other.major
  }

  /** Compatibility is an equivalence relation. */
  lemma CompatibilityIsEquivalence(a: Version, b: Version, c: Version)
    ensures IsCompatibleWith(a, a)
    ensures IsCompatibleWith(a, b) ==> IsCompatibleWith(b, a)
    ensures IsCompatibleWith(a, b) && IsCompatibleWith(b, c) ==> IsCompatibleWith(a, c)
  {
  }

  /** Minor and patch increments stay compatible; a major increment never is. */
  lemma IncrementsAndCompatibility(v: Version)
    ensures IsCompatibleWith(v, IncrementMinor(v))
    ensures IsCompatibleWith(v, IncrementPatch(v))
    ensures !IsCompatibleWith(v, IncrementMajor(v))
  {
  }

  /** `to_dev_version`. */
  function ToDevVersion(v: Version): string {
    ToString(v) + ".dev0"
  }

  /** `to_rc_version(rc_number)`. */
  function ToRcVersion(v: Version, rcNumber: int): string {
    ToString(v) + "rc" + IntToString(rcNumber)
  }

  /** A development version string is not a valid release version: it has a fourth piece. */
  lemma DevVersionIsNotRelease(v: Version)
    requires v.major >= 0 && v.minor >= 0 && v.patch >= 0
    ensures !IsValid(ToDevVersion(v))
  {
    var a, b, c := NatToString(v.major), NatToString(v.minor), NatToString(v.patch);
    assert ToDevVersion(v) == a + "." + b + "." + c + ".dev0";
    assert ToDevVersion(v) == a + ['.'] + (b + ['.'] + (c + ['.'] + "dev0"));
    SplitAtSeparator(a, '.', b + ['.'] + (c + ['.'] + "dev0"));
    SplitAtSeparator(b, '.', c + ['.'] + "dev0");
    SplitAtSeparator(c, '.', "dev0");
  }

  /** A release-candidate string is not a valid release version: its last piece is not all digits. */
  lemma RcVersionIsNotRelease(v: Version, rcNumber: int)
    requires v.major >= 0 && v.minor >= 0 && v.patch >= 0 && rcNumber >= 0
    ensures !IsValid(ToRcVersion(v, rcNumber))
  {
    var a, b, c := NatToString(v.major), NatToString(v.minor), NatToString(v.patch);
    var tail := c + "rc" + NatToString(rcNumber);
    assert ToRcVersion(v, rcNumber) == a + ['.'] + (b + ['.'] + tail);
    SplitAtSeparator(a, '.', b + ['.'] + tail);
    SplitAtSeparator(b, '.', tail);
    assert '.' !in tail;
    SplitNoSeparator(tail, '.');
    assert tail[|c|] == 'r';
  }

  const VersionString: string := "0.3.3"

  /** `version_info`, parsed from `__version__` at import time. */
  lemma VersionInfo()
    ensures FromStr(VersionString) == Ok(Version(0, 3, 3))
  {
    assert VersionString == "0" + "." + "3" + "." + "3";
    SplitThree("0", "3", "3");
    assert ParseNat("0") == 0 && ParseNat("3") == 3;
  }
}
