/**
 * The SDK version record the Lua SDK sets once it is loaded, and the version string
 * shown to the user: "<Major>.<Minor>[.<Revision>][ <Custom>]", or "Missing SDK".
 */
module Sdk {
  import opened Wrappers
  import opened Numerals

  /** The int8_t range of the version numbers. */
  type Int8 = x: int | -128 <= x < 128

  datatype SdkVersion = SdkVersion(isLoaded: bool, major: Int8, minor: Int8, revision: Int8, custom: string)

  /** The record before any setVersion. */
  const InitialSdkVersion: SdkVersion := SdkVersion(false, 0, 0, 0, "")

  const MissingSdk: string := "Missing SDK"

  /** "<Major>.<Minor>", the part every loaded version starts with. */
  function MajorMinor(v: SdkVersion): string {
    SignedDecimal(v.major) + "." + SignedDecimal(v.minor)
  }

  /** The numeric part: "<Major>.<Minor>", then ".<Revision>" when the revision is positive. */
  function NumericPart(v: SdkVersion): string {
    MajorMinor(v) + (if v.revision > 0 then "." + SignedDecimal(v.revision) else "")
  }

  function VersionString(v: SdkVersion): string {
    if !v.isLoaded then MissingSdk
    else NumericPart(v) + (if v.custom != "" then " " + v.custom else "")
  }

  /** Splits `s` at the first `c`: the text before it and, when there is one, the text after it. */
  function SplitAt(s: string, c: char): (string, Option<string>) {
    if s == [] then ([], None)
    else if s[0] == c then ([], Some(s[1..]))
    else var (head, tail) := SplitAt(s[1..], c); ([s[0]] + head, tail)
  }

  lemma {:induction false} SplitAtFirst(a: string, c: char, b: string)
    requires c !in a
    ensures SplitAt(a + [c] + b, c) == (a, Some(b))
  {
    if a != [] {
      assert (a + [c] + b)[1..] == a[1..] + [c] + b;
      SplitAtFirst(a[1..], c, b);
      assert [a[0]] + a[1..] == a;
    } else {
      assert a + [c] + b == [c] + b;
    }
  }

  lemma {:induction false} SplitAtAbsent(a: string, c: char)
    requires c !in a
    ensures SplitAt(a, c) == (a, None)
  {
    if a != [] {
      SplitAtAbsent(a[1..], c);
      assert [a[0]] + a[1..] == a;
    }
  }

  datatype ParsedVersion = ParsedVersion(major: int, minor: int, revision: int, custom: string)

  /** Reads "<Major>.<Minor>[.<Revision>]" back; a missing revision reads as 0. */
  function ParseNumeric(numeric: string): Option<(int, int, int)> {
    var (majorText, afterMajor) := SplitAt(numeric, '.');
    if afterMajor.None? then None
    else
      var (minorText, afterMinor) := SplitAt(afterMajor.value, '.');
      var major := ParseSigned(majorText);
      var minor := ParseSigned(minorText);
      var revision := if afterMinor.None? then Some(0) else ParseSigned(afterMinor.value);
      if major.None? || minor.None? || revision.None? then None
      else Some((major.value, minor.value, revision.value))
  }

  /** Reads a version string back; None for anything that is not one, "Missing SDK" included. */
  function ParseVersion(s: string): Option<ParsedVersion> {
    var (numeric, custom) := SplitAt(s, ' ');
    match ParseNumeric(numeric)
    case None => None
    case Some((major, minor, revision)) => Some(ParsedVersion(major, minor, revision, custom.GetOr("")))
  }

  lemma NumeralHasNoSeparators(i: int)
    ensures '.' !in SignedDecimal(i) && ' ' !in SignedDecimal(i)
  {
    var s := SignedDecimal(i);
    forall k | 0 <= k < |s| ensures s[k] != '.' && s[k] != ' ' {
      assert s[k] == '-' || IsDigit(s[k], 10);
    }
  }

  /** A loaded version starts with "<Major>.<Minor>". */
  lemma VersionStartsWithMajorMinor(v: SdkVersion)
    requires v.isLoaded
    ensures |MajorMinor(v)| <= |VersionString(v)|
    ensures VersionString(v)[..|MajorMinor(v)|] == MajorMinor(v)
  {
    var tail := (if v.revision > 0 then "." + SignedDecimal(v.revision) else "")
              + (if v.custom != "" then " " + v.custom else "");
    assert VersionString(v) == MajorMinor(v) + tail;
  }

  /** In a loaded version, "<Major>.<Minor>" is followed by '.' exactly when the revision is positive, and then by ".<Revision>". */
  lemma RevisionShownIffPositive(v: SdkVersion)
    requires v.isLoaded
    ensures var s, mm := VersionString(v), MajorMinor(v);
            (|s| > |mm| && s[|mm|] == '.') <==> v.revision > 0
    ensures var s, mm, rev := VersionString(v), MajorMinor(v), "." + SignedDecimal(v.revision);
            v.revision > 0 ==> |mm| + |rev| <= |s| && s[|mm|..|mm| + |rev|] == rev
  {
    var s, mm := VersionString(v), MajorMinor(v);
    var custom := if v.custom != "" then " " + v.custom else "";
    if v.revision > 0 {
      var rev := "." + SignedDecimal(v.revision);
      assert s == mm + rev + custom;
      assert s[|mm|..|mm| + |rev|] == rev;
    } else {
      assert s == mm + custom;
      if |s| > |mm| {
        assert s[|mm|] == ' ';
      }
    }
  }

  /** A loaded version contains a space exactly when the custom text is non-empty, and then ends with " <Custom>" after the numeric part. */
  lemma CustomShownIffNonEmpty(v: SdkVersion)
    requires v.isLoaded
    ensures ' ' in VersionString(v) <==> v.custom != ""
    ensures v.custom != "" ==> VersionString(v) == NumericPart(v) + " " + v.custom
  {
    NumeralHasNoSeparators(v.major);
    NumeralHasNoSeparators(v.minor);
    NumeralHasNoSeparators(v.revision);
    var numeric := NumericPart(v);
    assert ' ' !in numeric;
    if v.custom != "" {
      assert VersionString(v) == numeric + " " + v.custom;
      assert VersionString(v)[|numeric|] == ' ';
    } else {
      assert VersionString(v) == numeric;
    }
  }

  lemma NumericRoundTrip(v: SdkVersion)
    ensures ParseNumeric(NumericPart(v)) == Some((v.major as int, v.minor as int, if v.revision > 0 then v.revision as int else 0))
  {
    var ma, mi, re := SignedDecimal(v.major), SignedDecimal(v.minor), SignedDecimal(v.revision);
    NumeralHasNoSeparators(v.major);
    NumeralHasNoSeparators(v.minor);
    SignedDecimalRoundTrip(v.major);
    SignedDecimalRoundTrip(v.minor);
    SignedDecimalRoundTrip(v.revision);
    var afterMajor := mi + (if v.revision > 0 then "." + re else "");
    assert NumericPart(v) == ma + ['.'] + afterMajor;
    SplitAtFirst(ma, '.', afterMajor);
    if v.revision > 0 {
      assert afterMajor == mi + ['.'] + re;
      SplitAtFirst(mi, '.', re);
    } else {
      assert afterMajor == mi;
      SplitAtAbsent(mi, '.');
    }
  }

  lemma SplitOffCustom(v: SdkVersion)
    requires v.isLoaded
    ensures SplitAt(VersionString(v), ' ') == (NumericPart(v), if v.custom != "" then Some(v.custom) else None)
  {
    NumeralHasNoSeparators(v.major);
    NumeralHasNoSeparators(v.minor);
    NumeralHasNoSeparators(v.revision);
    var numeric := NumericPart(v);
    assert ' ' !in numeric;
    if v.custom != "" {
      assert VersionString(v) == numeric + [' '] + v.custom;
      SplitAtFirst(numeric, ' ', v.custom);
    } else {
      assert VersionString(v) == numeric;
      SplitAtAbsent(numeric, ' ');
    }
  }

  /**
   * The version string keeps everything it shows: reading it back gives the major, minor
   * and custom parts, and the revision when it is positive (0 otherwise).
   */
  lemma VersionRoundTrip(v: SdkVersion)
    requires v.isLoaded
    ensures ParseVersion(VersionString(v)) ==
              Some(ParsedVersion(v.major, v.minor, if v.revision > 0 then v.revision else 0, v.custom))
  {
    SplitOffCustom(v);
    NumericRoundTrip(v);
  }

  /** "Missing SDK" never reads back as a version. */
  lemma MissingSdkIsNoVersion()
    ensures ParseVersion(VersionString(InitialSdkVersion)) == None
  {
    var word := "Missing";
    assert MissingSdk == word + [' '] + "SDK";
    SplitAtFirst(word, ' ', "SDK");
    SplitAtAbsent(word, '.');
    assert ParseNumeric(word) == None;
  }

  /** The process-wide SDK state (the static `SDKManager::_sdkversion`). */
  class SdkManager {
    var sdkVersion: SdkVersion

    constructor ()
      ensures sdkVersion == InitialSdkVersion
      ensures Version() == MissingSdk
    {
      sdkVersion := InitialSdkVersion;
    }

    method SetVersion(major: Int8, minor: Int8, revision: Int8, custom: string)
      modifies this
      ensures sdkVersion == SdkVersion(true, major, minor, revision, custom)
      ensures Version() == VersionString(SdkVersion(true, major, minor, revision, custom))
    {
      sdkVersion := SdkVersion(true, major, minor, revision, custom);
    }

    /** "Missing SDK" until a version is set; afterwards a string that reads back as that version. */
    function Version(): (s: string)
      reads this
      ensures !sdkVersion.isLoaded ==> s == MissingSdk && ParseVersion(s) == None
      ensures sdkVersion.isLoaded ==>
                ParseVersion(s) == Some(ParsedVersion(sdkVersion.major, sdkVersion.minor,
                                                      if sdkVersion.revision > 0 then sdkVersion.revision else 0,
                                                      sdkVersion.custom))
    {
      if sdkVersion.isLoaded then
        VersionRoundTrip(sdkVersion);
        VersionString(sdkVersion)
      else
        MissingSdkIsNoVersion();
        VersionString(sdkVersion)
    }
  }
}
