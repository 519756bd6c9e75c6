/** Version numbers (`domain/Semver.cpp`) and their order (`isNewerRelease`). */
module Semvers {
  import opened Common
  import opened Decimal
  import opened Text

  const MAX_VERSION_COMPONENT: nat := 999999
  const SEPARATOR: char := '.'

  datatype Semver = Semver(major: int, minor: int, patch: int, text: string)

  /** The only spelling of a number no larger than the maximum. */
  predicate IsComponent(text: string) {
    IsCanonicalDecimal(text) && ValueOf(text) <= MAX_VERSION_COMPONENT
  }

  method ParseComponent(text: string) returns (r: Option<nat>)
    ensures r == if IsComponent(text) then Some(ValueOf(text)) else None
  {
    if text == "" {
      return None;
    }
    if |text| > 1 && text[0] == '0' {
      return None;
    }
    var value: nat := 0;
    var i := 0;
    while i < |text|
      invariant 0 <= i <= |text|
      invariant AllDigits(text[..i]) && value == ValueOf(text[..i]) <= MAX_VERSION_COMPONENT
    {
      if !IsDigit(text[i]) {
        return None;
      }
      DigitAppended(text, i);
      value := value * 10 + DigitValue(text[i]);
      if value > MAX_VERSION_COMPONENT {
        if AllDigits(text) {
          LongerPrefixIsSmaller(text, i + 1);
        }
        return None;
      }
      i := i + 1;
    }
    assert text[..i] == text;
    return Some(value);
  }

  lemma DigitAppended(text: string, i: nat)
    requires i < |text| && AllDigits(text[..i]) && IsDigit(text[i])
    ensures AllDigits(text[..i + 1]) && ValueOf(text[..i + 1]) == 10 * ValueOf(text[..i]) + DigitValue(text[i])
  {
    assert text[..i + 1][..i] == text[..i];
    assert forall k :: 0 <= k < i ==> text[..i + 1][k] == text[..i][k];
  }

  ghost predicate AreComponents(parts: seq<string>) {
    forall k :: 0 <= k < |parts| ==> IsComponent(parts[k])
  }

  /** One to three components with a dot between them, spaces around them. */
  ghost predicate IsVersion(input: string) {
    Trim(input) != "" && |Split(Trim(input), SEPARATOR)| <= 3 && AreComponents(Split(Trim(input), SEPARATOR))
  }

  ghost function ComponentAt(parts: seq<string>, k: nat): int
    requires AreComponents(parts)
  {
    if k < |parts| then ValueOf(parts[k]) else 0
  }

  ghost function VersionOf(input: string): Semver
    requires IsVersion(input)
  {
    var parts := Split(Trim(input), SEPARATOR);
    Semver(ComponentAt(parts, 0), ComponentAt(parts, 1), ComponentAt(parts, 2), Trim(input))
  }

  /** What is left to split when the loop stands at `start`. */
  ghost predicate SplitTo(text: string, parts: seq<string>, start: nat)
    requires start <= |text|
  {
    parts + Split(text[start..], SEPARATOR) == Split(text, SEPARATOR)
  }

  lemma SplitFurther(text: string, parts: seq<string>, start: nat, separator: int)
    requires start <= |text| && separator == Find(text, SEPARATOR, start) && SplitTo(text, parts, start)
    ensures if separator == NPOS then parts + [text[start..]] == Split(text, SEPARATOR)
            else SplitTo(text, parts + [text[start..separator]], separator + 1)
  {
    hide Find, Split;
    SplitAtFound(text, SEPARATOR, start, separator);
    if separator != NPOS {
      var rest := Split(text[separator + 1..], SEPARATOR);
      assert parts + ([text[start..separator]] + rest) == (parts + [text[start..separator]]) + rest;
    }
  }

  method SplitParts(text: string) returns (parts: seq<string>)
    ensures parts == Split(text, SEPARATOR)
  {
    parts := [];
    var start := 0;
    assert text[0..] == text;
    while true
      invariant 0 <= start <= |text|
      invariant SplitTo(text, parts, start)
      decreases |text| - start
    {
      hide Split, SplitTo;
      var separator := Find(text, SEPARATOR, start);
      SplitFurther(text, parts, start, separator);
      if separator == NPOS {
        parts := parts + [text[start..]];
        return;
      }
      parts := parts + [text[start..separator]];
      start := separator + 1;
    }
  }

  method ParseSemver(input: string) returns (r: Result<Semver>)
    ensures r == if IsVersion(input) then Ok(VersionOf(input)) else Err(InvalidInput)
  {
    hide Trim, Split, ValueOf, IsCanonicalDecimal;
    var text := Trim(input);
    if text == "" {
      return Err(InvalidInput);
    }
    var parts := SplitParts(text);
    if |parts| > 3 {
      return Err(InvalidInput);
    }
    var version := Semver(0, 0, 0, text);
    var index := 0;
    while index < |parts|
      invariant 0 <= index <= |parts|
      invariant AreComponents(parts[..index])
      invariant version == Semver(ComponentAt(parts[..index], 0), ComponentAt(parts[..index], 1),
                                  ComponentAt(parts[..index], 2), text)
    {
      var parsed := ParseComponent(parts[index]);
      if parsed.None? {
        return Err(InvalidInput);
      }
      match index {
        case 0 => version := version.(major := parsed.value);
        case 1 => version := version.(minor := parsed.value);
        case _ => version := version.(patch := parsed.value);
      }
      assert parts[..index + 1][..index] == parts[..index];
      index := index + 1;
    }
    assert parts[..index] == parts;
    return Ok(version);
  }

  // ---------------------------------------------------------------------------
  // Canonical spelling and order
  // ---------------------------------------------------------------------------

  /** All three components, in decimal. */
  function CanonicalVersion(major: int, minor: int, patch: int): string {
    PrintInt(major) + ([SEPARATOR] + (PrintInt(minor) + ([SEPARATOR] + PrintInt(patch))))
  }

  predicate IsCanonicalVersion(v: Semver) {
    v.text == CanonicalVersion(v.major, v.minor, v.patch)
  }

  predicate InRange(v: Semver) {
    && 0 <= v.major <= MAX_VERSION_COMPONENT
    && 0 <= v.minor <= MAX_VERSION_COMPONENT
    && 0 <= v.patch <= MAX_VERSION_COMPONENT
  }

  lemma PrintedShape(n: int)
    ensures var text := PrintInt(n);
            && SEPARATOR !in text && text != "" && !IsSpace(text[0]) && !IsSpace(text[|text| - 1])
            && (n >= 0 ==> IsCanonicalDecimal(text) && ValueOf(text) == n)
            && (n < 0 ==> !IsCanonicalDecimal(text))
  {
    PrintNatIsCanonical(if n < 0 then -n else n);
    var digits := PrintNat(if n < 0 then -n else n);
    assert IsDigit(digits[0]) && IsDigit(digits[|digits| - 1]);
    if n < 0 {
      assert PrintInt(n)[0] == '-';
    }
  }

  lemma CanonicalVersionSplits(major: int, minor: int, patch: int)
    ensures var text := CanonicalVersion(major, minor, patch);
            && Trim(text) == text && text != ""
            && Split(text, SEPARATOR) == [PrintInt(major), PrintInt(minor), PrintInt(patch)]
  {
    hide Split, Trim, PrintInt, IsCanonicalDecimal;
    PrintedShape(major);
    PrintedShape(minor);
    PrintedShape(patch);
    var text := CanonicalVersion(major, minor, patch);
    var last := PrintInt(minor) + ([SEPARATOR] + PrintInt(patch));
    SplitAlone(PrintInt(patch), SEPARATOR);
    SplitOff(last, PrintInt(minor), SEPARATOR, PrintInt(patch));
    SplitOff(text, PrintInt(major), SEPARATOR, last);
    assert text[0] == PrintInt(major)[0] && text[|text| - 1] == PrintInt(patch)[|PrintInt(patch)| - 1];
    TrimKeeps(text);
  }

  lemma PrintIntIsInjective(a: int, b: int)
    requires PrintInt(a) == PrintInt(b)
    ensures a == b
  {
    hide PrintNat;
    ReadIntUndoesPrintInt(a, "");
    ReadIntUndoesPrintInt(b, "");
  }

  /** Two canonical spellings agree exactly when all three components do. */
  lemma CanonicalVersionIdentifiesTheComponents(a: Semver, b: Semver)
    requires IsCanonicalVersion(a) && IsCanonicalVersion(b)
    ensures a.text == b.text <==> a.major == b.major && a.minor == b.minor && a.patch == b.patch
  {
    hide PrintInt, CanonicalVersion;
    if a.text == b.text {
      CanonicalVersionSplits(a.major, a.minor, a.patch);
      CanonicalVersionSplits(b.major, b.minor, b.patch);
      assert [PrintInt(a.major), PrintInt(a.minor), PrintInt(a.patch)][0] == PrintInt(b.major);
      assert [PrintInt(a.major), PrintInt(a.minor), PrintInt(a.patch)][1] == PrintInt(b.minor);
      assert [PrintInt(a.major), PrintInt(a.minor), PrintInt(a.patch)][2] == PrintInt(b.patch);
      PrintIntIsInjective(a.major, b.major);
      PrintIntIsInjective(a.minor, b.minor);
      PrintIntIsInjective(a.patch, b.patch);
    }
  }

  /** Parsing reads a canonical spelling back exactly when its components are in range. */
  lemma ParsingUndoesCanonicalVersion(v: Semver)
    requires IsCanonicalVersion(v)
    ensures IsVersion(v.text) <==> InRange(v)
    ensures InRange(v) ==> VersionOf(v.text) == v
  {
    hide PrintInt, CanonicalVersion, Split, Trim, IsCanonicalDecimal, ValueOf;
    CanonicalVersionSplits(v.major, v.minor, v.patch);
    PrintedShape(v.major);
    PrintedShape(v.minor);
    PrintedShape(v.patch);
    var parts := Split(v.text, SEPARATOR);
    assert parts[0] == PrintInt(v.major) && parts[1] == PrintInt(v.minor) && parts[2] == PrintInt(v.patch);
    assert AreComponents(parts) <==> IsComponent(parts[0]) && IsComponent(parts[1]) && IsComponent(parts[2]);
  }

  /** `isNewerRelease`: the order of `std::tie`. */
  predicate IsNewer(candidate: Semver, installed: Semver) {
    || candidate.major > installed.major
    || (candidate.major == installed.major
        && (candidate.minor > installed.minor
            || (candidate.minor == installed.minor && candidate.patch > installed.patch)))
  }

  /** A version in range as one number, six digits for each of the lower components. */
  function Rank(v: Semver): int {
    (v.major * 1000000 + v.minor) * 1000000 + v.patch
  }

  lemma NewerHasTheHigherRank(candidate: Semver, installed: Semver)
    requires InRange(candidate) && InRange(installed)
    ensures IsNewer(candidate, installed) <==> Rank(candidate) > Rank(installed)
  {
  }

  /** A strict total order on canonical version texts: exactly one of newer, older and the same text. */
  lemma NewerIsAStrictTotalOrder(a: Semver, b: Semver, c: Semver)
    requires IsCanonicalVersion(a) && IsCanonicalVersion(b) && IsCanonicalVersion(c)
    ensures !(IsNewer(a, b) && IsNewer(b, a))
    ensures a.text == b.text <==> !IsNewer(a, b) && !IsNewer(b, a)
    ensures IsNewer(a, b) && IsNewer(b, c) ==> IsNewer(a, c)
  {
    hide IsCanonicalVersion;
    CanonicalVersionIdentifiesTheComponents(a, b);
  }
}
