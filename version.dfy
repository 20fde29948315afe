/** The PyTorch version pattern `(\d+\.\d+\.\d+(-[a-z]+)?)(-SNAPSHOT)?(-\d+)?`, matched against
    a whole version string, and `getVersion`, which keeps its first group.

    The pattern's language is given by `Render` over well-formed `Version` values; `Parse` is a
    matcher for it, proved to accept exactly the rendered strings and to recover the parts. */
module VersionPattern {
  import opened Wrappers
  import opened Strings

  /** The parts of a matching version: `major.minor.patch[-tag][-SNAPSHOT][-build]`. */
  datatype Version = Version(
    major: string,
    minor: string,
    patch: string,
    tag: Option<string>,
    snapshot: bool,
    build: Option<string>)

  /** Each `\d+` is a non-empty run of ASCII digits, `[a-z]+` a non-empty run of lower-case letters. */
  predicate WellFormed(v: Version)
  {
    && v.major != "" && AllDigits(v.major)
    && v.minor != "" && AllDigits(v.minor)
    && v.patch != "" && AllDigits(v.patch)
    && (v.tag.Some? ==> v.tag.value != "" && AllLower(v.tag.value))
    && (v.build.Some? ==> v.build.value != "" && AllDigits(v.build.value))
  }

  function TagText(tag: Option<string>): string
  {
    if tag.Some? then "-" + tag.value else ""
  }

  function SnapshotText(snapshot: bool): string
  {
    if snapshot then "-SNAPSHOT" else ""
  }

  function BuildText(build: Option<string>): string
  {
    if build.Some? then "-" + build.value else ""
  }

  /** What follows `major.minor.patch`: `[-tag][-SNAPSHOT][-build]`. */
  function TailText(tag: Option<string>, snapshot: bool, build: Option<string>): string
  {
    TagText(tag) + (SnapshotText(snapshot) + BuildText(build))
  }

  /** The string the pattern matches for these parts. */
  function Render(v: Version): string
  {
    v.major + ("." + (v.minor + ("." + (v.patch + TailText(v.tag, v.snapshot, v.build)))))
  }

  /** Group 1 of the pattern: the canonical version `major.minor.patch[-tag]`. */
  function Canonical(v: Version): string
  {
    v.major + ("." + (v.minor + ("." + (v.patch + TagText(v.tag)))))
  }

  /** The longest prefix of ASCII digits, and what follows it. */
  function SpanDigits(s: string): (r: (string, string))
    ensures r.0 + r.1 == s && AllDigits(r.0)
    ensures r.1 == [] || !IsDigit(r.1[0])
  {
    if s != [] && IsDigit(s[0]) then
      var (d, rest) := SpanDigits(s[1..]);
      assert [s[0]] + d + rest == [s[0]] + s[1..] == s;
      ([s[0]] + d, rest)
    else ([], s)
  }

  /** The longest prefix of lower-case letters, and what follows it. */
  function SpanLower(s: string): (r: (string, string))
    ensures r.0 + r.1 == s && AllLower(r.0)
    ensures r.1 == [] || !IsLower(r.1[0])
  {
    if s != [] && IsLower(s[0]) then
      var (d, rest) := SpanLower(s[1..]);
      assert [s[0]] + d + rest == [s[0]] + s[1..] == s;
      ([s[0]] + d, rest)
    else ([], s)
  }

  lemma {:induction false} SpanDigitsOf(d: string, rest: string)
    requires AllDigits(d)
    requires rest == [] || !IsDigit(rest[0])
    ensures SpanDigits(d + rest) == (d, rest)
  {
    if d != [] {
      assert (d + rest)[1..] == d[1..] + rest;
      SpanDigitsOf(d[1..], rest);
      assert [d[0]] + d[1..] == d;
    } else {
      assert d + rest == rest;
    }
  }

  lemma {:induction false} SpanLowerOf(d: string, rest: string)
    requires AllLower(d)
    requires rest == [] || !IsLower(rest[0])
    ensures SpanLower(d + rest) == (d, rest)
  {
    if d != [] {
      assert (d + rest)[1..] == d[1..] + rest;
      SpanLowerOf(d[1..], rest);
      assert [d[0]] + d[1..] == d;
    } else {
      assert d + rest == rest;
    }
  }

  /** `\d+\.`: a non-empty run of digits and the dot after it; gives the digits and what
      follows the dot. */
  function Component(s: string): (r: Option<(string, string)>)
    ensures r.Some? ==> r.value.0 != "" && AllDigits(r.value.0) && r.value.0 + ("." + r.value.1) == s
  {
    var (d, rest) := SpanDigits(s);
    if d == [] || rest == [] || rest[0] != '.' then None
    else
      assert rest == "." + rest[1..];
      Some((d, rest[1..]))
  }

  lemma ComponentOf(d: string, rest: string)
    requires d != "" && AllDigits(d)
    ensures Component(d + ("." + rest)) == Some((d, rest))
  {
    SpanDigitsOf(d, "." + rest);
  }

  /** `(-[a-z]+)?` */
  function ParseTag(s: string): (r: (Option<string>, string))
    ensures r.0.Some? ==> r.0.value != "" && AllLower(r.0.value)
    ensures TagText(r.0) + r.1 == s
  {
    if |s| >= 2 && s[0] == '-' && IsLower(s[1]) then
      var (l, rest) := SpanLower(s[1..]);
      assert "-" + l + rest == [s[0]] + s[1..] == s;
      (Some(l), rest)
    else (None, s)
  }

  /** `(-SNAPSHOT)?` */
  function ParseSnapshot(s: string): (r: (bool, string))
    ensures SnapshotText(r.0) + r.1 == s
  {
    if StartsWith(s, "-SNAPSHOT") then
      assert s[..9] + s[9..] == s;
      (true, s[9..])
    else (false, s)
  }

  /** `(-\d+)?` */
  function ParseBuild(s: string): (r: (Option<string>, string))
    ensures r.0.Some? ==> r.0.value != "" && AllDigits(r.0.value)
    ensures BuildText(r.0) + r.1 == s
  {
    if |s| >= 2 && s[0] == '-' && IsDigit(s[1]) then
      var (d, rest) := SpanDigits(s[1..]);
      assert "-" + d + rest == [s[0]] + s[1..] == s;
      (Some(d), rest)
    else (None, s)
  }

  /** `(-[a-z]+)?(-SNAPSHOT)?(-\d+)?` up to the end of the input. */
  function ParseTail(s: string): (r: Option<(Option<string>, bool, Option<string>)>)
    ensures r.Some? ==> (r.value.0.Some? ==> r.value.0.value != "" && AllLower(r.value.0.value))
    ensures r.Some? ==> (r.value.2.Some? ==> r.value.2.value != "" && AllDigits(r.value.2.value))
    ensures r.Some? ==> TailText(r.value.0, r.value.1, r.value.2) == s
  {
    var (tag, r4) := ParseTag(s);
    var (snapshot, r5) := ParseSnapshot(r4);
    var (build, r6) := ParseBuild(r5);
    if r6 != [] then None
    else
      assert BuildText(build) + r6 == BuildText(build);
      Some((tag, snapshot, build))
  }

  /** `VERSION_PATTERN.matcher(s).matches()`, giving the parts of `s` when it matches.
      Whatever it returns is well formed and renders back to `s`. */
  function Parse(s: string): (r: Option<Version>)
    ensures r.Some? ==> WellFormed(r.value) && Render(r.value) == s
  {
    match Component(s)
    case None => None
    case Some((major, r1)) =>
      match Component(r1)
      case None => None
      case Some((minor, r2)) =>
        var (patch, r3) := SpanDigits(r2);
        if patch == [] then None
        else
          match ParseTail(r3)
          case None => None
          case Some((tag, snapshot, build)) => Some(Version(major, minor, patch, tag, snapshot, build))
  }

  lemma ParseTagOf(tag: Option<string>, st: string)
    requires tag.Some? ==> tag.value != "" && AllLower(tag.value)
    requires st == [] || (st[0] == '-' && (|st| < 2 || !IsLower(st[1])))
    ensures ParseTag(TagText(tag) + st) == (tag, st)
  {
    var t := TagText(tag) + st;
    if tag.Some? {
      assert t[1..] == tag.value + st;
      SpanLowerOf(tag.value, st);
    } else {
      assert t == st;
    }
  }

  lemma ParseSnapshotOf(snapshot: bool, b: string)
    requires b == [] || (b[0] == '-' && |b| >= 2 && IsDigit(b[1]))
    ensures ParseSnapshot(SnapshotText(snapshot) + b) == (snapshot, b)
  {
    var st := SnapshotText(snapshot) + b;
    if snapshot {
      assert st[..9] == "-SNAPSHOT";
      assert st[9..] == b;
    } else {
      assert st == b;
    }
  }

  lemma ParseBuildOf(build: Option<string>)
    requires build.Some? ==> build.value != "" && AllDigits(build.value)
    ensures ParseBuild(BuildText(build)) == (build, [])
  {
    if build.Some? {
      var b := BuildText(build);
      assert b[1..] == build.value + [];
      SpanDigitsOf(build.value, []);
    }
  }

  /** The tail is matched back into the parts it was built from: a tag stops at the next `-`,
      `-SNAPSHOT` is upper case so it is never taken for a tag, and a build starts with a digit. */
  lemma ParseTailOf(tag: Option<string>, snapshot: bool, build: Option<string>)
    requires tag.Some? ==> tag.value != "" && AllLower(tag.value)
    requires build.Some? ==> build.value != "" && AllDigits(build.value)
    ensures ParseTail(TailText(tag, snapshot, build)) == Some((tag, snapshot, build))
  {
    var b := BuildText(build);
    var st := SnapshotText(snapshot) + b;
    assert build.Some? ==> b[1] == build.value[0];
    assert snapshot ==> st[1] == 'S';
    assert !snapshot ==> st == b;
    ParseTagOf(tag, st);
    ParseSnapshotOf(snapshot, b);
    ParseBuildOf(build);
  }

  /** Every string of the pattern's language is matched, with the parts it was built from. */
  lemma {:induction false} ParseRender(v: Version)
    requires WellFormed(v)
    ensures Parse(Render(v)) == Some(v)
  {
    var t := TailText(v.tag, v.snapshot, v.build);
    ComponentOf(v.major, v.minor + ("." + (v.patch + t)));
    ComponentOf(v.minor, v.patch + t);
    assert t == [] || t[0] == '-';
    SpanDigitsOf(v.patch, t);
    ParseTailOf(v.tag, v.snapshot, v.build);
  }

  /** A string matches the pattern exactly when it is the rendering of well-formed parts. */
  lemma MatchesIff(s: string)
    ensures Parse(s).Some? <==> exists v :: WellFormed(v) && Render(v) == s
  {
    if v :| WellFormed(v) && Render(v) == s {
      ParseRender(v);
    }
  }

  /** Rendering is injective on well-formed parts, so group 1 of a match is determined. */
  lemma RenderInjective(v: Version, w: Version)
    requires WellFormed(v) && WellFormed(w) && Render(v) == Render(w)
    ensures v == w
  {
    ParseRender(v);
    ParseRender(w);
  }

  /** `getVersion`: group 1 when the whole string matches, otherwise the string unchanged. */
  function GetVersion(version: string): string
  {
    match Parse(version)
    case Some(v) => Canonical(v)
    case None => version
  }

  /** `getVersion` drops exactly the `-SNAPSHOT` and build suffixes of a matching version, and
      leaves any other string alone. */
  lemma {:induction false} GetVersionSpec(s: string)
    ensures forall v :: WellFormed(v) && Render(v) == s ==> GetVersion(s) == Canonical(v)
    ensures (forall v :: WellFormed(v) ==> Render(v) != s) ==> GetVersion(s) == s
  {
    MatchesIff(s);
    forall v | WellFormed(v) && Render(v) == s
      ensures GetVersion(s) == Canonical(v)
    {
      ParseRender(v);
    }
  }

  /** The canonical version is itself matched, and is its own canonical form. */
  lemma {:induction false} CanonicalIsFixedPoint(v: Version)
    requires WellFormed(v)
    ensures GetVersion(Canonical(v)) == Canonical(v)
  {
    var c := v.(snapshot := false, build := None);
    assert Render(c) == Canonical(v);
    ParseRender(c);
  }

  /** Two sample versions: a nightly build (the form `findNativeLibrary` mentions) and a tagged
      snapshot build. */
  const Nightly181 := Version("1", "8", "1", None, false, Some("20210421"))
  const TaggedSnapshot := Version("1", "10", "2", Some("xyz"), true, Some("7"))

  lemma NightlySpelling()
    ensures Render(Nightly181) == "1.8.1-20210421" && Canonical(Nightly181) == "1.8.1"
  {
    assert TailText(Nightly181.tag, Nightly181.snapshot, Nightly181.build) == "-20210421";
  }

  /** A rendering is its canonical version followed by the `-SNAPSHOT` and build suffixes. */
  lemma RenderExtendsCanonical(v: Version)
    ensures Render(v) == Canonical(v) + SnapshotText(v.snapshot) + BuildText(v.build)
  {
  }

  lemma TaggedSnapshotSpelling()
    ensures Render(TaggedSnapshot) == "1.10.2-xyz-SNAPSHOT-7" && Canonical(TaggedSnapshot) == "1.10.2-xyz"
  {
    assert Canonical(TaggedSnapshot) == "1.10.2-xyz";
    RenderExtendsCanonical(TaggedSnapshot);
    assert BuildText(TaggedSnapshot.build) == "-7";
    assert "1.10.2-xyz" + "-SNAPSHOT" + "-7" == "1.10.2-xyz-SNAPSHOT-7";
  }

  lemma NightlyWellFormed()
    ensures WellFormed(Nightly181)
  {
    var d := "20210421";
    assert d[0] == '2' && d[1] == '0' && d[2] == '2' && d[3] == '1';
    assert d[4] == '0' && d[5] == '4' && d[6] == '2' && d[7] == '1';
  }

  lemma TaggedSnapshotWellFormed()
    ensures WellFormed(TaggedSnapshot)
  {
    assert "10"[0] == '1' && "10"[1] == '0';
    assert "xyz"[0] == 'x' && "xyz"[1] == 'y' && "xyz"[2] == 'z';
  }

  /** `getVersion` keeps `1.8.1` of `1.8.1-20210421` and `1.10.2-xyz` of `1.10.2-xyz-SNAPSHOT-7`
      (the spellings are those of NightlySpelling and TaggedSnapshotSpelling). */
  lemma {:induction false} GetVersionExamples()
    ensures GetVersion(Render(Nightly181)) == Canonical(Nightly181)
    ensures GetVersion(Render(TaggedSnapshot)) == Canonical(TaggedSnapshot)
  {
    NightlyWellFormed();
    ParseRender(Nightly181);
    TaggedSnapshotWellFormed();
    ParseRender(TaggedSnapshot);
  }
}
