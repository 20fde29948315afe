/** The decision rules of the PyTorch native-library resolver (`ai.djl.pytorch.jni.LibUtils`),
    with its environment made explicit: environment variables and system properties are maps,
    the file system is a set of existing paths, and the detected platform is a value.

    Paths are strings joined with `/`; `toAbsolutePath` is taken to be the identity. */
module LibUtils {
  import opened Wrappers
  import opened Strings
  import opened VersionPattern

  /** The operating-system family, as far as `System.mapLibraryName` depends on it. */
  datatype Os = Linux | Mac | Windows

  /** `System.mapLibraryName(name)` */
  function MapLibraryName(os: Os, name: string): string
  {
    match os
    case Linux => "lib" + name + ".so"
    case Mac => "lib" + name + ".dylib"
    case Windows => name + ".dll"
  }

  /** `NATIVE_LIB_NAME`, the main PyTorch library. */
  function NativeLibName(os: Os): string { MapLibraryName(os, "torch") }

  /** `JNI_LIB_NAME`, the bridge library. */
  function JniLibName(os: Os): string { MapLibraryName(os, "djl_torch") }

  /** Environment variables and Java system properties. */
  datatype Settings = Settings(env: map<string, string>, props: map<string, string>)

  function Lookup(m: map<string, string>, key: string): Option<string>
  {
    if key in m then Some(m[key]) else None
  }

  /** `System.getenv(key)`, and when that is null `System.getProperty(key)`. */
  function EnvThenProperty(s: Settings, key: string): Option<string>
  {
    if key in s.env then Some(s.env[key]) else Lookup(s.props, key)
  }

  /** What `Platform.detectPlatform("pytorch")` reports. */
  datatype Platform = Platform(
    version: string,
    flavor: string,
    classifier: string,
    apiVersion: string,
    osPrefix: string,
    osArch: string,
    libraries: seq<string>,
    placeholder: bool)

  /** The resolved native library: its directory and the build it holds. */
  datatype LibTorch = LibTorch(dir: string, version: string, apiVersion: string, flavor: string, classifier: string)

  /** The exceptions the resolver throws. */
  datatype Error =
    | UnexpectedVersion(version: string)        // IllegalArgumentException "Unexpected version"
    | FolderNotExist(dir: string)                // IllegalArgumentException from the directory walk
    | DownloadFailed(url: string)                // IllegalStateException wrapping an IOException
    | NoMatchingLibrary(classifier: string)      // IllegalStateException: no manifest line fits
    | NoJniVersion                               // AssertionError: properties without jni_version
    | StringIndexOutOfBounds(s: string)          // String.substring out of range
    | ArrayIndexOutOfBounds(index: int)          // an array index past the end
    | NullParent(path: string)                   // NullPointerException: a file with no parent
    | MissingResource(path: string)              // NullPointerException: a class-path resource that is absent
    | NumberFormat(s: string)                    // NumberFormatException from Integer.parseInt

  /** `dir.resolve(name)` */
  function Resolve(dir: string, name: string): string { dir + "/" + name }

  /** The cache directory of one build: `cacheDir/<version>-<flavor>-<classifier>`. */
  function CacheDir(cacheRoot: string, version: string, flavor: string, classifier: string): string
  {
    Resolve(cacheRoot, version + "-" + flavor + "-" + classifier)
  }

  /** The path whose existence marks a build as already cached. */
  function NativeLibPath(cacheRoot: string, version: string, flavor: string, classifier: string, os: Os): string
  {
    Resolve(CacheDir(cacheRoot, version, flavor, classifier), NativeLibName(os))
  }

  /** The second `LibTorch` constructor: everything but the directory and flavor from the platform. */
  function LibTorchOf(dir: string, p: Platform, flavor: string): (lib: LibTorch)
    ensures lib.dir == dir && lib.flavor == flavor
    ensures lib.version == p.version && lib.apiVersion == p.apiVersion && lib.classifier == p.classifier
  {
    LibTorch(dir, p.version, p.apiVersion, flavor, p.classifier)
  }

  /** The flavor chosen when neither `PYTORCH_FLAVOR` variable nor property is set. */
  function ProbedFlavor(gpuCount: int, cudaVersion: string): string
  {
    if gpuCount > 0 then "cu" + cudaVersion + "-precxx11" else "cpu-precxx11"
  }

  /** The first `LibTorch` constructor, used for a library found through an override path:
      version and flavor each come from the environment, then the system properties, then the
      platform (version) or the GPU probe (flavor). */
  function DetectedLibTorch(dir: string, p: Platform, s: Settings, gpuCount: int, cudaVersion: string): LibTorch
  {
    var version := match EnvThenProperty(s, "PYTORCH_VERSION")
      case Some(v) => v
      case None => p.version;
    var flavor := match EnvThenProperty(s, "PYTORCH_FLAVOR")
      case Some(f) => f
      case None => ProbedFlavor(gpuCount, cudaVersion);
    LibTorch(dir, version, p.apiVersion, flavor, p.classifier)
  }

  /** `isCuda` of `loadLibTorch`: the flavor names a CUDA build. */
  predicate IsCuda(flavor: string) { Contains(flavor, "cu") }

  /** Precedence of the overrides: an environment variable beats a system property, which beats
      the platform or the probe. */
  lemma DetectedLibTorchPrecedence(dir: string, p: Platform, s: Settings, gpuCount: int, cudaVersion: string)
    ensures var lib := DetectedLibTorch(dir, p, s, gpuCount, cudaVersion);
      && lib.dir == dir && lib.apiVersion == p.apiVersion && lib.classifier == p.classifier
      && ("PYTORCH_VERSION" in s.env ==> lib.version == s.env["PYTORCH_VERSION"])
      && ("PYTORCH_VERSION" !in s.env && "PYTORCH_VERSION" in s.props ==> lib.version == s.props["PYTORCH_VERSION"])
      && ("PYTORCH_VERSION" !in s.env && "PYTORCH_VERSION" !in s.props ==> lib.version == p.version)
      && ("PYTORCH_FLAVOR" in s.env ==> lib.flavor == s.env["PYTORCH_FLAVOR"])
      && ("PYTORCH_FLAVOR" !in s.env && "PYTORCH_FLAVOR" in s.props ==> lib.flavor == s.props["PYTORCH_FLAVOR"])
      && ("PYTORCH_FLAVOR" !in s.env && "PYTORCH_FLAVOR" !in s.props ==> lib.flavor == ProbedFlavor(gpuCount, cudaVersion))
  {
  }

  /** A string with no `c` directly followed by `u` does not contain "cu". */
  lemma {:induction false} NoCuPair(s: string)
    requires forall k :: 0 <= k < |s| - 1 ==> s[k] != 'c' || s[k + 1] != 'u'
    ensures !Contains(s, "cu")
  {
    if |s| >= 2 {
      assert s[..2][0] == s[0] && s[..2][1] == s[1];
    }
    if |s| > 0 {
      NoCuPair(s[1..]);
    }
  }

  lemma CpuFlavorNotCuda()
    ensures !IsCuda("cpu-precxx11")
  {
    var c := "cpu-precxx11";
    assert c[0] == 'c' && c[1] == 'p' && c[2] == 'u' && c[3] == '-' && c[4] == 'p' && c[5] == 'r';
    assert c[6] == 'e' && c[7] == 'c' && c[8] == 'x' && c[9] == 'x' && c[10] == '1' && c[11] == '1';
    NoCuPair(c);
  }

  /** With no flavor override, the flavor is a pre-C++11 build, and the loader treats it as a
      CUDA build exactly when the probe found a GPU. */
  lemma {:induction false} ProbedFlavorIsCudaIff(gpuCount: int, cudaVersion: string)
    ensures EndsWith(ProbedFlavor(gpuCount, cudaVersion), "-precxx11")
    ensures IsCuda(ProbedFlavor(gpuCount, cudaVersion)) <==> gpuCount > 0
  {
    var f := ProbedFlavor(gpuCount, cudaVersion);
    if gpuCount > 0 {
      assert f == "cu" + (cudaVersion + "-precxx11");
      assert StartsWith(f, "cu");
      EndsWithAppended("cu" + cudaVersion, "-precxx11");
    } else {
      assert "cpu-precxx11" == "cpu" + "-precxx11";
      EndsWithAppended("cpu", "-precxx11");
      CpuFlavorNotCuda();
    }
  }

  /** The flavor `copyNativeLibraryFromClasspath` uses: `-precxx11` is appended when the
      bundled libraries include `libstdc++.so.6` and the flavor does not already end with it. */
  function ClasspathFlavor(flavor: string, libraries: seq<string>): string
  {
    if !EndsWith(flavor, "-precxx11") && "libstdc++.so.6" in libraries then flavor + "-precxx11" else flavor
  }

  lemma EndsWithAppended(f: string, x: string)
    ensures EndsWith(f + x, x)
  {
    assert (f + x)[|f + x| - |x|..] == x;
  }

  /** The suffix is present afterwards exactly when it was there before or `libstdc++.so.6` is
      listed; the flavor is only ever extended, and a second application adds nothing, so the
      suffix is appended at most once. */
  lemma {:induction false} ClasspathFlavorSpec(flavor: string, libraries: seq<string>)
    ensures var r := ClasspathFlavor(flavor, libraries);
      && (r == flavor || r == flavor + "-precxx11")
      && StartsWith(r, flavor)
      && (EndsWith(r, "-precxx11") <==> EndsWith(flavor, "-precxx11") || "libstdc++.so.6" in libraries)
      && ClasspathFlavor(r, libraries) == r
  {
    var r := ClasspathFlavor(flavor, libraries);
    EndsWithAppended(flavor, "-precxx11");
    assert r[..|flavor|] == flavor;
  }

  /** `Boolean.parseBoolean(v)`: non-null and equal to "true" ignoring case. */
  predicate ParseBoolean(v: Option<string>)
  {
    v.Some? && |v.value| == 4
    && v.value[0] in "tT" && v.value[1] in "rR" && v.value[2] in "uU" && v.value[3] in "eE"
  }

  /** The suffix `downloadPyTorch` appends to the flavor: `-precxx11` when the
      `PYTORCH_PRECXX11` property or variable is true, or on aarch64 Linux. */
  function Precxx11Suffix(s: Settings, p: Platform): (suffix: string)
    ensures suffix == "-precxx11" || suffix == ""
  {
    if ParseBoolean(Lookup(s.props, "PYTORCH_PRECXX11"))
      || ParseBoolean(Lookup(s.env, "PYTORCH_PRECXX11"))
      || (p.osArch == "aarch64" && p.osPrefix == "linux")
    then "-precxx11" else ""
  }

  lemma Precxx11SuffixSpec(s: Settings, p: Platform)
    ensures Precxx11Suffix(s, p) == "-precxx11" <==>
      ParseBoolean(Lookup(s.props, "PYTORCH_PRECXX11")) || ParseBoolean(Lookup(s.env, "PYTORCH_PRECXX11"))
      || (p.osArch == "aarch64" && p.osPrefix == "linux")
  {
  }

  /** The resource prefix for a bundled build, corrected: `pytorch/<flavor>/<classifier>` from
      1.10.2 on, `native/lib` before, with the minor and patch numbers taken from the pattern's own
      digit groups and read with `Integer.parseInt`. The copy itself runs the rule as written,
      `ResourcePrefixAsWritten`. */
  function ResourcePrefix(v: Version, flavor: string, classifier: string): Result<string, Error>
  {
    match ParseInt(v.minor)
    case None => Err(NumberFormat(v.minor))
    case Some(minor) =>
      match ParseInt(v.patch)
      case None => Err(NumberFormat(v.patch))
      case Some(patch) =>
        if minor > 10 || (minor == 10 && patch == 2) then Ok("pytorch/" + flavor + "/" + classifier)
        else Ok("native/lib")
  }

  /** The prefix is `pytorch/<flavor>/<classifier>` exactly when minor > 10, or minor == 10 and
      patch == 2, and `native/lib` otherwise; the major number plays no part. */
  lemma {:induction false} ResourcePrefixRule(v: Version, flavor: string, classifier: string)
    requires WellFormed(v)
    requires DecimalValue(v.minor) <= IntMax && DecimalValue(v.patch) <= IntMax
    ensures var minor, patch := DecimalValue(v.minor), DecimalValue(v.patch);
      && ResourcePrefix(v, flavor, classifier).Ok?
      && (ResourcePrefix(v, flavor, classifier).value == "pytorch/" + flavor + "/" + classifier
          <==> minor > 10 || (minor == 10 && patch == 2))
      && (ResourcePrefix(v, flavor, classifier).value == "native/lib"
          <==> !(minor > 10 || (minor == 10 && patch == 2)))
  {
    var p := "pytorch/" + flavor + "/" + classifier;
    assert p[0] == 'p' && "native/lib"[0] == 'n';
  }

  /** The prefix rule as the source writes it: group 1 of the version is split on `.` and the
      second and third pieces are read with `Integer.parseInt`. */
  function ResourcePrefixAsWritten(v: Version, flavor: string, classifier: string): Result<string, Error>
  {
    var versions := Split(Canonical(v), '.');
    if |versions| < 2 then Err(ArrayIndexOutOfBounds(1))
    else
      match ParseInt(versions[1])
      case None => Err(NumberFormat(versions[1]))
      case Some(minor) =>
        if |versions| < 3 then Err(ArrayIndexOutOfBounds(2))
        else
          match ParseInt(versions[2])
          case None => Err(NumberFormat(versions[2]))
          case Some(patch) =>
            if minor > 10 || (minor == 10 && patch == 2) then Ok("pytorch/" + flavor + "/" + classifier)
            else Ok("native/lib")
  }

  lemma NoDotInDigits(s: string)
    requires AllDigits(s)
    ensures '.' !in s && '-' !in s
  {
  }

  lemma NoDotInLower(s: string)
    requires AllLower(s)
    ensures '.' !in s && '-' !in s
  {
  }

  /** For a version without a tag the written rule and ResourcePrefix agree. */
  lemma {:induction false} AsWrittenAgreesWithoutTag(v: Version, flavor: string, classifier: string)
    requires WellFormed(v) && v.tag.None?
    ensures ResourcePrefixAsWritten(v, flavor, classifier) == ResourcePrefix(v, flavor, classifier)
  {
    NoDotInDigits(v.major);
    NoDotInDigits(v.minor);
    NoDotInDigits(v.patch);
    assert Canonical(v) == v.major + ['.'] + v.minor + ['.'] + v.patch;
    SplitThree(v.major, v.minor, v.patch, '.');
  }

  /** Group 1 of a tagged version splits into major, minor and `<patch>-<tag>`. */
  lemma TaggedCanonicalSplit(v: Version)
    requires WellFormed(v) && v.tag.Some?
    ensures Split(Canonical(v), '.') == [v.major, v.minor, v.patch + "-" + v.tag.value]
  {
    NoDotInDigits(v.major);
    NoDotInDigits(v.minor);
    NoDotInDigits(v.patch);
    NoDotInLower(v.tag.value);
    var last := v.patch + "-" + v.tag.value;
    assert '.' !in last by {
      assert last == v.patch + ("-" + v.tag.value);
    }
    assert Canonical(v) == v.major + ['.'] + v.minor + ['.'] + last;
    SplitThree(v.major, v.minor, last, '.');
  }

  /** `<patch>-<tag>` is not a number. */
  lemma TaggedPatchNotANumber(patch: string, tag: string)
    requires patch != "" && AllDigits(patch)
    ensures ParseInt(patch + "-" + tag) == None
  {
    var last := patch + "-" + tag;
    assert last[|patch|] == '-' && IsDigit(last[0]);
    assert !AllDigits(last);
  }

  /** A tagged version passes the version gate, yet the written rule hands `<patch>-<tag>` to
      `Integer.parseInt`, which throws. */
  lemma {:induction false} AsWrittenRejectsTag(v: Version, flavor: string, classifier: string)
    requires WellFormed(v) && v.tag.Some? && DecimalValue(v.minor) <= IntMax
    ensures Parse(Render(v)) == Some(v)
    ensures ResourcePrefixAsWritten(v, flavor, classifier) == Err(NumberFormat(v.patch + "-" + v.tag.value))
  {
    ParseRender(v);
    TaggedCanonicalSplit(v);
    TaggedPatchNotANumber(v.patch, v.tag.value);
  }

  /** The version `1.10.2-xyz`, which the pattern accepts with tag `xyz`. */
  const Tagged1102: Version := Version("1", "10", "2", Some("xyz"), false, None)

  lemma Tagged1102WellFormed()
    ensures WellFormed(Tagged1102)
    ensures DecimalValue(Tagged1102.minor) == 10 && DecimalValue(Tagged1102.patch) == 2
  {
    assert "10"[0] == '1' && "10"[1] == '0' && "10"[..1] == "1";
    assert "xyz"[0] == 'x' && "xyz"[1] == 'y' && "xyz"[2] == 'z';
  }

  lemma Tagged1102Piece()
    ensures Tagged1102.patch + "-" + Tagged1102.tag.value == "2-xyz"
  {
  }

  /** `1.10.2-xyz` matches the pattern, but the written rule cannot read its patch number. */
  lemma TaggedExampleAsWritten(flavor: string, classifier: string)
    ensures Parse(Render(Tagged1102)) == Some(Tagged1102)
    ensures ResourcePrefixAsWritten(Tagged1102, flavor, classifier) == Err(NumberFormat("2-xyz"))
  {
    Tagged1102WellFormed();
    AsWrittenRejectsTag(Tagged1102, flavor, classifier);
    Tagged1102Piece();
  }

  /** The corrected rule gives `1.10.2-xyz` the `pytorch/<flavor>/<classifier>` prefix. */
  lemma TaggedExampleCorrected(flavor: string, classifier: string)
    ensures ResourcePrefix(Tagged1102, flavor, classifier) == Ok("pytorch/" + flavor + "/" + classifier)
  {
    Tagged1102WellFormed();
    ResourcePrefixRule(Tagged1102, flavor, classifier);
  }

  /** How `findNativeLibrary` proceeds: download (for a redetected platform when the version
      override is not a prefix of the detected version, or for a placeholder platform), or
      extract the bundled libraries. */
  datatype Route = DownloadRoute(platform: Platform) | ClasspathRoute(platform: Platform)

  function NativeRoute(detected: Platform, detectFor: string -> Platform, s: Settings): (r: Route)
  {
    var o := EnvThenProperty(s, "PYTORCH_VERSION");
    if o.Some? && o.value != "" && !StartsWith(detected.version, o.value) then DownloadRoute(detectFor(o.value))
    else if detected.placeholder then DownloadRoute(detected)
    else ClasspathRoute(detected)
  }

  /** Overriding the version with the canonical form of the bundled version (`1.8.1` for
      `1.8.1-20210421`) keeps the bundled build; an override that is not a prefix forces a
      download of the platform detected for it. */
  lemma {:induction false} NativeRouteOverride(detected: Platform, detectFor: string -> Platform, s: Settings, v: Version)
    requires WellFormed(v) && detected.version == Render(v)
    ensures EnvThenProperty(s, "PYTORCH_VERSION") == Some(Canonical(v)) ==>
      NativeRoute(detected, detectFor, s) == (if detected.placeholder then DownloadRoute(detected) else ClasspathRoute(detected))
    ensures forall o :: EnvThenProperty(s, "PYTORCH_VERSION") == Some(o) && o != "" && !StartsWith(Render(v), o) ==>
      NativeRoute(detected, detectFor, s) == DownloadRoute(detectFor(o))
  {
    var c := Canonical(v);
    RenderExtendsCanonical(v);
    assert Render(v)[..|c|] == c;
  }

  /** What `findJniLibrary` does about the bridge library. */
  datatype JniStep = JniCached | JniDownload(url: string) | JniExtract(resource: string)

  /** The cache path of the bridge library: `<cacheDir>/<version>-<flavor>-<classifier>/<apiVersion>-<jni>`. */
  function JniPath(lib: LibTorch, cacheRoot: string, os: Os): string
  {
    Resolve(CacheDir(cacheRoot, lib.version, lib.flavor, lib.classifier), lib.apiVersion + "-" + JniLibName(os))
  }

  function JniUrl(version: string, lib: LibTorch, os: Os): string
  {
    "https://publish.djl.ai/pytorch/" + version + "/jnilib/" + lib.apiVersion + "/" + lib.classifier + "/" + lib.flavor + "/" + JniLibName(os)
  }

  function JniResource(lib: LibTorch, os: Os): string
  {
    "jnilib/" + lib.classifier + "/" + lib.flavor + "/" + JniLibName(os)
  }

  /** `findJniLibrary`. `jniProperties` is the bundled `jnilib/pytorch.properties`: `None` when
      there is none, `Some(None)` when it has no `jni_version`. The result is the path the bridge
      library is loaded from and what has to happen to put it there. */
  function FindJniLibrary(lib: LibTorch, cacheRoot: string, existing: set<string>, os: Os,
                          jniProperties: Option<Option<string>>): (r: Result<(string, JniStep), Error>)
    ensures r.Ok? ==> r.value.0 == JniPath(lib, cacheRoot, os)
    ensures (r.Ok? && r.value.1 == JniCached) <==> JniPath(lib, cacheRoot, os) in existing
    ensures JniPath(lib, cacheRoot, os) !in existing && Parse(lib.version).None? ==> r == Err(UnexpectedVersion(lib.version))
    ensures JniPath(lib, cacheRoot, os) !in existing && Parse(lib.version).Some? && jniProperties == Some(None) ==>
      r == Err(NoJniVersion)
    ensures r.Ok? && r.value.1.JniDownload? ==>
      Parse(lib.version).Some? && r.value.1.url == JniUrl(Canonical(Parse(lib.version).value), lib, os)
    ensures r.Ok? && r.value.1.JniDownload? <==>
      JniPath(lib, cacheRoot, os) !in existing && Parse(lib.version).Some?
      && (jniProperties.None?
          || (jniProperties.value.Some?
              && !StartsWith(jniProperties.value.value, Canonical(Parse(lib.version).value) + "-" + lib.apiVersion)))
    ensures r.Ok? && r.value.1.JniExtract? <==>
      JniPath(lib, cacheRoot, os) !in existing && Parse(lib.version).Some? && jniProperties.Some? && jniProperties.value.Some?
      && StartsWith(jniProperties.value.value, Canonical(Parse(lib.version).value) + "-" + lib.apiVersion)
  {
    var path := JniPath(lib, cacheRoot, os);
    if path in existing then Ok((path, JniCached))
    else
      match Parse(lib.version)
      case None => Err(UnexpectedVersion(lib.version))
      case Some(v) =>
        var version := Canonical(v);
        match jniProperties
        case None => Ok((path, JniDownload(JniUrl(version, lib, os))))
        case Some(None) => Err(NoJniVersion)
        case Some(Some(jniVersion)) =>
          if !StartsWith(jniVersion, version + "-" + lib.apiVersion) then Ok((path, JniDownload(JniUrl(version, lib, os))))
          else Ok((path, JniExtract(JniResource(lib, os))))
  }
}
