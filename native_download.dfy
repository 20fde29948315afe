/** `downloadPyTorch` and `findNativeLibrary`: choosing the build to fetch from the remote
    manifest (`files.txt`), falling back from CUDA to CPU, and selecting the files to download.
    The manifest fetch is a function from its URL to its lines (`None` for an IOException). */
module NativeDownload {
  import opened Wrappers
  import opened Strings
  import opened VersionPattern
  import opened LibUtils
  import opened NativeFetch

  /** One element of the CUDA flavor pattern; each matches exactly one character. */
  datatype Tok = Lit(c: char) | AnyChar | Digit

  /** The characters `.` does not match in a Java pattern without DOTALL. */
  predicate LineTerminator(c: char)
  {
    c == '\n' || c == '\r' || c == '\U{0085}' || c == '\U{2028}' || c == '\U{2029}'
  }

  predicate TokMatches(t: Tok, c: char)
  {
    match t
    case Lit(x) => c == x
    case AnyChar => !LineTerminator(c)
    case Digit => IsDigit(c)
  }

  /** Text spliced into a pattern: every `.` in it matches any character. */
  function Quote(s: string): (r: seq<Tok>)
    ensures |r| == |s|
    ensures forall i :: 0 <= i < |s| ==> r[i] == (if s[i] == '.' then AnyChar else Lit(s[i]))
  {
    if |s| == 0 then []
    else Quote(s[..|s| - 1]) + [if s[|s| - 1] == '.' then AnyChar else Lit(s[|s| - 1])]
  }

  /** `Matcher.matches()`: the whole line matches the pattern. */
  predicate FullMatch(pat: seq<Tok>, line: string)
  {
    |pat| == |line| && forall i :: 0 <= i < |line| ==> TokMatches(pat[i], line[i])
  }

  /** A quoted text without `.` matches only itself. */
  lemma QuoteMatchesItself(s: string, t: string)
    requires '.' !in s && FullMatch(Quote(s), t)
    ensures t == s
  {
    forall i | 0 <= i < |s|
      ensures t[i] == s[i]
    {
      assert TokMatches(Quote(s)[i], t[i]);
    }
  }

  /** `(<cudaMajor>\d<precxx11>)/<classifier>/native/lib/<libtorch>.gz` */
  function CudaPattern(cudaMajor: string, precxx11: string, classifier: string, os: Os): seq<Tok>
  {
    Quote(cudaMajor) + [Digit] + Quote(precxx11 + "/" + classifier + "/native/lib/" + NativeLibName(os) + ".gz")
  }

  /** The first manifest line the pattern matches. */
  function FirstFullMatch(pat: seq<Tok>, lines: seq<string>): (r: Option<nat>)
    ensures r.Some? ==> r.value < |lines| && FullMatch(pat, lines[r.value])
    ensures r.Some? ==> forall j :: 0 <= j < r.value ==> !FullMatch(pat, lines[j])
    ensures r.None? ==> forall j :: 0 <= j < |lines| ==> !FullMatch(pat, lines[j])
  {
    if |lines| == 0 then None
    else if FullMatch(pat, lines[0]) then Some(0)
    else
      match FirstFullMatch(pat, lines[1..])
      case None => None
      case Some(k) => Some(k + 1)
  }

  /** The CUDA flavor a manifest offers for `flavor` (which starts with `cu`): group 1 of the
      first line that matches, or the CPU build when none does. `flavor.substring(0, 4)` throws
      for a flavor shorter than four characters. */
  function CudaFlavor(lines: seq<string>, flavor: string, precxx11: string, classifier: string, os: Os): Result<string, Error>
  {
    if |flavor| < 4 then Err(StringIndexOutOfBounds(flavor))
    else
      var pat := CudaPattern(flavor[..4], precxx11, classifier, os);
      match FirstFullMatch(pat, lines)
      case Some(i) => Ok(lines[i][..5 + |precxx11|])
      case None => Ok("cpu" + precxx11)
  }

  /** The scan for a CUDA flavor, stopping at the first line that matches. */
  method ChooseCudaFlavor(lines: seq<string>, flavor: string, precxx11: string, classifier: string, os: Os)
    returns (r: Result<string, Error>)
    ensures r == CudaFlavor(lines, flavor, precxx11, classifier, os)
  {
    if |flavor| < 4 {
      return Err(StringIndexOutOfBounds(flavor));
    }
    var cudaMajor := flavor[..4];
    var pattern := CudaPattern(cudaMajor, precxx11, classifier, os);
    var chosen := flavor;
    var match_ := false;
    var i := 0;
    while i < |lines|
      invariant 0 <= i <= |lines| && !match_
      invariant forall j :: 0 <= j < i ==> !FullMatch(pattern, lines[j])
    {
      if FullMatch(pattern, lines[i]) {
        chosen := lines[i][..5 + |precxx11|];
        match_ := true;
        break;
      }
      i := i + 1;
    }
    if !match_ {
      chosen := "cpu" + precxx11;
    }
    return Ok(chosen);
  }

  /** The CUDA fallback: for a flavor `cuXY...` without `.` in its first four characters, the
      result is the CPU build exactly when no manifest line matches; otherwise it is group 1 of the
      first matching line, which starts with those four characters, then a digit, then the
      pre-C++11 suffix. */
  lemma {:induction false} CudaFlavorSpec(lines: seq<string>, flavor: string, precxx11: string, classifier: string, os: Os)
    requires |flavor| >= 4 && '.' !in flavor[..4] && '.' !in precxx11
    ensures var r := CudaFlavor(lines, flavor, precxx11, classifier, os);
      var pat := CudaPattern(flavor[..4], precxx11, classifier, os);
      && r.Ok?
      && ((forall j :: 0 <= j < |lines| ==> !FullMatch(pat, lines[j])) ==> r.value == "cpu" + precxx11)
      && ((exists j :: 0 <= j < |lines| && FullMatch(pat, lines[j])) ==>
            && |r.value| == 5 + |precxx11|
            && r.value[..4] == flavor[..4] && IsDigit(r.value[4]) && r.value[5..] == precxx11
            && exists i :: 0 <= i < |lines| && FullMatch(pat, lines[i]) && StartsWith(lines[i], r.value)
                 && forall j :: 0 <= j < i ==> !FullMatch(pat, lines[j]))
  {
    var pat := CudaPattern(flavor[..4], precxx11, classifier, os);
    var m := FirstFullMatch(pat, lines);
    if m.Some? {
      var line := lines[m.value];
      var g := line[..5 + |precxx11|];
      var q1, q2 := Quote(flavor[..4]), Quote(precxx11 + "/" + classifier + "/native/lib/" + NativeLibName(os) + ".gz");
      assert pat == q1 + [Digit] + q2;
      assert FullMatch(q1, line[..4]) by {
        forall i | 0 <= i < 4
          ensures TokMatches(q1[i], line[..4][i])
        {
          assert pat[i] == q1[i];
        }
      }
      QuoteMatchesItself(flavor[..4], line[..4]);
      assert TokMatches(pat[4], line[4]);
      assert FullMatch(Quote(precxx11), line[5..5 + |precxx11|]) by {
        forall i | 0 <= i < |precxx11|
          ensures TokMatches(Quote(precxx11)[i], line[5..5 + |precxx11|][i])
        {
          assert pat[5 + i] == q2[i];
        }
      }
      QuoteMatchesItself(precxx11, line[5..5 + |precxx11|]);
      assert g[..4] == line[..4] && g[5..] == line[5..5 + |precxx11|];
    }
  }

  /** `line.substring(line.lastIndexOf('/') + 1, line.length() - 3)`: the last path segment
      without its `.gz` suffix; the substring throws when the segment is shorter than three
      characters. */
  function FileNameOf(line: string): Result<string, Error>
  {
    var begin := LastIndexOf(line, '/') + 1;
    var end := |line| - 3;
    if begin <= end then Ok(line[begin..end]) else Err(StringIndexOutOfBounds(line))
  }

  /** The file name of a manifest line `<dirs>/<name>.gz` is `<name>`. */
  lemma FileNameOfLine(dirs: string, name: string)
    requires '/' !in name
    ensures FileNameOf(dirs + "/" + name + ".gz") == Ok(name)
  {
    var line := dirs + "/" + name + ".gz";
    var k := LastIndexOf(line, '/');
    assert line[|dirs|] == '/';
    forall i | |dirs| < i < |line|
      ensures line[i] != '/'
    {
      if i < |dirs| + 1 + |name| {
        assert line[i] == name[i - |dirs| - 1];
      } else {
        assert line[i] == ".gz"[i - |dirs| - 1 - |name|];
      }
    }
    assert k == |dirs|;
    assert line[k + 1..|line| - 3] == name;
  }

  /** One file to fetch: its URL and the name it is stored under. */
  datatype Download = Download(url: string, fileName: string)

  /** The manifest lines under `prefix`, in manifest order. */
  function Matching(lines: seq<string>, prefix: string): (r: seq<string>)
    ensures forall l :: l in r ==> l in lines && StartsWith(l, prefix)
    ensures forall l :: l in lines && StartsWith(l, prefix) ==> l in r
  {
    if |lines| == 0 then []
    else
      var init := Matching(lines[..|lines| - 1], prefix);
      var l := lines[|lines| - 1];
      assert forall x :: x in lines ==> x in lines[..|lines| - 1] || x == l;
      if StartsWith(l, prefix) then init + [l] else init
  }

  /** The selection loop: one download per line under `prefix`, in manifest order. */
  function Scan(lines: seq<string>, link: string, prefix: string): Result<seq<Download>, Error>
  {
    if |lines| == 0 then Ok([])
    else
      match Scan(lines[..|lines| - 1], link, prefix)
      case Err(e) => Err(e)
      case Ok(ds) =>
        var line := lines[|lines| - 1];
        if !StartsWith(line, prefix) then Ok(ds)
        else
          match FileNameOf(line)
          case Err(e) => Err(e)
          case Ok(name) => Ok(ds + [Download(link + "/" + line, name)])
  }

  /** Exactly the lines under the prefix are downloaded, each from `<link>/<line>` under the name
      its line gives, in manifest order. */
  lemma {:induction false} ScanSelectsMatching(lines: seq<string>, link: string, prefix: string)
    ensures var r := Scan(lines, link, prefix);
      var ms := Matching(lines, prefix);
      r.Ok? ==> (|r.value| == |ms| &&
        forall k :: 0 <= k < |ms| ==> r.value[k].url == link + "/" + ms[k] && FileNameOf(ms[k]) == Ok(r.value[k].fileName))
  {
    if |lines| > 0 {
      ScanSelectsMatching(lines[..|lines| - 1], link, prefix);
    }
  }

  /** The selection succeeds exactly when every line under the prefix has a file name that can
      be cut out of it. */
  lemma {:induction false} ScanOkIff(lines: seq<string>, link: string, prefix: string)
    ensures Scan(lines, link, prefix).Ok? <==> forall l :: l in Matching(lines, prefix) ==> FileNameOf(l).Ok?
  {
    if |lines| > 0 {
      var init := lines[..|lines| - 1];
      var last := lines[|lines| - 1];
      ScanOkIff(init, link, prefix);
      if StartsWith(last, prefix) {
        assert Matching(lines, prefix) == Matching(init, prefix) + [last];
      } else {
        assert Matching(lines, prefix) == Matching(init, prefix);
      }
    }
  }

  /** Once the loop has failed, going on cannot change the outcome. */
  lemma {:induction false} ScanErrStays(lines: seq<string>, link: string, prefix: string, k: nat)
    requires k <= |lines| && Scan(lines[..k], link, prefix).Err?
    ensures Scan(lines, link, prefix) == Scan(lines[..k], link, prefix)
  {
    if k < |lines| {
      assert lines[..|lines| - 1][..k] == lines[..k];
      ScanErrStays(lines[..|lines| - 1], link, prefix, k);
    } else {
      assert lines[..k] == lines;
    }
  }

  /** The selection loop of `downloadPyTorch`. */
  method SelectDownloads(lines: seq<string>, link: string, prefix: string) returns (r: Result<seq<Download>, Error>)
    ensures r == Scan(lines, link, prefix)
  {
    var downloads: seq<Download> := [];
    var i := 0;
    while i < |lines|
      invariant 0 <= i <= |lines|
      invariant Scan(lines[..i], link, prefix) == Ok(downloads)
    {
      var line := lines[i];
      assert lines[..i + 1][..i] == lines[..i];
      if StartsWith(line, prefix) {
        var fileName := FileNameOf(line);
        if fileName.Err? {
          ScanErrStays(lines, link, prefix, i + 1);
          return Err(fileName.error);
        }
        downloads := downloads + [Download(link + "/" + line, fileName.value)];
      }
      i := i + 1;
    }
    assert lines[..i] == lines;
    return Ok(downloads);
  }

  /** Where the builds of each PyTorch version are published. */
  const PublishRoot := "https://publish.djl.ai/pytorch/"

  function ManifestLink(v: Version): string
  {
    PublishRoot + Canonical(v)
  }

  /** The manifest of a published version: its list of files. */
  function ManifestUrl(link: string): string
  {
    link + "/files.txt"
  }

  /** The downloads of the build `flavor`: an IllegalStateException when the manifest lists none. */
  function FetchFlavor(p: Platform, lines: seq<string>, link: string, flavor: string, dir: string)
    : Result<(LibTorch, seq<Download>), Error>
  {
    match Scan(lines, link, flavor + "/" + p.classifier + "/")
    case Err(e) => Err(e)
    case Ok(ds) => if ds == [] then Err(NoMatchingLibrary(p.classifier)) else Ok((LibTorchOf(dir, p, flavor), ds))
  }

  /** A build fetched from the manifest lives in the cache directory `dir` of its flavor and
      downloads every manifest line under `<flavor>/<classifier>/`, at least one; the fetch
      succeeds exactly when there is such a line and every one of them has a file name. */
  lemma FetchFlavorSpec(p: Platform, lines: seq<string>, link: string, flavor: string, dir: string)
    ensures var r := FetchFlavor(p, lines, link, flavor, dir);
      var ms := Matching(lines, flavor + "/" + p.classifier + "/");
      r.Ok? ==> (
        && r.value.0 == LibTorchOf(dir, p, flavor)
        && |r.value.1| == |ms| > 0
        && forall k :: 0 <= k < |ms| ==>
             r.value.1[k].url == link + "/" + ms[k] && FileNameOf(ms[k]) == Ok(r.value.1[k].fileName))
    ensures Matching(lines, flavor + "/" + p.classifier + "/") == [] ==> FetchFlavor(p, lines, link, flavor, dir).Err?
    ensures var ms := Matching(lines, flavor + "/" + p.classifier + "/");
      FetchFlavor(p, lines, link, flavor, dir).Ok? <==> ms != [] && forall l :: l in ms ==> FileNameOf(l).Ok?
  {
    ScanSelectsMatching(lines, link, flavor + "/" + p.classifier + "/");
    ScanOkIff(lines, link, flavor + "/" + p.classifier + "/");
  }

  /** What `downloadPyTorch` does once the manifest has been read: the CUDA fallback, the second
      cache check and the selection. */
  function FromManifest(p: Platform, precxx11: string, cacheRoot: string, existing: set<string>, os: Os,
                        lines: seq<string>, link: string): Result<(LibTorch, seq<Download>), Error>
  {
    var flavor := p.flavor + precxx11;
    if StartsWith(flavor, "cu") then
      match CudaFlavor(lines, flavor, precxx11, p.classifier, os)
      case Err(e) => Err(e)
      case Ok(f) =>
        var dir := CacheDir(cacheRoot, p.version, f, p.classifier);
        if Resolve(dir, NativeLibName(os)) in existing then Ok((LibTorchOf(dir, p, f), []))
        else FetchFlavor(p, lines, link, f, dir)
    else FetchFlavor(p, lines, link, flavor, CacheDir(cacheRoot, p.version, flavor, p.classifier))
  }

  /** `downloadPyTorch` after a cache miss: the version gate, then the manifest. */
  function ManifestPlan(p: Platform, precxx11: string, cacheRoot: string, existing: set<string>, os: Os,
                        fetch: string -> Option<seq<string>>): Result<(LibTorch, seq<Download>), Error>
  {
    match Parse(p.version)
    case None => Err(UnexpectedVersion(p.version))
    case Some(v) =>
      var link := ManifestLink(v);
      match fetch(ManifestUrl(link))
      case None => Err(DownloadFailed(ManifestUrl(link)))
      case Some(lines) => FromManifest(p, precxx11, cacheRoot, existing, os, lines, link)
  }

  /** What `downloadPyTorch` returns and which files it downloads. */
  function DownloadPlan(p: Platform, s: Settings, cacheRoot: string, existing: set<string>, os: Os,
                        fetch: string -> Option<seq<string>>): Result<(LibTorch, seq<Download>), Error>
  {
    var precxx11 := Precxx11Suffix(s, p);
    var flavor := p.flavor + precxx11;
    var dir := CacheDir(cacheRoot, p.version, flavor, p.classifier);
    if Resolve(dir, NativeLibName(os)) in existing then Ok((LibTorchOf(dir, p, flavor), []))
    else ManifestPlan(p, precxx11, cacheRoot, existing, os, fetch)
  }

  /** The part of `downloadPyTorch` inside its try block. */
  method DownloadFromManifest(p: Platform, precxx11: string, cacheRoot: string, existing: set<string>, os: Os,
                              lines: seq<string>, link: string) returns (r: Result<(LibTorch, seq<Download>), Error>)
    ensures r == FromManifest(p, precxx11, cacheRoot, existing, os, lines, link)
  {
    var flavor := p.flavor + precxx11;
    var dir := CacheDir(cacheRoot, p.version, flavor, p.classifier);
    if StartsWith(flavor, "cu") {
      var cuda := ChooseCudaFlavor(lines, flavor, precxx11, p.classifier, os);
      if cuda.Err? {
        return Err(cuda.error);
      }
      flavor := cuda.value;
      dir := CacheDir(cacheRoot, p.version, flavor, p.classifier);
      if Resolve(dir, NativeLibName(os)) in existing {
        return Ok((LibTorchOf(dir, p, flavor), []));
      }
    }
    var downloads := SelectDownloads(lines, link, flavor + "/" + p.classifier + "/");
    if downloads.Err? {
      return Err(downloads.error);
    }
    if downloads.value == [] {
      return Err(NoMatchingLibrary(p.classifier));
    }
    return Ok((LibTorchOf(dir, p, flavor), downloads.value));
  }

  /** The version gate and the manifest fetch of `downloadPyTorch`. */
  method ReadManifest(p: Platform, precxx11: string, cacheRoot: string, existing: set<string>, os: Os,
                      fetch: string -> Option<seq<string>>) returns (r: Result<(LibTorch, seq<Download>), Error>)
    ensures r == ManifestPlan(p, precxx11, cacheRoot, existing, os, fetch)
  {
    var matcher := Parse(p.version);
    if matcher.None? {
      return Err(UnexpectedVersion(p.version));
    }
    var link := ManifestLink(matcher.value);
    var manifest := fetch(ManifestUrl(link));
    if manifest.None? {
      return Err(DownloadFailed(ManifestUrl(link)));
    }
    r := DownloadFromManifest(p, precxx11, cacheRoot, existing, os, manifest.value, link);
  }

  /** `downloadPyTorch`. */
  method DownloadPyTorch(p: Platform, s: Settings, cacheRoot: string, existing: set<string>, os: Os,
                         fetch: string -> Option<seq<string>>) returns (r: Result<(LibTorch, seq<Download>), Error>)
    ensures r == DownloadPlan(p, s, cacheRoot, existing, os, fetch)
  {
    var precxx11 := Precxx11Suffix(s, p);
    var flavor := p.flavor + precxx11;
    var dir := CacheDir(cacheRoot, p.version, flavor, p.classifier);
    if Resolve(dir, NativeLibName(os)) in existing {
      return Ok((LibTorchOf(dir, p, flavor), []));
    }
    r := ReadManifest(p, precxx11, cacheRoot, existing, os, fetch);
  }

  /** A cache hit under the requested flavor downloads nothing, and a version the pattern rejects
      fails before the manifest is fetched: the outcome does not depend on the manifest. */
  lemma DownloadGate(p: Platform, s: Settings, cacheRoot: string, existing: set<string>, os: Os,
                     fetch: string -> Option<seq<string>>, fetch': string -> Option<seq<string>>)
    ensures var flavor := p.flavor + Precxx11Suffix(s, p);
      var dir := CacheDir(cacheRoot, p.version, flavor, p.classifier);
      && (Resolve(dir, NativeLibName(os)) in existing ==>
            DownloadPlan(p, s, cacheRoot, existing, os, fetch) == Ok((LibTorchOf(dir, p, flavor), [])))
      && (Resolve(dir, NativeLibName(os)) !in existing && Parse(p.version).None? ==>
            DownloadPlan(p, s, cacheRoot, existing, os, fetch) == Err(UnexpectedVersion(p.version))
            == DownloadPlan(p, s, cacheRoot, existing, os, fetch'))
  {
  }

  /** The build finally chosen from a manifest is the requested flavor, or for a CUDA flavor the
      CUDA fallback's choice; it lives in the cache directory of that flavor, and when it is not
      already cached it is fetched as `FetchFlavor` says. */
  lemma FromManifestChoice(p: Platform, precxx11: string, cacheRoot: string, existing: set<string>, os: Os,
                           lines: seq<string>, link: string)
    ensures var r := FromManifest(p, precxx11, cacheRoot, existing, os, lines, link);
      var flavor := p.flavor + precxx11;
      r.Ok? ==> (
        var f := r.value.0.flavor;
        var dir := CacheDir(cacheRoot, p.version, f, p.classifier);
        && (if StartsWith(flavor, "cu") then CudaFlavor(lines, flavor, precxx11, p.classifier, os) == Ok(f) else f == flavor)
        && r.value.0 == LibTorchOf(dir, p, f)
        && (r.value.1 == [] <==> Resolve(dir, NativeLibName(os)) in existing && StartsWith(flavor, "cu"))
        && (r.value.1 != [] ==> r == FetchFlavor(p, lines, link, f, dir)))
  {
    var r := FromManifest(p, precxx11, cacheRoot, existing, os, lines, link);
    if r.Ok? {
      var flavor := p.flavor + precxx11;
      if StartsWith(flavor, "cu") {
        var f := CudaFlavor(lines, flavor, precxx11, p.classifier, os).value;
        FetchFlavorSpec(p, lines, link, f, CacheDir(cacheRoot, p.version, f, p.classifier));
      } else {
        FetchFlavorSpec(p, lines, link, flavor, CacheDir(cacheRoot, p.version, flavor, p.classifier));
      }
    }
  }

  /** Every file downloaded belongs to the flavor finally chosen: it comes from the manifest line
      under `<flavor>/<classifier>/`, fetched from the published directory of the canonical
      version. */
  lemma DownloadsBelongToFlavor(p: Platform, s: Settings, cacheRoot: string, existing: set<string>, os: Os,
                                fetch: string -> Option<seq<string>>)
    ensures var r := DownloadPlan(p, s, cacheRoot, existing, os, fetch);
      r.Ok? && r.value.1 != [] ==> (
        && Parse(p.version).Some?
        && fetch(ManifestUrl(ManifestLink(Parse(p.version).value))).Some?
        && var link := ManifestLink(Parse(p.version).value);
           var ms := Matching(fetch(ManifestUrl(link)).value, r.value.0.flavor + "/" + p.classifier + "/");
           |r.value.1| == |ms| && forall k :: 0 <= k < |ms| ==> r.value.1[k].url == link + "/" + ms[k])
  {
    var r := DownloadPlan(p, s, cacheRoot, existing, os, fetch);
    if r.Ok? && r.value.1 != [] {
      var precxx11 := Precxx11Suffix(s, p);
      assert r == ManifestPlan(p, precxx11, cacheRoot, existing, os, fetch);
      var link := ManifestLink(Parse(p.version).value);
      var lines := fetch(ManifestUrl(link)).value;
      assert r == FromManifest(p, precxx11, cacheRoot, existing, os, lines, link);
      FromManifestChoice(p, precxx11, cacheRoot, existing, os, lines, link);
      var f := r.value.0.flavor;
      FetchFlavorSpec(p, lines, link, f, CacheDir(cacheRoot, p.version, f, p.classifier));
    }
  }

  /** A CUDA flavor the manifest does not offer falls back to the CPU build with the same
      pre-C++11 suffix, and the cache is consulted again under that flavor. */
  lemma CudaFallback(p: Platform, precxx11: string, cacheRoot: string, existing: set<string>, os: Os,
                     lines: seq<string>, link: string)
    requires var flavor := p.flavor + precxx11;
      && StartsWith(flavor, "cu") && |flavor| >= 4
      && forall j :: 0 <= j < |lines| ==> !FullMatch(CudaPattern(flavor[..4], precxx11, p.classifier, os), lines[j])
    ensures var dir := CacheDir(cacheRoot, p.version, "cpu" + precxx11, p.classifier);
      FromManifest(p, precxx11, cacheRoot, existing, os, lines, link)
        == if Resolve(dir, NativeLibName(os)) in existing then Ok((LibTorchOf(dir, p, "cpu" + precxx11), []))
           else FetchFlavor(p, lines, link, "cpu" + precxx11, dir)
  {
  }

  /** What `findNativeLibrary` provides: a build copied from the class path or downloaded. */
  datatype Provision = Extracted(copies: seq<Extraction>) | Downloaded(downloads: seq<Download>)

  function NativeLibraryPlan(detected: Platform, detectFor: string -> Platform, s: Settings, cacheRoot: string,
                             existing: set<string>, resources: set<string>, os: Os,
                             fetch: string -> Option<seq<string>>): Result<(LibTorch, Provision), Error>
  {
    match NativeRoute(detected, detectFor, s)
    case DownloadRoute(p) =>
      (match DownloadPlan(p, s, cacheRoot, existing, os, fetch)
       case Err(e) => Err(e)
       case Ok((lib, ds)) => Ok((lib, Downloaded(ds))))
    case ClasspathRoute(p) =>
      match CopyPlan(p, cacheRoot, existing, resources, os)
      case Err(e) => Err(e)
      case Ok((lib, xs)) => Ok((lib, Extracted(xs)))
  }

  /** `findNativeLibrary`. */
  method FindNativeLibrary(detected: Platform, detectFor: string -> Platform, s: Settings, cacheRoot: string,
                           existing: set<string>, resources: set<string>, os: Os,
                           fetch: string -> Option<seq<string>>) returns (r: Result<(LibTorch, Provision), Error>)
    ensures r == NativeLibraryPlan(detected, detectFor, s, cacheRoot, existing, resources, os, fetch)
  {
    var platform := detected;
    var overrideVersion := EnvThenProperty(s, "PYTORCH_VERSION");
    if overrideVersion.Some? && overrideVersion.value != "" && !StartsWith(platform.version, overrideVersion.value) {
      platform := detectFor(overrideVersion.value);
      var d := DownloadPyTorch(platform, s, cacheRoot, existing, os, fetch);
      if d.Err? {
        return Err(d.error);
      }
      return Ok((d.value.0, Downloaded(d.value.1)));
    }
    if platform.placeholder {
      var d := DownloadPyTorch(platform, s, cacheRoot, existing, os, fetch);
      if d.Err? {
        return Err(d.error);
      }
      return Ok((d.value.0, Downloaded(d.value.1)));
    }
    var c := CopyNativeLibraryFromClasspath(platform, cacheRoot, existing, resources, os);
    if c.Err? {
      return Err(c.error);
    }
    return Ok((c.value.0, Extracted(c.value.1)));
  }

  /** The build `findNativeLibrary` provides is the one of the platform its route chose: copied
      from the class path exactly on the class-path route, and carrying that platform's version,
      API version and classifier either way. */
  lemma ProvisionFollowsRoute(detected: Platform, detectFor: string -> Platform, s: Settings, cacheRoot: string,
                              existing: set<string>, resources: set<string>, os: Os,
                              fetch: string -> Option<seq<string>>)
    ensures var r := NativeLibraryPlan(detected, detectFor, s, cacheRoot, existing, resources, os, fetch);
      var p := NativeRoute(detected, detectFor, s).platform;
      r.Ok? ==> (
        && (r.value.1.Extracted? <==> NativeRoute(detected, detectFor, s).ClasspathRoute?)
        && r.value.0.version == p.version && r.value.0.apiVersion == p.apiVersion
        && r.value.0.classifier == p.classifier)
  {
    match NativeRoute(detected, detectFor, s)
    case DownloadRoute(p) =>
      var precxx11 := Precxx11Suffix(s, p);
      var d := DownloadPlan(p, s, cacheRoot, existing, os, fetch);
      if d.Ok? && d != ManifestPlan(p, precxx11, cacheRoot, existing, os, fetch) {
      } else if d.Ok? {
        var link := ManifestLink(Parse(p.version).value);
        FromManifestChoice(p, precxx11, cacheRoot, existing, os, fetch(ManifestUrl(link)).value, link);
      }
    case ClasspathRoute(p) =>
      CopyPlanSpec(p, cacheRoot, existing, resources, os);
  }
}
