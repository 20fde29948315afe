/** Locating a PyTorch build: on the user's library path (`findOverrideLibrary`,
    `findLibraryInPath`) or among the libraries bundled on the class path
    (`copyNativeLibraryFromClasspath`). The file system is a value: the paths that exist and the
    regular files among them; the class path is the set of resource names it holds. */
module NativeFetch {
  import opened Wrappers
  import opened Strings
  import opened VersionPattern
  import opened LibUtils

  /** The paths that exist and, among them, the regular files. */
  datatype FileSystem = FileSystem(existing: set<string>, files: set<string>)

  /** `File.getName()`: what follows the last `/`. */
  function FileName(path: string): string
  {
    path[LastIndexOf(path, '/') + 1..]
  }

  /** `File.getParent()`: none for a path without `/`, `/` for a file at the root. */
  function ParentOf(path: string): Option<string>
  {
    var k := LastIndexOf(path, '/');
    if k < 0 then None else if k == 0 then Some("/") else Some(path[..k])
  }

  /** `new File(parent, child)`: the two joined by exactly one `/`. */
  function Child(parent: string, name: string): string
  {
    if |parent| > 0 && parent[|parent| - 1] == '/' then parent + name else parent + "/" + name
  }

  /** No empty path component: `java.io.File` removes doubled separators. */
  predicate Normalized(path: string)
  {
    forall i :: 0 <= i < |path| - 1 ==> path[i] != '/' || path[i + 1] != '/'
  }

  /** Parent and name of a normalized path put back together give the path. */
  lemma {:induction false} ParentChild(path: string)
    requires Normalized(path) && ParentOf(path).Some?
    ensures Child(ParentOf(path).value, FileName(path)) == path
  {
    var k := LastIndexOf(path, '/');
    if k == 0 {
      assert Child("/", path[1..]) == "/" + path[1..];
    } else {
      assert path[k - 1] != '/';
      assert path[..k] + "/" + path[k + 1..] == path;
    }
  }

  /** What one entry of the library path yields: `Ok(None)` to go on with the next entry, the
      directory of the main library, or the NullPointerException of a parentless file. */
  function Probe(p: string, fs: FileSystem, os: Os): Result<Option<string>, Error>
  {
    if p !in fs.existing then Ok(None)
    else if p in fs.files && FileName(p) == NativeLibName(os) then
      match ParentOf(p)
      case None => Err(NullParent(p))
      case Some(d) => Ok(Some(d))
    else if Child(p, NativeLibName(os)) in fs.existing && Child(p, NativeLibName(os)) in fs.files then Ok(Some(p))
    else Ok(None)
  }

  /** What probing each entry of the library path gives. */
  function Probes(paths: seq<string>, fs: FileSystem, os: Os): (rs: seq<Result<Option<string>, Error>>)
    ensures |rs| == |paths| && forall i :: 0 <= i < |paths| ==> rs[i] == Probe(paths[i], fs, os)
  {
    seq(|paths|, i requires 0 <= i < |paths| => Probe(paths[i], fs, os))
  }

  /** The first outcome other than "nothing here", if any. */
  function FirstHit(rs: seq<Result<Option<string>, Error>>): Result<Option<string>, Error>
  {
    if |rs| == 0 then Ok(None)
    else if rs[0] != Ok(None) then rs[0]
    else FirstHit(rs[1..])
  }

  /** The entries of the library path probed in order; the first that yields anything decides. */
  function SearchPaths(paths: seq<string>, fs: FileSystem, os: Os): Result<Option<string>, Error>
  {
    FirstHit(Probes(paths, fs, os))
  }

  /** `findLibraryInPath`: the directory of the main library found on the `sep`-separated path
      list, if any. */
  method FindLibraryInPath(libPath: string, sep: char, fs: FileSystem, os: Os) returns (r: Result<Option<string>, Error>)
    ensures r == SearchPaths(Split(libPath, sep), fs, os)
  {
    var paths := Split(libPath, sep);
    ghost var rs := Probes(paths, fs, os);
    var i := 0;
    while i < |paths|
      invariant 0 <= i <= |paths|
      invariant SearchPaths(paths, fs, os) == FirstHit(rs[i..])
    {
      var path := paths[i];
      assert rs[i..][1..] == rs[i + 1..];
      assert rs[i..][0] == Probe(path, fs, os);
      if path !in fs.existing {
        i := i + 1;
        continue;
      }
      if path in fs.files && FileName(path) == NativeLibName(os) {
        var parent := ParentOf(path);
        if parent.None? {
          return Err(NullParent(path));
        }
        return Ok(Some(parent.value));
      }
      var file := Child(path, NativeLibName(os));
      if file in fs.existing && file in fs.files {
        return Ok(Some(path));
      }
      i := i + 1;
    }
    return Ok(None);
  }

  lemma {:induction false} FirstHitIndex(rs: seq<Result<Option<string>, Error>>) returns (k: nat)
    ensures k <= |rs|
    ensures forall j :: 0 <= j < k ==> rs[j] == Ok(None)
    ensures k < |rs| ==> FirstHit(rs) == rs[k] != Ok(None)
    ensures k == |rs| ==> FirstHit(rs) == Ok(None)
  {
    if |rs| == 0 || rs[0] != Ok(None) {
      return 0;
    }
    var k' := FirstHitIndex(rs[1..]);
    k := k' + 1;
    assert forall j :: 1 <= j < k ==> rs[j] == rs[1..][j - 1];
  }

  /** The first entry that yields anything decides: every earlier entry yields nothing, and a
      search that finds nothing found nothing in any entry. */
  lemma SearchFirstHit(paths: seq<string>, fs: FileSystem, os: Os) returns (k: nat)
    ensures k <= |paths|
    ensures forall j :: 0 <= j < k ==> Probe(paths[j], fs, os) == Ok(None)
    ensures k < |paths| ==> SearchPaths(paths, fs, os) == Probe(paths[k], fs, os) != Ok(None)
    ensures k == |paths| ==> SearchPaths(paths, fs, os) == Ok(None)
  {
    k := FirstHitIndex(Probes(paths, fs, os));
  }

  /** A found directory holds the main library as a regular file. */
  lemma SearchFindsLibrary(paths: seq<string>, fs: FileSystem, os: Os)
    requires forall p :: p in paths ==> Normalized(p)
    ensures SearchPaths(paths, fs, os).Ok? && SearchPaths(paths, fs, os).value.Some? ==>
      Child(SearchPaths(paths, fs, os).value.value, NativeLibName(os)) in fs.files
  {
    var k := SearchFirstHit(paths, fs, os);
    if k < |paths| {
      var p := paths[k];
      if p in fs.existing && p in fs.files && FileName(p) == NativeLibName(os) && ParentOf(p).Some? {
        ParentChild(p);
      }
    }
  }

  /** Where the override search looks: `PYTORCH_LIBRARY_PATH` from the environment first, then
      the `java.library.path` property when the first finds nothing. */
  function OverrideSearch(s: Settings, sep: char, fs: FileSystem, os: Os): Result<Option<string>, Error>
  {
    var fromEnv := if "PYTORCH_LIBRARY_PATH" in s.env then SearchPaths(Split(s.env["PYTORCH_LIBRARY_PATH"], sep), fs, os) else Ok(None);
    if fromEnv != Ok(None) then fromEnv
    else if "java.library.path" in s.props then SearchPaths(Split(s.props["java.library.path"], sep), fs, os)
    else Ok(None)
  }

  /** `findOverrideLibrary`: the library found on the override paths, described by the first
      `LibTorch` constructor. */
  method FindOverrideLibrary(s: Settings, sep: char, fs: FileSystem, os: Os, p: Platform, gpuCount: int, cudaVersion: string)
    returns (r: Result<Option<LibTorch>, Error>)
    ensures r.Err? <==> OverrideSearch(s, sep, fs, os).Err?
    ensures r.Err? ==> r.error == OverrideSearch(s, sep, fs, os).error
    ensures r.Ok? ==> (r.value.None? <==> OverrideSearch(s, sep, fs, os).value.None?)
    ensures r.Ok? && r.value.Some? ==>
      r.value.value == DetectedLibTorch(OverrideSearch(s, sep, fs, os).value.value, p, s, gpuCount, cudaVersion)
  {
    var found: Result<Option<string>, Error> := Ok(None);
    if "PYTORCH_LIBRARY_PATH" in s.env {
      found := FindLibraryInPath(s.env["PYTORCH_LIBRARY_PATH"], sep, fs, os);
    }
    if found == Ok(None) && "java.library.path" in s.props {
      found := FindLibraryInPath(s.props["java.library.path"], sep, fs, os);
    }
    match found {
      case Err(e) => return Err(e);
      case Ok(None) => return Ok(None);
      case Ok(Some(dir)) => return Ok(Some(DetectedLibTorch(dir, p, s, gpuCount, cudaVersion)));
    }
  }

  /** The environment variable wins over the property whenever it finds something or fails. */
  lemma OverrideEnvFirst(s: Settings, sep: char, fs: FileSystem, os: Os)
    requires "PYTORCH_LIBRARY_PATH" in s.env
    ensures var e := SearchPaths(Split(s.env["PYTORCH_LIBRARY_PATH"], sep), fs, os);
      e != Ok(None) ==> OverrideSearch(s, sep, fs, os) == e
    ensures var e := SearchPaths(Split(s.env["PYTORCH_LIBRARY_PATH"], sep), fs, os);
      e == Ok(None) && "java.library.path" !in s.props ==> OverrideSearch(s, sep, fs, os) == Ok(None)
  {
  }

  /** One class-path resource copied into the cache directory. */
  datatype Extraction = Extraction(resource: string, target: string)

  /** The extraction loop of `copyNativeLibraryFromClasspath`: each listed library is copied
      from `<prefix>/<name>` to `<dir>/<name>`, in list order; an absent resource stops it. */
  function ExtractAll(prefix: string, dir: string, libraries: seq<string>, resources: set<string>): Result<seq<Extraction>, Error>
  {
    if |libraries| == 0 then Ok([])
    else
      match ExtractAll(prefix, dir, libraries[..|libraries| - 1], resources)
      case Err(e) => Err(e)
      case Ok(done) =>
        var file := libraries[|libraries| - 1];
        var libPath := prefix + "/" + file;
        if libPath in resources then Ok(done + [Extraction(libPath, Resolve(dir, file))])
        else Err(MissingResource(libPath))
  }

  /** The extraction succeeds exactly when every library is on the class path under the prefix,
      and then copies library `i` from `<prefix>/<name>` to `<dir>/<name>`. */
  lemma {:induction false} ExtractAllSpec(prefix: string, dir: string, libraries: seq<string>, resources: set<string>)
    ensures ExtractAll(prefix, dir, libraries, resources).Ok? <==>
      forall i :: 0 <= i < |libraries| ==> prefix + "/" + libraries[i] in resources
    ensures ExtractAll(prefix, dir, libraries, resources).Ok? ==>
      var xs := ExtractAll(prefix, dir, libraries, resources).value;
      |xs| == |libraries| &&
      forall i :: 0 <= i < |libraries| ==> xs[i] == Extraction(prefix + "/" + libraries[i], Resolve(dir, libraries[i]))
  {
    if |libraries| > 0 {
      var init := libraries[..|libraries| - 1];
      ExtractAllSpec(prefix, dir, init, resources);
      assert forall i :: 0 <= i < |init| ==> init[i] == libraries[i];
    }
  }

  /** Once the loop has failed, going on cannot change the outcome. */
  lemma {:induction false} ExtractAllErrStays(prefix: string, dir: string, libraries: seq<string>, resources: set<string>, k: nat)
    requires k <= |libraries| && ExtractAll(prefix, dir, libraries[..k], resources).Err?
    ensures ExtractAll(prefix, dir, libraries, resources) == ExtractAll(prefix, dir, libraries[..k], resources)
  {
    if k < |libraries| {
      assert libraries[..|libraries| - 1][..k] == libraries[..k];
      ExtractAllErrStays(prefix, dir, libraries[..|libraries| - 1], resources, k);
    } else {
      assert libraries[..k] == libraries;
    }
  }

  /** What `copyNativeLibraryFromClasspath` returns and which resources it copies: nothing when
      the cache already holds the main library, otherwise every bundled library from the prefix
      the version selects, after the version check. */
  function CopyPlan(p: Platform, cacheRoot: string, existing: set<string>, resources: set<string>, os: Os)
    : Result<(LibTorch, seq<Extraction>), Error>
  {
    var flavor := ClasspathFlavor(p.flavor, p.libraries);
    var dir := CacheDir(cacheRoot, p.version, flavor, p.classifier);
    if Resolve(dir, NativeLibName(os)) in existing then Ok((LibTorchOf(dir, p, flavor), []))
    else
      match Parse(p.version)
      case None => Err(UnexpectedVersion(p.version))
      case Some(v) =>
        match ResourcePrefixAsWritten(v, flavor, p.classifier)
        case Err(e) => Err(e)
        case Ok(prefix) =>
          match ExtractAll(prefix, dir, p.libraries, resources)
          case Err(e) => Err(e)
          case Ok(xs) => Ok((LibTorchOf(dir, p, flavor), xs))
  }

  /** The copying loop: every library from `<prefix>/<name>` into the cache directory. */
  method ExtractLibraries(prefix: string, dir: string, libraries: seq<string>, resources: set<string>)
    returns (r: Result<seq<Extraction>, Error>)
    ensures r == ExtractAll(prefix, dir, libraries, resources)
  {
    var done: seq<Extraction> := [];
    var i := 0;
    while i < |libraries|
      invariant 0 <= i <= |libraries|
      invariant ExtractAll(prefix, dir, libraries[..i], resources) == Ok(done)
    {
      var file := libraries[i];
      var libPath := prefix + "/" + file;
      assert libraries[..i + 1][..i] == libraries[..i];
      if libPath !in resources {
        ExtractAllErrStays(prefix, dir, libraries, resources, i + 1);
        return Err(MissingResource(libPath));
      }
      done := done + [Extraction(libPath, Resolve(dir, file))];
      i := i + 1;
    }
    assert libraries[..i] == libraries;
    return Ok(done);
  }

  /** `copyNativeLibraryFromClasspath`. */
  method CopyNativeLibraryFromClasspath(p: Platform, cacheRoot: string, existing: set<string>, resources: set<string>, os: Os)
    returns (r: Result<(LibTorch, seq<Extraction>), Error>)
    ensures r == CopyPlan(p, cacheRoot, existing, resources, os)
  {
    var version := p.version;
    var flavor := p.flavor;
    if !EndsWith(flavor, "-precxx11") && "libstdc++.so.6" in p.libraries {
      flavor := flavor + "-precxx11";
    }
    var classifier := p.classifier;
    var dir := CacheDir(cacheRoot, version, flavor, classifier);
    var path := Resolve(dir, NativeLibName(os));
    if path in existing {
      return Ok((LibTorchOf(dir, p, flavor), []));
    }
    var m := Parse(version);
    if m.None? {
      return Err(UnexpectedVersion(version));
    }
    var prefix := ResourcePrefixAsWritten(m.value, flavor, classifier);
    if prefix.Err? {
      return Err(prefix.error);
    }
    var copied := ExtractLibraries(prefix.value, dir, p.libraries, resources);
    if copied.Err? {
      return Err(copied.error);
    }
    return Ok((LibTorchOf(dir, p, flavor), copied.value));
  }

  /** The cache directory and the resulting `LibTorch` agree with the flavor rule; a cache hit
      copies nothing; a version the pattern rejects fails before anything is copied; and every
      copy comes from the prefix the version selects and lands in the cache directory. */
  lemma {:induction false} CopyPlanSpec(p: Platform, cacheRoot: string, existing: set<string>, resources: set<string>, os: Os)
    ensures var flavor := ClasspathFlavor(p.flavor, p.libraries);
      var dir := CacheDir(cacheRoot, p.version, flavor, p.classifier);
      var r := CopyPlan(p, cacheRoot, existing, resources, os);
      && (r.Ok? ==> r.value.0 == LibTorchOf(dir, p, flavor))
      && (Resolve(dir, NativeLibName(os)) in existing ==> r.Ok? && r.value.1 == [])
      && (Resolve(dir, NativeLibName(os)) !in existing && Parse(p.version).None? ==> r == Err(UnexpectedVersion(p.version)))
      && (r.Ok? && Resolve(dir, NativeLibName(os)) !in existing ==>
            Parse(p.version).Some? && ResourcePrefixAsWritten(Parse(p.version).value, flavor, p.classifier).Ok?
            && |r.value.1| == |p.libraries|
            && forall i :: 0 <= i < |p.libraries| ==>
                 r.value.1[i] == Extraction(ResourcePrefixAsWritten(Parse(p.version).value, flavor, p.classifier).value + "/" + p.libraries[i],
                                            Resolve(dir, p.libraries[i])))
  {
    var flavor := ClasspathFlavor(p.flavor, p.libraries);
    var dir := CacheDir(cacheRoot, p.version, flavor, p.classifier);
    if Resolve(dir, NativeLibName(os)) !in existing && Parse(p.version).Some? {
      var prefix := ResourcePrefixAsWritten(Parse(p.version).value, flavor, p.classifier);
      if prefix.Ok? {
        ExtractAllSpec(prefix.value, dir, p.libraries, resources);
      }
    }
  }

  /** A tagged version such as `1.10.2-xyz` passes the version check, yet on a cache miss the
      prefix rule as written hands `<patch>-<tag>` to `Integer.parseInt`, so nothing is copied. */
  lemma CopyPlanRejectsTag(p: Platform, cacheRoot: string, existing: set<string>, resources: set<string>, os: Os)
    requires Resolve(CacheDir(cacheRoot, p.version, ClasspathFlavor(p.flavor, p.libraries), p.classifier), NativeLibName(os)) !in existing
    requires Parse(p.version).Some? && Parse(p.version).value.tag.Some?
    requires DecimalValue(Parse(p.version).value.minor) <= IntMax
    ensures var v := Parse(p.version).value;
      CopyPlan(p, cacheRoot, existing, resources, os) == Err(NumberFormat(v.patch + "-" + v.tag.value))
  {
    AsWrittenRejectsTag(Parse(p.version).value, ClasspathFlavor(p.flavor, p.libraries), p.classifier);
  }
}
