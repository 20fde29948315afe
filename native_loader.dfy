/** `loadLibTorch`: the order in which the libraries of a resolved PyTorch directory are handed
    to `System.load`. The effect of loading is modelled as the trace of loaded paths; the
    directory walk (`Files.walk`) and the `Files.exists` checks are inputs. */
module NativeLoader {
  import opened Wrappers
  import opened Strings
  import opened VersionPattern
  import opened LibUtils

  /** One path produced by the directory walk: its parent directory, its file name and whether
      it is a regular file. */
  datatype Entry = Entry(parent: string, name: string, regular: bool)

  function EntryPath(e: Entry): string { Resolve(e.parent, e.name) }

  /** File names are single path components. */
  predicate WalkWellFormed(entries: seq<Entry>)
  {
    forall e :: e in entries ==> '/' !in e.name
  }

  /** `System.mapLibraryName` of every name in `bases`. */
  function MapNames(os: Os, bases: seq<string>): (r: seq<string>)
    ensures |r| == |bases| && forall i :: 0 <= i < |bases| ==> r[i] == MapLibraryName(os, bases[i])
  {
    if |bases| == 0 then [] else [MapLibraryName(os, bases[0])] + MapNames(os, bases[1..])
  }

  const CudaBases: seq<string> :=
    ["fbgemm", "caffe2_nvrtc", "torch_cpu", "c10_cuda", "torch_cuda_cpp", "torch_cuda_cu", "torch_cuda", "torch"]

  const CpuBases: seq<string> := ["fbgemm", "torch_cpu", "torch"]

  /** The libraries that must wait until the rest is loaded; this full list is also the
      `loadLater` set that the first pass skips, whether or not the build is a CUDA one. */
  function CudaDeferred(os: Os): seq<string> { MapNames(os, CudaBases) }

  /** The deferred list of a CPU build. */
  function CpuDeferred(os: Os): seq<string> { MapNames(os, CpuBases) }

  function Deferred(os: Os, isCuda: bool): seq<string>
  {
    if isCuda then CudaDeferred(os) else CpuDeferred(os)
  }

  /** The CUDA runtime libraries a CPU build should not load, with the three name tests joined
      by `||`. */
  predicate SkipsCudaRuntime(name: string, isCuda: bool)
  {
    !isCuda && (Contains(name, "nvrtc") || Contains(name, "cudart") || Contains(name, "nvTools"))
  }

  /** The same guard as the source writes it, joined by `&&`: only a name holding all three
      words at once is skipped. */
  predicate SkipsCudaRuntimeAsWritten(name: string, isCuda: bool)
  {
    !isCuda && Contains(name, "nvrtc") && Contains(name, "cudart") && Contains(name, "nvTools")
  }

  /** The rest of the first-pass filter: not deferred, a regular file, not the bridge library,
      not a `torch_`/`caffe2_` part and not a cuDNN part. */
  predicate Eligible(e: Entry, os: Os)
  {
    && e.name !in CudaDeferred(os)
    && e.regular
    && !EndsWith(e.name, JniLibName(os))
    && !Contains(e.name, "torch_")
    && !Contains(e.name, "caffe2_")
    && !StartsWith(e.name, "cudnn")
  }

  /** The first-pass filter with the corrected CUDA runtime guard. */
  predicate Keeps(e: Entry, isCuda: bool, os: Os)
  {
    !SkipsCudaRuntime(e.name, isCuda) && Eligible(e, os)
  }

  /** The first-pass filter as written, the one `loadLibTorch` applies. */
  predicate KeepsAsWritten(e: Entry, isCuda: bool, os: Os)
  {
    !SkipsCudaRuntimeAsWritten(e.name, isCuda) && Eligible(e, os)
  }

  /** Which CUDA runtime guard a first pass applies: the source's `&&` or the corrected `||`. */
  datatype Guard = AsWritten | Corrected

  predicate Kept(e: Entry, g: Guard, isCuda: bool, os: Os)
  {
    match g
    case AsWritten => KeepsAsWritten(e, isCuda, os)
    case Corrected => Keeps(e, isCuda, os)
  }

  /** The first pass under guard `g`: every kept walk entry, in walk order. `loadLibTorch` runs
      it with the guard as written. */
  function FirstPass(entries: seq<Entry>, g: Guard, isCuda: bool, os: Os): seq<string>
  {
    if |entries| == 0 then []
    else
      var e := entries[|entries| - 1];
      FirstPass(entries[..|entries| - 1], g, isCuda, os) + (if Kept(e, g, isCuda, os) then [EntryPath(e)] else [])
  }

  function ResolveAll(dir: string, names: seq<string>): (r: seq<string>)
    ensures |r| == |names| && forall i :: 0 <= i < |names| ==> r[i] == Resolve(dir, names[i])
  {
    if |names| == 0 then [] else [Resolve(dir, names[0])] + ResolveAll(dir, names[1..])
  }

  const Cudnn8: seq<string> :=
    ["cudnn64_8.dll", "cudnn_ops_infer64_8.dll", "cudnn_ops_train64_8.dll", "cudnn_cnn_infer64_8.dll",
     "cudnn_cnn_train64_8.dll", "cudnn_adv_infer64_8.dll", "cudnn_adv_train64_8.dll"]

  const Cudnn7: string := "cudnn64_7.dll"

  /** The cuDNN parts, loaded by name: the seven cuDNN 8 parts when `cudnn64_8.dll` exists,
      otherwise `cudnn64_7.dll` when that exists. */
  function CudnnLoads(dir: string, existing: set<string>): seq<string>
  {
    if Resolve(dir, Cudnn8[0]) in existing then ResolveAll(dir, Cudnn8)
    else if Resolve(dir, Cudnn7) in existing then [Resolve(dir, Cudnn7)]
    else []
  }

  /** The deferred libraries that exist, in the order of the list. */
  function DeferredLoads(dir: string, deps: seq<string>, existing: set<string>): seq<string>
  {
    if |deps| == 0 then []
    else
      var p := Resolve(dir, deps[|deps| - 1]);
      DeferredLoads(dir, deps[..|deps| - 1], existing) + (if p in existing then [p] else [])
  }

  /** Whether the 1.8.1 build on macOS is skipped: its `libtorch_cpu.dylib` cannot be loaded on
      its own. */
  predicate SkipsLoading(lib: LibTorch, os: Os)
  {
    GetVersion(lib.version) == "1.8.1" && os == Mac
  }

  /** The three passes over a walked directory: the kept entries, the cuDNN parts, the
      deferred libraries. */
  function Loads(dir: string, isCuda: bool, os: Os, entries: seq<Entry>, existing: set<string>): seq<string>
  {
    FirstPass(entries, AsWritten, isCuda, os) + CudnnLoads(dir, existing) + DeferredLoads(dir, Deferred(os, isCuda), existing)
  }

  /** The paths `loadLibTorch` loads, in order; `walk` is the directory walk, `None` when it
      fails with an IOException. */
  function LoadTrace(lib: LibTorch, os: Os, walk: Option<seq<Entry>>, existing: set<string>): Result<seq<string>, Error>
  {
    if SkipsLoading(lib, os) then Ok([])
    else if walk.None? then Err(FolderNotExist(lib.dir))
    else Ok(Loads(lib.dir, IsCuda(lib.flavor), os, walk.value, existing))
  }

  /** The first pass of `loadLibTorch`: the walk entries the filter keeps, loaded in walk order. */
  method LoadFirstPass(paths: seq<Entry>, isCuda: bool, os: Os) returns (loaded: seq<string>)
    ensures loaded == FirstPass(paths, AsWritten, isCuda, os)
  {
    loaded := [];
    var i := 0;
    while i < |paths|
      invariant 0 <= i <= |paths|
      invariant loaded == FirstPass(paths[..i], AsWritten, isCuda, os)
    {
      assert paths[..i + 1][..i] == paths[..i];
      if KeepsAsWritten(paths[i], isCuda, os) {
        loaded := loaded + [EntryPath(paths[i])];
      }
      i := i + 1;
    }
    assert paths[..|paths|] == paths;
  }

  /** The cuDNN parts of `loadLibTorch`. */
  method LoadCudnn(libDir: string, existing: set<string>) returns (loaded: seq<string>)
    ensures loaded == CudnnLoads(libDir, existing)
  {
    loaded := [];
    if Resolve(libDir, Cudnn8[0]) in existing {
      loaded := ResolveAll(libDir, Cudnn8);
    } else if Resolve(libDir, Cudnn7) in existing {
      loaded := [Resolve(libDir, Cudnn7)];
    }
  }

  /** The deferred loop of `loadLibTorch`: each listed library that exists, in list order. */
  method LoadDeferred(libDir: string, deferred: seq<string>, existing: set<string>) returns (loaded: seq<string>)
    ensures loaded == DeferredLoads(libDir, deferred, existing)
  {
    loaded := [];
    var j := 0;
    while j < |deferred|
      invariant 0 <= j <= |deferred|
      invariant loaded == DeferredLoads(libDir, deferred[..j], existing)
    {
      assert deferred[..j + 1][..j] == deferred[..j];
      var path := Resolve(libDir, deferred[j]);
      if path in existing {
        loaded := loaded + [path];
      }
      j := j + 1;
    }
    assert deferred[..|deferred|] == deferred;
  }

  /** `loadLibTorch`, returning the paths it loads in the order it loads them. */
  method LoadLibTorch(lib: LibTorch, os: Os, walk: Option<seq<Entry>>, existing: set<string>)
    returns (r: Result<seq<string>, Error>)
    ensures r == LoadTrace(lib, os, walk, existing)
  {
    var libDir := lib.dir;
    if SkipsLoading(lib, os) {
      return Ok([]);
    }
    var isCuda := IsCuda(lib.flavor);
    var deferred := CudaDeferred(os);
    if walk.None? {
      return Err(FolderNotExist(libDir));
    }
    var loaded := LoadFirstPass(walk.value, isCuda, os);
    var cudnn := LoadCudnn(libDir, existing);
    loaded := loaded + cudnn;
    if !isCuda {
      deferred := CpuDeferred(os);
    }
    var late := LoadDeferred(libDir, deferred, existing);
    return Ok(loaded + late);
  }

  /** Every path the first pass loads is the path of a walk entry the filter keeps. */
  lemma {:induction false} FirstPassSource(entries: seq<Entry>, g: Guard, isCuda: bool, os: Os, p: string) returns (e: Entry)
    requires p in FirstPass(entries, g, isCuda, os)
    ensures e in entries && Kept(e, g, isCuda, os) && EntryPath(e) == p
  {
    var init := entries[..|entries| - 1];
    var last := entries[|entries| - 1];
    assert entries == init + [last];
    if p in FirstPass(init, g, isCuda, os) {
      e := FirstPassSource(init, g, isCuda, os, p);
    } else {
      e := last;
    }
  }

  /** Every walk entry the filter keeps is loaded by the first pass. */
  lemma {:induction false} FirstPassComplete(entries: seq<Entry>, g: Guard, isCuda: bool, os: Os, k: nat)
    requires k < |entries| && Kept(entries[k], g, isCuda, os)
    ensures EntryPath(entries[k]) in FirstPass(entries, g, isCuda, os)
  {
    var init := entries[..|entries| - 1];
    if k < |entries| - 1 {
      assert init[k] == entries[k];
      FirstPassComplete(init, g, isCuda, os, k);
    }
  }

  /** The deferred pass loads the existing deferred libraries and nothing else, and it keeps the
      order of the list: the loads of a list `a + b` are those of `a` followed by those of `b`. */
  lemma {:induction false} DeferredLoadsSplit(dir: string, a: seq<string>, b: seq<string>, existing: set<string>)
    ensures DeferredLoads(dir, a + b, existing) == DeferredLoads(dir, a, existing) + DeferredLoads(dir, b, existing)
  {
    if |b| > 0 {
      var ab := a + b;
      assert ab[..|ab| - 1] == a + b[..|b| - 1];
      assert ab[|ab| - 1] == b[|b| - 1];
      DeferredLoadsSplit(dir, a, b[..|b| - 1], existing);
    } else {
      assert a + b == a;
    }
  }

  lemma {:induction false} DeferredLoadsMembers(dir: string, deps: seq<string>, existing: set<string>, p: string)
    ensures p in DeferredLoads(dir, deps, existing) <==> p in existing && exists d :: d in deps && p == Resolve(dir, d)
  {
    if |deps| > 0 {
      var init := deps[..|deps| - 1];
      var d := deps[|deps| - 1];
      DeferredLoadsMembers(dir, init, existing, p);
      assert deps == init + [d];
      if exists x :: x in deps && p == Resolve(dir, x) {
        var x :| x in deps && p == Resolve(dir, x);
        if x != d {
          assert x in init;
        }
      }
    }
  }

  /** Two paths in one directory with single-component names are equal only for equal names. */
  lemma SameLastComponent(a: string, x: string, b: string, y: string)
    requires '/' !in x && '/' !in y && Resolve(a, x) == Resolve(b, y)
    ensures x == y
  {
    var s := Resolve(a, x);
    var k := LastIndexOf(s, '/');
    assert s[|a|] == '/' && s[|b|] == '/';
    forall i | |a| < i < |s|
      ensures s[i] != '/'
    {
      assert s[i] == x[i - |a| - 1];
    }
    forall i | |b| < i < |s|
      ensures s[i] != '/'
    {
      assert s[i] == y[i - |b| - 1];
    }
    assert k == |a| && k == |b|;
    assert x == s[|a| + 1..] && y == s[|b| + 1..];
  }

  /** A library base name that holds no `/` and does not start with `cu`. */
  predicate PlainBase(b: string) { '/' !in b && |b| >= 2 && (b[0] != 'c' || b[1] != 'u') }

  lemma MapLibraryNameShape(os: Os, base: string)
    requires PlainBase(base)
    ensures '/' !in MapLibraryName(os, base) && !StartsWith(MapLibraryName(os, base), "cudnn")
  {
    var m := MapLibraryName(os, base);
    if os == Windows {
      assert m == base + ".dll";
      assert m[0] == base[0] && m[1] == base[1];
    } else {
      assert m[0] == 'l';
    }
  }

  lemma BasesPlain()
    ensures forall b :: b in CudaBases ==> PlainBase(b)
    ensures forall b :: b in CpuBases ==> b in CudaBases
  {
    assert PlainBase("fbgemm") && PlainBase("caffe2_nvrtc") && PlainBase("torch_cpu") && PlainBase("c10_cuda");
    assert PlainBase("torch_cuda_cpp") && PlainBase("torch_cuda_cu") && PlainBase("torch_cuda") && PlainBase("torch");
    assert CpuBases[0] == CudaBases[0] && CpuBases[1] == CudaBases[2] && CpuBases[2] == CudaBases[7];
  }

  /** No deferred library has a `/` in its name or is a cuDNN part. */
  lemma DeferredNames(os: Os)
    ensures forall d :: d in CudaDeferred(os) ==> '/' !in d && !StartsWith(d, "cudnn")
  {
    BasesPlain();
    forall d | d in CudaDeferred(os)
      ensures '/' !in d && !StartsWith(d, "cudnn")
    {
      var i :| 0 <= i < |CudaBases| && d == CudaDeferred(os)[i];
      MapLibraryNameShape(os, CudaBases[i]);
    }
  }

  /** The CPU list is part of the CUDA list. */
  lemma CpuDeferredIncluded(os: Os)
    ensures forall d :: d in CpuDeferred(os) ==> d in CudaDeferred(os)
  {
    var cpu, cuda := CpuDeferred(os), CudaDeferred(os);
    assert cpu[0] == cuda[0] && cpu[1] == cuda[2] && cpu[2] == cuda[7];
  }

  /** A cuDNN part: a single path component starting with `cudnn`. */
  predicate CudnnName(c: string) { StartsWith(c, "cudnn") && '/' !in c }

  lemma CudnnNames()
    ensures forall n :: n in Cudnn8 ==> CudnnName(n)
    ensures CudnnName(Cudnn7)
  {
    forall i | 0 <= i < |Cudnn8|
      ensures CudnnName(Cudnn8[i])
    {
      assert Cudnn8[i][..5] == "cudnn";
    }
  }

  lemma {:induction false} CudnnLoadsShape(dir: string, existing: set<string>, p: string) returns (c: string)
    requires p in CudnnLoads(dir, existing)
    ensures CudnnName(c) && p == Resolve(dir, c)
  {
    CudnnNames();
    if Resolve(dir, Cudnn8[0]) in existing {
      var i :| 0 <= i < |Cudnn8| && p == ResolveAll(dir, Cudnn8)[i];
      c := Cudnn8[i];
    } else {
      c := Cudnn7;
    }
  }

  /** The set of paths the deferred lists can load. */
  function DeferredPaths(dir: string, os: Os): set<string>
  {
    set d | d in CudaDeferred(os) :: Resolve(dir, d)
  }

  lemma {:induction false} DeferredLoadsAreDeferred(dir: string, os: Os, isCuda: bool, existing: set<string>)
    ensures forall p :: p in DeferredLoads(dir, Deferred(os, isCuda), existing) ==> p in DeferredPaths(dir, os)
  {
    CpuDeferredIncluded(os);
    forall p | p in DeferredLoads(dir, Deferred(os, isCuda), existing)
      ensures p in DeferredPaths(dir, os)
    {
      DeferredLoadsMembers(dir, Deferred(os, isCuda), existing, p);
    }
  }

  /** Paths in two directories with different single-component names differ. */
  lemma DifferentLastComponent(a: string, x: string, b: string, y: string)
    requires '/' !in x && '/' !in y && x != y
    ensures Resolve(a, x) != Resolve(b, y)
  {
    if Resolve(a, x) == Resolve(b, y) {
      SameLastComponent(a, x, b, y);
    }
  }

  lemma {:induction false} FirstPassNotDeferred(dir: string, os: Os, isCuda: bool, entries: seq<Entry>, p: string)
    requires WalkWellFormed(entries) && p in FirstPass(entries, AsWritten, isCuda, os)
    ensures p !in DeferredPaths(dir, os)
  {
    var e := FirstPassSource(entries, AsWritten, isCuda, os, p);
    DeferredNames(os);
    forall d | d in CudaDeferred(os)
      ensures p != Resolve(dir, d)
    {
      DifferentLastComponent(e.parent, e.name, dir, d);
    }
  }

  lemma {:induction false} CudnnNotDeferred(dir: string, os: Os, existing: set<string>, p: string)
    requires p in CudnnLoads(dir, existing)
    ensures p !in DeferredPaths(dir, os)
  {
    var c := CudnnLoadsShape(dir, existing, p);
    DeferredNames(os);
    forall d | d in CudaDeferred(os)
      ensures p != Resolve(dir, d)
    {
      DifferentLastComponent(dir, c, dir, d);
    }
  }

  lemma {:induction false} EarlyLoadsNotDeferred(dir: string, os: Os, isCuda: bool, entries: seq<Entry>, existing: set<string>)
    requires WalkWellFormed(entries)
    ensures forall p :: p in FirstPass(entries, AsWritten, isCuda, os) + CudnnLoads(dir, existing) ==> p !in DeferredPaths(dir, os)
  {
    forall p | p in FirstPass(entries, AsWritten, isCuda, os) + CudnnLoads(dir, existing)
      ensures p !in DeferredPaths(dir, os)
    {
      if p in FirstPass(entries, AsWritten, isCuda, os) {
        FirstPassNotDeferred(dir, os, isCuda, entries, p);
      } else {
        CudnnNotDeferred(dir, os, existing, p);
      }
    }
  }

  /** In `early + late` with no member of `d` in `early` and only members in `late`, nothing
      outside `d` follows a member of `d`. */
  lemma ClosedTail(early: seq<string>, late: seq<string>, d: set<string>)
    requires forall p :: p in early ==> p !in d
    requires forall p :: p in late ==> p in d
    ensures forall i, j :: 0 <= i < j < |early + late| && (early + late)[i] in d ==> (early + late)[j] in d
  {
    var t := early + late;
    assert forall k :: 0 <= k < |early| ==> t[k] == early[k];
    forall i, j | 0 <= i < j < |t| && t[i] in d
      ensures t[j] in d
    {
      assert t[j] == late[j - |early|];
    }
  }

  /** Dependency order: once a deferred library has been loaded, every later load is a deferred
      library too, so the first pass and the cuDNN parts all precede them. */
  lemma {:induction false} DeferredLoadedLast(dir: string, isCuda: bool, os: Os, entries: seq<Entry>, existing: set<string>)
    requires WalkWellFormed(entries)
    ensures var t := Loads(dir, isCuda, os, entries, existing);
      forall i, j :: 0 <= i < j < |t| && t[i] in DeferredPaths(dir, os) ==> t[j] in DeferredPaths(dir, os)
  {
    var early := FirstPass(entries, AsWritten, isCuda, os) + CudnnLoads(dir, existing);
    var late := DeferredLoads(dir, Deferred(os, isCuda), existing);
    EarlyLoadsNotDeferred(dir, os, isCuda, entries, existing);
    DeferredLoadsAreDeferred(dir, os, isCuda, existing);
    ClosedTail(early, late, DeferredPaths(dir, os));
  }

  /** The main library closes both deferred lists. */
  lemma DeferredEndsWithTorch(os: Os, isCuda: bool)
    ensures |Deferred(os, isCuda)| > 0 && Deferred(os, isCuda)[|Deferred(os, isCuda)| - 1] == NativeLibName(os)
  {
    assert CudaBases[7] == "torch" && CpuBases[2] == "torch";
  }

  /** When the main library exists it is the last one loaded, on CPU and CUDA builds alike. */
  lemma {:induction false} TorchLoadedLast(dir: string, isCuda: bool, os: Os, entries: seq<Entry>, existing: set<string>)
    requires Resolve(dir, NativeLibName(os)) in existing
    ensures var t := Loads(dir, isCuda, os, entries, existing);
      |t| > 0 && t[|t| - 1] == Resolve(dir, NativeLibName(os))
  {
    DeferredEndsWithTorch(os, isCuda);
  }

  /** On a CPU build the first pass with the corrected guard never loads a CUDA runtime library. */
  lemma {:induction false} CpuSkipsCudaRuntime(entries: seq<Entry>, os: Os, p: string)
    requires p in FirstPass(entries, Corrected, false, os)
    ensures exists e :: (e in entries && EntryPath(e) == p
      && !Contains(e.name, "nvrtc") && !Contains(e.name, "cudart") && !Contains(e.name, "nvTools"))
  {
    var e := FirstPassSource(entries, Corrected, false, os, p);
  }

  const CudaRuntime: string := "libcudart.so"

  lemma CudaRuntimeSpelling()
    ensures Contains(CudaRuntime, "cudart")
    ensures '_' !in CudaRuntime && 'v' !in CudaRuntime
    ensures CudaRuntime[0] == 'l' && CudaRuntime[3] == 'c' && CudaRuntime[4] == 'u' && |CudaRuntime| == 12
  {
    var n := CudaRuntime;
    assert n[3..9] == "cudart";
    ContainsAt(n, "cudart", 3);
  }

  lemma {:induction false} NoCharNoContains(s: string, p: string, k: nat)
    requires k < |p| && p[k] !in s
    ensures !Contains(s, p)
  {
    if Contains(s, p) {
      ContainsChar(s, p, k);
    }
  }

  lemma LinuxNameChars(b: string)
    requires |b| >= 2
    ensures |MapLibraryName(Linux, b)| >= 5
    ensures MapLibraryName(Linux, b)[3] == b[0] && MapLibraryName(Linux, b)[4] == b[1]
  {
  }

  /** `libcudart.so` is none of the deferred libraries of Linux. */
  lemma CudaRuntimeNotDeferred()
    ensures CudaRuntime !in CudaDeferred(Linux)
  {
    CudaRuntimeSpelling();
    BasesPlain();
    var ds := CudaDeferred(Linux);
    forall i | 0 <= i < |ds|
      ensures ds[i] != CudaRuntime
    {
      assert CudaBases[i] in CudaBases;
      LinuxNameChars(CudaBases[i]);
    }
  }

  /** `libcudart.so` in the directory of a CPU build passes every test but the CUDA runtime
      guard. */
  lemma CudaRuntimeEligible(dir: string)
    ensures Eligible(Entry(dir, CudaRuntime, true), Linux)
  {
    CudaRuntimeSpelling();
    CudaRuntimeNotDeferred();
    NoCharNoContains(CudaRuntime, "torch_", 5);
    NoCharNoContains(CudaRuntime, "caffe2_", 6);
    assert CudaRuntime[0] != "cudnn"[0];
    assert |JniLibName(Linux)| > |CudaRuntime|;
  }

  lemma CudaRuntimeNotNvrtc()
    ensures !Contains(CudaRuntime, "nvrtc")
  {
    CudaRuntimeSpelling();
    NoCharNoContains(CudaRuntime, "nvrtc", 1);
  }

  lemma AsWrittenKeepsCudaRuntime(dir: string)
    ensures KeepsAsWritten(Entry(dir, CudaRuntime, true), false, Linux)
  {
    CudaRuntimeEligible(dir);
    CudaRuntimeNotNvrtc();
  }

  lemma CorrectedSkipsCudaRuntime(dir: string)
    ensures SkipsCudaRuntime(CudaRuntime, false)
  {
    CudaRuntimeSpelling();
  }

  /** `libcudart.so` in the directory of a CPU build: the guard as written lets it through, the
      corrected one skips it. */
  lemma AsWrittenLoadsCudaRuntime(dir: string)
    ensures KeepsAsWritten(Entry(dir, CudaRuntime, true), false, Linux)
    ensures !Keeps(Entry(dir, CudaRuntime, true), false, Linux)
  {
    AsWrittenKeepsCudaRuntime(dir);
    CorrectedSkipsCudaRuntime(dir);
  }

  /** The load trace of a CPU build on Linux includes a regular `libcudart.so` of the walk: the
      guard as written lets it through to `System.load`. */
  lemma CpuBuildLoadsCudaRuntime(lib: LibTorch, entries: seq<Entry>, existing: set<string>, k: nat)
    requires !IsCuda(lib.flavor)
    requires k < |entries| && entries[k] == Entry(lib.dir, CudaRuntime, true)
    ensures LoadTrace(lib, Linux, Some(entries), existing).Ok?
    ensures Resolve(lib.dir, CudaRuntime) in LoadTrace(lib, Linux, Some(entries), existing).value
  {
    AsWrittenKeepsCudaRuntime(lib.dir);
    KeptInTrace(lib, Linux, entries, existing, k);
  }

  /** An entry the first pass keeps is in the load trace of a walk that is not skipped. */
  lemma KeptInTrace(lib: LibTorch, os: Os, entries: seq<Entry>, existing: set<string>, k: nat)
    requires !SkipsLoading(lib, os)
    requires k < |entries| && KeepsAsWritten(entries[k], IsCuda(lib.flavor), os)
    ensures LoadTrace(lib, os, Some(entries), existing).Ok?
    ensures EntryPath(entries[k]) in LoadTrace(lib, os, Some(entries), existing).value
  {
    var isCuda := IsCuda(lib.flavor);
    FirstPassComplete(entries, AsWritten, isCuda, os, k);
    FirstPassInLoads(lib.dir, isCuda, os, entries, existing, EntryPath(entries[k]));
    WalkTrace(lib, os, entries, existing);
  }

  /** Unless the build is skipped, a successful walk is always loaded. */
  lemma WalkTrace(lib: LibTorch, os: Os, entries: seq<Entry>, existing: set<string>)
    requires !SkipsLoading(lib, os)
    ensures LoadTrace(lib, os, Some(entries), existing) == Ok(Loads(lib.dir, IsCuda(lib.flavor), os, entries, existing))
  {
  }

  /** Whatever the first pass loads is in the loads of the walk. */
  lemma FirstPassInLoads(dir: string, isCuda: bool, os: Os, entries: seq<Entry>, existing: set<string>, p: string)
    requires p in FirstPass(entries, AsWritten, isCuda, os)
    ensures p in Loads(dir, isCuda, os, entries, existing)
  {
    var first := FirstPass(entries, AsWritten, isCuda, os);
    var rest := CudnnLoads(dir, existing) + DeferredLoads(dir, Deferred(os, isCuda), existing);
    assert Loads(dir, isCuda, os, entries, existing) == first + rest;
  }
}
