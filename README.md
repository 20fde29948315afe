# PyTorch native-library resolution and `SequentialBlock`, modelled in Dafny

This project models two parts of the Deep Java Library (DJL).

The first part is `ai.djl.pytorch.jni.LibUtils`, which finds, fetches and loads the PyTorch native
libraries. The model covers:

- the version pattern and `getVersion`;
- the search of the user's library path (`findOverrideLibrary`, `findLibraryInPath`);
- the choice between the bundled build and a download (`findNativeLibrary`);
- extracting the bundled build from the class path (`copyNativeLibraryFromClasspath`), with
  its resource prefix computed as the code writes it (`split` and `Integer.parseInt`);
- downloading a build from the published manifest (`downloadPyTorch`), with its CUDA-to-CPU
  fallback;
- locating the JNI bridge library (`findJniLibrary`);
- the order in which `loadLibTorch` hands libraries to `System.load`, with its CUDA runtime
  guard as the code writes it (three name tests joined by `&&`);
- both `LibTorch` constructors.

The process environment is made explicit. Environment variables and system properties are
maps. The file system is a set of existing paths plus the regular files among them. The class
path is a set of resource names. The directory walk is a sequence of entries. The manifest fetch
is a function from URL to lines. What a method "does" (loads, copies, downloads) is returned as
a trace or plan next to its result.

The second part is `ai.djl.nn.SequentialBlock`, a mutable list of child blocks run in order. It
is a Dafny class with the fields `blocks` and `initialized`. A child block is a value that
carries its class name, its forward function, its shape functions and its own parameter
serialisation. The model covers:

- `add`, `addAll`, `removeLastBlock` and `replaceLastBlock`;
- `forward`, including which intermediate lists it closes;
- `initialize` and `getOutputShapes`;
- the child names of `getChildren`;
- `getDirectParameters` and `getParameterShape`;
- the parameter stream of `saveParameters` and `loadParameters`, with a save/load round trip.

Files:

- `wrappers.dfy`: `Option` and `Result`.
- `strings.dfy`: the `java.lang.String`/`Integer` operations the code relies on.
- `version.dfy`: the version pattern, a matcher for it, and `getVersion`.
- `libutils.dfy`: names, paths, the `LibTorch` constructors, flavor and prefix rules, the route
  of `findNativeLibrary`, and `findJniLibrary`.
- `native_loader.dfy`: `loadLibTorch`.
- `native_fetch.dfy`: `findOverrideLibrary`, `findLibraryInPath` and
  `copyNativeLibraryFromClasspath`.
- `native_download.dfy`: `downloadPyTorch` and `findNativeLibrary`.
- `sequential_block.dfy`: `SequentialBlock`.

`getVersion` returns a version that does not match the pattern unchanged; only
`findJniLibrary`, `copyNativeLibraryFromClasspath` and `downloadPyTorch` reject such a version,
with "Unexpected version".

Methods that mirror the source's loops are each proved against a specification function, for
example `ensures r == DownloadPlan(...)`. The properties are then proved about those functions.

## Model

| member | source | states |
|---|---|---|
| VersionPattern.Component | engines/pytorch/pytorch-engine/src/main/java/ai/djl/pytorch/jni/LibUtils.java:61-62 | `\d+\.` accepts a non-empty run of digits and a dot, and gives back exactly the digits and what follows the dot |
| VersionPattern.ParseTag | engines/pytorch/pytorch-engine/src/main/java/ai/djl/pytorch/jni/LibUtils.java:61-62 | `(-[a-z]+)?` takes a non-empty lower-case tag or nothing, and tag text plus rest is the input |
| VersionPattern.ParseSnapshot | engines/pytorch/pytorch-engine/src/main/java/ai/djl/pytorch/jni/LibUtils.java:61-62 | `(-SNAPSHOT)?` consumes exactly its text or nothing |
| VersionPattern.ParseBuild | engines/pytorch/pytorch-engine/src/main/java/ai/djl/pytorch/jni/LibUtils.java:61-62 | `(-\d+)?` takes a non-empty digit run or nothing, and build text plus rest is the input |
| VersionPattern.ParseTail | engines/pytorch/pytorch-engine/src/main/java/ai/djl/pytorch/jni/LibUtils.java:61-62 | the optional groups, up to the end of the input, give well-formed parts that spell the input |
| VersionPattern.Parse | engines/pytorch/pytorch-engine/src/main/java/ai/djl/pytorch/jni/LibUtils.java:61-62 | soundness of the whole-string match: any parts it returns are well formed and render back to the input |
| VersionPattern.ParseTailOf | engines/pytorch/pytorch-engine/src/main/java/ai/djl/pytorch/jni/LibUtils.java:61-62 | the optional groups are read back as written: a tag stops at the next `-`, `-SNAPSHOT` is never taken for a tag, a build starts with a digit |
| VersionPattern.ParseRender | engines/pytorch/pytorch-engine/src/main/java/ai/djl/pytorch/jni/LibUtils.java:61-62 | completeness: every string of the pattern's language matches, with exactly the parts it was built from |
| VersionPattern.MatchesIff | engines/pytorch/pytorch-engine/src/main/java/ai/djl/pytorch/jni/LibUtils.java:61-62 | a string matches if and only if it is the rendering of some well-formed parts |
| VersionPattern.RenderInjective | engines/pytorch/pytorch-engine/src/main/java/ai/djl/pytorch/jni/LibUtils.java:61-62 | two well-formed parts with the same rendering are equal, so the groups of a match are determined |
| VersionPattern.RenderExtendsCanonical | engines/pytorch/pytorch-engine/src/main/java/ai/djl/pytorch/jni/LibUtils.java:61-62 | a matching version is group 1 followed by the `-SNAPSHOT` and build suffixes |
| VersionPattern.GetVersionSpec | engines/pytorch/pytorch-engine/src/main/java/ai/djl/pytorch/jni/LibUtils.java:90-96 | `getVersion` of a matching version is its group 1 (`major.minor.patch[-tag]`), and any other string comes back unchanged |
| VersionPattern.CanonicalIsFixedPoint | engines/pytorch/pytorch-engine/src/main/java/ai/djl/pytorch/jni/LibUtils.java:90-96 | group 1 itself matches and is its own canonical version, so `getVersion` is idempotent on versions |
| VersionPattern.NightlySpelling | engines/pytorch/pytorch-engine/src/main/java/ai/djl/pytorch/jni/LibUtils.java:278 | the nightly example is spelled `1.8.1-20210421` and its group 1 is `1.8.1` |
| VersionPattern.TaggedSnapshotSpelling | engines/pytorch/pytorch-engine/src/main/java/ai/djl/pytorch/jni/LibUtils.java:61-62 | a tagged snapshot build is spelled `1.10.2-xyz-SNAPSHOT-7` and its group 1 is `1.10.2-xyz` |
| VersionPattern.GetVersionExamples | engines/pytorch/pytorch-engine/src/main/java/ai/djl/pytorch/jni/LibUtils.java:90-96 | `getVersion` keeps `1.8.1` of `1.8.1-20210421` and `1.10.2-xyz` of `1.10.2-xyz-SNAPSHOT-7` |
| Strings.ParseInt | engines/pytorch/pytorch-engine/src/main/java/ai/djl/pytorch/jni/LibUtils.java:317-318 | `Integer.parseInt` gives a 32-bit value, the decimal value of a digit string within range, and fails for a leading character that is neither digit nor sign |
| Strings.SplitThree | engines/pytorch/pytorch-engine/src/main/java/ai/djl/pytorch/jni/LibUtils.java:316 | `split` on `.` of `x.y.z`, with no `.` in the pieces and a non-empty last piece, gives the three pieces |
| Strings.LastIndexOf | engines/pytorch/pytorch-engine/src/main/java/ai/djl/pytorch/jni/LibUtils.java:440 | the result is the last index holding the character, or -1 when there is none |
| Strings.DigitCount | api/src/main/java/ai/djl/nn/SequentialBlock.java:124 | the width `(int) Math.log10(n) + 1` is the `w` with `10^(w-1) <= n < 10^w` |
| Strings.PadValue | api/src/main/java/ai/djl/nn/SequentialBlock.java:125-128 | the `%0wd` rendering of `i < 10^w` reads back as `i` |
| Strings.PadOrdered | api/src/main/java/ai/djl/nn/SequentialBlock.java:125-128 | padding to a common width keeps numeric order as string order |
| LibUtils.LibTorchOf | engines/pytorch/pytorch-engine/src/main/java/ai/djl/pytorch/jni/LibUtils.java:531-537 | the second constructor takes directory and flavor from its arguments, and version, API version and classifier from the platform |
| LibUtils.DetectedLibTorchPrecedence | engines/pytorch/pytorch-engine/src/main/java/ai/djl/pytorch/jni/LibUtils.java:506-529 | first constructor: for version and flavor, an environment variable beats a system property, which beats the platform version or the GPU probe; API version and classifier come from the platform |
| LibUtils.CpuFlavorNotCuda | engines/pytorch/pytorch-engine/src/main/java/ai/djl/pytorch/jni/LibUtils.java:525 | the probed CPU flavor `cpu-precxx11` does not contain `cu` |
| LibUtils.ProbedFlavorIsCudaIff | engines/pytorch/pytorch-engine/src/main/java/ai/djl/pytorch/jni/LibUtils.java:518-527 | a probed flavor always ends with `-precxx11`, and `loadLibTorch` counts it as CUDA exactly when a GPU was found |
| LibUtils.ClasspathFlavorSpec | engines/pytorch/pytorch-engine/src/main/java/ai/djl/pytorch/jni/LibUtils.java:294-298 | the result is the flavor itself or the flavor with `-precxx11` appended; it ends with `-precxx11` iff it did before or `libstdc++.so.6` is bundled; applying the rule twice adds nothing |
| LibUtils.Precxx11Suffix | engines/pytorch/pytorch-engine/src/main/java/ai/djl/pytorch/jni/LibUtils.java:366-376 | the suffix is `-precxx11` or empty |
| LibUtils.Precxx11SuffixSpec | engines/pytorch/pytorch-engine/src/main/java/ai/djl/pytorch/jni/LibUtils.java:366-376 | the suffix is `-precxx11` exactly when the property or the variable parses as true, or the platform is aarch64 Linux |
| LibUtils.ResourcePrefixRule | engines/pytorch/pytorch-engine/src/main/java/ai/djl/pytorch/jni/LibUtils.java:316-324 | for any well-formed version with 32-bit minor and patch numbers the prefix exists; it is `pytorch/<flavor>/<classifier>` iff minor > 10 or (minor = 10 and patch = 2), and `native/lib` otherwise |
| LibUtils.AsWrittenAgreesWithoutTag | engines/pytorch/pytorch-engine/src/main/java/ai/djl/pytorch/jni/LibUtils.java:316-324 | without a tag, splitting group 1 on `.` as the source does gives the same prefix as the corrected rule |
| LibUtils.TaggedCanonicalSplit | engines/pytorch/pytorch-engine/src/main/java/ai/djl/pytorch/jni/LibUtils.java:316 | group 1 of a tagged version splits into major, minor and `<patch>-<tag>` |
| LibUtils.TaggedPatchNotANumber | engines/pytorch/pytorch-engine/src/main/java/ai/djl/pytorch/jni/LibUtils.java:318 | `<patch>-<tag>` is rejected by `Integer.parseInt` |
| LibUtils.AsWrittenRejectsTag | engines/pytorch/pytorch-engine/src/main/java/ai/djl/pytorch/jni/LibUtils.java:312-318 | every tagged version passes the version check, yet the written rule fails with NumberFormatException on `<patch>-<tag>` |
| LibUtils.Tagged1102WellFormed | engines/pytorch/pytorch-engine/src/main/java/ai/djl/pytorch/jni/LibUtils.java:320 | `1.10.2-xyz` is a well-formed match with minor 10 and patch 2 |
| LibUtils.TaggedExampleAsWritten | engines/pytorch/pytorch-engine/src/main/java/ai/djl/pytorch/jni/LibUtils.java:312-318 | `1.10.2-xyz` matches the pattern, but the written rule throws on `2-xyz` |
| LibUtils.TaggedExampleCorrected | engines/pytorch/pytorch-engine/src/main/java/ai/djl/pytorch/jni/LibUtils.java:316-324 | the corrected rule gives `1.10.2-xyz` the `pytorch/<flavor>/<classifier>` prefix |
| LibUtils.NativeRouteOverride | engines/pytorch/pytorch-engine/src/main/java/ai/djl/pytorch/jni/LibUtils.java:269-289 | overriding the version with group 1 of the bundled version keeps the bundled build (or the placeholder download); an override that is not a prefix downloads the platform detected for it |
| LibUtils.FindJniLibrary | engines/pytorch/pytorch-engine/src/main/java/ai/djl/pytorch/jni/LibUtils.java:207-267 | the path is always the cache path; it is used as is iff it exists; otherwise a non-matching version fails; a download uses the URL built from group 1; a properties file without `jni_version` fails with the AssertionError; the library is downloaded iff it is not cached, the version matches, and the properties file is absent or its `jni_version` does not start with `<group 1>-<apiVersion>`; extraction happens iff it does |
| NativeLoader.MapNames | engines/pytorch/pytorch-engine/src/main/java/ai/djl/pytorch/jni/LibUtils.java:109-118 | each listed name is mapped by `System.mapLibraryName`, in order |
| NativeLoader.LoadFirstPass | engines/pytorch/pytorch-engine/src/main/java/ai/djl/pytorch/jni/LibUtils.java:121-139 | the loop loads the walk entries the filter keeps, in walk order; the filter is the one written, with the `&&` CUDA runtime guard |
| NativeLoader.LoadCudnn | engines/pytorch/pytorch-engine/src/main/java/ai/djl/pytorch/jni/LibUtils.java:140-150 | the seven cuDNN 8 parts when `cudnn64_8.dll` exists, else `cudnn64_7.dll` when it exists, else nothing |
| NativeLoader.LoadDeferred | engines/pytorch/pytorch-engine/src/main/java/ai/djl/pytorch/jni/LibUtils.java:160-165 | the loop loads the listed libraries that exist, in list order |
| NativeLoader.LoadLibTorch | engines/pytorch/pytorch-engine/src/main/java/ai/djl/pytorch/jni/LibUtils.java:102-169 | the load trace: nothing for 1.8.1 on macOS, FolderNotExist when the walk fails, otherwise first pass (the written `&&` guard), cuDNN parts, then the CUDA or CPU deferred list |
| NativeLoader.FirstPassSource | engines/pytorch/pytorch-engine/src/main/java/ai/djl/pytorch/jni/LibUtils.java:122-139 | for the written guard (the one the loader runs) and the corrected one alike, every path the first pass loads is the path of a walk entry that guard's filter keeps |
| NativeLoader.FirstPassComplete | engines/pytorch/pytorch-engine/src/main/java/ai/djl/pytorch/jni/LibUtils.java:122-139 | for the written guard (the one the loader runs) and the corrected one alike, every walk entry that guard's filter keeps is loaded by the first pass |
| NativeLoader.DeferredLoadsSplit | engines/pytorch/pytorch-engine/src/main/java/ai/djl/pytorch/jni/LibUtils.java:160-165 | the deferred loads keep list order: the loads of `a + b` are those of `a`, then those of `b` |
| NativeLoader.DeferredLoadsMembers | engines/pytorch/pytorch-engine/src/main/java/ai/djl/pytorch/jni/LibUtils.java:160-165 | a path is loaded by the deferred loop iff it exists and is a listed library in the directory |
| NativeLoader.DeferredNames | engines/pytorch/pytorch-engine/src/main/java/ai/djl/pytorch/jni/LibUtils.java:109-118 | no deferred library name holds a `/` or starts with `cudnn` |
| NativeLoader.CpuDeferredIncluded | engines/pytorch/pytorch-engine/src/main/java/ai/djl/pytorch/jni/LibUtils.java:152-158 | the CPU deferred list is part of the CUDA list, which is also the skip set of the first pass |
| NativeLoader.CudnnNames | engines/pytorch/pytorch-engine/src/main/java/ai/djl/pytorch/jni/LibUtils.java:140-150 | every cuDNN part loaded by name starts with `cudnn` and is a single path component |
| NativeLoader.CudnnLoadsShape | engines/pytorch/pytorch-engine/src/main/java/ai/djl/pytorch/jni/LibUtils.java:140-150 | every cuDNN load is a cuDNN name in the library directory |
| NativeLoader.DeferredLoadsAreDeferred | engines/pytorch/pytorch-engine/src/main/java/ai/djl/pytorch/jni/LibUtils.java:152-165 | whichever list is used, the deferred loop loads only deferred libraries of the directory |
| NativeLoader.FirstPassNotDeferred | engines/pytorch/pytorch-engine/src/main/java/ai/djl/pytorch/jni/LibUtils.java:120-136 | the first pass never loads a deferred library, on CPU and CUDA builds alike |
| NativeLoader.CudnnNotDeferred | engines/pytorch/pytorch-engine/src/main/java/ai/djl/pytorch/jni/LibUtils.java:140-150 | no cuDNN part is a deferred library |
| NativeLoader.EarlyLoadsNotDeferred | engines/pytorch/pytorch-engine/src/main/java/ai/djl/pytorch/jni/LibUtils.java:120-150 | nothing loaded before the deferred loop is a deferred library |
| NativeLoader.DeferredLoadedLast | engines/pytorch/pytorch-engine/src/main/java/ai/djl/pytorch/jni/LibUtils.java:102-169 | dependency order: once a deferred library is loaded, every later load is a deferred library too |
| NativeLoader.DeferredEndsWithTorch | engines/pytorch/pytorch-engine/src/main/java/ai/djl/pytorch/jni/LibUtils.java:109-158 | both deferred lists end with the main library `torch` |
| NativeLoader.TorchLoadedLast | engines/pytorch/pytorch-engine/src/main/java/ai/djl/pytorch/jni/LibUtils.java:160-165 | when the main library exists it is the last library loaded |
| NativeLoader.CpuSkipsCudaRuntime | engines/pytorch/pytorch-engine/src/main/java/ai/djl/pytorch/jni/LibUtils.java:125-130 | a CPU build's first pass under the corrected guard loads no name containing `nvrtc`, `cudart` or `nvTools` |
| NativeLoader.CudaRuntimeNotDeferred | engines/pytorch/pytorch-engine/src/main/java/ai/djl/pytorch/jni/LibUtils.java:109-120 | `libcudart.so` is not one of the Linux deferred libraries |
| NativeLoader.CudaRuntimeEligible | engines/pytorch/pytorch-engine/src/main/java/ai/djl/pytorch/jni/LibUtils.java:131-136 | a regular `libcudart.so` passes every test of the filter except the CUDA runtime guard |
| NativeLoader.AsWrittenKeepsCudaRuntime | engines/pytorch/pytorch-engine/src/main/java/ai/djl/pytorch/jni/LibUtils.java:125-136 | the `&&` guard as written keeps `libcudart.so` on a CPU build |
| NativeLoader.CorrectedSkipsCudaRuntime | engines/pytorch/pytorch-engine/src/main/java/ai/djl/pytorch/jni/LibUtils.java:125-130 | the `||` guard skips `libcudart.so` on a CPU build |
| NativeLoader.AsWrittenLoadsCudaRuntime | engines/pytorch/pytorch-engine/src/main/java/ai/djl/pytorch/jni/LibUtils.java:125-136 | on a CPU build the written filter loads `libcudart.so` and the corrected filter does not |
| NativeLoader.CpuBuildLoadsCudaRuntime | engines/pytorch/pytorch-engine/src/main/java/ai/djl/pytorch/jni/LibUtils.java:122-139 | the load trace of a CPU build on Linux includes a regular `libcudart.so` of its walk |
| NativeLoader.KeptInTrace | engines/pytorch/pytorch-engine/src/main/java/ai/djl/pytorch/jni/LibUtils.java:102-139 | unless the build is skipped (1.8.1 on macOS), every walk entry the written filter keeps is in the load trace |
| NativeFetch.ParentChild | engines/pytorch/pytorch-engine/src/main/java/ai/djl/pytorch/jni/LibUtils.java:195-196 | for a normalized path with a parent, `new File(parent, name)` is the path again |
| NativeFetch.FindLibraryInPath | engines/pytorch/pytorch-engine/src/main/java/ai/djl/pytorch/jni/LibUtils.java:187-205 | the loop gives the first outcome of probing the split path entries in order |
| NativeFetch.SearchFirstHit | engines/pytorch/pytorch-engine/src/main/java/ai/djl/pytorch/jni/LibUtils.java:189-204 | the result is the probe of the first entry that yields anything, every earlier entry yields nothing, and a search that finds nothing found nothing in every entry |
| NativeFetch.SearchFindsLibrary | engines/pytorch/pytorch-engine/src/main/java/ai/djl/pytorch/jni/LibUtils.java:187-205 | a directory found on normalized paths holds the main library as a regular file |
| NativeFetch.FindOverrideLibrary | engines/pytorch/pytorch-engine/src/main/java/ai/djl/pytorch/jni/LibUtils.java:171-185 | the result fails, is absent or holds a library exactly as the override search does, and a found library is built by the first `LibTorch` constructor from the found directory |
| NativeFetch.OverrideEnvFirst | engines/pytorch/pytorch-engine/src/main/java/ai/djl/pytorch/jni/LibUtils.java:171-185 | `PYTORCH_LIBRARY_PATH` decides whenever its search finds something or fails; `java.library.path` is only consulted after it finds nothing |
| NativeFetch.ExtractAllSpec | engines/pytorch/pytorch-engine/src/main/java/ai/djl/pytorch/jni/LibUtils.java:328-334 | extraction succeeds iff every bundled library is on the class path under the prefix, and then library `i` is copied from `<prefix>/<name>` to `<dir>/<name>` |
| NativeFetch.ExtractAllErrStays | engines/pytorch/pytorch-engine/src/main/java/ai/djl/pytorch/jni/LibUtils.java:328-334 | once a resource is missing, later libraries cannot change the outcome |
| NativeFetch.ExtractLibraries | engines/pytorch/pytorch-engine/src/main/java/ai/djl/pytorch/jni/LibUtils.java:328-334 | the loop computes the extraction plan and stops at the first missing resource |
| NativeFetch.CopyNativeLibraryFromClasspath | engines/pytorch/pytorch-engine/src/main/java/ai/djl/pytorch/jni/LibUtils.java:291-345 | the method returns the copy plan: the library and the resources it copies, from the prefix the written `split`/`Integer.parseInt` rule gives |
| NativeFetch.CopyPlanSpec | engines/pytorch/pytorch-engine/src/main/java/ai/djl/pytorch/jni/LibUtils.java:291-345 | the result uses the cache directory of the adjusted flavor; a cache hit copies nothing; a non-matching version fails before anything is copied; each copy comes from the prefix the written `split`/`Integer.parseInt` rule selects, and when that rule throws nothing is copied |
| NativeFetch.CopyPlanRejectsTag | engines/pytorch/pytorch-engine/src/main/java/ai/djl/pytorch/jni/LibUtils.java:306-318 | on a cache miss, a version the pattern accepts with a tag fails with NumberFormatException on `<patch>-<tag>` and nothing is copied |
| NativeDownload.Quote | engines/pytorch/pytorch-engine/src/main/java/ai/djl/pytorch/jni/LibUtils.java:398-408 | text spliced into the CUDA pattern matches itself character by character, except that `.` matches any character |
| NativeDownload.QuoteMatchesItself | engines/pytorch/pytorch-engine/src/main/java/ai/djl/pytorch/jni/LibUtils.java:398-408 | spliced text without `.` matches only itself |
| NativeDownload.FirstFullMatch | engines/pytorch/pytorch-engine/src/main/java/ai/djl/pytorch/jni/LibUtils.java:410-417 | the first manifest line the pattern fully matches, and none when no line matches |
| NativeDownload.ChooseCudaFlavor | engines/pytorch/pytorch-engine/src/main/java/ai/djl/pytorch/jni/LibUtils.java:396-422 | the loop with `break` computes the CUDA flavor choice, and fails as `substring(0, 4)` does on a short flavor |
| NativeDownload.CudaFlavorSpec | engines/pytorch/pytorch-engine/src/main/java/ai/djl/pytorch/jni/LibUtils.java:396-422 | the choice falls back to `cpu<precxx11>` when no line matches; otherwise it is group 1 of the first matching line: the flavor's first four characters, a digit, then the pre-C++11 suffix |
| NativeDownload.FileNameOfLine | engines/pytorch/pytorch-engine/src/main/java/ai/djl/pytorch/jni/LibUtils.java:440 | the file name of `<dirs>/<name>.gz` is `<name>` |
| NativeDownload.Matching | engines/pytorch/pytorch-engine/src/main/java/ai/djl/pytorch/jni/LibUtils.java:436-437 | a line is selected iff it is a manifest line starting with the prefix |
| NativeDownload.ScanSelectsMatching | engines/pytorch/pytorch-engine/src/main/java/ai/djl/pytorch/jni/LibUtils.java:432-447 | when the selection succeeds, exactly the lines under the prefix are downloaded, in manifest order, each from `<link>/<line>` under its file name |
| NativeDownload.ScanOkIff | engines/pytorch/pytorch-engine/src/main/java/ai/djl/pytorch/jni/LibUtils.java:432-447 | the selection succeeds iff every line under the prefix has a file name that can be cut out of it |
| NativeDownload.ScanErrStays | engines/pytorch/pytorch-engine/src/main/java/ai/djl/pytorch/jni/LibUtils.java:436-447 | once a file name cannot be cut out, later lines cannot change the outcome |
| NativeDownload.SelectDownloads | engines/pytorch/pytorch-engine/src/main/java/ai/djl/pytorch/jni/LibUtils.java:432-447 | the loop computes the selection |
| NativeDownload.FetchFlavorSpec | engines/pytorch/pytorch-engine/src/main/java/ai/djl/pytorch/jni/LibUtils.java:432-454 | a fetched build downloads every line under `<flavor>/<classifier>/`, at least one; the fetch succeeds iff there is such a line and every such line has a file name, so a manifest with no such line fails |
| NativeDownload.DownloadFromManifest | engines/pytorch/pytorch-engine/src/main/java/ai/djl/pytorch/jni/LibUtils.java:396-454 | the method computes what happens once the manifest has been read |
| NativeDownload.ReadManifest | engines/pytorch/pytorch-engine/src/main/java/ai/djl/pytorch/jni/LibUtils.java:386-395 | the method computes the version check and the manifest fetch from `<link>/files.txt` |
| NativeDownload.DownloadPyTorch | engines/pytorch/pytorch-engine/src/main/java/ai/djl/pytorch/jni/LibUtils.java:362-462 | the method returns the download plan: the library and the files it downloads |
| NativeDownload.DownloadGate | engines/pytorch/pytorch-engine/src/main/java/ai/djl/pytorch/jni/LibUtils.java:378-389 | a cache hit downloads nothing; a version that does not match fails, whatever the manifest holds |
| NativeDownload.FromManifestChoice | engines/pytorch/pytorch-engine/src/main/java/ai/djl/pytorch/jni/LibUtils.java:396-454 | the final flavor is the requested one, or the CUDA choice for a CUDA flavor; the library lives in that flavor's cache directory; nothing is downloaded iff the second cache check hits |
| NativeDownload.DownloadsBelongToFlavor | engines/pytorch/pytorch-engine/src/main/java/ai/djl/pytorch/jni/LibUtils.java:390-447 | every downloaded file is a manifest line under the final flavor and classifier, fetched from the directory of group 1 of the version |
| NativeDownload.CudaFallback | engines/pytorch/pytorch-engine/src/main/java/ai/djl/pytorch/jni/LibUtils.java:418-429 | an unmatched CUDA flavor falls back to the CPU build with the same suffix, and the cache is checked again under it |
| NativeDownload.FindNativeLibrary | engines/pytorch/pytorch-engine/src/main/java/ai/djl/pytorch/jni/LibUtils.java:269-289 | the method follows the route: download for an overriding version or a placeholder, otherwise extract |
| NativeDownload.ProvisionFollowsRoute | engines/pytorch/pytorch-engine/src/main/java/ai/djl/pytorch/jni/LibUtils.java:269-289 | the build is extracted exactly on the class-path route, and carries the chosen platform's version, API version and classifier |
| SequentialBlocks.FoldAppend | api/src/main/java/ai/djl/nn/SequentialBlock.java:74-82 | running `fs + gs` is running `fs`, then `gs` on its result |
| SequentialBlocks.FeedsAreFolds | api/src/main/java/ai/djl/nn/SequentialBlock.java:89-92 | the child at position `k` receives what the first `k` children computed, the first child the input |
| SequentialBlocks.ForwardAppended | api/src/main/java/ai/djl/nn/SequentialBlock.java:38-83 | appended children run after the existing ones, on their output |
| SequentialBlocks.ForwardClosesIntermediates | api/src/main/java/ai/djl/nn/SequentialBlock.java:72-83 | `forward` closes a list iff some child received it and it is not the caller's input |
| SequentialBlocks.ForwardKeepsOutput | api/src/main/java/ai/djl/nn/SequentialBlock.java:72-83 | the returned list is not closed unless an earlier child returned that same list |
| SequentialBlocks.ChildNameIndex | api/src/main/java/ai/djl/nn/SequentialBlock.java:121-132 | the name of child `i` is `i` in exactly as many digits as the child count has, a `:`, and the class name |
| SequentialBlocks.ChildNamesOrdered | api/src/main/java/ai/djl/nn/SequentialBlock.java:121-132 | child names sort in child order, whatever the class names |
| SequentialBlocks.TwelveChildren | api/src/main/java/ai/djl/nn/SequentialBlock.java:124-128 | twelve children are named `00:…` to `11:…` |
| SequentialBlocks.LoadFailureStays | api/src/main/java/ai/djl/nn/SequentialBlock.java:149-151 | after a child's load fails, the children after it are left as they were |
| SequentialBlocks.LoadChildrenRoundTrip | api/src/main/java/ai/djl/nn/SequentialBlock.java:135-152 | loading what the children saved restores every child and leaves the rest of the stream |
| SequentialBlocks.SaveLoadRoundTrip | api/src/main/java/ai/djl/nn/SequentialBlock.java:135-152 | `loadParameters` of what `saveParameters` wrote succeeds, restores every child and consumes exactly what was written, when each child's load inverts its save |
| SequentialBlocks.LoadChecksVersionFirst | api/src/main/java/ai/djl/nn/SequentialBlock.java:145-148 | a stream with a wrong version byte fails with that version and changes no child |
| SequentialBlocks.LoadEach | api/src/main/java/ai/djl/nn/SequentialBlock.java:149-151 | the loop loads each child in turn from what the previous one left, stopping at the first failure |
| SequentialBlocks.SequentialBlock.constructor | api/src/main/java/ai/djl/nn/SequentialBlock.java:36 | a new block has no children and is not initialized |
| SequentialBlocks.SequentialBlock.Add | api/src/main/java/ai/djl/nn/SequentialBlock.java:50-54 | the block is appended and `initialized` is cleared |
| SequentialBlocks.SequentialBlock.AddAll | api/src/main/java/ai/djl/nn/SequentialBlock.java:38-48 | the blocks are appended in argument order and `initialized` is cleared |
| SequentialBlocks.SequentialBlock.AddFunction | api/src/main/java/ai/djl/nn/SequentialBlock.java:56-60 | the function is appended as a lambda block and `initialized` is cleared |
| SequentialBlocks.SequentialBlock.RemoveLastBlock | api/src/main/java/ai/djl/nn/SequentialBlock.java:62-64 | the last child is removed; an empty block fails with index -1 and is left empty; `initialized` is unchanged |
| SequentialBlocks.SequentialBlock.ReplaceLastBlock | api/src/main/java/ai/djl/nn/SequentialBlock.java:66-69 | only the last slot changes, to the new block; an empty block fails without adding anything |
| SequentialBlocks.SequentialBlock.Forward | api/src/main/java/ai/djl/nn/SequentialBlock.java:72-83 | the output is the children's forward functions run in order; the closed lists are those `ClosedLists` gives |
| SequentialBlocks.SequentialBlock.GetOutputShapes | api/src/main/java/ai/djl/nn/SequentialBlock.java:99-108 | fails iff there are no children; otherwise the children's shape functions run in order |
| SequentialBlocks.SequentialBlock.Initialize | api/src/main/java/ai/djl/nn/SequentialBlock.java:86-96 | only the first call initializes the children, each on what the previous returned; the block is initialized afterwards; the result is `getOutputShapes` of the inputs |
| SequentialBlocks.SequentialBlock.GetChildren | api/src/main/java/ai/djl/nn/SequentialBlock.java:121-132 | one entry per child in order, named by `ChildName` |
| SequentialBlocks.SequentialBlock.SaveParameters | api/src/main/java/ai/djl/nn/SequentialBlock.java:135-140 | appends the version byte, then each child's parameters in order |
| SequentialBlocks.SequentialBlock.LoadParameters | api/src/main/java/ai/djl/nn/SequentialBlock.java:143-152 | result and new children are those of `Loaded`: EOF on an empty stream, a wrong version rejected first, then each child in order; `initialized` is unchanged |
| SequentialBlocks.NoDirectParameters | api/src/main/java/ai/djl/nn/SequentialBlock.java:111-118 | there are no direct parameters, and asking for a parameter shape always fails |

## Left out

- I/O is reduced to outcomes. The model does not write temporary directories or files, does not move them into the cache (`moveQuietly`), does not delete them afterwards, and does not delete a stale cache directory before copying (`Utils.deleteQuietly(dir)` in `copyNativeLibraryFromClasspath`). Copying and downloading are returned as plans (`Extraction`, `Download`).
- Per-file I/O failures are left out. A failed read of a bundled resource or a failed download of one file is not modelled. A manifest fetch failure is modelled (`DownloadFailed`). A missing class-path resource is modelled (`MissingResource`).
- `URLDecoder.decode` of downloaded file names is not modelled; the name is the cut-out line segment.
- A walk failure is `FolderNotExist`, the IOException thrown when `Files.walk` opens the directory. A failure later in the lazy traversal raises UncheckedIOException, which the code does not catch; that failure is not modelled.
- `System.load`, and the `native_helper` reflection in `loadNativeLibrary`, are not modelled; a load always succeeds and is recorded in the trace.
- The Android shortcut of `loadLibrary` is not modelled, nor the composition in `loadLibrary` and `getLibTorch`, nor the static `libTorch` field. The parts they call are each modelled.
- `getLibtorchPath` is not modelled.
- `Platform.detectPlatform`, `CudaUtils.getGpuCount` and `CudaUtils.getCudaVersionString` are inputs. So are `Utils.getEngineCacheDir`, the `os.name` test (the `Os` value) and `File.pathSeparator` (`sep`).
- Paths are strings joined with `/`. `toAbsolutePath` is the identity. `java.io.File` normalisation is assumed, not performed (`Normalized`).
- The CUDA pattern is modelled for the `.` metacharacter only. Other regular-expression metacharacters in the flavor, the classifier or the suffix are taken literally. `CudaFlavorSpec` also requires that no `.` appears in the first four characters of the flavor or in the suffix.
- `downloadJniLib` is modelled only as the URL it fetches (`JniDownload`).
- `findJniLibrary` does not model the IOException while reading the properties file or while copying.
- `ResourcePrefixRule`: states the rule only for minor and patch numbers within 32 bits. Above that, `Integer.parseInt` throws, which `ResourcePrefix` models but the lemma does not state.
- `Strings.ParseInt`: only ASCII digits are accepted; `Integer.parseInt` also accepts other Unicode digits.
- `Strings.DigitCount`: models `(int) Math.log10(n) + 1` as the exact decimal digit count, with no floating-point rounding. For zero children the format is never used.
- `SequentialBlocks.SequentialBlock.Initialize`: `beforeInitialize`, the `NDManager` and the `DataType` are left out. A child's `initialize` is a function of the shapes it receives, so its own side effects on the child are not modelled. The shapes each child received are returned as `inits`.
- `SequentialBlocks.SequentialBlock.Forward`: the `ParameterStore` and the `params` argument are left out. A child's forward is a function on lists. Closing a list is returned as the sequence `closed`. List identity (`!=` on references) is the `id` field.
- `SequentialBlocks.SequentialBlock.LoadParameters`: children are values, not shared objects. Loading replaces a child's `params` in the list, so aliasing of one child block in several places is not captured. A child's exception is `ChildLoadFailed` with its position, not the child's own exception.
- The `LambdaBlock` constructor is a parameter of `AddFunction`.
- `getChildren` returns a `BlockList`; the model returns a sequence of name/block pairs.

## Findings

| source | as written | input that shows it | evidently intended | confidence | as-written member | corrected member |
|---|---|---|---|---|---|---|
| engines/pytorch/pytorch-engine/src/main/java/ai/djl/pytorch/jni/LibUtils.java:316-318 | group 1 of the version, tag included, is split on `.` and its third piece goes to `Integer.parseInt` | platform version `1.10.2-xyz`: the pattern accepts it (tag `xyz`), the third piece is `2-xyz`, and NumberFormatException is thrown | read the minor and patch numbers alone (the pattern's own digit groups), so a tagged 1.10.2 build gets the `pytorch/<flavor>/<classifier>` prefix | high (not executed) | LibUtils.ResourcePrefixAsWritten, used by NativeFetch.CopyPlan and shown by LibUtils.TaggedExampleAsWritten, LibUtils.AsWrittenRejectsTag and NativeFetch.CopyPlanRejectsTag | LibUtils.ResourcePrefix, with LibUtils.ResourcePrefixRule and LibUtils.TaggedExampleCorrected |
| engines/pytorch/pytorch-engine/src/main/java/ai/djl/pytorch/jni/LibUtils.java:125-130 | the guard that keeps a CPU build from loading CUDA runtime libraries joins its three name tests with `&&`, so only a name containing `nvrtc`, `cudart` and `nvTools` at once is skipped | a CPU build whose directory holds a regular `libcudart.so` on Linux: the first pass loads it | skip any name containing one of the three (`\|\|`) | medium (not executed) | NativeLoader.KeepsAsWritten, run by NativeLoader.LoadFirstPass and shown by NativeLoader.AsWrittenLoadsCudaRuntime and NativeLoader.CpuBuildLoadsCudaRuntime | NativeLoader.Keeps, the first pass under the `Corrected` guard, with NativeLoader.CpuSkipsCudaRuntime and NativeLoader.CorrectedSkipsCudaRuntime |
