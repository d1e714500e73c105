# Annotated-class discovery, modelled in Dafny

The repository's `AnnotationUtils` finds every class in a package (and,
if asked, its sub-packages) whose class file carries a given annotation,
and returns the loaded classes as a set. It does this in two steps:

- It builds a classpath resource glob from the package name. The glob is the
  resolver's "all classpath roots" prefix, then the package with dots turned
  into the file separator, then `/`, then `**/` when sub-packages are
  included, then `*.class`.
- It walks the class-file resources the resolver enumerates for that glob.
  Unreadable resources are skipped. The metadata of each readable resource is
  read, and those that list the annotation are resolved through the context
  class loader into a set. Nothing is caught: a failing enumeration, a failing
  metadata read or a class the loader cannot resolve aborts the whole call.

The Dafny project models both steps and the three convenience overloads:

- `results.dfy` (`Results`): `Option` and `Result`.
- `scan_pattern.dfy` (`ScanPattern`): the pattern builder. The builder takes a
  `Platform` value carrying the two constants that come from outside the
  repository: the resolver's all-roots URL prefix and the host separator
  character. It also has a decoder that recovers the package and flag from a
  pattern, with round trips proved in both directions.
- `discovery.dfy` (`Discovery`): the filtering loop as a left-to-right fold
  `Scan`. `Scan(resources[..i], …)` is the loop's state after `i` iterations.
  A resource is a readable flag plus its metadata (class name and annotation
  names), or `None` when the class file cannot be read. The class loader is a
  function from class name to an optional handle of an arbitrary type `H`.
- `annotation_utils.dfy` (`AnnotationUtils`): the full call
  `FindAnnotatedClasses`, with the enumerator and loader passed in an
  `Environment`, and the three overloads.
- `scenarios.dfy` (`Scenarios`): two worked examples on a small plug-in package.

What the code does and does not check:

- The code never checks that a returned class's name lies inside the scanned
  package. Which classes are found depends entirely on what the enumerator
  yields for the glob, so the model proves nothing about class-name prefixes.
- The method declares `throws Exception` and lets each collaborator's
  exception propagate. The model records only which step failed:
  `EnumerationFailed`, `MetadataReadFailed` or `ClassResolveFailed(name)`. In
  each case the whole call fails and no partial set is returned, as in the
  code.
- The builder does not validate the package name. An empty name or a name
  with odd characters still yields a pattern. The decoder round trip is stated
  only for dot-form names: no separator character, no `/` and no `*`.

## Model

| member | source | states |
|---|---|---|
| ScanPattern.ReplaceChar | src/main/java/com/abiquo/taskservice/utils/AnnotationUtils.java:132 | the package rendering keeps the length, turns every `.` into the separator and leaves every other character as it was |
| ScanPattern.BuildScanPattern | src/main/java/com/abiquo/taskservice/utils/AnnotationUtils.java:126-141 | the pattern starts with the all-roots prefix, then has the package with each dot replaced by the separator, then `/`, then `**/*.class` when sub-packages are included and `*.class` otherwise; it always ends in `*.class`; its length is fixed by the inputs; when the separator is not a dot, the package part has no dot |
| ScanPattern.AnyDepthInsertedBeforeGlob | src/main/java/com/abiquo/taskservice/utils/AnnotationUtils.java:133-138 | the sub-package pattern is the one-level pattern with `**/` inserted just before `*.class` |
| ScanPattern.DecodeBuildRoundTrip | src/main/java/com/abiquo/taskservice/utils/AnnotationUtils.java:126-141 | for a dot-form package name, the built pattern determines both the package name and the recursion flag: decoding it gives them back |
| ScanPattern.BuildDecodeRoundTrip | src/main/java/com/abiquo/taskservice/utils/AnnotationUtils.java:126-141 | every pattern the decoder accepts is exactly the pattern the builder produces for the decoded package and flag |
| Discovery.Scan | src/main/java/com/abiquo/taskservice/utils/AnnotationUtils.java:98-116 | the loop succeeds exactly when no readable resource has unreadable metadata or an annotated class the loader cannot resolve; on success the set is the loader's handles for the class names of the readable annotated resources; on failure the error is the one raised by the first offending resource |
| Discovery.ScanIgnoresUnreadable | src/main/java/com/abiquo/taskservice/utils/AnnotationUtils.java:100-102 | the loop's outcome, error included, equals its outcome on the readable resources alone |
| Discovery.UnreadableResourceIsSkipped | src/main/java/com/abiquo/taskservice/utils/AnnotationUtils.java:102 | inserting an unreadable resource anywhere in the enumeration changes neither the set nor whether or how the call fails, whatever that resource's metadata |
| Discovery.ScanDependsOnlyOnElements | src/main/java/com/abiquo/taskservice/utils/AnnotationUtils.java:98-114 | whether the loop succeeds, and the set it returns, depend only on which resources were enumerated, not on their order or repetition |
| Discovery.ScanIgnoresOrder | src/main/java/com/abiquo/taskservice/utils/AnnotationUtils.java:98-114 | a permutation of the enumerated resources gives the same success and the same set |
| Discovery.SameClassNameCollapses | src/main/java/com/abiquo/taskservice/utils/AnnotationUtils.java:108-111 | a further annotated resource naming a class already found, such as the same class on a second classpath root, leaves the outcome unchanged |
| AnnotationUtils.FindAnnotatedClasses | src/main/java/com/abiquo/taskservice/utils/AnnotationUtils.java:89-117 | a failed enumeration of the built pattern fails the call; otherwise the call succeeds exactly when no enumerated resource aborts the loop; on success every returned handle resolves some readable annotated resource (soundness) and every readable annotated resource's class is in the set (completeness); a failure names the first offending resource, so unreadable resources never cause one |
| AnnotationUtils.ResolvedAnnotatedClasses | src/main/java/com/abiquo/taskservice/utils/AnnotationUtils.java:100-111 | when nothing aborts, the resolved set holds exactly the handles of the readable annotated resources |
| AnnotationUtils.ShallowExcludesSubpackages | src/main/java/com/abiquo/taskservice/utils/AnnotationUtils.java:57-62 | `FindAnnotatedClassesShallow`, the overload taking a package name and no flag, behaves as the full call with the flag false |
| AnnotationUtils.PackageReducesToName | src/main/java/com/abiquo/taskservice/utils/AnnotationUtils.java:73-78 | `FindAnnotatedClassesOf`, the overload taking a package and a flag, behaves as the full call on the package's name |
| AnnotationUtils.ShallowPackageReducesToName | src/main/java/com/abiquo/taskservice/utils/AnnotationUtils.java:40-45 | `FindAnnotatedClassesOfShallow`, the overload taking a package and no flag, behaves as the name overload on the package's name, and as the package overload with the flag false |
| Scenarios.PluginPackageScan | src/main/java/com/abiquo/taskservice/utils/AnnotationUtils.java:100-114 | Alpha, Beta, an unreadable resource, Gamma and Alpha again yield exactly the two annotated classes, each once |
| Scenarios.StaleClassAborts | src/main/java/com/abiquo/taskservice/utils/AnnotationUtils.java:106-110 | an annotated class the loader cannot resolve aborts the walk with its class name, and no partial set is returned |

## Left out

- Classpath enumeration (`PathMatchingResourcePatternResolver.getResources`, line 95) is file-system and archive I/O inside Spring. It is the `getResources` parameter of the `Environment`, which maps a pattern to a resource sequence or to a failure.
- Class-file parsing (`SimpleMetadataReaderFactory` and `AnnotationMetadata`, lines 97 and 104-106) is bytecode reading inside Spring. It is represented by the metadata stored in each resource, or `None` when the read fails.
- `ClassUtils.forName` with the thread's context class loader (lines 109-110) involves reflection, static initialisers and thread-local state. It is the `forName` parameter, a function from class name to an optional handle. Handle equality stands for the identity of `Class` objects in the `HashSet`.
- The literal value of `ResourcePatternResolver.CLASSPATH_ALL_URL_PREFIX` and the platform's `File.separatorChar` come from outside the repository. They are fields of `Platform`.
- Null arguments are not modelled, nor the NullPointerExceptions they cause. A null package name fails at line 132 and a null `Package` at line 44 or 77. A null annotation type fails only once line 106 is reached, so with no readable resource the call still returns an empty set. The Dafny types rule out all three cases.
- The concrete exception types thrown by the collaborators are not modelled. Only the step that failed is recorded.
- An annotation type is reduced to its `getName()` string. A package is reduced to its `getName()` string.
- Glob matching is not modelled: which files a pattern selects, and hence how one-level and any-depth patterns relate. So the model says nothing about whether the recursive result contains the one-level result, nor about prefix packages or the class-name layout of results.
- Repeated calls are not modelled as giving equal results. The model's functions are deterministic, but the real call sees whatever classpath and loader exist at the time.
