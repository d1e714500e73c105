/**
 * The public discovery call and its three convenience overloads: build
 * the scan pattern for the package, ask the classpath enumerator for the
 * matching class-file resources, and run the filtering walk over them.
 */
module AnnotationUtils {
  import opened Results
  import opened ScanPattern
  import opened Discovery

  /** An annotation type, known to the walk only by its fully qualified name. */
  datatype AnnotationType = AnnotationType(name: string)

  /** A package, known to the call only by its dot-form name. */
  datatype Package = Package(name: string)

  /**
   * The collaborators the call reaches outside this repository: the
   * platform constants, the classpath enumerator (None when resolving the
   * pattern fails) and the context class loader.
   */
  datatype Environment<H> = Environment(
    platform: Platform,
    getResources: string -> Option<seq<Resource>>,
    forName: ClassLoader<H>)

  /** The pattern the call asks the enumerator for. */
  function PatternFor<H>(env: Environment<H>, scanPackageName: string, includeSubpackages: bool): string
  {
    BuildScanPattern(env.platform, scanPackageName, includeSubpackages)
  }

  /**
   * All classes in the package, and in its sub-packages when asked, whose
   * class files carry the annotation. The call fails when enumeration
   * fails; otherwise it succeeds exactly when no readable resource has
   * unreadable metadata or an annotated class the loader cannot resolve,
   * and then every returned handle is the resolution of an annotated
   * readable resource and every annotated readable resource is resolved
   * into the set. A failure names the first offending resource.
   */
  function FindAnnotatedClasses<H(==)>(env: Environment<H>, annotationType: AnnotationType, scanPackageName: string, includeSubpackages: bool): (r: Result<set<H>, Failure>)
    ensures env.getResources(PatternFor(env, scanPackageName, includeSubpackages)).None? ==> r == Err(EnumerationFailed)
    ensures var found := env.getResources(PatternFor(env, scanPackageName, includeSubpackages));
      r.Ok? <==> found.Some? && NoneAborts(found.value, annotationType.name, env.forName)
    ensures var found := env.getResources(PatternFor(env, scanPackageName, includeSubpackages));
      found.Some? && r.Ok? ==>
        var resources := found.value;
        forall h | h in r.value ::
          exists i | 0 <= i < |resources| ::
            IsAnnotated(resources[i], annotationType.name)
            && env.forName(resources[i].metadata.value.className) == Some(h)
    ensures var found := env.getResources(PatternFor(env, scanPackageName, includeSubpackages));
      found.Some? && r.Ok? ==>
        var resources := found.value;
        forall i | 0 <= i < |resources| && IsAnnotated(resources[i], annotationType.name) ::
          && env.forName(resources[i].metadata.value.className).Some?
          && env.forName(resources[i].metadata.value.className).value in r.value
    ensures var found := env.getResources(PatternFor(env, scanPackageName, includeSubpackages));
      found.Some? && r.Err? ==>
        exists i :: IsFirstAbort(found.value, i, annotationType.name, env.forName)
                    && r.error == AbortReason(found.value[i], annotationType.name, env.forName)
  {
    match env.getResources(PatternFor(env, scanPackageName, includeSubpackages))
    case None => Err(EnumerationFailed)
    case Some(resources) =>
      var r := Scan(resources, annotationType.name, env.forName);
      if r.Ok? then
        ResolvedAnnotatedClasses(resources, annotationType.name, env.forName);
        r
      else r
  }

  /**
   * When no resource aborts, the resolved set holds exactly the handles of
   * the annotated readable resources.
   */
  lemma ResolvedAnnotatedClasses<H>(resources: seq<Resource>, annotationName: string, forName: ClassLoader<H>)
    requires NoneAborts(resources, annotationName, forName)
    ensures var classes := Resolve(AnnotatedClassNames(resources, annotationName), forName);
      && (forall h | h in classes ::
            exists i | 0 <= i < |resources| ::
              IsAnnotated(resources[i], annotationName) && forName(resources[i].metadata.value.className) == Some(h))
      && (forall i | 0 <= i < |resources| && IsAnnotated(resources[i], annotationName) ::
            && forName(resources[i].metadata.value.className).Some?
            && forName(resources[i].metadata.value.className).value in classes)
  {
  }

  /** The two-argument overload taking a package name; it never scans sub-packages. */
  function FindAnnotatedClassesShallow<H(==)>(env: Environment<H>, annotationType: AnnotationType, scanPackageName: string): Result<set<H>, Failure>
  {
    FindAnnotatedClasses(env, annotationType, scanPackageName, false)
  }

  /** The three-argument overload taking a package. */
  function FindAnnotatedClassesOf<H(==)>(env: Environment<H>, annotationType: AnnotationType, scanPackage: Package, includeSubpackages: bool): Result<set<H>, Failure>
  {
    FindAnnotatedClasses(env, annotationType, scanPackage.name, includeSubpackages)
  }

  /** The two-argument overload taking a package; it never scans sub-packages. */
  function FindAnnotatedClassesOfShallow<H(==)>(env: Environment<H>, annotationType: AnnotationType, scanPackage: Package): Result<set<H>, Failure>
  {
    FindAnnotatedClasses(env, annotationType, scanPackage.name, false)
  }

  /** Without a flag, a package name is scanned as by the full call with sub-packages excluded. */
  lemma ShallowExcludesSubpackages<H>(env: Environment<H>, annotationType: AnnotationType, scanPackageName: string)
    ensures FindAnnotatedClassesShallow(env, annotationType, scanPackageName)
            == FindAnnotatedClasses(env, annotationType, scanPackageName, false)
  {
  }

  /** A package is scanned as its name is, with the same flag. */
  lemma PackageReducesToName<H>(env: Environment<H>, annotationType: AnnotationType, scanPackage: Package, includeSubpackages: bool)
    ensures FindAnnotatedClassesOf(env, annotationType, scanPackage, includeSubpackages)
            == FindAnnotatedClasses(env, annotationType, scanPackage.name, includeSubpackages)
  {
  }

  /** Without a flag, a package is scanned as its name is by the shallow overload. */
  lemma ShallowPackageReducesToName<H>(env: Environment<H>, annotationType: AnnotationType, scanPackage: Package)
    ensures FindAnnotatedClassesOfShallow(env, annotationType, scanPackage)
            == FindAnnotatedClassesShallow(env, annotationType, scanPackage.name)
    ensures FindAnnotatedClassesOfShallow(env, annotationType, scanPackage)
            == FindAnnotatedClassesOf(env, annotationType, scanPackage, false)
  {
  }
}
