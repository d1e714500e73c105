/**
 * The resource glob that the discovery call hands to the classpath
 * enumerator: a classpath-wide prefix, the package rendered as a path,
 * then a glob matching class files either one directory level deep or at
 * any depth below the package.
 */
module ScanPattern {
  import opened Results

  /**
   * The two values the pattern depends on that come from outside the
   * repository: the resolver's "search every classpath root" URL prefix
   * and the host file system's separator character.
   */
  datatype Platform = Platform(classpathAllUrlPrefix: string, separatorChar: char)

  /** The path separator appended after the package, whatever the platform. */
  const PathSeparator: char := '/'

  /** The segment that matches zero or more intermediate directories. */
  const AnyDepthSegment: string := "**/"

  /** The file-name glob matching every class file. */
  const ClassFileGlob: string := "*.class"

  /** The package and recursion flag a pattern was built from. */
  datatype ScanRequest = ScanRequest(packageName: string, includeSubpackages: bool)

  /** `s` with every occurrence of `from` replaced by `to`, as Java's `String.replace(char, char)`. */
  function ReplaceChar(s: string, from: char, to: char): (r: string)
    ensures |r| == |s|
    ensures forall i | 0 <= i < |s| :: r[i] == (if s[i] == from then to else s[i])
  {
    if |s| == 0 then ""
    else [if s[0] == from then to else s[0]] + ReplaceChar(s[1..], from, to)
  }

  /** Replacing `from` by `to` and back is the identity when `to` did not occur. */
  lemma ReplaceCharRoundTrip(s: string, from: char, to: char)
    requires forall i | 0 <= i < |s| :: s[i] != to
    ensures ReplaceChar(ReplaceChar(s, from, to), to, from) == s
  {
  }

  /**
   * The scan pattern for a dot-form package name. The result starts with
   * the classpath-wide prefix, continues with the package where each `.`
   * has become the separator and every other character is kept, then `/`,
   * then the any-depth segment exactly when sub-packages are included, and
   * ends in the class-file glob.
   */
  function BuildScanPattern(platform: Platform, scanPackageName: string, includeSubpackages: bool): (r: string)
    ensures var p := |platform.classpathAllUrlPrefix|;
      var n := |scanPackageName|;
      && |r| == p + n + 1 + (if includeSubpackages then |AnyDepthSegment| else 0) + |ClassFileGlob|
      && r[..p] == platform.classpathAllUrlPrefix
      && (forall i | 0 <= i < n ::
            r[p + i] == (if scanPackageName[i] == '.' then platform.separatorChar else scanPackageName[i]))
      && r[p + n] == PathSeparator
      && r[p + n + 1..] == (if includeSubpackages then AnyDepthSegment + ClassFileGlob else ClassFileGlob)
    ensures r[|r| - |ClassFileGlob|..] == ClassFileGlob
    ensures platform.separatorChar != '.' ==>
      !HasDot(r[|platform.classpathAllUrlPrefix|..|platform.classpathAllUrlPrefix| + |scanPackageName|])
  {
    var segment := ReplaceChar(scanPackageName, '.', platform.separatorChar);
    var r := platform.classpathAllUrlPrefix + PackagePath(segment, includeSubpackages) + ClassFileGlob;
    assert r[|platform.classpathAllUrlPrefix|..|platform.classpathAllUrlPrefix| + |segment|] == segment;
    assert r[|platform.classpathAllUrlPrefix| + |segment|..] == [PathSeparator] + (if includeSubpackages then AnyDepthSegment else "") + ClassFileGlob;
    r
  }

  /** The recursive pattern is the one-level pattern with the any-depth segment inserted just before the class-file glob. */
  lemma AnyDepthInsertedBeforeGlob(platform: Platform, scanPackageName: string)
    ensures var shallow := BuildScanPattern(platform, scanPackageName, false);
      && |shallow| >= |ClassFileGlob|
      && BuildScanPattern(platform, scanPackageName, true)
         == shallow[..|shallow| - |ClassFileGlob|] + AnyDepthSegment + ClassFileGlob
  {
  }

  /**
   * A dot-form package name as the pattern expects it: it holds no path
   * separator and no glob character, so the rendered pattern cannot be
   * mistaken for another package or recursion flag.
   */
  predicate IsDotForm(platform: Platform, scanPackageName: string)
  {
    forall i | 0 <= i < |scanPackageName| ::
      scanPackageName[i] != platform.separatorChar && scanPackageName[i] != PathSeparator && scanPackageName[i] != '*'
  }

  /** True when some character of `s` is a dot. */
  predicate HasDot(s: string)
  {
    exists i | 0 <= i < |s| :: s[i] == '.'
  }

  /** The path part of a pattern: the rendered package, `/`, and the any-depth segment when present. */
  function PackagePath(segment: string, includeSubpackages: bool): string
  {
    segment + [PathSeparator] + (if includeSubpackages then AnyDepthSegment else "")
  }

  /**
   * Splits a path part that ends in `/` into the rendered package and the
   * recursion flag; the flag is set when the path ends in the any-depth segment.
   */
  function SplitPackagePath(path: string): (string, bool)
    requires |path| > 0 && path[|path| - 1] == PathSeparator
  {
    if |path| >= 4 && path[|path| - 4..] == [PathSeparator] + AnyDepthSegment
    then (path[..|path| - 4], true)
    else (path[..|path| - 1], false)
  }

  /** Joining what a path part splits into gives the path part back. */
  lemma SplitPackagePathJoins(path: string)
    requires |path| > 0 && path[|path| - 1] == PathSeparator
    ensures var (segment, includeSubpackages) := SplitPackagePath(path);
      PackagePath(segment, includeSubpackages) == path
  {
  }

  /** The pattern has the prefix, ends in the class-file glob, and has a `/` just before it. */
  predicate IsFramed(platform: Platform, pattern: string)
  {
    var p := |platform.classpathAllUrlPrefix|;
    && |pattern| >= p + 1 + |ClassFileGlob|
    && pattern[..p] == platform.classpathAllUrlPrefix
    && pattern[|pattern| - |ClassFileGlob|..] == ClassFileGlob
    && pattern[|pattern| - |ClassFileGlob| - 1] == PathSeparator
  }

  /** The path part of a framed pattern: what lies between the prefix and the class-file glob. */
  function PathOf(platform: Platform, pattern: string): (path: string)
    requires IsFramed(platform, pattern)
    ensures |path| > 0 && path[|path| - 1] == PathSeparator
  {
    pattern[|platform.classpathAllUrlPrefix|..|pattern| - |ClassFileGlob|]
  }

  /** A framed pattern is its prefix, its path part and the class-file glob. */
  lemma FramedJoins(platform: Platform, pattern: string)
    requires IsFramed(platform, pattern)
    ensures pattern == platform.classpathAllUrlPrefix + PathOf(platform, pattern) + ClassFileGlob
  {
  }

  /**
   * Recovers the package name and recursion flag from a scan pattern, or
   * None when the text is not a pattern this platform would build.
   */
  function DecodeScanPattern(platform: Platform, pattern: string): (r: Option<ScanRequest>)
  {
    if !IsFramed(platform, pattern) then None
    else
      var (segment, includeSubpackages) := SplitPackagePath(PathOf(platform, pattern));
      if HasDot(segment) then None
      else Some(ScanRequest(ReplaceChar(segment, platform.separatorChar, '.'), includeSubpackages))
  }

  /** A built pattern is the prefix, the path part and the class-file glob. */
  lemma BuildScanPatternParts(platform: Platform, scanPackageName: string, includeSubpackages: bool)
    ensures BuildScanPattern(platform, scanPackageName, includeSubpackages)
      == platform.classpathAllUrlPrefix
         + PackagePath(ReplaceChar(scanPackageName, '.', platform.separatorChar), includeSubpackages)
         + ClassFileGlob
  {
  }

  /**
   * A path part splits back into its segment and flag, provided the segment
   * does not itself end like the any-depth segment.
   */
  lemma SplitPackagePathOf(segment: string, includeSubpackages: bool)
    requires |segment| >= 3 ==> !(segment[|segment| - 3] == PathSeparator && segment[|segment| - 2] == '*')
    ensures SplitPackagePath(PackagePath(segment, includeSubpackages)) == (segment, includeSubpackages)
  {
    var path := PackagePath(segment, includeSubpackages);
    var n := |segment|;
    if includeSubpackages {
      assert path[..|path| - 4] == segment;
      assert path[|path| - 4..] == [PathSeparator] + AnyDepthSegment;
    } else {
      assert path == segment + [PathSeparator];
      assert path[..|path| - 1] == segment;
      if |path| >= 4 {
        assert path[|path| - 4..][0] == path[|path| - 4] == segment[n - 3];
        assert path[|path| - 4..][1] == path[|path| - 3] == segment[n - 2];
      }
    }
  }

  /** A rendered dot-form package never ends in a separator followed by a glob character. */
  lemma RenderedEndsWithoutAnyDepth(platform: Platform, scanPackageName: string)
    requires IsDotForm(platform, scanPackageName)
    ensures var segment := ReplaceChar(scanPackageName, '.', platform.separatorChar);
      |segment| >= 3 ==> !(segment[|segment| - 3] == PathSeparator && segment[|segment| - 2] == '*')
  {
  }

  /** Framing a path part that ends in `/` gives a framed pattern whose path part is that path. */
  lemma FrameThenPathOf(platform: Platform, path: string)
    requires |path| > 0 && path[|path| - 1] == PathSeparator
    ensures IsFramed(platform, platform.classpathAllUrlPrefix + path + ClassFileGlob)
    ensures PathOf(platform, platform.classpathAllUrlPrefix + path + ClassFileGlob) == path
  {
  }

  /** A pattern assembled from a dot-free segment that does not end like the any-depth segment decodes to that segment and flag. */
  lemma DecodeAssembled(platform: Platform, segment: string, includeSubpackages: bool)
    requires !HasDot(segment)
    requires |segment| >= 3 ==> !(segment[|segment| - 3] == PathSeparator && segment[|segment| - 2] == '*')
    ensures DecodeScanPattern(platform, platform.classpathAllUrlPrefix + PackagePath(segment, includeSubpackages) + ClassFileGlob)
            == Some(ScanRequest(ReplaceChar(segment, platform.separatorChar, '.'), includeSubpackages))
  {
    var path := PackagePath(segment, includeSubpackages);
    FrameThenPathOf(platform, path);
    SplitPackagePathOf(segment, includeSubpackages);
  }

  /** Decoding the pattern built for a dot-form package gives back that package and flag. */
  lemma DecodeBuildRoundTrip(platform: Platform, scanPackageName: string, includeSubpackages: bool)
    requires platform.separatorChar != '.'
    requires IsDotForm(platform, scanPackageName)
    ensures DecodeScanPattern(platform, BuildScanPattern(platform, scanPackageName, includeSubpackages))
            == Some(ScanRequest(scanPackageName, includeSubpackages))
  {
    var segment := ReplaceChar(scanPackageName, '.', platform.separatorChar);
    BuildScanPatternParts(platform, scanPackageName, includeSubpackages);
    RenderedEndsWithoutAnyDepth(platform, scanPackageName);
    assert !HasDot(segment);
    DecodeAssembled(platform, segment, includeSubpackages);
    ReplaceCharRoundTrip(scanPackageName, '.', platform.separatorChar);
  }

  /** Building the pattern for what a pattern decodes to reproduces that pattern. */
  lemma BuildDecodeRoundTrip(platform: Platform, pattern: string)
    requires platform.separatorChar != '.'
    requires DecodeScanPattern(platform, pattern).Some?
    ensures var request := DecodeScanPattern(platform, pattern).value;
      BuildScanPattern(platform, request.packageName, request.includeSubpackages) == pattern
  {
    var path := PathOf(platform, pattern);
    var (segment, includeSubpackages) := SplitPackagePath(path);
    var request := DecodeScanPattern(platform, pattern).value;
    assert request == ScanRequest(ReplaceChar(segment, platform.separatorChar, '.'), includeSubpackages);
    SplitPackagePathJoins(path);
    FramedJoins(platform, pattern);
    ReplaceCharRoundTrip(segment, platform.separatorChar, '.');
    BuildScanPatternParts(platform, request.packageName, includeSubpackages);
  }
}
