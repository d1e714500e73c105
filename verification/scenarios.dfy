/**
 * Worked examples of the discovery walk on a small plug-in package: three
 * classes of which two carry the plug-in annotation, an unreadable
 * resource, the same class file reached from a second classpath root, and
 * a stale class file whose class the loader no longer knows.
 */
module Scenarios {
  import opened Results
  import opened Discovery

  const Plugin: string := "com.example.Plugin"
  const AlphaName: string := "com.example.plugins.Alpha"
  const GammaName: string := "com.example.plugins.Gamma"
  const StaleName: string := "com.example.plugins.Stale"

  const Alpha: Resource := Resource(true, Some(ClassMetadata(AlphaName, {Plugin})))
  const Beta: Resource := Resource(true, Some(ClassMetadata("com.example.plugins.Beta", {})))
  const Gamma: Resource := Resource(true, Some(ClassMetadata(GammaName, {Plugin})))
  const Hidden: Resource := Resource(false, None)
  const Stale: Resource := Resource(true, Some(ClassMetadata(StaleName, {Plugin})))

  /** A loader that knows every class except the stale one; a handle is the class name. */
  function Loader(className: string): Option<string>
  {
    if className == StaleName then None else Some(className)
  }

  /**
   * Alpha, Beta, an unreadable resource, Gamma and Alpha again from a
   * second root: the two annotated classes, each once.
   */
  lemma PluginPackageScan()
    ensures Scan([Alpha, Beta, Hidden, Gamma, Alpha], Plugin, Loader) == Ok({AlphaName, GammaName})
  {
    var rs := [Alpha, Beta, Hidden, Gamma, Alpha];
    var f: ClassLoader<string> := Loader;
    var none: set<string> := {};
    assert AlphaName != StaleName by { assert AlphaName[20] != StaleName[20]; }
    assert GammaName != StaleName by { assert GammaName[20] != StaleName[20]; }
    assert Visit(Alpha, Plugin, f, none) == Ok(none + {AlphaName});
    assert rs[..1][..0] == [];
    assert Scan(rs[..1][..0], Plugin, f) == Ok(none);
    assert rs[..1][0] == Alpha;
    assert Scan(rs[..1], Plugin, f) == Visit(Alpha, Plugin, f, none);
    assert none + {AlphaName} == {AlphaName};
    assert Scan(rs[..1], Plugin, f) == Ok({AlphaName});
    assert rs[..2][..1] == rs[..1];
    assert rs[..3][..2] == rs[..2];
    assert Scan(rs[..3], Plugin, f) == Ok({AlphaName});
    assert rs[..4][..3] == rs[..3];
    assert rs[..4][3] == Gamma;
    var one: set<string> := {AlphaName};
    var two: set<string> := {AlphaName, GammaName};
    assert Scan(rs[..4], Plugin, f) == Visit(Gamma, Plugin, f, one);
    assert Visit(Gamma, Plugin, f, one) == Ok(one + {GammaName});
    assert one + {GammaName} == two;
    assert Scan(rs[..4], Plugin, f) == Ok(two);
    assert rs[..4] == rs[..|rs| - 1];
    assert Scan(rs, Plugin, f) == Visit(Alpha, Plugin, f, two);
    assert Visit(Alpha, Plugin, f, two) == Ok(two + {AlphaName});
    assert two + {AlphaName} == two;
  }

  /** A stale annotated class file aborts the walk with its class name; no partial set is returned. */
  lemma StaleClassAborts()
    ensures Scan([Alpha, Stale, Gamma], Plugin, Loader) == Err(ClassResolveFailed(StaleName))
  {
  }
}
