/**
 * The filtering loop of the discovery call: walk the enumerated class-file
 * resources in order, skip the unreadable ones, keep those whose metadata
 * carries the requested annotation, resolve each kept class name through
 * the class loader and collect the handles in a set. A metadata read that
 * fails or a class name the loader cannot resolve aborts the whole walk.
 */
module Discovery {
  import opened Results

  /** What the class-file metadata reader reports for one class file. */
  datatype ClassMetadata = ClassMetadata(className: string, annotationTypes: set<string>)

  /**
   * One enumerated class-file resource: whether it reports itself readable,
   * and its metadata, or None when reading the class file fails.
   */
  datatype Resource = Resource(readable: bool, metadata: Option<ClassMetadata>)

  /** Why a discovery call aborts. */
  datatype Failure =
    | EnumerationFailed
    | MetadataReadFailed
    | ClassResolveFailed(className: string)

  /** The context class loader: a class name resolves to a handle, or fails. */
  type ClassLoader<H> = string -> Option<H>

  /** The resource is readable and its metadata lists the annotation. */
  predicate IsAnnotated(r: Resource, annotationName: string)
  {
    r.readable && r.metadata.Some? && annotationName in r.metadata.value.annotationTypes
  }

  /** Visiting the resource aborts the walk: its metadata cannot be read, or it is annotated and its class does not resolve. */
  predicate Aborts<H>(r: Resource, annotationName: string, forName: ClassLoader<H>)
  {
    r.readable
    && (r.metadata.None?
        || (annotationName in r.metadata.value.annotationTypes && forName(r.metadata.value.className).None?))
  }

  /** The error a resource that aborts the walk raises. */
  function AbortReason<H>(r: Resource, annotationName: string, forName: ClassLoader<H>): Failure
    requires Aborts(r, annotationName, forName)
  {
    if r.metadata.None? then MetadataReadFailed else ClassResolveFailed(r.metadata.value.className)
  }

  /** No resource of the sequence aborts the walk. */
  predicate NoneAborts<H>(resources: seq<Resource>, annotationName: string, forName: ClassLoader<H>)
  {
    forall i | 0 <= i < |resources| :: !Aborts(resources[i], annotationName, forName)
  }

  /** Position `i` holds the first resource that aborts the walk. */
  predicate IsFirstAbort<H>(resources: seq<Resource>, i: int, annotationName: string, forName: ClassLoader<H>)
  {
    && 0 <= i < |resources|
    && Aborts(resources[i], annotationName, forName)
    && forall j | 0 <= j < i :: !Aborts(resources[j], annotationName, forName)
  }

  /** The class names of the readable resources that carry the annotation. */
  function AnnotatedClassNames(resources: seq<Resource>, annotationName: string): set<string>
  {
    set i | 0 <= i < |resources| && IsAnnotated(resources[i], annotationName) :: resources[i].metadata.value.className
  }

  /** The handles the loader gives for those of `names` it resolves. */
  function Resolve<H(==)>(names: set<string>, forName: ClassLoader<H>): set<H>
  {
    set n | n in names && forName(n).Some? :: forName(n).value
  }

  /** One iteration of the loop: the accumulated set after looking at resource `r`. */
  function Visit<H(==)>(r: Resource, annotationName: string, forName: ClassLoader<H>, classes: set<H>): Result<set<H>, Failure>
  {
    if !r.readable then Ok(classes)
    else
      match r.metadata
      case None => Err(MetadataReadFailed)
      case Some(m) =>
        if annotationName in m.annotationTypes then
          match forName(m.className)
          case None => Err(ClassResolveFailed(m.className))
          case Some(h) => Ok(classes + {h})
        else Ok(classes)
  }

  /**
   * The loop over the enumerated resources; `Scan(resources[..i], …)` is
   * the state after the first `i` iterations. It succeeds exactly when no
   * resource aborts, its value is then the loader's handles for the
   * annotated class names, and otherwise it reports the first abort.
   */
  function Scan<H(==)>(resources: seq<Resource>, annotationName: string, forName: ClassLoader<H>): (r: Result<set<H>, Failure>)
    decreases |resources|
    ensures r.Ok? <==> NoneAborts(resources, annotationName, forName)
    ensures r.Ok? ==> r.value == Resolve(AnnotatedClassNames(resources, annotationName), forName)
    ensures r.Err? ==>
      exists i :: IsFirstAbort(resources, i, annotationName, forName)
                  && r.error == AbortReason(resources[i], annotationName, forName)
  {
    if |resources| == 0 then Ok({})
    else
      var init := resources[..|resources| - 1];
      var last := resources[|resources| - 1];
      AnnotatedClassNamesSnoc(init, last, annotationName);
      assert resources == init + [last];
      match Scan(init, annotationName, forName)
      case Err(e) => Err(e)
      case Ok(classes) => Visit(last, annotationName, forName, classes)
  }

  /** Appending a resource adds its class name exactly when it is annotated. */
  lemma AnnotatedClassNamesSnoc(init: seq<Resource>, last: Resource, annotationName: string)
    ensures AnnotatedClassNames(init + [last], annotationName)
      == AnnotatedClassNames(init, annotationName)
         + (if IsAnnotated(last, annotationName) then {last.metadata.value.className} else {})
  {
    var all := init + [last];
    assert forall i | 0 <= i < |init| :: all[i] == init[i];
    assert all[|init|] == last;
  }

  /** The readable resources of the sequence, in order. */
  function ReadableOnly(resources: seq<Resource>): (r: seq<Resource>)
    decreases |resources|
  {
    if |resources| == 0 then []
    else
      var init := ReadableOnly(resources[..|resources| - 1]);
      var last := resources[|resources| - 1];
      if last.readable then init + [last] else init
  }

  /** Keeping the readable resources distributes over concatenation. */
  lemma {:induction false} ReadableOnlyAppend(xs: seq<Resource>, ys: seq<Resource>)
    decreases |ys|
    ensures ReadableOnly(xs + ys) == ReadableOnly(xs) + ReadableOnly(ys)
  {
    if |ys| == 0 {
      assert xs + ys == xs;
    } else {
      var ys' := ys[..|ys| - 1];
      assert (xs + ys)[..|xs + ys| - 1] == xs + ys';
      ReadableOnlyAppend(xs, ys');
    }
  }

  /** The walk gives the same outcome, error included, on the readable resources alone. */
  lemma {:induction false} ScanIgnoresUnreadable<H>(resources: seq<Resource>, annotationName: string, forName: ClassLoader<H>)
    decreases |resources|
    ensures Scan(resources, annotationName, forName) == Scan(ReadableOnly(resources), annotationName, forName)
  {
    if |resources| > 0 {
      var init := resources[..|resources| - 1];
      var last := resources[|resources| - 1];
      ScanIgnoresUnreadable(init, annotationName, forName);
      if last.readable {
        var filtered := ReadableOnly(init) + [last];
        assert filtered[..|filtered| - 1] == ReadableOnly(init);
      }
    }
  }

  /**
   * Inserting an unreadable resource anywhere in the enumeration changes
   * nothing: it adds no class and causes no failure, whatever its metadata.
   */
  lemma UnreadableResourceIsSkipped<H>(resources: seq<Resource>, k: nat, u: Resource, annotationName: string, forName: ClassLoader<H>)
    requires k <= |resources|
    requires !u.readable
    ensures Scan(resources[..k] + [u] + resources[k..], annotationName, forName) == Scan(resources, annotationName, forName)
  {
    var xs := resources[..k];
    var ys := resources[k..];
    assert resources == xs + ys;
    ReadableOnlyAppend(xs, [u]);
    assert ReadableOnly([u]) == [] by {
      assert [u][..0] == [];
    }
    ReadableOnlyAppend(xs + [u], ys);
    ReadableOnlyAppend(xs, ys);
    ScanIgnoresUnreadable(xs + [u] + ys, annotationName, forName);
    ScanIgnoresUnreadable(resources, annotationName, forName);
  }

  /** Two enumerations holding the same resources have the same annotated class names. */
  lemma AnnotatedClassNamesOfSameElements(xs: seq<Resource>, ys: seq<Resource>, annotationName: string)
    requires forall r :: r in xs <==> r in ys
    ensures AnnotatedClassNames(xs, annotationName) == AnnotatedClassNames(ys, annotationName)
  {
    forall n | n in AnnotatedClassNames(xs, annotationName)
      ensures n in AnnotatedClassNames(ys, annotationName)
    {
      var i :| 0 <= i < |xs| && IsAnnotated(xs[i], annotationName) && xs[i].metadata.value.className == n;
      assert xs[i] in ys;
      var j :| 0 <= j < |ys| && ys[j] == xs[i];
    }
    forall n | n in AnnotatedClassNames(ys, annotationName)
      ensures n in AnnotatedClassNames(xs, annotationName)
    {
      var j :| 0 <= j < |ys| && IsAnnotated(ys[j], annotationName) && ys[j].metadata.value.className == n;
      assert ys[j] in xs;
      var i :| 0 <= i < |xs| && xs[i] == ys[j];
    }
  }

  /**
   * Whether the walk succeeds, and the set it returns, depend only on which
   * resources were enumerated: not on their order, nor on how often each
   * one appears.
   */
  lemma ScanDependsOnlyOnElements<H>(xs: seq<Resource>, ys: seq<Resource>, annotationName: string, forName: ClassLoader<H>)
    requires forall r :: r in xs <==> r in ys
    ensures Scan(xs, annotationName, forName).Ok? <==> Scan(ys, annotationName, forName).Ok?
    ensures Scan(xs, annotationName, forName).Ok? ==>
      Scan(xs, annotationName, forName).value == Scan(ys, annotationName, forName).value
  {
    if NoneAborts(xs, annotationName, forName) {
      forall j | 0 <= j < |ys| ensures !Aborts(ys[j], annotationName, forName) {
        assert ys[j] in xs;
      }
    }
    if NoneAborts(ys, annotationName, forName) {
      forall i | 0 <= i < |xs| ensures !Aborts(xs[i], annotationName, forName) {
        assert xs[i] in ys;
      }
    }
    AnnotatedClassNamesOfSameElements(xs, ys, annotationName);
  }

  /** Reordering the enumerated resources keeps the outcome's success and its set. */
  lemma ScanIgnoresOrder<H>(xs: seq<Resource>, ys: seq<Resource>, annotationName: string, forName: ClassLoader<H>)
    requires multiset(xs) == multiset(ys)
    ensures Scan(xs, annotationName, forName).Ok? <==> Scan(ys, annotationName, forName).Ok?
    ensures Scan(xs, annotationName, forName).Ok? ==>
      Scan(xs, annotationName, forName).value == Scan(ys, annotationName, forName).value
  {
    forall r ensures r in xs <==> r in ys {
      assert r in xs <==> r in multiset(xs);
      assert r in ys <==> r in multiset(ys);
    }
    ScanDependsOnlyOnElements(xs, ys, annotationName, forName);
  }

  /**
   * A further annotated resource naming a class already found, say the same
   * class file on a second classpath root, changes nothing: the set holds
   * one handle per class name.
   */
  lemma SameClassNameCollapses<H>(resources: seq<Resource>, i: nat, r: Resource, annotationName: string, forName: ClassLoader<H>)
    requires i < |resources|
    requires IsAnnotated(resources[i], annotationName) && IsAnnotated(r, annotationName)
    requires r.metadata.value.className == resources[i].metadata.value.className
    ensures Scan(resources + [r], annotationName, forName) == Scan(resources, annotationName, forName)
  {
    var all := resources + [r];
    assert all[..|all| - 1] == resources;
    var name := r.metadata.value.className;
    var prior := Scan(resources, annotationName, forName);
    if prior.Ok? {
      assert !Aborts(resources[i], annotationName, forName);
      assert name in AnnotatedClassNames(resources, annotationName);
      var h := forName(name).value;
      assert h in prior.value;
      assert forName(name) == Some(h);
      assert prior.value + {h} == prior.value;
      assert Visit(r, annotationName, forName, prior.value) == prior;
    }
  }
}
