/**
  The pieces of the test-evaluation protocol that MergeTest and TestDriver
  share, each written once: the first-match scan of an ontology's header
  annotations, the xfail and target lookups built on it, the derivation of a
  base IRI from an ontology IRI, and the rule that turns what the reasoner
  reports into a pass or a fail.
*/
module Protocol {
  import opened Owl
  import opened ITest
  import opened JavaString

  // ---------------------------------------------------------------------
  // First-match scan of header annotations
  // ---------------------------------------------------------------------

  /** Annotation k is the first one, in enumeration order, with this property. */
  ghost predicate IsFirst(annotations: seq<Annotation>, property: Iri, k: int)
  {
    0 <= k < |annotations| && annotations[k].property == property &&
    forall j :: 0 <= j < k ==> annotations[j].property != property
  }

  /** The value of the first annotation with this property, if there is one. */
  function FirstValue(annotations: seq<Annotation>, property: Iri): (r: Option<Value>)
    ensures r.None? <==> forall i :: 0 <= i < |annotations| ==> annotations[i].property != property
  {
    if annotations == [] then None
    else if annotations[0].property == property then Some(annotations[0].value)
    else FirstValue(annotations[1..], property)
  }

  /** The scan returns the value of the first matching annotation and ignores every later one. */
  lemma {:induction false} FirstValueIsFirst(annotations: seq<Annotation>, property: Iri, k: int)
    requires IsFirst(annotations, property, k)
    ensures FirstValue(annotations, property) == Some(annotations[k].value)
  {
    if k > 0 {
      assert annotations[0].property != property;
      FirstValueIsFirst(annotations[1..], property, k - 1);
    }
  }

  /** The loop that looks for an annotation by property and stops at the first match. */
  method FindFirst(annotations: seq<Annotation>, property: Iri) returns (r: Option<Value>)
    ensures r == FirstValue(annotations, property)
  {
    var i := 0;
    while i < |annotations|
      invariant 0 <= i <= |annotations|
      invariant forall j :: 0 <= j < i ==> annotations[j].property != property
    {
      if annotations[i].property == property {
        FirstValueIsFirst(annotations, property, i);
        return Some(annotations[i].value);
      }
      i := i + 1;
    }
    return None;
  }

  // ---------------------------------------------------------------------
  // xfail and target
  // ---------------------------------------------------------------------

  /** "yes" ignoring case. */
  predicate IsYes(s: string)
  {
    EqualsIgnoreCase(s, "yes")
  }

  /**
    Whether a test is expected to fail: the first xfail annotation decides;
    none means false. Reading a literal out of an IRI value throws.
  */
  function ExpectedFailure(annotations: seq<Annotation>): Result<bool>
  {
    match FirstValue(annotations, XfailProperty)
    case None => Ok(false)
    case Some(Literal(s)) => Ok(IsYes(s))
    case Some(IriValue(_)) => Err(EmptyOptional)
  }

  /**
    The xfail flag is read from the first xfail annotation only: a later
    annotation, whatever it says, does not change it.
  */
  lemma ExpectedFailureFirstWins(annotations: seq<Annotation>, k: int)
    requires IsFirst(annotations, XfailProperty, k)
    ensures annotations[k].value.Literal? ==>
              ExpectedFailure(annotations) == Ok(IsYes(annotations[k].value.lexical))
    ensures annotations[k].value.IriValue? ==> ExpectedFailure(annotations) == Err(EmptyOptional)
  {
    FirstValueIsFirst(annotations, XfailProperty, k);
  }

  /** Without any xfail annotation a test is not expected to fail. */
  lemma ExpectedFailureAbsent(annotations: seq<Annotation>)
    requires forall i :: 0 <= i < |annotations| ==> annotations[i].property != XfailProperty
    ensures ExpectedFailure(annotations) == Ok(false)
  {
  }

  /**
    The class a test is about, as TestDriver reads it: the first target
    annotation only, or none. Reading an IRI out of a literal value throws.
  */
  function TargetOf(annotations: seq<Annotation>): Result<Option<Iri>>
  {
    match FirstValue(annotations, TargetProperty)
    case None => Ok(None)
    case Some(IriValue(t)) => Ok(Some(t))
    case Some(Literal(_)) => Err(EmptyOptional)
  }

  lemma TargetOfFirstWins(annotations: seq<Annotation>, k: int)
    requires IsFirst(annotations, TargetProperty, k)
    ensures annotations[k].value.IriValue? ==> TargetOf(annotations) == Ok(Some(annotations[k].value.iri))
    ensures annotations[k].value.Literal? ==> TargetOf(annotations) == Err(EmptyOptional)
  {
    FirstValueIsFirst(annotations, TargetProperty, k);
  }

  // ---------------------------------------------------------------------
  // Verdict
  // ---------------------------------------------------------------------

  /**
    The verdict of one test: the merged ontology is consistent and its bottom
    node has size exactly one, or the test is expected to fail.
  */
  predicate Passes(c: Classification, xfail: bool)
  {
    (c.consistent && |c.bottomNode| == 1) || xfail
  }

  /**
    Without xfail a test passes exactly when the merged ontology is consistent
    and has no named unsatisfiable class; with xfail it always passes.
  */
  lemma PassesMeaning(c: Classification, xfail: bool)
    requires WellFormed(c)
    ensures !xfail ==> (Passes(c, xfail) <==> c.consistent && c.bottomNode == {OwlNothing})
    ensures xfail ==> Passes(c, xfail)
  {
    BottomNodeSingleton(c);
  }

  /**
    The reasoner round of a run: a fresh reasoner is created on the merged
    ontology, asked whether it is consistent and, only if it is, for its
    bottom node, then disposed. The ontology is only read.
  */
  method Classify(oracle: Oracle, merged: Ontology) returns (pass: bool, reasoner: Reasoner)
    ensures pass == (oracle(merged.axioms).consistent && |oracle(merged.axioms).bottomNode| == 1)
    ensures fresh(reasoner) && reasoner.disposed && reasoner.axioms == merged.axioms
  {
    reasoner := new Reasoner(oracle, merged);
    var consistent := reasoner.IsConsistent();
    pass := false;
    if consistent {
      var bottom := reasoner.GetUnsatisfiableClasses();
      pass := |bottom| == 1;
    }
    reasoner.Dispose();
  }

  // ---------------------------------------------------------------------
  // Base IRI
  // ---------------------------------------------------------------------

  /**
    An ontology IRI cut after its last '/': a prefix of the IRI that is empty
    or ends with '/', and after which the IRI has no '/'.
  */
  function BaseIri(iri: Iri): (base: Iri)
    ensures base <= iri
    ensures base != [] ==> base[|base| - 1] == '/'
    ensures forall j :: |base| <= j < |iri| ==> iri[j] != '/'
  {
    iri[..LastIndexOf(iri, '/') + 1]
  }

  /** The three properties of BaseIri determine its result. */
  lemma BaseIriUnique(iri: Iri, base: Iri)
    requires base <= iri
    requires base != [] ==> base[|base| - 1] == '/'
    requires forall j :: |base| <= j < |iri| ==> iri[j] != '/'
    ensures base == BaseIri(iri)
  {
    var b := BaseIri(iri);
    if |base| > 0 {
      assert iri[|base| - 1] == '/';
    }
    if |b| > 0 {
      assert iri[|b| - 1] == '/';
    }
    assert |b| == |base|;
  }

  /** An IRI has an empty base exactly when it contains no '/'. */
  lemma BaseIriEmpty(iri: Iri)
    ensures BaseIri(iri) == [] <==> '/' !in iri
  {
    if '/' in iri {
      var j :| 0 <= j < |iri| && iri[j] == '/';
    }
  }

  /**
    A test IRI built from a base and a file name without '/' has that same
    base again: the provenance IRI stays in the subject's namespace.
  */
  lemma {:induction false} BaseIriOfTestIri(ontologyIri: Iri, name: string)
    requires '/' !in name
    ensures BaseIri(BaseIri(ontologyIri) + name) == BaseIri(ontologyIri)
  {
    var base := BaseIri(ontologyIri);
    var full := base + name;
    assert base <= full;
    forall j | |base| <= j < |full| ensures full[j] != '/' {
      assert full[j] == name[j - |base|];
    }
    BaseIriUnique(full, base);
  }

  /** The base IRI of an ontology; getOntologyIRI().get() throws on an anonymous one. */
  function BaseIriOf(id: Option<Iri>): (r: Result<Iri>)
    ensures r.Err? <==> id.None?
    ensures id.Some? ==> r.value <= id.value && '/' !in id.value[|r.value|..]
    ensures id.Some? && r.value != [] ==> r.value[|r.value| - 1] == '/'
  {
    match id
    case None => Err(EmptyOptional)
    case Some(iri) => Ok(BaseIri(iri))
  }

  /** The provenance assertion linking a tested class to the IRI of its test. */
  function TestAssertion(target: Iri, testIri: Iri): Axiom
  {
    AnnotationAssertion(TestLocProperty, target, testIri)
  }
}
