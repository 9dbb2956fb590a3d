/**
  MergeTest: a test that merges the tested ontology into a (small) test
  ontology, reasons over the result, and reports provenance for every target
  annotation of the test.
*/
module MergeTest {
  import opened Owl
  import opened ITest
  import opened Protocol

  // ---------------------------------------------------------------------
  // What run and getAnnotations compute
  // ---------------------------------------------------------------------

  /**
    What run returns for a test ontology with these annotations and axioms,
    run against a tested ontology with these axioms.
  */
  function RunResult(annotations: seq<Annotation>, testAxioms: set<Axiom>,
                     subjectAxioms: set<Axiom>, oracle: Oracle): Result<bool>
  {
    match ExpectedFailure(annotations)
    case Err(e) => Err(e)
    case Ok(xfail) => Ok(Passes(oracle(testAxioms + subjectAxioms), xfail))
  }

  /**
    The test ontology's axioms after run: the tested ontology's axioms are
    added once the xfail flag has been read; if reading it throws, nothing is.
  */
  function MergedAxioms(annotations: seq<Annotation>, testAxioms: set<Axiom>, subjectAxioms: set<Axiom>): set<Axiom>
  {
    if ExpectedFailure(annotations).Ok? then testAxioms + subjectAxioms else testAxioms
  }

  /** A test whose first xfail annotation says "yes" (in any case) passes whatever the reasoner reports. */
  lemma RunExpectedFailurePasses(annotations: seq<Annotation>, k: int, testAxioms: set<Axiom>,
                                 subjectAxioms: set<Axiom>, oracle: Oracle)
    requires IsFirst(annotations, XfailProperty, k)
    requires annotations[k].value.Literal? && IsYes(annotations[k].value.lexical)
    ensures RunResult(annotations, testAxioms, subjectAxioms, oracle) == Ok(true)
  {
    ExpectedFailureFirstWins(annotations, k);
  }

  /**
    A test not expected to fail passes exactly when the merged ontology is
    consistent and has no named unsatisfiable class.
  */
  lemma RunWithoutExpectedFailure(annotations: seq<Annotation>, testAxioms: set<Axiom>,
                                  subjectAxioms: set<Axiom>, oracle: Oracle)
    requires ExpectedFailure(annotations) == Ok(false)
    requires WellFormed(oracle(testAxioms + subjectAxioms))
    ensures var c := oracle(testAxioms + subjectAxioms);
            RunResult(annotations, testAxioms, subjectAxioms, oracle) ==
            Ok(c.consistent && c.bottomNode == {OwlNothing})
  {
    PassesMeaning(oracle(testAxioms + subjectAxioms), false);
  }

  /**
    The provenance assertions built from the target annotations, in order: one
    per target annotation, each pointing to testIri. A literal target throws.
  */
  function TargetAssertions(annotations: seq<Annotation>, testIri: Iri): Result<seq<Axiom>>
  {
    if annotations == [] then Ok([])
    else
      var last := annotations[|annotations| - 1];
      match TargetAssertions(annotations[..|annotations| - 1], testIri)
      case Err(e) => Err(e)
      case Ok(axioms) =>
        if last.property != TargetProperty then Ok(axioms)
        else if last.value.IriValue? then Ok(axioms + [TestAssertion(last.value.iri, testIri)])
        else Err(EmptyOptional)
  }

  /** The values of all target annotations, in enumeration order. */
  function TargetValues(annotations: seq<Annotation>): seq<Value>
  {
    if annotations == [] then []
    else if annotations[0].property == TargetProperty then [annotations[0].value] + TargetValues(annotations[1..])
    else TargetValues(annotations[1..])
  }

  /** Every target annotation has an IRI value. */
  predicate AllIris(values: seq<Value>)
  {
    forall i :: 0 <= i < |values| ==> values[i].IriValue?
  }

  lemma {:induction false} TargetValuesAppend(a: seq<Annotation>, b: seq<Annotation>)
    ensures TargetValues(a + b) == TargetValues(a) + TargetValues(b)
  {
    if a != [] {
      assert (a + b)[1..] == a[1..] + b;
      TargetValuesAppend(a[1..], b);
    } else {
      assert a + b == b;
    }
  }

  /**
    getAnnotations' loop, against a direct definition: it succeeds exactly
    when every target annotation has an IRI value, and it then yields one
    test assertion per target annotation, in enumeration order, whose subject
    is that target.
  */
  lemma {:induction false} TargetAssertionsSpec(annotations: seq<Annotation>, testIri: Iri)
    ensures var r := TargetAssertions(annotations, testIri);
            var values := TargetValues(annotations);
            && (r.Ok? <==> AllIris(values))
            && (r.Ok? ==> |r.value| == |values| &&
                          forall i :: 0 <= i < |values| ==> r.value[i] == TestAssertion(values[i].iri, testIri))
    decreases |annotations|
  {
    if annotations != [] {
      var n := |annotations| - 1;
      var front, last := annotations[..n], annotations[n];
      assert annotations == front + [last];
      TargetValuesAppend(front, [last]);
      TargetAssertionsSpec(front, testIri);
      var values := TargetValues(front);
      if last.property == TargetProperty {
        var all := values + [last.value];
        assert TargetValues(annotations) == all;
        assert forall i :: 0 <= i < |values| ==> all[i] == values[i];
        assert all[|values|] == last.value;
        assert AllIris(all) <==> AllIris(values) && last.value.IriValue?;
      } else {
        assert TargetValues([last]) == [];
        assert TargetValues(annotations) == values;
      }
    }
  }

  /** A literal target annotation makes getAnnotations throw, whatever follows it. */
  lemma {:induction false} TargetAssertionsStopAtLiteral(annotations: seq<Annotation>, k: nat, testIri: Iri)
    requires k < |annotations|
    requires annotations[k].property == TargetProperty && annotations[k].value.Literal?
    ensures TargetAssertions(annotations, testIri) == Err(EmptyOptional)
    decreases |annotations|
  {
    if k < |annotations| - 1 {
      var front := annotations[..|annotations| - 1];
      assert front[k] == annotations[k];
      TargetAssertionsStopAtLiteral(front, k, testIri);
    } else {
      var r := TargetAssertions(annotations[..k], testIri);
      if r.Err? {
        TargetAssertionsErrIsEmptyOptional(annotations[..k], testIri);
      }
    }
  }

  lemma {:induction false} TargetAssertionsErrIsEmptyOptional(annotations: seq<Annotation>, testIri: Iri)
    ensures TargetAssertions(annotations, testIri).Err? ==> TargetAssertions(annotations, testIri) == Err(EmptyOptional)
    decreases |annotations|
  {
    if annotations != [] {
      TargetAssertionsErrIsEmptyOptional(annotations[..|annotations| - 1], testIri);
    }
  }

  /**
    What getAnnotations returns: the base IRI of the tested ontology is taken
    first (throwing if that ontology is anonymous), then one assertion per
    target annotation pointing to base IRI + file name.
  */
  function Provenance(annotations: seq<Annotation>, subjectId: Option<Iri>, baseName: string): Result<seq<Axiom>>
  {
    match BaseIriOf(subjectId)
    case Err(e) => Err(e)
    case Ok(base) => TargetAssertions(annotations, base + baseName)
  }

  /** A test without target annotation contributes no provenance, once the tested ontology has an IRI. */
  lemma ProvenanceWithoutTarget(annotations: seq<Annotation>, subjectIri: Iri, baseName: string)
    requires forall i :: 0 <= i < |annotations| ==> annotations[i].property != TargetProperty
    ensures Provenance(annotations, Some(subjectIri), baseName) == Ok([])
  {
    var testIri := BaseIri(subjectIri) + baseName;
    TargetAssertionsSpec(annotations, testIri);
    TargetValuesNone(annotations);
  }

  lemma {:induction false} TargetValuesNone(annotations: seq<Annotation>)
    requires forall i :: 0 <= i < |annotations| ==> annotations[i].property != TargetProperty
    ensures TargetValues(annotations) == []
    decreases |annotations|
  {
    if annotations != [] {
      TargetValuesNone(annotations[1..]);
    }
  }

  /**
    The base IRI is computed before the annotations are looked at: against
    an anonymous tested ontology getAnnotations throws even for a test
    without any target annotation.
  */
  lemma AnonymousSubjectThrows(annotations: seq<Annotation>, baseName: string)
    ensures Provenance(annotations, None, baseName) == Err(EmptyOptional)
  {
  }

  /**
    The worked example: target http://example.org/ont#ClassA, tested ontology
    http://example.org/ont.owl and test file t1.owl give the assertion that
    links ClassA to http://example.org/t1.owl.
  */
  lemma ProvenanceExample()
    ensures Provenance([Annotation(TargetProperty, IriValue("http://example.org/ont#ClassA"))],
                       Some("http://example.org/ont.owl"), "t1.owl")
            == Ok([TestAssertion("http://example.org/ont#ClassA", "http://example.org/t1.owl")])
  {
    var iri := "http://example.org/ont.owl";
    var base := "http://example.org/";
    assert base <= iri;
    forall j | |base| <= j < |iri| ensures iri[j] != '/' {
      assert iri[|base|..] == "ont.owl";
      assert iri[j] == iri[|base|..][j - |base|];
    }
    BaseIriUnique(iri, base);
    assert BaseIriOf(Some(iri)) == Ok(base);
    var testIri := base + "t1.owl";
    assert testIri == "http://example.org/t1.owl";
    var anns := [Annotation(TargetProperty, IriValue("http://example.org/ont#ClassA"))];
    assert anns[..0] == [];
    assert TargetAssertions(anns[..0], testIri) == Ok([]);
    assert [] + [TestAssertion("http://example.org/ont#ClassA", testIri)] == [TestAssertion("http://example.org/ont#ClassA", testIri)];
    assert TargetAssertions(anns, testIri) == Ok([TestAssertion("http://example.org/ont#ClassA", testIri)]);
  }

  // ---------------------------------------------------------------------
  // The test object
  // ---------------------------------------------------------------------

  class MergeTest {
    const test: Ontology
    const oracle: Oracle
    const baseName: string

    /** The reasoners run has created, oldest first. */
    ghost var reasoners: seq<Reasoner>

    constructor (ontology: Ontology, oracle: Oracle, baseName: string)
      ensures test == ontology && this.oracle == oracle && this.baseName == baseName
      ensures reasoners == []
    {
      test := ontology;
      this.oracle := oracle;
      this.baseName := baseName;
      reasoners := [];
    }

    /**
      Reads the xfail flag, merges the tested ontology's axioms into the test
      ontology, and asks a fresh reasoner about the merged ontology, which is
      disposed before returning. The tested ontology is left as it was.
    */
    method Run(subject: Ontology) returns (r: Result<bool>)
      modifies this, test
      ensures r == RunResult(test.annotations, old(test.axioms), old(subject.axioms), oracle)
      ensures test.axioms == if r.Ok? then old(test.axioms) + old(subject.axioms) else old(test.axioms)
      ensures subject.axioms == old(subject.axioms)
      ensures r.Err? ==> reasoners == old(reasoners)
      ensures r.Ok? ==>
                |reasoners| == |old(reasoners)| + 1 && reasoners[..|old(reasoners)|] == old(reasoners) &&
                var reasoner := reasoners[|reasoners| - 1];
                fresh(reasoner) && reasoner.disposed && reasoner.axioms == test.axioms
    {
      var xfail := IsExpectedFailure();
      if xfail.Err? {
        return Err(xfail.error);
      }

      test.axioms := test.axioms + subject.axioms;
      var pass, reasoner := Classify(oracle, test);
      reasoners := reasoners + [reasoner];

      return Ok(pass || xfail.value);
    }

    /** The provenance assertions of this test, built against the tested ontology, which is only read. */
    method GetAnnotations(subject: Ontology) returns (r: Result<seq<Axiom>>)
      ensures r == Provenance(test.annotations, subject.id, baseName)
    {
      var base := BaseIriOf(subject.id);
      if base.Err? {
        return Err(base.error);
      }
      var testIri := base.value + baseName;
      var annotations := test.annotations;
      var axioms: seq<Axiom> := [];
      var i := 0;
      while i < |annotations|
        invariant 0 <= i <= |annotations|
        invariant TargetAssertions(annotations[..i], testIri) == Ok(axioms)
      {
        var annot := annotations[i];
        assert annotations[..i + 1][..i] == annotations[..i];
        if annot.property == TargetProperty {
          if annot.value.Literal? {
            TargetAssertionsStopAtLiteral(annotations, i, testIri);
            return Err(EmptyOptional);
          }
          axioms := axioms + [TestAssertion(annot.value.iri, testIri)];
        }
        i := i + 1;
      }
      assert annotations[..i] == annotations;
      return Ok(axioms);
    }

    /** Whether this test is expected to fail: its first xfail annotation says "yes". */
    method IsExpectedFailure() returns (r: Result<bool>)
      ensures r == ExpectedFailure(test.annotations)
    {
      var value := FindFirst(test.annotations, XfailProperty);
      match value
      case None => r := Ok(false);
      case Some(Literal(s)) => r := Ok(IsYes(s));
      case Some(IriValue(_)) => r := Err(EmptyOptional);
    }
  }
}
