/**
  TestDriver: a second test runner class, which neither command-line shell
  uses. It holds the checked
  ontology and a list of (target, test IRI) pairs recorded as tests run, and
  turns that list into provenance assertions on request. Unlike MergeTest it
  honours only the first target annotation of a test.
*/
module TestDriver {
  import opened Owl
  import opened ITest
  import opened Protocol
  import MergeTest

  /** A tested class and the IRI of the test file that covers it. */
  datatype TargetTestPair = TargetTestPair(target: Iri, testFile: Iri)

  /** What the driver knows of its checked ontology: its axioms and its IRI; None while none is set. */
  datatype Checked = Checked(axioms: set<Axiom>, id: Option<Iri>)

  /** What runTest returns, and the pair it records if it records one. */
  datatype RunTestOutcome = RunTestOutcome(result: Result<bool>, recorded: Option<TargetTestPair>)

  /**
    runTest on a test ontology with these annotations and axioms: the xfail
    flag and the target are read first; a target is recorded, with the checked
    ontology's base IRI + file name, before any reasoning; then the checked
    ontology's axioms are merged in and the verdict computed. A null checked
    ontology throws at its first use.
  */
  function RunTestResult(annotations: seq<Annotation>, testAxioms: set<Axiom>,
                         checked: Option<Checked>, filename: string, oracle: Oracle): RunTestOutcome
  {
    match ExpectedFailure(annotations)
    case Err(e) => RunTestOutcome(Err(e), None)
    case Ok(xfail) =>
      match TargetOf(annotations)
      case Err(e) => RunTestOutcome(Err(e), None)
      case Ok(target) =>
        match checked
        case None => RunTestOutcome(Err(NullPointer), None)
        case Some(c) =>
          if target.None? then
            RunTestOutcome(Ok(Passes(oracle(testAxioms + c.axioms), xfail)), None)
          else
            match BaseIriOf(c.id)
            case Err(e) => RunTestOutcome(Err(e), None)
            case Ok(base) =>
              RunTestOutcome(Ok(Passes(oracle(testAxioms + c.axioms), xfail)),
                             Some(TargetTestPair(target.value, base + filename)))
  }

  /**
    Against a checked ontology with an IRI, and a test whose metadata can be
    read, a pair is recorded exactly when the test has a target annotation:
    the first one, with test IRI = base IRI of the checked ontology + file name.
  */
  lemma RecordedIffTarget(annotations: seq<Annotation>, testAxioms: set<Axiom>,
                          c: Checked, filename: string, oracle: Oracle)
    requires c.id.Some? && ExpectedFailure(annotations).Ok? && TargetOf(annotations).Ok?
    ensures var out := RunTestResult(annotations, testAxioms, Some(c), filename, oracle);
            && out.result.Ok?
            && (out.recorded.Some? <==> exists i :: 0 <= i < |annotations| && annotations[i].property == TargetProperty)
            && (forall k :: IsFirst(annotations, TargetProperty, k) ==>
                  annotations[k].value.IriValue? &&
                  out.recorded == Some(TargetTestPair(annotations[k].value.iri, BaseIri(c.id.value) + filename)))
  {
    forall k | IsFirst(annotations, TargetProperty, k)
      ensures annotations[k].value.IriValue?
    {
      TargetOfFirstWins(annotations, k);
    }
    forall k | IsFirst(annotations, TargetProperty, k)
      ensures TargetOf(annotations) == Ok(Some(annotations[k].value.iri))
    {
      TargetOfFirstWins(annotations, k);
    }
  }

  /**
    The pair is recorded before reasoning: what is recorded, and whether the
    call throws, do not depend on what the reasoner reports.
  */
  lemma RecordedBeforeReasoning(annotations: seq<Annotation>, testAxioms: set<Axiom>,
                                checked: Option<Checked>, filename: string, o1: Oracle, o2: Oracle)
    ensures RunTestResult(annotations, testAxioms, checked, filename, o1).recorded ==
            RunTestResult(annotations, testAxioms, checked, filename, o2).recorded
    ensures RunTestResult(annotations, testAxioms, checked, filename, o1).result.Err? ==
            RunTestResult(annotations, testAxioms, checked, filename, o2).result.Err?
  {
  }

  /**
    Both implementations agree on the verdict: runTest and MergeTest.run
    return the same for the same test and checked ontology.
  */
  lemma VerdictAgreesWithMergeTest(annotations: seq<Annotation>, testAxioms: set<Axiom>,
                                   c: Checked, filename: string, oracle: Oracle)
    requires RunTestResult(annotations, testAxioms, Some(c), filename, oracle).result.Ok?
    ensures RunTestResult(annotations, testAxioms, Some(c), filename, oracle).result ==
            MergeTest.RunResult(annotations, testAxioms, c.axioms, oracle)
  {
  }

  /**
    The two implementations agree on provenance when a test has at most one
    target annotation: MergeTest emits the assertion for the pair TestDriver
    records. With two or more, MergeTest emits one per target and TestDriver
    keeps the first.
  */
  lemma {:induction false} ProvenanceAgreesWithMergeTest(annotations: seq<Annotation>, testAxioms: set<Axiom>,
                                                         c: Checked, filename: string, oracle: Oracle)
    requires c.id.Some? && ExpectedFailure(annotations).Ok?
    requires |MergeTest.TargetValues(annotations)| <= 1 && MergeTest.AllIris(MergeTest.TargetValues(annotations))
    ensures var out := RunTestResult(annotations, testAxioms, Some(c), filename, oracle);
            MergeTest.Provenance(annotations, c.id, filename) ==
            Ok(if out.recorded.Some? then [TestAssertion(out.recorded.value.target, out.recorded.value.testFile)] else [])
  {
    var values := MergeTest.TargetValues(annotations);
    var testIri := BaseIri(c.id.value) + filename;
    MergeTest.TargetAssertionsSpec(annotations, testIri);
    FirstTargetIsFirstValue(annotations);
    if values == [] {
      assert TargetOf(annotations) == Ok(None);
    } else {
      assert values[0].IriValue?;
      assert TargetOf(annotations) == Ok(Some(values[0].iri));
      var r := MergeTest.TargetAssertions(annotations, testIri);
      assert r.Ok? && |r.value| == 1 && r.value[0] == TestAssertion(values[0].iri, testIri);
      assert r.value == [TestAssertion(values[0].iri, testIri)];
    }
  }

  /** The first target value is the first element of the list of all target values. */
  lemma {:induction false} FirstTargetIsFirstValue(annotations: seq<Annotation>)
    ensures var values := MergeTest.TargetValues(annotations);
            FirstValue(annotations, TargetProperty) == if values == [] then None else Some(values[0])
    decreases |annotations|
  {
    if annotations != [] {
      FirstTargetIsFirstValue(annotations[1..]);
    }
  }

  class TestDriver {
    const oracle: Oracle
    var checkedOntology: Ontology?
    var targetsList: seq<TargetTestPair>

    /** The reasoners runTest has created, oldest first. */
    ghost var reasoners: seq<Reasoner>

    /** A fresh driver: no checked ontology, no recorded pair. */
    constructor (oracle: Oracle)
      ensures this.oracle == oracle && checkedOntology == null && targetsList == [] && reasoners == []
    {
      this.oracle := oracle;
      checkedOntology := null;
      targetsList := [];
      reasoners := [];
    }

    /** What the driver knows of its checked ontology. */
    function CheckedView(): Option<Checked>
      reads this, checkedOntology
    {
      if checkedOntology == null then None else Some(Checked(checkedOntology.axioms, checkedOntology.id))
    }

    /** Replaces the checked ontology and nothing else. */
    method SetOntology(ontology: Ontology?)
      modifies this`checkedOntology
      ensures checkedOntology == ontology
      ensures targetsList == old(targetsList) && reasoners == old(reasoners)
    {
      checkedOntology := ontology;
    }

    /**
      Runs one test: records its target first, then merges the checked
      ontology's axioms into the test ontology and reasons over the result.
      The checked ontology keeps its axioms.
    */
    method RunTest(test: Ontology, filename: string) returns (r: Result<bool>)
      modifies this`targetsList, this`reasoners, test
      ensures var out := RunTestResult(test.annotations, old(test.axioms), old(CheckedView()), filename, oracle);
              && r == out.result
              && targetsList == old(targetsList) + (if out.recorded.Some? then [out.recorded.value] else [])
      ensures checkedOntology == old(checkedOntology)
      ensures checkedOntology != null ==> checkedOntology.axioms == old(checkedOntology.axioms)
      ensures r.Ok? ==> checkedOntology != null && test.axioms == old(test.axioms) + old(checkedOntology.axioms)
      ensures r.Err? ==> test.axioms == old(test.axioms)
      ensures r.Err? ==> reasoners == old(reasoners)
      ensures r.Ok? ==>
                |reasoners| == |old(reasoners)| + 1 && reasoners[..|old(reasoners)|] == old(reasoners) &&
                var reasoner := reasoners[|reasoners| - 1];
                fresh(reasoner) && reasoner.disposed && reasoner.axioms == test.axioms
    {
      var xfail := IsExpectedFailure(test);
      if xfail.Err? {
        return Err(xfail.error);
      }
      var target := GetTargetIri(test);
      if target.Err? {
        return Err(target.error);
      }
      if target.value.Some? {
        if checkedOntology == null {
          return Err(NullPointer);
        }
        var base := BaseIriOf(checkedOntology.id);
        if base.Err? {
          return Err(base.error);
        }
        targetsList := targetsList + [TargetTestPair(target.value.value, base.value + filename)];
      }

      if checkedOntology == null {
        return Err(NullPointer);
      }
      test.axioms := test.axioms + checkedOntology.axioms;
      var pass, reasoner := Classify(oracle, test);
      reasoners := reasoners + [reasoner];

      return Ok(pass || xfail.value);
    }

    /** Whether a test is expected to fail: its first xfail annotation says "yes". */
    method IsExpectedFailure(test: Ontology) returns (r: Result<bool>)
      ensures r == ExpectedFailure(test.annotations)
    {
      var value := FindFirst(test.annotations, XfailProperty);
      match value
      case None => r := Ok(false);
      case Some(Literal(s)) => r := Ok(IsYes(s));
      case Some(IriValue(_)) => r := Err(EmptyOptional);
    }

    /** The value of the first target annotation of a test; None when it has none. */
    method GetTargetIri(test: Ontology) returns (r: Result<Option<Iri>>)
      ensures r == TargetOf(test.annotations)
    {
      var value := FindFirst(test.annotations, TargetProperty);
      match value
      case None => r := Ok(None);
      case Some(IriValue(t)) => r := Ok(Some(t));
      case Some(Literal(_)) => r := Err(EmptyOptional);
    }

    /**
      One test-property assertion per recorded pair, in recording order. The
      list itself is only read, so calling this again gives the same result.
    */
    method GetAnnotations() returns (r: Result<seq<Axiom>>)
      ensures r.Err? <==> checkedOntology == null
      ensures r.Err? ==> r.error == NullPointer
      ensures r.Ok? ==> |r.value| == |targetsList| &&
                        forall i :: 0 <= i < |targetsList| ==>
                          r.value[i] == TestAssertion(targetsList[i].target, targetsList[i].testFile)
    {
      if checkedOntology == null {
        return Err(NullPointer);
      }
      var axioms: seq<Axiom> := [];
      var i := 0;
      while i < |targetsList|
        invariant 0 <= i <= |targetsList|
        invariant |axioms| == i
        invariant forall j :: 0 <= j < i ==> axioms[j] == TestAssertion(targetsList[j].target, targetsList[j].testFile)
      {
        axioms := axioms + [TestAssertion(targetsList[i].target, targetsList[i].testFile)];
        i := i + 1;
      }
      return Ok(axioms);
    }
  }
}
