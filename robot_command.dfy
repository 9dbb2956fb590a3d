/**
  The plugin command: runs the tests given with -t against the current
  input ontology, prints a line per test and a summary, optionally saves the
  collected provenance as a component, and throws when asked to abort on a
  failed test. Unlike the standalone program it catches every exception a
  test throws and reports that test as ERROR.
*/
module RobotCommand {
  import opened Owl
  import opened Report
  import opened ITest
  import MergeTest
  import Program
  import Protocol
  import JavaString

  /** The message of the exception thrown when no -t option was given. */
  const NoTestMessage: string := "No test specified (missing -t option(s))"

  /**
    One test, inside the try block: a test that failed to load, or a missing
    input ontology, is an ERROR; so is an exception from run. Once run has
    returned, a pass is counted at once, so an exception from getAnnotations
    gives an ERROR line for a test already counted as passed.
  */
  function RobotStep(t: Tally, slot: Slot, subject: Option<SubjectView>, oracle: Oracle): Tally
  {
    if slot.loaded.None? || subject.None? then t.(verdicts := t.verdicts + [Error])
    else
      var input := slot.loaded.value;
      match MergeTest.RunResult(input.annotations, input.axioms, subject.value.axioms, oracle)
      case Err(_) => t.(verdicts := t.verdicts + [Error])
      case Ok(pass) =>
        var passed := if pass then t.passed + 1 else t.passed;
        match MergeTest.Provenance(input.annotations, subject.value.id, slot.name)
        case Err(_) => Tally(t.verdicts + [Error], passed, t.annotations)
        case Ok(axioms) => Tally(t.verdicts + [if pass then Pass else Fail], passed, t.annotations + axioms)
  }

  /** The loop over the tests, in order; no exception leaves it. */
  function RobotLoop(slots: seq<Slot>, subject: Option<SubjectView>, oracle: Oracle): Tally
  {
    if slots == [] then Tally([], 0, [])
    else RobotStep(RobotLoop(slots[..|slots| - 1], subject, oracle), slots[|slots| - 1], subject, oracle)
  }

  /** run returned true for this test: the cases in which the counter goes up. */
  predicate RunPassed(slot: Slot, subject: Option<SubjectView>, oracle: Oracle)
  {
    slot.loaded.Some? && subject.Some? &&
    MergeTest.RunResult(slot.loaded.value.annotations, slot.loaded.value.axioms, subject.value.axioms, oracle) == Ok(true)
  }

  /** getAnnotations would throw for this test, if it got that far. */
  predicate ProvenanceThrows(slot: Slot, subject: Option<SubjectView>)
  {
    slot.loaded.Some? && subject.Some? &&
    MergeTest.Provenance(slot.loaded.value.annotations, subject.value.id, slot.name).Err?
  }

  /**
    The line printed for one test, decided by that test alone: PASS or FAIL
    as run returned, unless run or getAnnotations threw, the test did not
    load, or there is no input ontology.
  */
  function RobotVerdictOf(slot: Slot, subject: Option<SubjectView>, oracle: Oracle): Verdict
  {
    if slot.loaded.None? || subject.None? || ProvenanceThrows(slot, subject) then Error
    else
      match MergeTest.RunResult(slot.loaded.value.annotations, slot.loaded.value.axioms, subject.value.axioms, oracle)
      case Ok(pass) => if pass then Pass else Fail
      case Err(_) => Error
  }

  /** One step appends the test's own line, and counts it exactly when run returned true. */
  lemma RobotStepFacts(t: Tally, slot: Slot, subject: Option<SubjectView>, oracle: Oracle)
    ensures var next := RobotStep(t, slot, subject, oracle);
            && next.verdicts == t.verdicts + [RobotVerdictOf(slot, subject, oracle)]
            && next.passed == t.passed + (if RunPassed(slot, subject, oracle) then 1 else 0)
            && (RobotVerdictOf(slot, subject, oracle) == Pass ==> RunPassed(slot, subject, oracle))
            && (!ProvenanceThrows(slot, subject) ==>
                  (RobotVerdictOf(slot, subject, oracle) == Pass <==> RunPassed(slot, subject, oracle)))
  {
  }

  /** One line per test, each decided by that test alone. */
  lemma {:induction false} RobotLoopLines(slots: seq<Slot>, subject: Option<SubjectView>, oracle: Oracle)
    ensures var t := RobotLoop(slots, subject, oracle);
            && |t.verdicts| == |slots|
            && (forall i :: 0 <= i < |slots| ==> t.verdicts[i] == RobotVerdictOf(slots[i], subject, oracle))
  {
    if slots != [] {
      var front := slots[..|slots| - 1];
      var before := RobotLoop(front, subject, oracle);
      RobotLoopLines(front, subject, oracle);
      assert RobotLoop(slots, subject, oracle) == RobotStep(before, slots[|slots| - 1], subject, oracle);
      RobotStepFacts(before, slots[|slots| - 1], subject, oracle);
      assert forall i :: 0 <= i < |front| ==> front[i] == slots[i];
    }
  }

  /** The counter lies between the number of PASS lines and the number of tests. */
  lemma {:induction false} RobotLoopCounts(slots: seq<Slot>, subject: Option<SubjectView>, oracle: Oracle)
    ensures var t := RobotLoop(slots, subject, oracle);
            CountPass(t.verdicts) <= t.passed <= |slots|
  {
    if slots != [] {
      var front := slots[..|slots| - 1];
      var before := RobotLoop(front, subject, oracle);
      RobotLoopCounts(front, subject, oracle);
      assert RobotLoop(slots, subject, oracle) == RobotStep(before, slots[|slots| - 1], subject, oracle);
      RobotStepFacts(before, slots[|slots| - 1], subject, oracle);
      var vs := RobotLoop(slots, subject, oracle).verdicts;
      assert vs[..|vs| - 1] == before.verdicts;
    }
  }

  /** Without an input ontology every test is an ERROR and nothing is counted or collected. */
  lemma {:induction false} RobotLoopWithoutSubject(slots: seq<Slot>, oracle: Oracle)
    ensures var t := RobotLoop(slots, None, oracle);
            && t.passed == 0 && t.annotations == []
            && (forall i :: 0 <= i < |t.verdicts| ==> t.verdicts[i] == Error)
  {
    if slots != [] {
      RobotLoopWithoutSubject(slots[..|slots| - 1], oracle);
    }
  }

  /**
    When no getAnnotations call throws, the counter is exactly the number of
    PASS lines.
  */
  lemma {:induction false} PassedExact(slots: seq<Slot>, subject: Option<SubjectView>, oracle: Oracle)
    requires forall i :: 0 <= i < |slots| ==> !ProvenanceThrows(slots[i], subject)
    ensures RobotLoop(slots, subject, oracle).passed == CountPass(RobotLoop(slots, subject, oracle).verdicts)
  {
    if slots != [] {
      var front := slots[..|slots| - 1];
      var last := slots[|slots| - 1];
      var before := RobotLoop(front, subject, oracle);
      forall i | 0 <= i < |front|
        ensures !ProvenanceThrows(front[i], subject)
      {
        assert front[i] == slots[i];
      }
      PassedExact(front, subject, oracle);
      assert RobotLoop(slots, subject, oracle) == RobotStep(before, last, subject, oracle);
      PassedExactStep(before, last, subject, oracle);
    }
  }

  /** One step keeps the counter equal to the number of PASS lines when getAnnotations does not throw. */
  lemma PassedExactStep(t: Tally, slot: Slot, subject: Option<SubjectView>, oracle: Oracle)
    requires t.passed == CountPass(t.verdicts)
    requires !ProvenanceThrows(slot, subject)
    ensures RobotStep(t, slot, subject, oracle).passed == CountPass(RobotStep(t, slot, subject, oracle).verdicts)
  {
    RobotStepFacts(t, slot, subject, oracle);
    var next := RobotStep(t, slot, subject, oracle);
    assert next.verdicts[..|next.verdicts| - 1] == t.verdicts;
  }

  /**
    An anonymous input ontology and a test expected to fail: run returns true
    and the pass is counted, then getAnnotations cannot compute a base IRI,
    so the test's line says ERROR and it adds no provenance.
  */
  lemma AnonymousSubjectCountsError(t: Tally, slot: Slot, axioms: set<Axiom>, oracle: Oracle)
    requires slot.loaded.Some? && Protocol.ExpectedFailure(slot.loaded.value.annotations) == Ok(true)
    ensures RobotStep(t, slot, Some(SubjectView(axioms, None)), oracle) ==
            Tally(t.verdicts + [Error], t.passed + 1, t.annotations)
  {
  }

  /**
    A one-test run against an anonymous input ontology, the test being
    marked xfail "YES": the only line says ERROR, yet the summary reports
    1/1 passed and execute returns normally even with -x.
  */
  lemma AnonymousSubjectExample(axioms: set<Axiom>, testAxioms: set<Axiom>, name: string, oracle: Oracle)
    ensures var slot := Slot(name, Some(TestInput([Annotation(XfailProperty, Literal("YES"))], testAxioms)));
            ExecuteOf(Some(SubjectView(axioms, None)), [slot], oracle, None, true, true) ==
            ExecuteResult(Returned, [Error], Some(1), None)
  {
    var anns := [Annotation(XfailProperty, Literal("YES"))];
    var slot := Slot(name, Some(TestInput(anns, testAxioms)));
    assert Protocol.FirstValue(anns, XfailProperty) == Some(Literal("YES"));
    assert JavaString.EqualsIgnoreCase("YES", "yes");
    assert Protocol.ExpectedFailure(anns) == Ok(true);
    assert [slot][..0] == [];
    AnonymousSubjectCountsError(Tally([], 0, []), slot, axioms, oracle);
    assert RobotLoop([slot], Some(SubjectView(axioms, None)), oracle) == Tally([Error], 1, []);
  }

  /**
    With an input ontology, execute collects, in test order, the provenance
    of every test that loaded and whose run and getAnnotations returned,
    for passing and failing tests alike: the same list as the standalone
    program's.
  */
  lemma {:induction false} RobotLoopCollects(slots: seq<Slot>, subject: SubjectView, oracle: Oracle)
    ensures RobotLoop(slots, Some(subject), oracle).annotations == Program.Collected(slots, subject)
  {
    if slots != [] {
      RobotLoopCollects(slots[..|slots| - 1], subject, oracle);
    }
  }

  /** The collected provenance does not depend on what the reasoner reports. */
  lemma RobotProvenanceIndependentOfReasoner(slots: seq<Slot>, subject: Option<SubjectView>, o1: Oracle, o2: Oracle)
    ensures RobotLoop(slots, subject, o1).annotations == RobotLoop(slots, subject, o2).annotations
  {
    if subject.Some? {
      RobotLoopCollects(slots, subject.value, o1);
      RobotLoopCollects(slots, subject.value, o2);
    } else {
      RobotLoopWithoutSubject(slots, o1);
      RobotLoopWithoutSubject(slots, o2);
    }
  }

  /** How execute ends: it returns the command state, or throws. */
  datatype CommandOutcome = Returned | Thrown(error: Exception)

  /** The outcome, the per-test lines, the summary count if printed, and the component if saved. */
  datatype ExecuteResult = ExecuteResult(outcome: CommandOutcome, lines: seq<Verdict>, summary: Option<nat>,
                                         saved: Option<SavedComponent>)

  /**
    What execute does after the command line is parsed: without -t it throws
    before running anything; otherwise it runs the tests, saves the component
    when -c was given and provenance was collected (a failed save throws),
    and throws when -x was given and some test did not pass.
  */
  function ExecuteOf(subject: Option<SubjectView>, slots: seq<Slot>, oracle: Oracle,
                     componentFile: Option<string>, abortOnFailure: bool, saveSucceeds: bool): ExecuteResult
  {
    if slots == [] then ExecuteResult(Thrown(IllegalArgument(NoTestMessage)), [], None, None)
    else
      var t := RobotLoop(slots, subject, oracle);
      var saving := componentFile.Some? && |t.annotations| > 0;
      if saving && !saveSucceeds then ExecuteResult(Thrown(StorageFailure), t.verdicts, Some(t.passed), None)
      else
        var saved := if saving then Some(SavedComponent(componentFile.value, ElementsOf(t.annotations))) else None;
        if t.passed < |slots| && abortOnFailure then ExecuteResult(Thrown(TestsFailed), t.verdicts, Some(t.passed), saved)
        else ExecuteResult(Returned, t.verdicts, Some(t.passed), saved)
  }

  /** execute throws the "no test specified" exception exactly when no -t option was given. */
  lemma NoTestOption(subject: Option<SubjectView>, slots: seq<Slot>, oracle: Oracle,
                     componentFile: Option<string>, abortOnFailure: bool, saveSucceeds: bool)
    ensures var r := ExecuteOf(subject, slots, oracle, componentFile, abortOnFailure, saveSucceeds);
            (r.outcome == Thrown(IllegalArgument(NoTestMessage)) <==> slots == []) &&
            (slots == [] ==> r.lines == [] && r.summary == None)
  {
  }

  /**
    The component is saved only when -t and -c were given, provenance was
    collected and the save succeeds; it then holds exactly the collected
    assertions.
  */
  lemma RobotComponentGuard(subject: Option<SubjectView>, slots: seq<Slot>, oracle: Oracle,
                            componentFile: Option<string>, abortOnFailure: bool, saveSucceeds: bool)
    ensures var r := ExecuteOf(subject, slots, oracle, componentFile, abortOnFailure, saveSucceeds);
            var t := RobotLoop(slots, subject, oracle);
            && (r.saved.Some? <==> slots != [] && componentFile.Some? && |t.annotations| > 0 && saveSucceeds)
            && (r.saved.Some? ==> r.saved.value == SavedComponent(componentFile.value, ElementsOf(t.annotations)))
  {
  }

  /**
    With -t given and the component, if one is due, saved: execute throws
    "Some tests failed" exactly when -x was given and the counter is below
    the number of tests; otherwise it returns.
  */
  lemma AbortRule(subject: Option<SubjectView>, slots: seq<Slot>, oracle: Oracle,
                  componentFile: Option<string>, abortOnFailure: bool)
    requires slots != []
    ensures var r := ExecuteOf(subject, slots, oracle, componentFile, abortOnFailure, true);
            && (r.outcome == Thrown(TestsFailed) <==> abortOnFailure && RobotLoop(slots, subject, oracle).passed < |slots|)
            && (r.outcome.Returned? <==> !(abortOnFailure && RobotLoop(slots, subject, oracle).passed < |slots|))
            && (!abortOnFailure ==> r.outcome == Returned)
  {
  }

  /**
    When every test would also complete in the standalone program, both
    shells print the same lines, count the same passes and collect the same
    provenance.
  */
  lemma {:induction false} DriversAgree(slots: seq<Slot>, subject: SubjectView, oracle: Oracle)
    requires Program.TestLoop(slots, subject, oracle).crash.None?
    ensures RobotLoop(slots, Some(subject), oracle) == Program.TestLoop(slots, subject, oracle).tally
  {
    if slots != [] {
      var front := slots[..|slots| - 1];
      DriversAgree(front, subject, oracle);
    }
  }

  /**
    A loaded test ontology's axioms once its test has run: the input
    ontology's axioms are merged in when there is an input ontology and the
    xfail flag could be read; otherwise they are as loaded.
  */
  function AxiomsAfter(slot: Slot, subject: Option<SubjectView>): set<Axiom>
  {
    if subject.Some? then Program.MergedAfter(slot, subject.value)
    else
      match slot.loaded
      case None => {}
      case Some(input) => input.axioms
  }

  /**
    The body of execute's loop for one test. Loading is done by the caller:
    null stands for a test ontology that could not be loaded.
  */
  method RunSlot(t: Tally, testOntology: Ontology?, name: string, subject: Ontology?, oracle: Oracle)
    returns (next: Tally)
    requires testOntology != subject || testOntology == null
    modifies testOntology
    ensures next == RobotStep(t, old(SlotOf(name, testOntology)), old(ViewOf(subject)), oracle)
    ensures subject != null ==> subject.axioms == old(subject.axioms)
    ensures testOntology != null ==>
              testOntology.axioms == AxiomsAfter(old(SlotOf(name, testOntology)), old(ViewOf(subject)))
  {
    if testOntology == null || subject == null {
      return t.(verdicts := t.verdicts + [Error]);
    }
    var test := new MergeTest.MergeTest(testOntology, oracle, name);
    var pass := test.Run(subject);
    if pass.Err? {
      return t.(verdicts := t.verdicts + [Error]);
    }
    var passed := t.passed;
    var result := Fail;
    if pass.value {
      result := Pass;
      passed := passed + 1;
    }
    var more := test.GetAnnotations(subject);
    if more.Err? {
      return Tally(t.verdicts + [Error], passed, t.annotations);
    }
    return Tally(t.verdicts + [result], passed, t.annotations + more.value);
  }

  /**
    The loop of execute: every test runs, in order, against the input
    ontology of the command state (null when there is none). Loading is done
    by the caller: null stands for a test ontology that could not be loaded.
  */
  method RunTests(subject: Ontology?, tests: seq<string>, loaded: seq<Ontology?>, oracle: Oracle)
    returns (t: Tally)
    requires |loaded| == |tests|
    requires Separate(subject, loaded)
    modifies Objects(loaded)
    ensures t == RobotLoop(old(Snapshot(tests, loaded)), old(ViewOf(subject)), oracle)
    ensures subject != null ==> subject.axioms == old(subject.axioms)
    ensures forall j :: 0 <= j < |loaded| && loaded[j] != null ==>
              loaded[j].axioms == AxiomsAfter(old(Snapshot(tests, loaded))[j], old(ViewOf(subject)))
  {
    ghost var slots := Snapshot(tests, loaded);
    ghost var view := ViewOf(subject);
    t := Tally([], 0, []);

    var i := 0;
    while i < |tests|
      invariant 0 <= i <= |tests|
      invariant RobotLoop(slots[..i], view, oracle) == t
      invariant forall j :: i <= j < |loaded| ==> slots[j] == SlotOf(tests[j], loaded[j])
      invariant view == ViewOf(subject)
      invariant forall j :: 0 <= j < i && loaded[j] != null ==> loaded[j].axioms == AxiomsAfter(slots[j], view)
    {
      assert slots[..i + 1][..i] == slots[..i];
      assert slots[i] == SlotOf(tests[i], loaded[i]);
      assert RobotLoop(slots[..i + 1], view, oracle) == RobotStep(t, slots[i], view, oracle);
      t := RunSlot(t, loaded[i], tests[i], subject, oracle);
      i := i + 1;
    }
    assert slots[..i] == slots;
  }

  /**
    execute, after the command line is parsed: checks for -t, runs the
    tests, prints the summary, saves the component when one is due, and
    applies the abort rule. The input ontology keeps its axioms.
  */
  method Execute(subject: Ontology?, tests: seq<string>, loaded: seq<Ontology?>, oracle: Oracle,
                 componentFile: Option<string>, abortOnFailure: bool, saveSucceeds: bool)
    returns (outcome: CommandOutcome, lines: seq<Verdict>, summary: Option<nat>, saved: Option<SavedComponent>)
    requires |loaded| == |tests|
    requires Separate(subject, loaded)
    modifies Objects(loaded)
    ensures ExecuteResult(outcome, lines, summary, saved) ==
            ExecuteOf(old(ViewOf(subject)), old(Snapshot(tests, loaded)), oracle, componentFile, abortOnFailure, saveSucceeds)
    ensures subject != null ==> subject.axioms == old(subject.axioms)
    ensures forall j :: 0 <= j < |loaded| && loaded[j] != null ==>
              loaded[j].axioms == AxiomsAfter(old(Snapshot(tests, loaded))[j], old(ViewOf(subject)))
  {
    if |tests| == 0 {
      return Thrown(IllegalArgument(NoTestMessage)), [], None, None;
    }
    var t := RunTests(subject, tests, loaded, oracle);

    lines, summary, saved := t.verdicts, Some(t.passed), None;
    if componentFile.Some? && |t.annotations| > 0 {
      var component := BuildComponent(t.annotations);
      if !saveSucceeds {
        return Thrown(StorageFailure), lines, summary, None;
      }
      saved := Some(SavedComponent(componentFile.value, component.axioms));
    }
    if t.passed < |tests| && abortOnFailure {
      return Thrown(TestsFailed), lines, summary, saved;
    }
    outcome := Returned;
  }
}
