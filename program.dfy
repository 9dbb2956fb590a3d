/**
  The standalone program: loads the tested ontology (exiting if that fails),
  runs every test given on the command line with MergeTest, prints a line
  per test and a summary, optionally saves the collected provenance as a
  component, and chooses the exit code.

  This shell catches nothing around a test: an exception thrown by run or
  getAnnotations escapes process and main and ends the program.
*/
module Program {
  import opened Owl
  import opened Protocol
  import opened Report
  import MergeTest

  datatype ExitStatus =
    | NoError
    | CommandLineError
    | OntologyLoadingError
    | OntologyWritingError
    | FailedTestsError

  /** The numeric exit codes: 0 for success, a small positive code for each failure. */
  function ExitCode(status: ExitStatus): (code: int)
    ensures 0 <= code <= 4
    ensures code == 0 <==> status == NoError
  {
    match status
    case NoError => 0
    case CommandLineError => 1
    case OntologyLoadingError => 2
    case OntologyWritingError => 3
    case FailedTestsError => 4
  }

  /** Distinct statuses have distinct codes: the exit code tells the caller what happened. */
  lemma ExitCodesDistinct(a: ExitStatus, b: ExitStatus)
    ensures ExitCode(a) == ExitCode(b) <==> a == b
  {
  }

  // ---------------------------------------------------------------------
  // The test loop, as a function of the tests
  // ---------------------------------------------------------------------

  /** The loop's state: the tally, and the exception that ended it, if one did. */
  datatype LoopState = LoopState(tally: Tally, crash: Option<Exception>)

  /**
    One test: a test that failed to load is an ERROR and contributes nothing;
    otherwise run decides PASS or FAIL, the counter goes up on a pass, and
    getAnnotations' assertions are appended, whether the test passed or not.
  */
  function Step(t: Tally, slot: Slot, subject: SubjectView, oracle: Oracle): LoopState
  {
    match slot.loaded
    case None => LoopState(t.(verdicts := t.verdicts + [Error]), None)
    case Some(input) =>
      match MergeTest.RunResult(input.annotations, input.axioms, subject.axioms, oracle)
      case Err(e) => LoopState(t, Some(e))
      case Ok(pass) =>
        var passed := if pass then t.passed + 1 else t.passed;
        match MergeTest.Provenance(input.annotations, subject.id, slot.name)
        case Err(e) => LoopState(t.(passed := passed), Some(e))
        case Ok(axioms) =>
          LoopState(Tally(t.verdicts + [if pass then Pass else Fail], passed, t.annotations + axioms), None)
  }

  /** The loop over the tests, in order; it stops at the first exception. */
  function TestLoop(slots: seq<Slot>, subject: SubjectView, oracle: Oracle): LoopState
  {
    if slots == [] then LoopState(Tally([], 0, []), None)
    else
      var before := TestLoop(slots[..|slots| - 1], subject, oracle);
      if before.crash.Some? then before else Step(before.tally, slots[|slots| - 1], subject, oracle)
  }

  /** Once a test has thrown, the later tests do not run. */
  lemma {:induction false} CrashPersists(slots: seq<Slot>, n: nat, subject: SubjectView, oracle: Oracle)
    requires n <= |slots|
    requires TestLoop(slots[..n], subject, oracle).crash.Some?
    ensures TestLoop(slots, subject, oracle) == TestLoop(slots[..n], subject, oracle)
  {
    if n < |slots| {
      var front := slots[..|slots| - 1];
      assert front[..n] == slots[..n];
      CrashPersists(front, n, subject, oracle);
    } else {
      assert slots[..n] == slots;
    }
  }

  /** The verdict of one test on its own: ERROR if it did not load, else what run returned. */
  function VerdictOf(slot: Slot, subject: SubjectView, oracle: Oracle): (v: Verdict)
    ensures v == Error <==> slot.loaded.None?
  {
    match slot.loaded
    case None => Error
    case Some(input) =>
      if MergeTest.RunResult(input.annotations, input.axioms, subject.axioms, oracle) == Ok(true)
      then Pass else Fail
  }

  /**
    A step that throws nothing appends the test's own line and counts it
    exactly when it is PASS.
  */
  lemma StepFacts(t: Tally, slot: Slot, subject: SubjectView, oracle: Oracle)
    ensures var next := Step(t, slot, subject, oracle);
            next.crash.None? ==>
              && next.tally.verdicts == t.verdicts + [VerdictOf(slot, subject, oracle)]
              && next.tally.passed == t.passed + (if VerdictOf(slot, subject, oracle) == Pass then 1 else 0)
  {
  }

  /**
    When no exception ends the loop, there is one line per test and each
    test's line is its own verdict: tests do not influence each other, and
    ERROR marks exactly the tests that failed to load.
  */
  lemma {:induction false} TestLoopLines(slots: seq<Slot>, subject: SubjectView, oracle: Oracle)
    ensures var s := TestLoop(slots, subject, oracle);
            s.crash.None? ==>
              && |s.tally.verdicts| == |slots|
              && (forall i :: 0 <= i < |slots| ==> s.tally.verdicts[i] == VerdictOf(slots[i], subject, oracle))
  {
    if slots != [] {
      var front := slots[..|slots| - 1];
      var last := slots[|slots| - 1];
      var before := TestLoop(front, subject, oracle);
      var s := TestLoop(slots, subject, oracle);
      if s.crash.None? {
        assert before.crash.None?;
        TestLoopLines(front, subject, oracle);
        assert s == Step(before.tally, last, subject, oracle);
        StepFacts(before.tally, last, subject, oracle);
        assert forall i :: 0 <= i < |front| ==> front[i] == slots[i];
      }
    }
  }

  /** When no exception ends the loop, the counter is the number of PASS lines. */
  lemma {:induction false} TestLoopCounts(slots: seq<Slot>, subject: SubjectView, oracle: Oracle)
    ensures var s := TestLoop(slots, subject, oracle);
            s.crash.None? ==> s.tally.passed == CountPass(s.tally.verdicts)
  {
    if slots != [] {
      var front := slots[..|slots| - 1];
      var last := slots[|slots| - 1];
      var before := TestLoop(front, subject, oracle);
      var s := TestLoop(slots, subject, oracle);
      if s.crash.None? {
        assert before.crash.None?;
        TestLoopCounts(front, subject, oracle);
        assert s == Step(before.tally, last, subject, oracle);
        StepFacts(before.tally, last, subject, oracle);
        assert s.tally.verdicts[..|s.tally.verdicts| - 1] == before.tally.verdicts;
      }
    }
  }

  /**
    Provenance is collected whatever the verdict: the collected assertions,
    and whether an exception ends the loop, do not depend on what the
    reasoner reports.
  */
  lemma {:induction false} ProvenanceIndependentOfReasoner(slots: seq<Slot>, subject: SubjectView, o1: Oracle, o2: Oracle)
    ensures TestLoop(slots, subject, o1).crash == TestLoop(slots, subject, o2).crash
    ensures TestLoop(slots, subject, o1).tally.annotations == TestLoop(slots, subject, o2).tally.annotations
  {
    if slots != [] {
      ProvenanceIndependentOfReasoner(slots[..|slots| - 1], subject, o1, o2);
    }
  }

  /**
    What one test adds to the collected list: when it loaded and neither run
    nor getAnnotations threw, all of its provenance, whether it passed or
    failed; nothing otherwise. run throws only when the xfail flag cannot be
    read, so the reasoner plays no part here.
  */
  function Contribution(slot: Slot, subject: SubjectView): seq<Axiom>
  {
    match slot.loaded
    case None => []
    case Some(input) =>
      if ExpectedFailure(input.annotations).Err? then []
      else
        match MergeTest.Provenance(input.annotations, subject.id, slot.name)
        case Ok(axioms) => axioms
        case Err(_) => []
  }

  /** The contributions of the tests, in test order. */
  function Collected(slots: seq<Slot>, subject: SubjectView): seq<Axiom>
  {
    if slots == [] then []
    else Collected(slots[..|slots| - 1], subject) + Contribution(slots[|slots| - 1], subject)
  }

  /** Collecting over two runs of tests, one after the other, concatenates what each collects. */
  lemma {:induction false} CollectedAppend(a: seq<Slot>, b: seq<Slot>, subject: SubjectView)
    ensures Collected(a + b, subject) == Collected(a, subject) + Collected(b, subject)
  {
    if b == [] {
      assert a + b == a;
    } else {
      var front := b[..|b| - 1];
      assert (a + b)[..|a + b| - 1] == a + front;
      CollectedAppend(a, front, subject);
    }
  }

  /**
    When no exception ends the loop, process has collected, in test order,
    every loaded test's provenance, for passing and failing tests alike.
  */
  lemma {:induction false} TestLoopCollects(slots: seq<Slot>, subject: SubjectView, oracle: Oracle)
    ensures TestLoop(slots, subject, oracle).crash.None? ==>
              TestLoop(slots, subject, oracle).tally.annotations == Collected(slots, subject)
  {
    if slots != [] {
      var front := slots[..|slots| - 1];
      if TestLoop(slots, subject, oracle).crash.None? {
        assert TestLoop(front, subject, oracle).crash.None?;
        TestLoopCollects(front, subject, oracle);
      }
    }
  }

  /** The run succeeds exactly when every test is reported as PASS. */
  lemma SuccessIffAllPass(slots: seq<Slot>, subject: SubjectView, oracle: Oracle)
    requires TestLoop(slots, subject, oracle).crash.None?
    ensures |TestLoop(slots, subject, oracle).tally.verdicts| == |slots|
    ensures var t := TestLoop(slots, subject, oracle).tally;
            t.passed == |slots| <==> forall i :: 0 <= i < |slots| ==> t.verdicts[i] == Pass
  {
    TestLoopLines(slots, subject, oracle);
    TestLoopCounts(slots, subject, oracle);
    CountPassAll(TestLoop(slots, subject, oracle).tally.verdicts);
  }

  // ---------------------------------------------------------------------
  // process and main
  // ---------------------------------------------------------------------

  /** How process ends: it returns, it calls System.exit, or an exception escapes it. */
  datatype Outcome = Finished(success: bool) | Exited(status: ExitStatus) | Crashed(error: Exception)

  /** The outcome, the per-test lines, the summary count if printed, and the component if saved. */
  datatype ProcessResult = ProcessResult(outcome: Outcome, lines: seq<Verdict>, summary: Option<nat>,
                                         saved: Option<SavedComponent>)

  /**
    What process does: exit 2 if the tested ontology cannot be loaded; run
    the tests; save the component only when a component file was given and
    the collected list is non-empty (exit 3 if saving fails); succeed exactly
    when every test passed.
  */
  function ProcessOf(subject: Option<SubjectView>, slots: seq<Slot>, oracle: Oracle,
                     componentFile: Option<string>, saveSucceeds: bool): ProcessResult
  {
    match subject
    case None => ProcessResult(Exited(OntologyLoadingError), [], None, None)
    case Some(s) =>
      var loop := TestLoop(slots, s, oracle);
      var t := loop.tally;
      if loop.crash.Some? then ProcessResult(Crashed(loop.crash.value), t.verdicts, None, None)
      else if componentFile.None? || |t.annotations| == 0 then
        ProcessResult(Finished(t.passed == |slots|), t.verdicts, Some(t.passed), None)
      else if !saveSucceeds then
        ProcessResult(Exited(OntologyWritingError), t.verdicts, Some(t.passed), None)
      else
        ProcessResult(Finished(t.passed == |slots|), t.verdicts, Some(t.passed),
                      Some(SavedComponent(componentFile.value, ElementsOf(t.annotations))))
  }

  /**
    The component is saved only when a file was given and provenance was
    collected, and it then holds exactly the collected assertions.
  */
  lemma ComponentGuard(subject: SubjectView, slots: seq<Slot>, oracle: Oracle,
                       componentFile: Option<string>, saveSucceeds: bool)
    ensures var r := ProcessOf(Some(subject), slots, oracle, componentFile, saveSucceeds);
            var loop := TestLoop(slots, subject, oracle);
            && (r.saved.Some? <==>
                  loop.crash.None? && componentFile.Some? && |loop.tally.annotations| > 0 && saveSucceeds)
            && (r.saved.Some? ==>
                  r.saved.value == SavedComponent(componentFile.value, ElementsOf(loop.tally.annotations)))
  {
  }

  /** How main ends: System.exit with a status, or an uncaught exception. */
  datatype MainResult = Exit(status: ExitStatus) | Uncaught(error: Exception)

  /**
    main exits with NO_ERROR (code 0) if process succeeded and with
    FAILED_TESTS_ERROR (code 4) if it did not; an exit inside process keeps
    its status, and an exception escaping process escapes main.
  */
  function MainExit(outcome: Outcome): (r: MainResult)
    ensures r.Uncaught? <==> outcome.Crashed?
    ensures outcome.Finished? ==> r.Exit? && (ExitCode(r.status) == 0 <==> outcome.success)
    ensures outcome.Finished? && !outcome.success ==> ExitCode(r.status) == 4
    ensures outcome.Exited? ==> r == Exit(outcome.status)
  {
    match outcome
    case Finished(ok) => Exit(if ok then NoError else FailedTestsError)
    case Exited(status) => Exit(status)
    case Crashed(e) => Uncaught(e)
  }

  /**
    The program exits with status 0 exactly when the tested ontology loads,
    no test throws, every test is reported as PASS, and a component, when one
    is due, could be saved.
  */
  lemma MainSucceedsIffAllPass(subject: Option<SubjectView>, slots: seq<Slot>, oracle: Oracle,
                               componentFile: Option<string>, saveSucceeds: bool)
    ensures var r := ProcessOf(subject, slots, oracle, componentFile, saveSucceeds);
            MainExit(r.outcome) == Exit(NoError) <==>
              && subject.Some?
              && TestLoop(slots, subject.value, oracle).crash.None?
              && |r.lines| == |slots|
              && (forall i :: 0 <= i < |slots| ==> r.lines[i] == Pass)
              && (componentFile.None? || |TestLoop(slots, subject.value, oracle).tally.annotations| == 0 || saveSucceeds)
  {
    if subject.Some? && TestLoop(slots, subject.value, oracle).crash.None? {
      TestLoopLines(slots, subject.value, oracle);
      TestLoopCounts(slots, subject.value, oracle);
      SuccessIffAllPass(slots, subject.value, oracle);
    }
  }

  /**
    Three tests reported PASS, FAIL and ERROR: one passed out of three, and
    the program exits with FAILED_TESTS_ERROR.
  */
  lemma PassFailErrorExample(subject: SubjectView, slots: seq<Slot>, oracle: Oracle)
    requires |slots| == 3
    requires TestLoop(slots, subject, oracle).crash.None?
    requires TestLoop(slots, subject, oracle).tally.verdicts == [Pass, Fail, Error]
    ensures TestLoop(slots, subject, oracle).tally.passed == 1
    ensures MainExit(ProcessOf(Some(subject), slots, oracle, None, true).outcome) == Exit(FailedTestsError)
  {
    TestLoopCounts(slots, subject, oracle);
    var vs := [Pass, Fail, Error];
    assert vs[..2] == [Pass, Fail] && [Pass, Fail][..1] == [Pass] && [Pass][..0] == [];
  }

  /**
    A loaded test ontology's axioms once its test has run against the tested
    ontology: merged once the xfail flag has been read, as loaded otherwise.
  */
  function MergedAfter(slot: Slot, subject: SubjectView): set<Axiom>
  {
    match slot.loaded
    case None => {}
    case Some(input) => MergeTest.MergedAxioms(input.annotations, input.axioms, subject.axioms)
  }

  /**
    The body of process's loop for one test: ERROR when the test did not
    load; otherwise a MergeTest is built, run, and asked for its provenance.
    The test ontology receives the tested ontology's axioms; the tested
    ontology keeps its own.
  */
  method RunSlot(t: Tally, testOntology: Ontology?, name: string, subject: Ontology, oracle: Oracle)
    returns (s: LoopState)
    requires testOntology != subject
    modifies testOntology
    ensures s == Step(t, old(SlotOf(name, testOntology)), SubjectView(old(subject.axioms), subject.id), oracle)
    ensures subject.axioms == old(subject.axioms)
    ensures testOntology != null ==>
              testOntology.axioms == MergedAfter(old(SlotOf(name, testOntology)), SubjectView(old(subject.axioms), subject.id))
  {
    if testOntology == null {
      return LoopState(t.(verdicts := t.verdicts + [Error]), None);
    }
    var test := new MergeTest.MergeTest(testOntology, oracle, name);
    var pass := test.Run(subject);
    if pass.Err? {
      return LoopState(t, Some(pass.error));
    }
    var result := Fail;
    var passed := t.passed;
    if pass.value {
      result := Pass;
      passed := passed + 1;
    }
    var more := test.GetAnnotations(subject);
    if more.Err? {
      return LoopState(t.(passed := passed), Some(more.error));
    }
    return LoopState(Tally(t.verdicts + [result], passed, t.annotations + more.value), None);
  }

  /**
    The loop of process: runs every test in order against the tested
    ontology, merging it into each loaded test ontology, and stops at the
    first exception. Loading is done by the caller: null stands for a test
    ontology that could not be loaded.
  */
  method RunTests(subject: Ontology, tests: seq<string>, loaded: seq<Ontology?>, oracle: Oracle)
    returns (s: LoopState)
    requires |loaded| == |tests|
    requires Separate(subject, loaded)
    modifies Objects(loaded)
    ensures s == TestLoop(old(Snapshot(tests, loaded)), SubjectView(old(subject.axioms), subject.id), oracle)
    ensures subject.axioms == old(subject.axioms)
    ensures s.crash.None? ==>
              forall j :: 0 <= j < |loaded| && loaded[j] != null ==>
                loaded[j].axioms == MergedAfter(old(Snapshot(tests, loaded))[j], SubjectView(old(subject.axioms), subject.id))
  {
    ghost var slots := Snapshot(tests, loaded);
    ghost var view := SubjectView(subject.axioms, subject.id);
    var t := Tally([], 0, []);

    var i := 0;
    while i < |tests|
      invariant 0 <= i <= |tests|
      invariant TestLoop(slots[..i], view, oracle) == LoopState(t, None)
      invariant forall j :: i <= j < |loaded| ==> slots[j] == SlotOf(tests[j], loaded[j])
      invariant subject.axioms == view.axioms
      invariant forall j :: 0 <= j < i && loaded[j] != null ==> loaded[j].axioms == MergedAfter(slots[j], view)
    {
      assert slots[..i + 1][..i] == slots[..i];
      assert slots[i] == SlotOf(tests[i], loaded[i]);
      s := RunSlot(t, loaded[i], tests[i], subject, oracle);
      if s.crash.Some? {
        CrashPersists(slots, i + 1, view, oracle);
        return;
      }
      t := s.tally;
      i := i + 1;
    }
    assert slots[..i] == slots;
    s := LoopState(t, None);
  }

  /**
    process: exits if the tested ontology could not be loaded (null here),
    runs the tests, prints the summary, and saves the component when one is
    due. An exception from a test escapes it.
  */
  method Process(subject: Ontology?, tests: seq<string>, loaded: seq<Ontology?>, oracle: Oracle,
                 componentFile: Option<string>, saveSucceeds: bool)
    returns (outcome: Outcome, lines: seq<Verdict>, summary: Option<nat>, saved: Option<SavedComponent>)
    requires |loaded| == |tests|
    requires Separate(subject, loaded)
    modifies Objects(loaded)
    ensures ProcessResult(outcome, lines, summary, saved) ==
            ProcessOf(old(ViewOf(subject)), old(Snapshot(tests, loaded)), oracle, componentFile, saveSucceeds)
    ensures subject != null ==> subject.axioms == old(subject.axioms)
    ensures subject != null && !outcome.Crashed? ==>
              forall j :: 0 <= j < |loaded| && loaded[j] != null ==>
                loaded[j].axioms == MergedAfter(old(Snapshot(tests, loaded))[j], SubjectView(old(subject.axioms), subject.id))
  {
    if subject == null {
      return Exited(OntologyLoadingError), [], None, None;
    }
    var loop := RunTests(subject, tests, loaded, oracle);
    var t := loop.tally;
    if loop.crash.Some? {
      return Crashed(loop.crash.value), t.verdicts, None, None;
    }

    lines, summary, saved := t.verdicts, Some(t.passed), None;
    if componentFile.Some? && |t.annotations| > 0 {
      var component := BuildComponent(t.annotations);
      if !saveSucceeds {
        return Exited(OntologyWritingError), lines, summary, None;
      }
      saved := Some(SavedComponent(componentFile.value, component.axioms));
    }
    outcome := Finished(t.passed == |tests|);
  }
}
