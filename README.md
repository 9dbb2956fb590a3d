# ocelliless test protocol, in Dafny

ocelliless runs unit tests on an OWL ontology. A test is a small ontology
file. It is merged with the tested ontology (the "subject"), and a reasoner
is asked whether the merged ontology is consistent and whether any named
class became unsatisfiable. A test passes when neither happened, or when
its header says it is expected to fail. Tests can also name the class they
are about (a "target"). The runner then emits provenance assertions: each
says that the target class is covered by the test file, and they can be
saved as an ontology component.

This project models that protocol without the OWL libraries.

- `owl.dfy`: ontologies with mutable axiom sets and fixed header annotations
  and IRIs. The reasoner is an oracle (a function from axioms to
  consistency and bottom node) wrapped in a reasoner object that is created,
  queried and disposed. Java exceptions become a `Result` datatype.
- `java_string.dfy`: `String.lastIndexOf` and ASCII `equalsIgnoreCase`.
- `itest.dfy`: the reserved annotation properties of the `ITest` interface.
- `protocol.dfy`: what both test implementations share:
  - the first-match scan of header annotations (`FirstValue`, and the loop
    `FindFirst` proved against it);
  - the xfail and target lookups;
  - the verdict rule `(consistent && |bottom node| == 1) || xfail`;
  - the base-IRI cut after the last '/'.
- `merge_test.dfy`: the `MergeTest` class. `run` merges the subject into the
  test ontology in place and uses a reasoner that it disposes.
  `getAnnotations` emits one provenance assertion per target annotation.
  Both are proved against the functions `RunResult` and `Provenance`.
- `test_driver.dfy`: the `TestDriver` class, a second runner that neither
  shell uses. It keeps a checked
  ontology and a list of (target, test IRI) pairs, recorded before
  reasoning, and honours only the first target annotation. Lemmas relate it
  to `MergeTest`.
- `report.dfy`: what the two command-line shells share: verdict lines, the
  tally, the tests seen as values, and the component builder.
- `program.dfy`: the standalone program's `process` loop and `main`'s exit
  status. No exception is caught: one thrown by a test ends the program.
- `robot_command.dfy`: the plugin command's `execute`. Every exception a
  test throws becomes an ERROR line. It also models the `-t` check, the
  component write and the `-x` abort rule.

Each loop that the Java code runs becomes a method with a `while` loop.
Each such method is proved equal to a function over the inputs (`TestLoop`,
`RobotLoop`, `TargetAssertions`, `FirstValue`). The lemmas then state the
promised properties about those functions.

Some behaviours of the code differ from what its names and documentation
suggest. The model follows the code:

- "Bottom node of size one" means "no named unsatisfiable class". The node
  always holds owl:Nothing, so size one does not mean "exactly one
  unsatisfiable class" (`Owl.BottomNodeSingleton`).
- `MergeTest.getAnnotations` emits an assertion for every target
  annotation. Only `TestDriver` keeps just the first.
- `MergeTest.getAnnotations` computes the base IRI before its loop.
  Against an anonymous tested ontology it therefore throws, even for a test
  without target (`MergeTest.AnonymousSubjectThrows`). In the plugin command
  this prints ERROR for a test already counted as passed
  (`RobotCommand.AnonymousSubjectCountsError`).
- A reasoner is disposed only on the normal path. There is no try/finally.
- `MergeTest` and `RobotCommand` live in package
  `org.incenp.obofoundry.ocelliless`, and `ITest` lives in
  `org.incenp.ocelliless`. They are treated as one unit here.

## Model

| member | source | states |
|---|---|---|
| Owl.BottomNodeSingleton | src/main/java/org/incenp/obofoundry/ocelliless/MergeTest.java:65 | a bottom node (which always holds owl:Nothing) has size one exactly when it is {owl:Nothing}: the size test means "no named unsatisfiable class" |
| ITest.ReservedProperties | src/main/java/org/incenp/ocelliless/ITest.java:32-56 | the target, xfail and test properties are pairwise distinct and each starts with the ocelliless base IRI |
| JavaString.LastIndexOf | src/main/java/org/incenp/obofoundry/ocelliless/MergeTest.java:110 | String.lastIndexOf: -1 or an index holding the character, with no occurrence after it |
| JavaString.EqualsIgnoreCaseYes | src/main/java/org/incenp/obofoundry/ocelliless/MergeTest.java:101 | equalsIgnoreCase("yes") holds exactly for the three-letter strings y/Y, e/E, s/S |
| Protocol.FirstValue | src/main/java/org/incenp/obofoundry/ocelliless/MergeTest.java:98-106 | the first-match scan finds nothing exactly when no annotation has the property |
| Protocol.FirstValueIsFirst | src/main/java/org/incenp/obofoundry/ocelliless/MergeTest.java:99-103 | the scan returns the value of the first annotation with the property, whatever follows it |
| Protocol.FindFirst | src/main/java/org/incenp/ocelliless/TestDriver.java:74-80 | the loop with early return computes the first-match value |
| Protocol.ExpectedFailureFirstWins | src/main/java/org/incenp/obofoundry/ocelliless/MergeTest.java:98-106 | the xfail flag is decided by the first xfail annotation alone: a literal gives equalsIgnoreCase("yes"), an IRI value fails with EmptyOptional (get() on an empty Optional) |
| Protocol.ExpectedFailureAbsent | src/main/java/org/incenp/obofoundry/ocelliless/MergeTest.java:105 | without any xfail annotation a test is not expected to fail |
| Protocol.TargetOfFirstWins | src/main/java/org/incenp/ocelliless/TestDriver.java:83-91 | getTargetIRI returns the IRI of the first target annotation only; a literal there throws |
| Protocol.PassesMeaning | src/main/java/org/incenp/obofoundry/ocelliless/MergeTest.java:65-68 | without xfail the verdict holds exactly when the merged ontology is consistent and the bottom node is {owl:Nothing}; with xfail it always holds |
| Protocol.Classify | src/main/java/org/incenp/obofoundry/ocelliless/MergeTest.java:64-66 | a fresh reasoner on the merged ontology, disposed afterwards; the verdict part is consistency and a bottom node of size one, the bottom node being asked for only when consistent |
| Protocol.BaseIri | src/main/java/org/incenp/obofoundry/ocelliless/MergeTest.java:108-111 | the base IRI is a prefix of the IRI, ends with '/' unless empty, and no '/' follows it in the IRI |
| Protocol.BaseIriUnique | src/main/java/org/incenp/obofoundry/ocelliless/MergeTest.java:110 | those three properties determine the base IRI: it is the cut after the last '/' |
| Protocol.BaseIriEmpty | src/main/java/org/incenp/ocelliless/TestDriver.java:93-96 | the base IRI is empty exactly when the IRI has no '/' |
| Protocol.BaseIriOfTestIri | src/main/java/org/incenp/obofoundry/ocelliless/MergeTest.java:80 | a test IRI base + file name (file name without '/') has the same base again |
| Protocol.BaseIriOf | src/main/java/org/incenp/ocelliless/TestDriver.java:93-96 | an anonymous ontology fails with EmptyOptional (get() on an empty Optional) and only then; otherwise the result is a prefix of the ontology IRI that ends in '/' unless empty and has no '/' after it, which by BaseIriUnique is the cut after the last '/' |
| MergeTest.RunExpectedFailurePasses | src/main/java/org/incenp/obofoundry/ocelliless/MergeTest.java:61-68 | a test whose first xfail annotation says "yes" in any case passes whatever the reasoner reports |
| MergeTest.RunWithoutExpectedFailure | src/main/java/org/incenp/obofoundry/ocelliless/MergeTest.java:61-68 | a test not expected to fail passes exactly when the merged ontology is consistent with no named unsatisfiable class |
| MergeTest.TargetAssertionsSpec | src/main/java/org/incenp/obofoundry/ocelliless/MergeTest.java:77-83 | the assertions succeed exactly when every target value is an IRI, and then there is one test-property assertion per target annotation, in order, each pointing to the test IRI |
| MergeTest.TargetAssertionsStopAtLiteral | src/main/java/org/incenp/obofoundry/ocelliless/MergeTest.java:78-80 | a literal value on a target annotation makes getAnnotations throw EmptyOptional |
| MergeTest.TargetAssertionsErrIsEmptyOptional | src/main/java/org/incenp/obofoundry/ocelliless/MergeTest.java:80 | the only exception the loop throws is EmptyOptional |
| MergeTest.ProvenanceWithoutTarget | src/main/java/org/incenp/obofoundry/ocelliless/MergeTest.java:71-86 | a test without target annotation yields an empty list, against a tested ontology with an IRI |
| MergeTest.AnonymousSubjectThrows | src/main/java/org/incenp/obofoundry/ocelliless/MergeTest.java:75 | against an anonymous tested ontology getAnnotations throws, even for a test without target |
| MergeTest.ProvenanceExample | src/main/java/org/incenp/obofoundry/ocelliless/MergeTest.java:71-86 | target ex:ont#ClassA, tested ontology http://example.org/ont.owl, test file t1.owl give one assertion ClassA test http://example.org/t1.owl |
| MergeTest.MergeTest.constructor | src/main/java/org/incenp/obofoundry/ocelliless/MergeTest.java:54-58 | the test holds its ontology, reasoner and base name, and has created no reasoner |
| MergeTest.MergeTest.Run | src/main/java/org/incenp/obofoundry/ocelliless/MergeTest.java:60-69 | returns the verdict on the merged axioms; the test ontology gains the tested ontology's axioms, which keeps its own; one fresh reasoner over the merged axioms is created and disposed; when isExpectedFailure throws nothing changes |
| MergeTest.MergeTest.GetAnnotations | src/main/java/org/incenp/obofoundry/ocelliless/MergeTest.java:71-86 | returns the provenance assertions of the test and modifies nothing, the tested ontology included |
| MergeTest.MergeTest.IsExpectedFailure | src/main/java/org/incenp/obofoundry/ocelliless/MergeTest.java:98-106 | returns the first-match xfail flag |
| TestDriver.RecordedIffTarget | src/main/java/org/incenp/ocelliless/TestDriver.java:58-62 | with a readable test and a checked ontology with an IRI, a pair is recorded exactly when the test has a target annotation: the first one, with test IRI = base IRI + file name |
| TestDriver.RecordedBeforeReasoning | src/main/java/org/incenp/ocelliless/TestDriver.java:58-70 | what is recorded, and whether runTest throws, do not depend on what the reasoner reports |
| TestDriver.VerdictAgreesWithMergeTest | src/main/java/org/incenp/ocelliless/TestDriver.java:64-70 | runTest returns the same verdict as MergeTest.run on the same test and ontology |
| TestDriver.ProvenanceAgreesWithMergeTest | src/main/java/org/incenp/ocelliless/TestDriver.java:98-111 | with at most one target annotation, MergeTest's provenance is the assertion of the pair TestDriver records |
| TestDriver.FirstTargetIsFirstValue | src/main/java/org/incenp/ocelliless/TestDriver.java:83-91 | the first target value is the head of the list of all target values |
| TestDriver.TestDriver.constructor | src/main/java/org/incenp/ocelliless/TestDriver.java:46-50 | a fresh driver has no checked ontology and an empty targetsList |
| TestDriver.TestDriver.SetOntology | src/main/java/org/incenp/ocelliless/TestDriver.java:52-54 | replaces the checked ontology and nothing else |
| TestDriver.TestDriver.RunTest | src/main/java/org/incenp/ocelliless/TestDriver.java:56-71 | result and appended pair as the protocol defines them, with a null checked ontology throwing; the test ontology gains the checked ontology's axioms only on success; the checked ontology keeps its axioms; one disposed reasoner over the merged axioms |
| TestDriver.TestDriver.IsExpectedFailure | src/main/java/org/incenp/ocelliless/TestDriver.java:73-81 | returns the first-match xfail flag |
| TestDriver.TestDriver.GetTargetIri | src/main/java/org/incenp/ocelliless/TestDriver.java:83-91 | returns the first target IRI or none |
| TestDriver.TestDriver.GetAnnotations | src/main/java/org/incenp/ocelliless/TestDriver.java:98-111 | throws NullPointer exactly when no checked ontology is set; otherwise one test-property assertion per recorded pair in insertion order, leaving the list as it is |
| Report.CountPass | src/main/java/org/incenp/ocelliless/Program.java:182 | the number of PASS lines is at most the number of tests |
| Report.CountPassAll | src/main/java/org/incenp/ocelliless/Program.java:213 | the count of PASS lines equals the number of tests exactly when every line is PASS |
| Report.BuildComponent | src/main/java/org/incenp/ocelliless/Program.java:189-195 | a new anonymous ontology holding exactly the collected axioms |
| Program.ExitCode | src/main/java/org/incenp/ocelliless/Program.java:47-51 | the exit codes lie in 0..4 and are 0 exactly for NO_ERROR |
| Program.ExitCodesDistinct | src/main/java/org/incenp/ocelliless/Program.java:47-51 | distinct statuses have distinct codes |
| Program.CrashPersists | src/main/java/org/incenp/ocelliless/Program.java:155-214 | once run or getAnnotations throws, no later test runs |
| Program.StepFacts | src/main/java/org/incenp/ocelliless/Program.java:162-179 | a test that throws nothing appends its own line and raises the counter exactly when that line is PASS |
| Program.TestLoopLines | src/main/java/org/incenp/ocelliless/Program.java:160-180 | when nothing throws: one line per test, each decided by its own test alone, ERROR exactly for the tests that did not load |
| Program.TestLoopCounts | src/main/java/org/incenp/ocelliless/Program.java:160-180 | when nothing throws, passed equals the number of PASS lines |
| Program.ProvenanceIndependentOfReasoner | src/main/java/org/incenp/ocelliless/Program.java:168-176 | the collected provenance, and whether the loop throws, do not depend on the reasoner: annotations are kept for passing and failing tests alike |
| Program.CollectedAppend | src/main/java/org/incenp/ocelliless/Program.java:176 | the reference list Collected splits over any concatenation of test lists: each test's contribution keeps its place in test order, whatever tests come before or after it |
| Program.TestLoopCollects | src/main/java/org/incenp/ocelliless/Program.java:160-180 | when nothing throws, the collected list is the concatenation, in test order, of each loaded test's provenance, for passing and failing tests alike; tests that did not load add nothing |
| Program.SuccessIffAllPass | src/main/java/org/incenp/ocelliless/Program.java:213 | process's result holds exactly when every line is PASS |
| Program.ComponentGuard | src/main/java/org/incenp/ocelliless/Program.java:185-211 | a component is saved exactly when a file was given, provenance was collected and saving succeeds, and it holds exactly the collected axioms |
| Program.MainExit | src/main/java/org/incenp/ocelliless/Program.java:238-240 | main exits with code 0 exactly when process returned true and with code 4 when it returned false; an exit inside process keeps its status; an exception escaping process escapes main |
| Program.MainSucceedsIffAllPass | src/main/java/org/incenp/ocelliless/Program.java:232-241 | main exits with NO_ERROR exactly when the tested ontology loads, no test throws, every line is PASS and a due component is saved |
| Program.PassFailErrorExample | src/main/java/org/incenp/ocelliless/Program.java:160-180 | lines PASS, FAIL, ERROR give passed = 1 and exit status FAILED_TESTS_ERROR |
| Program.RunSlot | src/main/java/org/incenp/ocelliless/Program.java:162-177 | one iteration of the loop, as the loop's step function gives it; the tested ontology keeps its axioms; the test ontology gains them once the xfail flag has been read |
| Program.RunTests | src/main/java/org/incenp/ocelliless/Program.java:160-180 | the loop's tally, or the exception that ends it, as the loop function gives it from the ontologies before the loop; the tested ontology keeps its axioms; when no test throws, each loaded test ontology ends up with its merged axioms |
| Program.Process | src/main/java/org/incenp/ocelliless/Program.java:155-214 | lines, summary, outcome and saved component as the process function gives them from the ontologies before the call; the tested ontology keeps its axioms; unless a test throws, each loaded test ontology ends up with its merged axioms |
| RobotCommand.RobotStepFacts | src/main/java/org/incenp/obofoundry/ocelliless/RobotCommand.java:85-98 | one test appends its own line and counts a pass exactly when run returned true |
| RobotCommand.RobotLoopLines | src/main/java/org/incenp/obofoundry/ocelliless/RobotCommand.java:82-101 | one line per test, each decided by that test alone |
| RobotCommand.RobotLoopCounts | src/main/java/org/incenp/obofoundry/ocelliless/RobotCommand.java:82-101 | the number of PASS lines is at most passed, which is at most the number of tests |
| RobotCommand.RobotLoopWithoutSubject | src/main/java/org/incenp/obofoundry/ocelliless/RobotCommand.java:82-101 | without an input ontology every test is ERROR, none is counted and nothing is collected |
| RobotCommand.PassedExact | src/main/java/org/incenp/obofoundry/ocelliless/RobotCommand.java:88-98 | when no getAnnotations call throws, passed equals the number of PASS lines |
| RobotCommand.AnonymousSubjectCountsError | src/main/java/org/incenp/obofoundry/ocelliless/RobotCommand.java:88-98 | against an anonymous input ontology, any loaded test expected to fail prints ERROR yet is counted as passed, and adds no provenance |
| RobotCommand.AnonymousSubjectExample | src/main/java/org/incenp/obofoundry/ocelliless/RobotCommand.java:61-123 | example: one xfail test against an anonymous input ontology gives the line ERROR and the summary 1/1, and execute returns even with -x |
| RobotCommand.RobotLoopCollects | src/main/java/org/incenp/obofoundry/ocelliless/RobotCommand.java:95 | with an input ontology, the collected list is the standalone program's: each loaded test's provenance in test order, passing and failing tests alike, skipping tests whose run or getAnnotations threw |
| RobotCommand.RobotProvenanceIndependentOfReasoner | src/main/java/org/incenp/obofoundry/ocelliless/RobotCommand.java:82-101 | the collected list does not depend on what the reasoner reports |
| RobotCommand.NoTestOption | src/main/java/org/incenp/obofoundry/ocelliless/RobotCommand.java:73-75 | execute throws the "No test specified" exception exactly when no -t option is given, before any line is printed |
| RobotCommand.RobotComponentGuard | src/main/java/org/incenp/obofoundry/ocelliless/RobotCommand.java:105-116 | the component is saved exactly when -t and -c were given, the collected list is non-empty and the save succeeds, and it then holds exactly the collected assertions |
| RobotCommand.AbortRule | src/main/java/org/incenp/obofoundry/ocelliless/RobotCommand.java:118-122 | with -t given and any due component saved, execute throws "Some tests failed" exactly when -x was given and passed is below the number of tests, and returns otherwise |
| RobotCommand.DriversAgree | src/main/java/org/incenp/obofoundry/ocelliless/RobotCommand.java:82-101 | when no test throws in the standalone program, both shells print the same lines, count the same passes and collect the same provenance |
| RobotCommand.RunSlot | src/main/java/org/incenp/obofoundry/ocelliless/RobotCommand.java:85-98 | one iteration of the loop, as the loop's step function gives it; the input ontology keeps its axioms; the test ontology gains them when there is an input ontology and the xfail flag could be read |
| RobotCommand.RunTests | src/main/java/org/incenp/obofoundry/ocelliless/RobotCommand.java:82-101 | every test runs; the tally is the one the loop function gives from the ontologies before the loop; the input ontology keeps its axioms; each loaded test ontology ends up with its merged axioms |
| RobotCommand.Execute | src/main/java/org/incenp/obofoundry/ocelliless/RobotCommand.java:61-123 | outcome, lines, summary and saved component as the execute function gives them from the ontologies before the call; the input ontology keeps its axioms; each loaded test ontology ends up with its axioms after its run |

## Left out

- Command-line parsing, help and version output: both shells take the parsed values as parameters. A missing `-t` option is an empty list of tests, because commons-cli gives at least one value when the option is present.
- Loading ontologies from files: each method takes the loaded ontologies, with null for a file that could not be loaded. The test ontologies must be distinct objects, distinct from the tested one, as fresh loads are. In the standalone program, a tested ontology that cannot be loaded is a null subject, and process exits with ONTOLOGY_LOADING_ERROR.
- RobotCommand.Execute: a null subject stands only for a command state without an input ontology. A failed load of the `-i` ontology throws from ROBOT's command-line helper before the `-t` check and before any line is printed. That helper is not part of this model.
- Saving the component: the outcome of the write is a boolean parameter. A partly written file is not modelled. The three Java exceptions of that write (creation, storage, file not found) are one `StorageFailure` in the plugin command, and one exit with ONTOLOGY_WRITING_ERROR in the program.
- Which JVM exit code an uncaught exception gives: `Program.MainExit` reports `Uncaught`, not a number. Its clash with COMMAND_LINE_ERROR (both are 1) is not modelled.
- The ELK reasoner: an oracle function of the merged axioms. The well-formedness of the bottom node (it holds owl:Nothing) is a premise of the lemmas that need it.
- Exceptions thrown by the reasoner itself, and the disposal they would skip: the oracle always answers.
- Logging and message formatting: the model keeps the verdict lines and the summary count, not the text around them.
- The lazily created ontology manager, `RobotProvider` registration, and the command-state plumbing of the plugin command.
- `JavaString.EqualsIgnoreCaseYes`: case folding is ASCII only. Java's equalsIgnoreCase also matches some non-ASCII characters (U+017F LATIN SMALL LETTER LONG S folds to 's'), so "yeſ" counts as "yes" in Java but not here.
- Ontology IRIs, annotation values and file names are plain strings. IRI.create's parsing is not modelled.
- The order of header annotations is the order in which the ontology enumerates them.
- Provenance is a list of assertions. Adding it to the component ontology collapses duplicates (`Report.BuildComponent`).
