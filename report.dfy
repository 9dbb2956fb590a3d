/**
  What the two command-line shells (the standalone program and the plugin
  command) share: the per-test verdict they report, the tally they keep, the
  view of the tests they were given, and the annotations component they write.
*/
module Report {
  import opened Owl

  /** The word printed for each test. */
  datatype Verdict = Pass | Fail | Error

  /** How many tests were reported as passing. */
  function CountPass(verdicts: seq<Verdict>): (n: nat)
    ensures n <= |verdicts|
  {
    if verdicts == [] then 0
    else CountPass(verdicts[..|verdicts| - 1]) + (if verdicts[|verdicts| - 1] == Pass then 1 else 0)
  }

  /** Every test is reported as passing exactly when the count of passes is the number of tests. */
  lemma {:induction false} CountPassAll(verdicts: seq<Verdict>)
    ensures CountPass(verdicts) == |verdicts| <==> forall i :: 0 <= i < |verdicts| ==> verdicts[i] == Pass
  {
    if verdicts != [] {
      var front := verdicts[..|verdicts| - 1];
      CountPassAll(front);
      assert forall i :: 0 <= i < |front| ==> front[i] == verdicts[i];
    }
  }

  /** A loaded test ontology, as it was before its test ran. */
  datatype TestInput = TestInput(annotations: seq<Annotation>, axioms: set<Axiom>)

  /** One test given on the command line: its file name, and its ontology unless loading failed. */
  datatype Slot = Slot(name: string, loaded: Option<TestInput>)

  /** The tested ontology, as the tests see it. */
  datatype SubjectView = SubjectView(axioms: set<Axiom>, id: Option<Iri>)

  /** The lines printed so far, the pass counter, and the collected provenance. */
  datatype Tally = Tally(verdicts: seq<Verdict>, passed: nat, annotations: seq<Axiom>)

  /** A component file written to disk, with the axioms of the ontology saved in it. */
  datatype SavedComponent = SavedComponent(file: string, axioms: set<Axiom>)

  /** The objects loading produced. */
  function Objects(loaded: seq<Ontology?>): set<Ontology?>
  {
    set i | 0 <= i < |loaded| && loaded[i] != null :: loaded[i]
  }

  /**
    Each load produces a new ontology: the loaded test ontologies are pairwise
    distinct objects, and none of them is the tested ontology.
  */
  ghost predicate Separate(subject: Ontology?, loaded: seq<Ontology?>)
  {
    && (forall i, j :: 0 <= i < j < |loaded| && loaded[i] != null ==> loaded[i] != loaded[j])
    && (forall i :: 0 <= i < |loaded| && loaded[i] != null ==> loaded[i] != subject)
  }

  /** One test as a value: its file name, and its ontology's current content unless loading failed. */
  ghost function SlotOf(name: string, testOntology: Ontology?): Slot
    reads testOntology
  {
    Slot(name, if testOntology == null then None
               else Some(TestInput(testOntology.annotations, testOntology.axioms)))
  }

  /** The tests as values: names with the current content of the loaded ontologies. */
  ghost function Snapshot(tests: seq<string>, loaded: seq<Ontology?>): (slots: seq<Slot>)
    requires |tests| == |loaded|
    reads Objects(loaded)
    ensures |slots| == |tests|
  {
    seq(|tests|, i requires 0 <= i < |tests| reads Objects(loaded) => SlotOf(tests[i], loaded[i]))
  }

  /** The tested ontology as a value, None when there is none. */
  ghost function ViewOf(subject: Ontology?): Option<SubjectView>
    reads subject
  {
    if subject == null then None else Some(SubjectView(subject.axioms, subject.id))
  }

  /** The axioms of a list, as the set an ontology holds. */
  function ElementsOf(axioms: seq<Axiom>): set<Axiom>
  {
    set a | a in axioms
  }

  /**
    Creates an anonymous ontology and adds the collected axioms to it one by
    one: it then holds exactly those axioms, duplicates collapsed.
  */
  method BuildComponent(annotations: seq<Axiom>) returns (component: Ontology)
    ensures fresh(component)
    ensures component.axioms == ElementsOf(annotations)
    ensures component.annotations == [] && component.id == None
  {
    component := new Ontology({}, [], None);
    for i := 0 to |annotations|
      invariant component.axioms == ElementsOf(annotations[..i])
    {
      assert annotations[..i + 1] == annotations[..i] + [annotations[i]];
      component.axioms := component.axioms + {annotations[i]};
    }
    assert annotations[..|annotations|] == annotations;
  }
}
