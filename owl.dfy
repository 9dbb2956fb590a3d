/**
  The part of the OWL API that the test protocol touches: ontologies with
  their axioms, header annotations and optional ontology IRI, and a reasoner
  created on an ontology, queried, then disposed.

  The description-logic reasoner itself is not modelled: it is an oracle, a
  function from a set of axioms to what the reasoner reports about them.
*/
module Owl {

  type Iri = string

  datatype Option<+T> = None | Some(value: T)

  /** The Java exceptions that can escape the code modelled here. */
  datatype Exception =
    | EmptyOptional            // get() on an empty Optional (java.util or Guava, whichever the OWL API provides)
    | NullPointer              // a call on a null ontology reference
    | IllegalArgument(message: string)
    | TestsFailed              // the plugin command's "Some tests failed"
    | StorageFailure           // the component could not be created or saved

  /** A value, or the exception a Java call threw instead of returning one. */
  datatype Result<+T> = Ok(value: T) | Err(error: Exception)

  /** The value of an annotation: an IRI or a literal. */
  datatype Value = IriValue(iri: Iri) | Literal(lexical: string)

  /** A header annotation of an ontology. */
  datatype Annotation = Annotation(property: Iri, value: Value)

  /**
    An axiom. The core only ever builds annotation assertions; every other
    axiom of an ontology is opaque to it and is kept as its text.
  */
  datatype Axiom =
    | AnnotationAssertion(property: Iri, subject: Iri, target: Iri)
    | LogicalAxiom(text: string)

  /** An ontology whose axiom set can be extended in place (OWLOntologyManager.addAxioms). */
  class Ontology {
    var axioms: set<Axiom>
    const annotations: seq<Annotation>
    const id: Option<Iri>

    constructor (axioms: set<Axiom>, annotations: seq<Annotation>, id: Option<Iri>)
      ensures this.axioms == axioms && this.annotations == annotations && this.id == id
    {
      this.axioms := axioms;
      this.annotations := annotations;
      this.id := id;
    }
  }

  const OwlNothing: Iri := "http://www.w3.org/2002/07/owl#Nothing"

  /**
    What a reasoner reports about a set of axioms: whether they are consistent,
    and the bottom node, i.e. the classes equivalent to owl:Nothing.
  */
  datatype Classification = Classification(consistent: bool, bottomNode: set<Iri>)

  /** A reasoner's behaviour, seen from outside. */
  type Oracle = set<Axiom> -> Classification

  /** The OWL API's bottom node always holds owl:Nothing itself. */
  predicate WellFormed(c: Classification)
  {
    OwlNothing in c.bottomNode
  }

  /**
    A bottom node of size one holds owl:Nothing and nothing else: the ontology
    has no named unsatisfiable class.
  */
  lemma BottomNodeSingleton(c: Classification)
    requires WellFormed(c)
    ensures |c.bottomNode| == 1 <==> c.bottomNode == {OwlNothing}
  {
    var named := c.bottomNode - {OwlNothing};
    assert c.bottomNode == named + {OwlNothing};
    assert |c.bottomNode| == |named| + 1;
    if named != {} {
      var other :| other in named;
      assert |named| >= 1;
    }
  }

  /** A reasoner created on an ontology; it reasons over the axioms the ontology had then. */
  class Reasoner {
    const oracle: Oracle
    const axioms: set<Axiom>
    var disposed: bool

    constructor (oracle: Oracle, ontology: Ontology)
      ensures this.oracle == oracle && axioms == ontology.axioms && !disposed
    {
      this.oracle := oracle;
      this.axioms := ontology.axioms;
      disposed := false;
    }

    method IsConsistent() returns (consistent: bool)
      requires !disposed
      ensures consistent == oracle(axioms).consistent
    {
      consistent := oracle(axioms).consistent;
    }

    /** The bottom node; the OWL API refuses to answer for an inconsistent ontology. */
    method GetUnsatisfiableClasses() returns (bottom: set<Iri>)
      requires !disposed && oracle(axioms).consistent
      ensures bottom == oracle(axioms).bottomNode
    {
      bottom := oracle(axioms).bottomNode;
    }

    method Dispose()
      modifies this
      ensures disposed
    {
      disposed := true;
    }
  }
}
