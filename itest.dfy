/**
  The reserved annotation properties of a single ontology test. Both test
  implementations (MergeTest, which both command-line shells run, and
  TestDriver, a second runner class that neither shell uses) use these
  constants; they are defined once here.
*/
module ITest {

  /** Base for all annotation properties used by Ocelliless. */
  const OcellilessBase: string := "https://incenp.org/ocelliless/"

  /** The class of the tested ontology that a test is about. */
  const TargetProperty: string := OcellilessBase + "target"

  /** Marks a test that is expected to fail. */
  const XfailProperty: string := OcellilessBase + "xfail"

  /** Points from a tested class to the location of a test file. */
  const TestLocProperty: string := OcellilessBase + "test"

  /** The three properties are distinct and all extend the common base. */
  lemma ReservedProperties()
    ensures TargetProperty != XfailProperty
    ensures TargetProperty != TestLocProperty
    ensures XfailProperty != TestLocProperty
    ensures OcellilessBase <= TargetProperty && OcellilessBase <= XfailProperty && OcellilessBase <= TestLocProperty
  {
    assert |TargetProperty| == |OcellilessBase| + 6;
    assert |XfailProperty| == |OcellilessBase| + 5;
    assert |TestLocProperty| == |OcellilessBase| + 4;
  }
}
