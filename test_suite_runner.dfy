/** The validity filter TestSuiteRunner applies to a suite's methods before it
    schedules them. Its unit test fixes five of the eight combinations of @Test,
    @Ignore and @Quarantine; for the other three, `ValidTest` takes the conjunction
    "@Test and not @Ignore and not @Quarantine". */
module Runners {

  /** The annotations the filter looks at; any other annotation is `Other`. */
  datatype Annotation = Test | Ignore | Quarantine | Other(name: string)

  /** A declared method of a test class, with the annotations present on it. */
  datatype TestMethod = TestMethod(name: string, annotations: set<Annotation>)

  /** A method is run when it is a @Test and is neither @Ignore'd nor @Quarantine'd. */
  predicate ValidTest(m: TestMethod)
    ensures ValidTest(m) ==> Test in m.annotations
    ensures Ignore in m.annotations || Quarantine in m.annotations ==> !ValidTest(m)
  {
    Test in m.annotations && Ignore !in m.annotations && Quarantine !in m.annotations
  }

  /** Of the three markers, a valid method carries exactly @Test, and every method
      that carries exactly @Test among them is valid. */
  lemma ValidMeansOnlyTestMarker(m: TestMethod)
    ensures ValidTest(m) <==> m.annotations * {Test, Ignore, Quarantine} == {Test}
  {
    var markers := m.annotations * {Test, Ignore, Quarantine};
    if ValidTest(m) {
      forall a | a in markers ensures a == Test {
      }
      assert Test in markers;
      assert markers == {Test};
    }
    if markers == {Test} {
      assert Test in markers && Ignore !in markers && Quarantine !in markers;
    }
  }

  // The methods of TestSuiteRunnerTest.TestStub.
  const Method1 := TestMethod("method1", {})
  const Method2 := TestMethod("method2", {Test, Ignore})
  const Method3 := TestMethod("method3", {Test, Ignore, Quarantine})
  const Method4 := TestMethod("method4", {Test, Quarantine})
  const Method5 := TestMethod("method5", {Test})

  lemma MethodWithoutTestAnnotationShouldNotBeValid()
    ensures !ValidTest(Method1)
  {
  }

  lemma MethodWithIgnoreAnnotationShouldNotBeValid()
    ensures !ValidTest(Method2) && !ValidTest(Method3)
  {
  }

  lemma MethodWithQuarantineShouldNotBeValid()
    ensures !ValidTest(Method4)
  {
  }

  lemma MethodWithTestAnnotationWithoutIgnoreAndQuarantineShouldBeValid()
    ensures ValidTest(Method5)
  {
  }

  /** Validity depends only on which of @Test, @Ignore and @Quarantine are present:
      not on the method's name, nor on any other annotation. */
  lemma ValidityDependsOnlyOnMarkers(m: TestMethod, n: TestMethod)
    requires (Test in m.annotations) == (Test in n.annotations)
    requires (Ignore in m.annotations) == (Ignore in n.annotations)
    requires (Quarantine in m.annotations) == (Quarantine in n.annotations)
    ensures ValidTest(m) == ValidTest(n)
  {
  }

  /** @Ignore and @Quarantine each exclude a method on their own; adding either to
      any method, in any combination, never makes it valid. */
  lemma ExclusionMarkersOnlyExclude(m: TestMethod, extra: set<Annotation>)
    requires Ignore in extra || Quarantine in extra
    ensures !ValidTest(TestMethod(m.name, m.annotations + extra))
  {
  }
}
