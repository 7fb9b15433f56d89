/** The analyzer's test cases as lemmas: each test's attribute, the lookup its test
    class determines, and the diagnostics and fixed code its assertions expect. */
module TestCaseSourceUsesStringAnalyzerTests {
  import opened Wrappers
  import opened Decimal
  import opened TestCaseSourceUsageConstants
  import opened TestCaseSourceUsage
  import opened UseNameofFix

  const TestClass := TypeSymbol(0)
  const Marked := Some(SyntaxNode(1))

  function Analyze(attribute: Attribute, resolution: Resolution): seq<Diagnostic>
    requires attribute.name == TestCaseSourceAttributeName && |attribute.arguments| > 0
  {
    Diagnose(Information(attribute, TestClass, Marked).value, resolution)
  }

  /** The messages the tests expect, rendered from the templates. */
  lemma NotStaticMessageForTests()
    ensures NotStaticMessage("Tests") == "Specified source 'Tests' is not static."
  {
  }

  lemma NameOfMessageForTestCases()
    ensures NameOfMessage("TestCases") == "Consider using nameof(TestCases) instead of \"TestCases\"."
  {
  }

  /** The long mismatch messages are written in two halves, split after "parameter(s), ". */
  lemma MismatchMessageOneForNone()
    ensures MismatchMessage(1, 0)
      == "The TestCaseSource provides '1' parameter(s), " + "but the target method expects '0' parameter(s)."
  {
    assert IntToString(1) == "1" && IntToString(0) == "0";
    assert "The TestCaseSource provides '" + "1" + "' parameter(s), " == "The TestCaseSource provides '1' parameter(s), ";
    assert "but the target method expects '" + "0" + "' parameter(s)." == "but the target method expects '0' parameter(s).";
  }

  lemma MismatchMessageNoneForOne()
    ensures MismatchMessage(0, 1)
      == "The TestCaseSource provides '0' parameter(s), " + "but the target method expects '1' parameter(s)."
  {
    assert IntToString(0) == "0" && IntToString(1) == "1";
    assert "The TestCaseSource provides '" + "0" + "' parameter(s), " == "The TestCaseSource provides '0' parameter(s), ";
    assert "but the target method expects '" + "1" + "' parameter(s)." == "but the target method expects '1' parameter(s).";
  }

  lemma MismatchMessageThreeForTwo()
    ensures MismatchMessage(3, 2)
      == "The TestCaseSource provides '3' parameter(s), " + "but the target method expects '2' parameter(s)."
  {
    assert IntToString(3) == "3" && IntToString(2) == "2";
    assert "The TestCaseSource provides '" + "3" + "' parameter(s), " == "The TestCaseSource provides '3' parameter(s), ";
    assert "but the target method expects '" + "2" + "' parameter(s)." == "but the target method expects '2' parameter(s).";
  }

  const StaticField := SourceMember(Field, true)

  lemma AnalyzeWhenNameOfSameClass()
    ensures Analyze(Attribute("TestCaseSource", [NameOf("Tests")]), Unique(StaticField)) == []
  {
  }

  lemma AnalyzeWhenNameOfSameClassNotStatic()
    ensures Analyze(Attribute("TestCaseSource", [NameOf("Tests")]), Unique(SourceMember(Field, false)))
      == [Diagnostic(TestCaseSourceSourceIsNotStatic, "Specified source 'Tests' is not static.", Marked)]
  {
    var info := Information(Attribute("TestCaseSource", [NameOf("Tests")]), TestClass, Marked).value;
    assert info == SourceAttributeInformation(TestClass, Some("Tests"), Marked, false, None);
    NotStaticMessageForTests();
  }

  lemma NoWarningWhenStringLiteralMissingMember()
    ensures Analyze(Attribute("TestCaseSource", [StringLiteral("Missing")]), NotFound) == []
  {
  }

  /** A static field, a static property and a static parameterless method all get the
      suggestion, and the fix yields `nameof(TestCases)`, which is clean. */
  lemma FixWhenStringLiteral(kind: MemberKind)
    requires kind == Field || kind == Property || kind == Method(0)
    ensures var attributes := [Attribute("TestCaseSource", [StringLiteral("TestCases")])];
      && Analyze(attributes[0], Unique(SourceMember(kind, true)))
         == [Diagnostic(TestCaseSourceStringUsage, "Consider using nameof(TestCases) instead of \"TestCases\".", Marked)]
      && ApplyNameofFix(attributes, 0) == Some([Attribute("TestCaseSource", [NameOf("TestCases")])])
      && Analyze(ApplyNameofFix(attributes, 0).value[0], Unique(SourceMember(kind, true))) == []
  {
    var attributes := [Attribute("TestCaseSource", [StringLiteral("TestCases")])];
    var info := Information(attributes[0], TestClass, Marked).value;
    assert info == SourceAttributeInformation(TestClass, Some("TestCases"), Marked, true, None);
    NameOfMessageForTestCases();
    var fixed := ApplyNameofFix(attributes, 0).value;
    assert fixed[0].arguments == [NameOf("TestCases")];
    assert fixed == [Attribute("TestCaseSource", [NameOf("TestCases")])];
    assert Information(fixed[0], TestClass, Marked).value == info.(isStringLiteral := false);
  }

  /** The `[Test]` attribute of another method is left as it is. */
  lemma FixWhenMultipleUnrelatedAttributes()
    ensures var attributes := [Attribute("Test", []), Attribute("TestCaseSource", [StringLiteral("TestCases")])];
      && Information(attributes[0], TestClass, None) == None
      && Analyze(attributes[1], Unique(StaticField))
         == [Diagnostic(TestCaseSourceStringUsage, "Consider using nameof(TestCases) instead of \"TestCases\".", Marked)]
      && ApplyNameofFix(attributes, 1)
         == Some([Attribute("Test", []), Attribute("TestCaseSource", [NameOf("TestCases")])])
  {
    var attributes := [Attribute("Test", []), Attribute("TestCaseSource", [StringLiteral("TestCases")])];
    var info := Information(attributes[1], TestClass, Marked).value;
    assert info == SourceAttributeInformation(TestClass, Some("TestCases"), Marked, true, None);
    NameOfMessageForTestCases();
    var fixed := ApplyNameofFix(attributes, 1).value;
    assert fixed[1].arguments == [NameOf("TestCases")];
    assert fixed == [Attribute("Test", []), Attribute("TestCaseSource", [NameOf("TestCases")])];
  }

  lemma AnalyzeWhenNumberOfParametersMatch()
    ensures Analyze(Attribute("TestCaseSource", [NameOf("TestData"), ObjectArray(3)]),
                    Unique(SourceMember(Method(3), true))) == []
  {
  }

  lemma AnalyzeWhenNumberOfParametersDoesNotMatchNoParametersExpected()
    ensures Analyze(Attribute("TestCaseSource", [NameOf("TestData"), ObjectArray(1)]),
                    Unique(SourceMember(Method(0), true)))
      == [Diagnostic(TestCaseSourceMismatchInNumberOfParameters,
                     "The TestCaseSource provides '1' parameter(s), " + "but the target method expects '0' parameter(s).",
                     Marked)]
  {
    var info := Information(Attribute("TestCaseSource", [NameOf("TestData"), ObjectArray(1)]), TestClass, Marked).value;
    assert info == SourceAttributeInformation(TestClass, Some("TestData"), Marked, false, Some(1));
    MismatchMessageOneForNone();
    assert Diagnose(info, Unique(SourceMember(Method(0), true)))
      == [Diagnostic(TestCaseSourceMismatchInNumberOfParameters, MismatchMessage(1, 0), Marked)];
  }

  lemma AnalyzeWhenNumberOfParametersDoesNotMatchNoParametersProvided()
    ensures Analyze(Attribute("TestCaseSource", [NameOf("TestData")]),
                    Unique(SourceMember(Method(1), true)))
      == [Diagnostic(TestCaseSourceMismatchInNumberOfParameters,
                     "The TestCaseSource provides '0' parameter(s), " + "but the target method expects '1' parameter(s).",
                     Marked)]
  {
    var info := Information(Attribute("TestCaseSource", [NameOf("TestData")]), TestClass, Marked).value;
    assert info == SourceAttributeInformation(TestClass, Some("TestData"), Marked, false, None);
    MismatchMessageNoneForOne();
    assert Diagnose(info, Unique(SourceMember(Method(1), true)))
      == [Diagnostic(TestCaseSourceMismatchInNumberOfParameters, MismatchMessage(0, 1), Marked)];
  }

  lemma AnalyzeWhenNumberOfParametersDoesNotMatch()
    ensures Analyze(Attribute("TestCaseSource", [NameOf("TestData"), ObjectArray(3)]),
                    Unique(SourceMember(Method(2), true)))
      == [Diagnostic(TestCaseSourceMismatchInNumberOfParameters,
                     "The TestCaseSource provides '3' parameter(s), " + "but the target method expects '2' parameter(s).",
                     Marked)]
  {
    var info := Information(Attribute("TestCaseSource", [NameOf("TestData"), ObjectArray(3)]), TestClass, Marked).value;
    assert info == SourceAttributeInformation(TestClass, Some("TestData"), Marked, false, Some(3));
    MismatchMessageThreeForTwo();
    assert Diagnose(info, Unique(SourceMember(Method(2), true)))
      == [Diagnostic(TestCaseSourceMismatchInNumberOfParameters, MismatchMessage(3, 2), Marked)];
  }
}
