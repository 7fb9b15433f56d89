/** The code fix that turns `[TestCaseSource("Name")]` into
    `[TestCaseSource(nameof(Name))]`, over a syntax reduced to the attributes of a
    class and their argument lists, and the reading of such an attribute into a
    `SourceAttributeInformation`. */
module UseNameofFix {
  import opened Wrappers
  import opened TestCaseSourceUsage

  /** An attribute argument: a string literal, `nameof(identifier)`, an
      `new object[] { ... }` of some length, or anything else. */
  datatype Argument =
    | StringLiteral(text: string)
    | NameOf(identifier: string)
    | ObjectArray(length: nat)
    | OtherExpression

  datatype Attribute = Attribute(name: string, arguments: seq<Argument>)

  const TestCaseSourceAttributeName := "TestCaseSource"

  /** The unresolved view of a `TestCaseSource` attribute: the first argument names the
      source and the second, when it is an object array, gives the supplied count.
      Other attributes, and one without arguments, yield nothing. */
  function Information(attribute: Attribute, sourceType: TypeSymbol, node: Option<SyntaxNode>)
    : (r: Option<SourceAttributeInformation>)
    ensures r.Some? <==> attribute.name == TestCaseSourceAttributeName && |attribute.arguments| > 0
    ensures r.Some? ==> r.value.sourceType == sourceType && r.value.syntaxNode == node
    ensures r.Some? ==> r.value.isStringLiteral == attribute.arguments[0].StringLiteral?
    ensures r.Some? ==> match attribute.arguments[0]
      case StringLiteral(text) => r.value.sourceName == Some(text)
      case NameOf(identifier) => r.value.sourceName == Some(identifier)
      case _ => r.value.sourceName == None
    ensures r.Some? ==> (r.value.numberOfMethodParameters ==
      if |attribute.arguments| > 1 && attribute.arguments[1].ObjectArray?
      then Some(attribute.arguments[1].length as int) else None)
  {
    if attribute.name != TestCaseSourceAttributeName || |attribute.arguments| == 0 then None
    else
      var reference := attribute.arguments[0];
      var name :=
        match reference
        case StringLiteral(text) => Some(text)
        case NameOf(identifier) => Some(identifier)
        case _ => None;
      var count :=
        if |attribute.arguments| > 1 && attribute.arguments[1].ObjectArray?
        then Some(attribute.arguments[1].length as int) else None;
      Some(SourceAttributeInformation(sourceType, name, node, reference.StringLiteral?, count))
  }

  /** The fix targets the first argument of attribute `at`, which must still be a string literal. */
  predicate FixApplies(attributes: seq<Attribute>, at: nat) {
    at < |attributes| && |attributes[at].arguments| > 0 && attributes[at].arguments[0].StringLiteral?
  }

  /** Replace the literal by `nameof` of its text; nothing else changes. `None` when
      the target is no longer a string literal (the fix does not apply). */
  function ApplyNameofFix(attributes: seq<Attribute>, at: nat): (r: Option<seq<Attribute>>)
    ensures r.Some? <==> FixApplies(attributes, at)
    ensures r.Some? ==> |r.value| == |attributes|
    ensures r.Some? ==> forall k :: 0 <= k < |attributes| && k != at ==> r.value[k] == attributes[k]
    ensures r.Some? ==> var before, after := attributes[at], r.value[at];
      && after.name == before.name
      && |after.arguments| == |before.arguments|
      && after.arguments[0] == NameOf(before.arguments[0].text)
      && forall j :: 1 <= j < |before.arguments| ==> after.arguments[j] == before.arguments[j]
  {
    if FixApplies(attributes, at) then
      var attribute := attributes[at];
      var fixed := attribute.(arguments := [NameOf(attribute.arguments[0].text)] + attribute.arguments[1..]);
      Some(attributes[at := fixed])
    else
      None
  }

  /** Once applied, the fix no longer applies. */
  lemma FixIsNotReapplicable(attributes: seq<Attribute>, at: nat)
    requires FixApplies(attributes, at)
    ensures ApplyNameofFix(ApplyNameofFix(attributes, at).value, at) == None
  {
  }

  /** The fixed attribute reads as the same reference, now symbolic; analysing it again
      gives no nameof suggestion and every other diagnostic as before. */
  lemma FixThenDiagnose(attributes: seq<Attribute>, at: nat, sourceType: TypeSymbol,
                        node: Option<SyntaxNode>, resolution: Resolution)
    requires FixApplies(attributes, at)
    requires Information(attributes[at], sourceType, node).Some?
    ensures var before := Information(attributes[at], sourceType, node).value;
      var after := Information(ApplyNameofFix(attributes, at).value[at], sourceType, node);
      && after == Some(before.(isStringLiteral := false))
      && OfRule(Diagnose(after.value, resolution), TestCaseSourceStringUsage) == []
      && Diagnose(before, resolution)
         == Diagnose(after.value, resolution) + OfRule(Diagnose(before, resolution), TestCaseSourceStringUsage)
  {
    var before := Information(attributes[at], sourceType, node).value;
    var fixedAttribute := ApplyNameofFix(attributes, at).value[at];
    assert |fixedAttribute.arguments| > 1 ==> fixedAttribute.arguments[1] == attributes[at].arguments[1];
    NameofRemovesOnlyTheSuggestion(before, resolution);
  }
}
