# TestCaseSource usage checks of NUnit.Analyzers, modelled in Dafny

NUnit.Analyzers checks each `[TestCaseSource(...)]` attribute in a test class and
reports problems with it:

- the source member it names is not static;
- the source method's parameter count differs from the number of arguments the
  attribute supplies;
- the source is named by a string literal where `nameof` would do.

It also offers a code fix that rewrites `"Name"` as `nameof(Name)`.

This project models that behaviour:

- `wrappers.dfy` (`Wrappers`): `Option`, the model of C#'s nullable values and of `??`.
- `decimal.dfy` (`Decimal`): `Int32.ToString()` as the message arguments are
  rendered: plain decimal digits, no padding, and a `-` only for negative values.
  It is proved injective.
- `composite_format.dfy` (`CompositeFormat`): the composite formatting that turns a
  message template and its arguments into the reported message (`string.Format`).
  - `{n}` takes argument `n`.
  - `{{` and `}}` stand for single braces.
  - An index with no argument is a format error (`None`), as in .NET.
  - The model also treats every other use of a brace as an error, including some
    that .NET accepts (see "## Left out"). The templates contain none of these.
- `test_case_source_usage_constants.dfy` (`TestCaseSourceUsageConstants`): the
  fifteen title, message and description constants, with the message each
  template renders.
  - The longer literals are written as concatenations of shorter ones. Each
    constant's value is still exactly the C# string. The verifier can only reason
    about short string literals.
  - Each placeholder is a literal of its own.
- `test_case_source_usage.dfy` (`TestCaseSourceUsage`): the model of the rules.
  - `SourceAttributeInformation` is a datatype with the record's five fields.
  - `Resolution` (`NotFound | Unique(member)`) is the result of looking the name up.
  - `Diagnose` gives the diagnostics for one attribute occurrence.
- `use_nameof_fix.dfy` (`UseNameofFix`): attributes and their argument lists.
  - `Information` reads a `TestCaseSource` attribute into the record.
  - `ApplyNameofFix` is the code fix.
- `test_case_source_uses_string_analyzer_tests.dfy`
  (`TestCaseSourceUsesStringAnalyzerTests`): each analyzer test as a lemma, with the
  diagnostics and fixed code that test expects.

Decisions about how the three rules combine. The analyzer's own code is not part of
this model, so these come from its tests:

- The rules only run when the attribute has a name and the lookup finds exactly one
  member. An unmatched string literal is deliberately not reported. An unmatched
  `nameof` cannot occur, because the compiler rejects it.
- The three rules are independent. Each reports at most once, in this order:
  not-static, arity, nameof suggestion. The tests fix no order and no
  co-occurrence (for example a literal naming a non-static member). The arity
  rule applies to every resolved method, static or not.
- The supplied count is the length of the `new object[] { ... }` argument, and 0
  when there is none. The declared parameter count of a field or property is not
  checked.

## Model

| member | source | states |
|---|---|---|
| `Decimal.IntToString` | src/nunit.analyzers.tests/TestCaseSourceUsage/TestCaseSourceUsesStringAnalyzerTests.cs:187 | A count renders as at least one decimal digit with no leading zero, and a `-` exactly when it is negative |
| `Decimal.ParseNatToString` | src/nunit.analyzers.tests/TestCaseSourceUsage/TestCaseSourceUsesStringAnalyzerTests.cs:241 | Reading the rendered digits back gives the count: the digits carry no padding |
| `Decimal.IntToStringInjective` | src/nunit.analyzers.tests/TestCaseSourceUsage/TestCaseSourceUsesStringAnalyzerTests.cs:187 | Two counts with the same rendering are equal |
| `CompositeFormat.FormatPlainText` | src/nunit.analyzers/Constants/TestCaseSourceUsageConstants.cs:5 | Text without braces formats to itself, whatever the arguments |
| `CompositeFormat.FormatLiteralPrefix` | src/nunit.analyzers/Constants/TestCaseSourceUsageConstants.cs:18 | Brace-free text before a placeholder is copied as it is |
| `CompositeFormat.FormatPlaceholder` | src/nunit.analyzers/Constants/TestCaseSourceUsageConstants.cs:22 | `{i}` is replaced by argument `i` when there is one, and the rest of the template is formatted after it |
| `CompositeFormat.FormatPlaceholderOutOfRange` | src/nunit.analyzers/Constants/TestCaseSourceUsageConstants.cs:22 | `{i}` with no argument `i` is a format error |
| `CompositeFormat.FormatOneHole` | src/nunit.analyzers/Constants/TestCaseSourceUsageConstants.cs:10 | A template with one placeholder between brace-free texts renders as the texts around argument `i` |
| `CompositeFormat.FormatTwoHoles` | src/nunit.analyzers/Constants/TestCaseSourceUsageConstants.cs:6 | A template with two placeholders renders each argument in its place, the same argument twice when both indices are equal |
| `TestCaseSourceUsageConstants.TitlesAndDescriptionsAreVerbatim` | src/nunit.analyzers/Constants/TestCaseSourceUsageConstants.cs:5-23 | All five titles and five descriptions format to themselves with any arguments |
| `TestCaseSourceUsageConstants.NameOfMessage` | src/nunit.analyzers/Constants/TestCaseSourceUsageConstants.cs:6 | Formatting the nameof template with a name succeeds and gives `Consider using nameof(name) instead of "name".`, with the same name in both places |
| `TestCaseSourceUsageConstants.NotIEnumerableMessage` | src/nunit.analyzers/Constants/TestCaseSourceUsageConstants.cs:10 | Formatting the IEnumerable template with a type name gives `Source type 'T' does not implement IEnumerable.` |
| `TestCaseSourceUsageConstants.NoDefaultConstructorMessage` | src/nunit.analyzers/Constants/TestCaseSourceUsageConstants.cs:14 | Formatting the default-constructor template with a type name gives `Source type 'T' does not have a default constructor.` |
| `TestCaseSourceUsageConstants.NotStaticMessage` | src/nunit.analyzers/Constants/TestCaseSourceUsageConstants.cs:18 | Formatting the not-static template with a name gives `Specified source 'name' is not static.` |
| `TestCaseSourceUsageConstants.MismatchMessage` | src/nunit.analyzers/Constants/TestCaseSourceUsageConstants.cs:22 | Formatting the mismatch template puts the supplied count at `{0}` and the expected count at `{1}`, both as decimal text |
| `TestCaseSourceUsageConstants.MismatchMessageInjective` | src/nunit.analyzers/Constants/TestCaseSourceUsageConstants.cs:22 | Equal mismatch messages have equal supplied counts and equal expected counts |
| `TestCaseSourceUsageConstants.MismatchMessageOrderMatters` | src/nunit.analyzers/Constants/TestCaseSourceUsageConstants.cs:22 | Swapping two different counts changes the message |
| `TestCaseSourceUsage.SuppliedParameters` | src/nunit.analyzers/TestCaseSourceUsage/SourceAttributeInformation.cs:11 | An absent `NumberOfMethodParameters` counts as 0 supplied arguments, and a present one as its value |
| `TestCaseSourceUsage.OfRuleAppend` | src/nunit.analyzers.tests/TestCaseSourceUsage/TestCaseSourceUsesStringAnalyzerTests.cs:15 | Selecting one rule's diagnostics distributes over concatenation |
| `TestCaseSourceUsage.DiagnoseOrder` | src/nunit.analyzers.tests/TestCaseSourceUsage/TestCaseSourceUsesStringAnalyzerTests.cs:47-50 | The diagnostics are exactly the not-static ones, then the arity ones, then the nameof ones. The tests fix no order; this order is the model's choice, and the cited test shows only that the not-static rule reports one diagnostic |
| `TestCaseSourceUsage.NotStaticDiagnostics` | src/nunit.analyzers.tests/TestCaseSourceUsage/TestCaseSourceUsesStringAnalyzerTests.cs:35-50 | There is one not-static diagnostic, with the source name in its message and at the attribute's node, exactly when the name resolves to a member that is not static; otherwise there is none |
| `TestCaseSourceUsage.MismatchDiagnostics` | src/nunit.analyzers.tests/TestCaseSourceUsage/TestCaseSourceUsesStringAnalyzerTests.cs:164-243 | There is one arity diagnostic, with message (supplied, expected), exactly when the name resolves to a method whose parameter count differs from the supplied count (absent is 0); otherwise there is none |
| `TestCaseSourceUsage.StringUsageDiagnostics` | src/nunit.analyzers.tests/TestCaseSourceUsage/TestCaseSourceUsesStringAnalyzerTests.cs:54-96 | There is one nameof suggestion, with the name twice in its message, exactly when a string literal resolves; a `nameof` reference or an unmatched literal gets none |
| `TestCaseSourceUsage.AtMostOnePerRule` | src/nunit.analyzers.tests/TestCaseSourceUsage/TestCaseSourceUsesStringAnalyzerTests.cs:47-50 | No rule reports twice for one attribute |
| `TestCaseSourceUsage.UnresolvedIsNotReported` | src/nunit.analyzers.tests/TestCaseSourceUsage/TestCaseSourceUsesStringAnalyzerTests.cs:54-65 | A name that matches nothing yields no diagnostic at all |
| `TestCaseSourceUsage.ValidReferenceIsClean` | src/nunit.analyzers.tests/TestCaseSourceUsage/TestCaseSourceUsesStringAnalyzerTests.cs:141-161 | A `nameof` reference to a static member yields no diagnostic when, for a method, the supplied count equals the parameter count |
| `TestCaseSourceUsage.NameofRemovesOnlyTheSuggestion` | src/nunit.analyzers.tests/TestCaseSourceUsage/TestCaseSourceUsesStringAnalyzerTests.cs:84-96 | With `IsStringLiteral` false there is no nameof suggestion, and the other diagnostics are the same as before |
| `UseNameofFix.Information` | src/nunit.analyzers/TestCaseSourceUsage/SourceAttributeInformation.cs:13-25 | A `TestCaseSource` attribute with arguments gives a record that stores the type and node it is given. The name is the literal's text or the `nameof` identifier, and `IsStringLiteral` is true exactly for a literal. The parameter count is the length of a second `new object[] { ... }` argument, and absent when there is none. Other attributes give no record |
| `UseNameofFix.ApplyNameofFix` | src/nunit.analyzers.tests/TestCaseSourceUsage/TestCaseSourceUsesStringAnalyzerTests.cs:100-137 | The fix applies exactly when the target's first argument is a string literal. It then replaces that argument with `nameof` of its text and leaves all other arguments and all other attributes unchanged |
| `UseNameofFix.FixIsNotReapplicable` | src/nunit.analyzers.tests/TestCaseSourceUsage/TestCaseSourceUsesStringAnalyzerTests.cs:89 | After the fix, the same fix no longer applies |
| `UseNameofFix.FixThenDiagnose` | src/nunit.analyzers.tests/TestCaseSourceUsage/TestCaseSourceUsesStringAnalyzerTests.cs:84-96 | The fixed attribute reads as the same record with `IsStringLiteral` false: no nameof suggestion and all other diagnostics kept |
| `TestCaseSourceUsesStringAnalyzerTests.NotStaticMessageForTests` | src/nunit.analyzers.tests/TestCaseSourceUsage/TestCaseSourceUsesStringAnalyzerTests.cs:49 | The not-static message for `Tests` is the string the test expects |
| `TestCaseSourceUsesStringAnalyzerTests.NameOfMessageForTestCases` | src/nunit.analyzers.tests/TestCaseSourceUsage/TestCaseSourceUsesStringAnalyzerTests.cs:95 | The nameof message for `TestCases` is the string the test expects |
| `TestCaseSourceUsesStringAnalyzerTests.MismatchMessageOneForNone` | src/nunit.analyzers.tests/TestCaseSourceUsage/TestCaseSourceUsesStringAnalyzerTests.cs:187 | The mismatch message for (1, 0) is the string the test expects |
| `TestCaseSourceUsesStringAnalyzerTests.MismatchMessageNoneForOne` | src/nunit.analyzers.tests/TestCaseSourceUsage/TestCaseSourceUsesStringAnalyzerTests.cs:214 | The mismatch message for (0, 1) is the string the test expects |
| `TestCaseSourceUsesStringAnalyzerTests.MismatchMessageThreeForTwo` | src/nunit.analyzers.tests/TestCaseSourceUsage/TestCaseSourceUsesStringAnalyzerTests.cs:241 | The mismatch message for (3, 2) is the string the test expects |
| `TestCaseSourceUsesStringAnalyzerTests.AnalyzeWhenNameOfSameClass` | src/nunit.analyzers.tests/TestCaseSourceUsage/TestCaseSourceUsesStringAnalyzerTests.cs:19-31 | `nameof(Tests)` naming a static field gives no diagnostic |
| `TestCaseSourceUsesStringAnalyzerTests.AnalyzeWhenNameOfSameClassNotStatic` | src/nunit.analyzers.tests/TestCaseSourceUsage/TestCaseSourceUsesStringAnalyzerTests.cs:35-50 | `nameof(Tests)` naming an instance field gives exactly the not-static diagnostic with the expected message |
| `TestCaseSourceUsesStringAnalyzerTests.NoWarningWhenStringLiteralMissingMember` | src/nunit.analyzers.tests/TestCaseSourceUsage/TestCaseSourceUsesStringAnalyzerTests.cs:54-65 | `"Missing"`, which matches nothing, gives no diagnostic |
| `TestCaseSourceUsesStringAnalyzerTests.FixWhenStringLiteral` | src/nunit.analyzers.tests/TestCaseSourceUsage/TestCaseSourceUsesStringAnalyzerTests.cs:68-96 | `"TestCases"` naming a static field, property or parameterless method gives exactly the expected suggestion. The fixed attribute is `nameof(TestCases)`, which gives no diagnostic |
| `TestCaseSourceUsesStringAnalyzerTests.FixWhenMultipleUnrelatedAttributes` | src/nunit.analyzers.tests/TestCaseSourceUsage/TestCaseSourceUsesStringAnalyzerTests.cs:100-137 | The `[Test]` attribute gives no record and is unchanged by the fix. Only the `TestCaseSource` literal becomes `nameof(TestCases)` |
| `TestCaseSourceUsesStringAnalyzerTests.AnalyzeWhenNumberOfParametersMatch` | src/nunit.analyzers.tests/TestCaseSourceUsage/TestCaseSourceUsesStringAnalyzerTests.cs:141-161 | Three supplied arguments for a three-parameter method give no diagnostic |
| `TestCaseSourceUsesStringAnalyzerTests.AnalyzeWhenNumberOfParametersDoesNotMatchNoParametersExpected` | src/nunit.analyzers.tests/TestCaseSourceUsage/TestCaseSourceUsesStringAnalyzerTests.cs:164-188 | One argument for a parameterless method gives exactly the (1, 0) mismatch diagnostic |
| `TestCaseSourceUsesStringAnalyzerTests.AnalyzeWhenNumberOfParametersDoesNotMatchNoParametersProvided` | src/nunit.analyzers.tests/TestCaseSourceUsage/TestCaseSourceUsesStringAnalyzerTests.cs:191-215 | No argument array for a one-parameter method gives exactly the (0, 1) mismatch diagnostic |
| `TestCaseSourceUsesStringAnalyzerTests.AnalyzeWhenNumberOfParametersDoesNotMatch` | src/nunit.analyzers.tests/TestCaseSourceUsage/TestCaseSourceUsesStringAnalyzerTests.cs:218-242 | Three arguments for a two-parameter method give exactly the (3, 2) mismatch diagnostic |

## Left out

- Symbol lookup. Roslyn's resolution of a name in a type is a foreign service. Its result is an input (`Resolution`), and `INamedTypeSymbol` and `SyntaxNode` are reduced to identities.
- Ambiguous or overloaded lookups. No shown code or test says how they behave, so `Resolution` has no case for them.
- The IEnumerable and default-constructor rules. No shown code or test says when they fire, so only their message templates and rendered messages are modelled.
- Rule identifiers and reporting. The `AnalyzerIdentifiers` values, severities, descriptor registration and the reporting channel are not part of this model. Rules are the constructors of `Rule`, named after the identifiers the tests use.
- The syntax rewrite. The fix's trivia-preserving rewrite of the syntax tree is modelled only as replacing one argument in a class's attribute list.
- Qualified references. `Information` takes the source type as given; the attribute form that names another type is not modelled.
- The test harness. Gu.Roslyn.Asserts and `TestUtility` serve only as the source of the expected strings.
- Unused composite-format features. .NET accepts whitespace after the index (`{0 }`), alignment (`{0,5}`) and format specifiers (`{0:X}`). The model does not handle these and counts each as a format error. The templates contain none of them. Culture-specific number formatting is not modelled.
- Concurrency. The analyzer may analyse attribute occurrences in parallel; each occurrence is modelled on its own.
