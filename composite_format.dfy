/** The part of .NET composite formatting (`string.Format`) that Roslyn applies to a
    diagnostic's message template: `{n}` is replaced by argument `n`, `{{` and `}}`
    stand for single braces. The model treats every other use of a brace as a format
    error (`None`), and so does .NET for an index with no argument. .NET also accepts
    whitespace after the index, alignment and format specifiers; the model rejects
    all of these, and the templates use none of them. */
module CompositeFormat {
  import opened Wrappers
  import opened Decimal

  /** `p` in front of a successful result; an error stays an error. */
  function Prepend(p: string, o: Option<string>): (r: Option<string>)
    ensures r.Some? <==> o.Some?
    ensures r.Some? ==> r.value == p + o.value
  {
    match o
    case None => None
    case Some(s) => Some(p + s)
  }

  /** Text in which formatting has nothing to interpret. */
  predicate NoBraces(s: string) {
    forall k :: 0 <= k < |s| ==> s[k] != '{' && s[k] != '}'
  }

  lemma NoBracesAppend(a: string, b: string)
    requires NoBraces(a) && NoBraces(b)
    ensures NoBraces(a + b)
  {
    forall k | 0 <= k < |a + b| ensures (a + b)[k] != '{' && (a + b)[k] != '}' {
      if k >= |a| { assert (a + b)[k] == b[k - |a|]; }
    }
  }

  /** Length of the run of decimal digits at the start of `s`. */
  function LeadingDigits(s: string): (n: nat)
    ensures n <= |s|
    ensures AllDigits(s[..n])
    ensures n < |s| ==> !IsDigit(s[n])
  {
    if s != [] && IsDigit(s[0]) then 1 + LeadingDigits(s[1..]) else 0
  }

  function Format(template: string, args: seq<string>): Option<string>
    decreases |template|
  {
    var t := template;
    if t == [] then Some("")
    else if t[0] == '{' && |t| > 1 && t[1] == '{' then Prepend("{", Format(t[2..], args))
    else if t[0] == '}' && |t| > 1 && t[1] == '}' then Prepend("}", Format(t[2..], args))
    else if t[0] == '{' then
      var rest := t[1..];
      var n := LeadingDigits(rest);
      if 0 < n < |rest| && rest[n] == '}' && DigitsValue(rest[..n]) < |args| then
        Prepend(args[DigitsValue(rest[..n])], Format(rest[n + 1..], args))
      else
        None
    else if t[0] == '}' then None
    else Prepend([t[0]], Format(t[1..], args))
  }

  /** Text without braces comes out unchanged, whatever the arguments. */
  lemma {:induction false} FormatPlainText(t: string, args: seq<string>)
    requires NoBraces(t)
    ensures Format(t, args) == Some(t)
  {
    if t != [] {
      assert NoBraces(t[1..]);
      FormatPlainText(t[1..], args);
      assert [t[0]] + t[1..] == t;
    }
  }

  /** Brace-free text in front of a template is copied verbatim in front of its rendering. */
  lemma {:induction false} FormatLiteralPrefix(p: string, s: string, args: seq<string>)
    requires NoBraces(p)
    ensures Format(p + s, args) == Prepend(p, Format(s, args))
  {
    if p != [] {
      var t := p + s;
      assert t[0] == p[0];
      assert t[1..] == p[1..] + s;
      assert NoBraces(p[1..]);
      FormatLiteralPrefix(p[1..], s, args);
      match Format(s, args)
      case None =>
      case Some(v) => assert [p[0]] + (p[1..] + v) == p + v;
    } else {
      assert p + s == s;
      match Format(s, args)
      case None =>
      case Some(v) => assert p + v == v;
    }
  }

  /** A placeholder `{i}` with an argument `i` is replaced by that argument. */
  lemma FormatPlaceholder(i: nat, s: string, args: seq<string>)
    requires i < |args|
    ensures Format(Placeholder(i) + s, args) == Prepend(args[i], Format(s, args))
  {
    var digits := NatToString(i);
    var rest := digits + ("}" + s);
    PlaceholderShape(digits, s);
    assert rest[..|digits|] == digits && rest[|digits| + 1..] == s;
    ParseNatToString(i);
  }

  /** A placeholder `{i}` with no argument `i` is a format error. */
  lemma FormatPlaceholderOutOfRange(i: nat, s: string, args: seq<string>)
    requires i >= |args|
    ensures Format(Placeholder(i) + s, args) == None
  {
    var digits := NatToString(i);
    var rest := digits + ("}" + s);
    PlaceholderShape(digits, s);
    assert rest[..|digits|] == digits;
    ParseNatToString(i);
  }

  /** How `Format` sees a placeholder: its digit run ends at the closing brace. */
  lemma PlaceholderShape(digits: string, s: string)
    requires |digits| >= 1 && AllDigits(digits)
    ensures var t := ("{" + digits + "}") + s;
      && t[0] == '{' && t[1] != '{'
      && t[1..] == digits + ("}" + s)
      && LeadingDigits(t[1..]) == |digits|
  {
    var t := "{" + digits + "}" + s;
    assert t[1..] == digits + ("}" + s);
    LeadingDigitsOfRun(digits, "}" + s);
  }

  lemma {:induction false} LeadingDigitsOfRun(digits: string, rest: string)
    requires AllDigits(digits)
    requires rest != [] && !IsDigit(rest[0])
    ensures LeadingDigits(digits + rest) == |digits|
  {
    if digits != [] {
      assert (digits + rest)[1..] == digits[1..] + rest;
      LeadingDigitsOfRun(digits[1..], rest);
    }
  }

  /** The placeholder that stands for argument `i`. */
  function Placeholder(i: nat): (p: string)
    ensures |p| >= 3 && p[0] == '{' && p[|p| - 1] == '}'
  {
    "{" + NatToString(i) + "}"
  }

  /** A template with one placeholder `{i}` between brace-free texts. */
  lemma FormatOneHole(head: string, i: nat, tail: string, args: seq<string>)
    requires NoBraces(head) && NoBraces(tail) && i < |args|
    ensures Format(head + (Placeholder(i) + tail), args) == Some(head + (args[i] + tail))
  {
    FormatPlainText(tail, args);
    FormatPlaceholder(i, tail, args);
    FormatLiteralPrefix(head, Placeholder(i) + tail, args);
  }

  /** A template with placeholders `{i}` and `{j}` separated by brace-free texts. */
  lemma FormatTwoHoles(head: string, i: nat, middle: string, j: nat, tail: string, args: seq<string>)
    requires NoBraces(head) && NoBraces(middle) && NoBraces(tail) && i < |args| && j < |args|
    ensures Format(head + (Placeholder(i) + (middle + (Placeholder(j) + tail))), args)
      == Some(head + (args[i] + (middle + (args[j] + tail))))
  {
    var rest := middle + (Placeholder(j) + tail);
    FormatOneHole(middle, j, tail, args);
    FormatPlaceholder(i, rest, args);
    FormatLiteralPrefix(head, Placeholder(i) + rest, args);
  }
}
