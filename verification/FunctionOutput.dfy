/** What the output of a function program is, clause by clause, said of the program's records
    and of the digits of numbers alone. */
module FunctionOutput {
  import opened Options
  import opened Text
  import opened FunctionModel
  import opened FunctionMeaning
  import T = FunctionTemplate
  import C = FunctionTypeChecker

  function Joined(parts: seq<string>): string {
    if |parts| == 0 then "" else parts[0] + Joined(parts[1..])
  }

  /** The decimal digits of a number, with a minus sign before those of a negative one. */
  ghost predicate IsSigned(s: string, n: int) {
    if n < 0 then |s| > 0 && s[0] == '-' && IsNumeral(s[1..], -n) else IsNumeral(s, n)
  }

  ghost predicate ValueWritten(a: Argument, s: string) {
    match a.kind
    case Text => s == a.text
    case Number => IsSigned(s, a.number)
  }

  /** The parameter of that name is the i-th. */
  predicate Named(ps: seq<Parameter>, name: string, i: nat) {
    i < |ps| && ps[i].name == name && forall j :: 0 <= j < i ==> ps[j].name != name
  }

  /** Literal text as it stands, a placeholder as the value of its parameter. */
  ghost predicate PieceWritten(ps: seq<Parameter>, args: seq<Argument>, segment: T.Segment, s: string) {
    match segment
    case Literal(text) => s == text
    case Placeholder(name) => exists i: nat :: Named(ps, name, i) && i < |args| && ValueWritten(args[i], s)
  }

  ghost predicate PiecesWritten(ps: seq<Parameter>, args: seq<Argument>, segments: seq<T.Segment>, pieces: seq<string>) {
    |pieces| == |segments| && forall i :: 0 <= i < |segments| ==> PieceWritten(ps, args, segments[i], pieces[i])
  }

  /** The template, read in its one regular way, with its placeholders written. */
  ghost predicate TemplateWritten(ps: seq<Parameter>, args: seq<Argument>, template: string, s: string) {
    exists segments, pieces ::
      T.Spells(template, segments) && T.Regular(segments) && PiecesWritten(ps, args, segments, pieces) && s == Joined(pieces)
  }

  /** The number is greater than, less than or equal to the value, as the condition asks. */
  predicate Fulfilled(op: Operator, n: int, value: int) {
    (op == Greater && n > value) || (op == Less && n < value) || (op == Equal && n == value)
  }

  /** A line with the consequence when the condition holds, and nothing when it does not. */
  ghost predicate ConditionWritten(ps: seq<Parameter>, args: seq<Argument>, c: Condition, s: string) {
    exists i: nat :: Named(ps, c.parameter, i) && i < |args| &&
      if Fulfilled(c.op, args[i].number, c.value) then exists line :: TemplateWritten(ps, args, c.template, line) && s == line + "\n"
      else s == ""
  }

  ghost predicate ConditionsWritten(f: Function, args: seq<Argument>, parts: seq<string>) {
    |parts| == |f.conditions| && forall k :: 0 <= k < |parts| ==> ConditionWritten(f.parameters, args, f.conditions[k], parts[k])
  }

  /** The line of the body, and then those of the conditions in their order. */
  ghost predicate CallWritten(f: Function, args: seq<Argument>, s: string) {
    exists body, parts ::
      TemplateWritten(f.parameters, args, f.body, body) && ConditionsWritten(f, args, parts) && s == body + "\n" + Joined(parts)
  }

  /** The heading with the number of the clause, the text of the call, and an empty line's end. */
  ghost predicate ClauseWritten(fs: seq<Function>, call: Call, number: nat, s: string) {
    exists i: nat, digits, said ::
      && i < |fs| && fs[i].name == call.functionName && CallWritten(fs[i], call.arguments, said)
      && IsNumeral(digits, number) && s == "«البند رقم " + digits + "»\n" + said + "\n"
  }

  /** One clause for each call, numbered from 1. */
  ghost predicate ClausesWritten(p: Program, clauses: seq<string>) {
    |clauses| == |p.calls| && forall k :: 0 <= k < |clauses| ==> ClauseWritten(p.functions, p.calls[k], k + 1, clauses[k])
  }

  // ---- The meaning is written so

  lemma ArgumentIsWritten(a: Argument)
    ensures ValueWritten(a, ArgumentText(a))
  {
    DecimalIntIsNumeral(a.number);
  }

  lemma SegmentIsWritten(ps: seq<Parameter>, args: seq<Argument>, s: T.Segment)
    requires |args| == |ps| && C.SegmentOk(ps, s)
    ensures PieceWritten(ps, args, s, SegmentText(ps, args, s))
  {
    hide ValueWritten, ArgumentText;
    if s.Placeholder? {
      var i := IndexOfParameter(ps, s.name).value;
      ArgumentIsWritten(args[i]);
      assert Named(ps, s.name, i);
    }
  }

  lemma {:induction false} RenderIsWritten(ps: seq<Parameter>, args: seq<Argument>, segments: seq<T.Segment>) returns (pieces: seq<string>)
    requires |args| == |ps| && forall i :: 0 <= i < |segments| ==> C.SegmentOk(ps, segments[i])
    ensures PiecesWritten(ps, args, segments, pieces) && Render(ps, args, segments) == Joined(pieces)
  {
    hide PieceWritten, SegmentText;
    if |segments| == 0 {
      pieces := [];
    } else {
      SegmentIsWritten(ps, args, segments[0]);
      pieces := RenderIsWritten(ps, args, segments[1..]);
      pieces := [SegmentText(ps, args, segments[0])] + pieces;
    }
  }

  lemma TemplateIsWritten(ps: seq<Parameter>, args: seq<Argument>, template: string)
    requires |args| == |ps| && C.TemplateOk(ps, template)
    ensures TemplateWritten(ps, args, template, TemplateText(ps, args, template))
  {
    hide T.ParseFrom, T.Spells, T.Regular, PiecesWritten, Render;
    var segments := T.ParseFrom(template, 0, "").segments;
    T.ParsedIsSpelled(template, 0, "");
    assert "" + template[0..] == template;
    var pieces := RenderIsWritten(ps, args, segments);
  }

  lemma ConditionIsWritten(ps: seq<Parameter>, args: seq<Argument>, c: Condition)
    requires |args| == |ps| && C.ConditionOk(ps, c)
    ensures ConditionWritten(ps, args, c, ConditionText(ps, args, c))
  {
    hide TemplateWritten, TemplateText, C.TemplateOk;
    var i := IndexOfParameter(ps, c.parameter).value;
    assert Named(ps, c.parameter, i);
    TemplateIsWritten(ps, args, c.template);
  }

  lemma {:induction false} ConditionsAreWritten(f: Function, args: seq<Argument>, k: nat) returns (parts: seq<string>)
    requires |args| == |f.parameters| && C.FunctionOk(f) && k <= |f.conditions|
    ensures |parts| == |f.conditions| - k && ConditionsText(f, args, k) == Joined(parts)
    ensures forall i :: 0 <= i < |parts| ==> ConditionWritten(f.parameters, args, f.conditions[k + i], parts[i])
    decreases |f.conditions| - k
  {
    hide ConditionWritten, ConditionText, C.ConditionOk, C.TemplateOk;
    if k == |f.conditions| {
      parts := [];
    } else {
      ConditionIsWritten(f.parameters, args, f.conditions[k]);
      var rest := ConditionsAreWritten(f, args, k + 1);
      parts := [ConditionText(f.parameters, args, f.conditions[k])] + rest;
      forall i | 0 <= i < |parts| ensures ConditionWritten(f.parameters, args, f.conditions[k + i], parts[i]) {
        if i > 0 {
          assert k + i == k + 1 + (i - 1);
        }
      }
    }
  }

  lemma FunctionIsWritten(f: Function, args: seq<Argument>)
    requires |args| == |f.parameters| && C.FunctionOk(f)
    ensures CallWritten(f, args, FunctionText(f, args))
  {
    hide TemplateWritten, TemplateText, ConditionWritten, C.TemplateOk, C.ConditionOk, ConditionsText;
    TemplateIsWritten(f.parameters, args, f.body);
    var parts := ConditionsAreWritten(f, args, 0);
    assert ConditionsWritten(f, args, parts);
  }

  lemma ClauseIsWritten(p: Program, k: nat)
    requires C.Checked(p) && k < |p.calls|
    ensures IndexOfFunction(p.functions, p.calls[k].functionName).Some?
    ensures var f := p.functions[IndexOfFunction(p.functions, p.calls[k].functionName).value];
            && C.FunctionOk(f) && |p.calls[k].arguments| == |f.parameters|
            && ClauseWritten(p.functions, p.calls[k], k + 1, Header(k + 1) + FunctionText(f, p.calls[k].arguments) + "\n")
  {
    hide C.FunctionOk, FunctionText, CallWritten;
    assert C.CallOk(p, p.calls[k]);
    var i := IndexOfFunction(p.functions, p.calls[k].functionName).value;
    FunctionIsWritten(p.functions[i], p.calls[k].arguments);
    DecimalIsNumeral(k + 1);
    hide IsNumeral, Decimal;
    var said := FunctionText(p.functions[i], p.calls[k].arguments);
    assert Header(k + 1) + said + "\n" == "«البند رقم " + Decimal(k + 1) + "»\n" + said + "\n";
  }

  lemma {:induction false} CallsAreWritten(p: Program, k: nat) returns (clauses: seq<string>)
    requires C.Checked(p) && k <= |p.calls|
    ensures |clauses| == |p.calls| - k && CallsText(p, k) == Joined(clauses)
    ensures forall i :: 0 <= i < |clauses| ==> ClauseWritten(p.functions, p.calls[k + i], k + i + 1, clauses[i])
    decreases |p.calls| - k
  {
    hide ClauseWritten, Header, FunctionText, C.FunctionOk, C.CallOk, C.Checked;
    if k == |p.calls| {
      clauses := [];
    } else {
      ClauseIsWritten(p, k);
      var rest := CallsAreWritten(p, k + 1);
      var f := p.functions[IndexOfFunction(p.functions, p.calls[k].functionName).value];
      clauses := [Header(k + 1) + FunctionText(f, p.calls[k].arguments) + "\n"] + rest;
      forall i | 0 <= i < |clauses| ensures ClauseWritten(p.functions, p.calls[k + i], k + i + 1, clauses[i]) {
        if i > 0 {
          assert k + i == k + 1 + (i - 1);
        }
      }
    }
  }

  /** What a checked program says directly is its clauses, one after the other. */
  lemma DirectIsWritten(p: Program) returns (clauses: seq<string>)
    requires C.Checked(p)
    ensures ClausesWritten(p, clauses) && Direct(p) == Joined(clauses)
  {
    hide ClauseWritten, C.Checked;
    clauses := CallsAreWritten(p, 0);
  }

  // ---- The first clause

  lemma OnlyOne(s: string)
    requires IsNumeral(s, 1)
    ensures s == "1"
  {
    if |s| > 1 {
      NumeralGrows(s);
    } else {
      assert s[..0] == "";
      assert ValueOf(s) == 10 * ValueOf(s[..0]) + (s[0] as int - '0' as int);
    }
  }

  lemma {:induction false} NumeralGrows(s: string)
    requires |s| >= 1 && (forall i :: 0 <= i < |s| ==> '0' <= s[i] <= '9') && s[0] != '0'
    ensures ValueOf(s) >= 1 && (|s| > 1 ==> ValueOf(s) >= 10)
  {
    if |s| > 1 {
      NumeralGrows(s[..|s| - 1]);
    } else {
      assert s[..0] == "";
    }
  }

  /** The output begins with the heading of clause 1. */
  lemma BeginsWithClauseOne(p: Program, clauses: seq<string>)
    requires ClausesWritten(p, clauses) && |p.calls| > 0
    ensures "«البند رقم 1»\n" <= Joined(clauses)
  {
    hide CallWritten, IsNumeral;
    var i: nat, digits, said :|
      && i < |p.functions| && p.functions[i].name == p.calls[0].functionName && CallWritten(p.functions[i], p.calls[0].arguments, said)
      && IsNumeral(digits, 1) && clauses[0] == "«البند رقم " + digits + "»\n" + said + "\n";
    OnlyOne(digits);
    assert "«البند رقم " + "1" + "»\n" == "«البند رقم 1»\n";
    assert Joined(clauses) == "«البند رقم 1»\n" + (said + "\n" + Joined(clauses[1..]));
  }
}
