/** What a function program says, read directly from its calls, templates and conditions. */
module FunctionMeaning {
  import opened Options
  import opened Text
  import opened FunctionModel
  import T = FunctionTemplate
  import C = FunctionTypeChecker

  function ArgumentText(a: Argument): string {
    match a.kind
    case Text => a.text
    case Number => DecimalInt(a.number)
  }

  function SegmentText(ps: seq<Parameter>, args: seq<Argument>, s: T.Segment): string
    requires |args| == |ps| && C.SegmentOk(ps, s)
  {
    match s
    case Literal(text) => text
    case Placeholder(name) => ArgumentText(args[IndexOfParameter(ps, name).value])
  }

  function Render(ps: seq<Parameter>, args: seq<Argument>, segments: seq<T.Segment>): string
    requires |args| == |ps| && forall i :: 0 <= i < |segments| ==> C.SegmentOk(ps, segments[i])
  {
    if |segments| == 0 then "" else SegmentText(ps, args, segments[0]) + Render(ps, args, segments[1..])
  }

  function TemplateText(ps: seq<Parameter>, args: seq<Argument>, template: string): string
    requires |args| == |ps| && C.TemplateOk(ps, template)
  {
    Render(ps, args, T.ParseFrom(template, 0, "").segments)
  }

  predicate Holds(ps: seq<Parameter>, args: seq<Argument>, c: Condition)
    requires |args| == |ps| && C.Defined(ps, c.parameter)
  {
    var n := args[IndexOfParameter(ps, c.parameter).value].number;
    match c.op
    case Greater => n > c.value
    case Less => n < c.value
    case Equal => n == c.value
  }

  function ConditionText(ps: seq<Parameter>, args: seq<Argument>, c: Condition): string
    requires |args| == |ps| && C.ConditionOk(ps, c)
  {
    if Holds(ps, args, c) then TemplateText(ps, args, c.template) + "\n" else ""
  }

  function ConditionsText(f: Function, args: seq<Argument>, k: nat): string
    requires |args| == |f.parameters| && C.FunctionOk(f) && k <= |f.conditions|
    decreases |f.conditions| - k
  {
    if k == |f.conditions| then ""
    else ConditionText(f.parameters, args, f.conditions[k]) + ConditionsText(f, args, k + 1)
  }

  function FunctionText(f: Function, args: seq<Argument>): string
    requires |args| == |f.parameters| && C.FunctionOk(f)
  {
    TemplateText(f.parameters, args, f.body) + "\n" + ConditionsText(f, args, 0)
  }

  /** The line printed before the text of a call; `n` counts the calls from one. */
  function Header(n: nat): string {
    "«البند رقم " + Decimal(n) + "»\n"
  }

  ghost function CallsText(p: Program, k: nat): string
    requires C.Checked(p) && k <= |p.calls|
    decreases |p.calls| - k
  {
    if k == |p.calls| then ""
    else
      assert C.CallOk(p, p.calls[k]);
      var f := p.functions[IndexOfFunction(p.functions, p.calls[k].functionName).value];
      (Header(k + 1) + FunctionText(f, p.calls[k].arguments) + "\n") + CallsText(p, k + 1)
  }

  ghost function Direct(p: Program): string
    requires C.Checked(p)
  {
    CallsText(p, 0)
  }
}
