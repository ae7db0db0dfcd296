/** The checks a function program passes before code is emitted for it. */
module FunctionTypeChecker {
  import opened Options
  import opened FunctionModel
  import T = FunctionTemplate

  datatype Error =
    | EmptyFunctionProgram
    | DuplicateFunctionName
    | MissingFunctionBody
    | UnterminatedPlaceholder
    | EmptyPlaceholder
    | UndefinedFunctionParameter
    | ConditionRequiresNumber
    | UndefinedFunctionCall
    | FunctionArityMismatch
    | FunctionArgumentKindMismatch

  // ---- What a checked program is

  predicate Defined(ps: seq<Parameter>, name: string) {
    IndexOfParameter(ps, name).Some?
  }

  predicate SegmentOk(ps: seq<Parameter>, s: T.Segment) {
    s.Placeholder? ==> Defined(ps, s.name)
  }

  predicate TemplateOk(ps: seq<Parameter>, template: string) {
    var parsed := T.ParseFrom(template, 0, "");
    parsed.Segments? && forall i :: 0 <= i < |parsed.segments| ==> SegmentOk(ps, parsed.segments[i])
  }

  predicate ComparesNumber(ps: seq<Parameter>, c: Condition) {
    Defined(ps, c.parameter) && ps[IndexOfParameter(ps, c.parameter).value].ptype == Number
  }

  predicate ConditionOk(ps: seq<Parameter>, c: Condition) {
    ComparesNumber(ps, c) && TemplateOk(ps, c.template)
  }

  predicate FunctionOk(f: Function) {
    && !T.Blank(f.body)
    && TemplateOk(f.parameters, f.body)
    && forall i :: 0 <= i < |f.conditions| ==> ConditionOk(f.parameters, f.conditions[i])
  }

  predicate ArgumentsMatch(ps: seq<Parameter>, args: seq<Argument>) {
    |args| == |ps| && forall i :: 0 <= i < |args| ==> args[i].kind == ps[i].ptype
  }

  predicate CallOk(p: Program, call: Call) {
    var i := IndexOfFunction(p.functions, call.functionName);
    i.Some? && ArgumentsMatch(p.functions[i.value].parameters, call.arguments)
  }

  ghost predicate NamesDistinct(fs: seq<Function>) {
    forall i, k :: 0 <= i < k < |fs| ==> fs[i].name != fs[k].name
  }

  ghost predicate Checked(p: Program) {
    && |p.functions| > 0 && |p.calls| > 0
    && NamesDistinct(p.functions)
    && (forall i :: 0 <= i < |p.functions| ==> FunctionOk(p.functions[i]))
    && (forall i :: 0 <= i < |p.calls| ==> CallOk(p, p.calls[i]))
  }

  // ---- The same, said of the program's records

  /** The template has a regular reading, and its placeholders name parameters. */
  ghost predicate Readable(ps: seq<Parameter>, template: string) {
    exists segments :: T.Spells(template, segments) && T.Regular(segments) && NamesParameters(ps, segments)
  }

  ghost predicate NamesParameters(ps: seq<Parameter>, segments: seq<T.Segment>) {
    forall i :: 0 <= i < |segments| && segments[i].Placeholder? ==> exists k :: 0 <= k < |ps| && ps[k].name == segments[i].name
  }

  /** The parameter that the condition compares, the first of its name, is a number. */
  ghost predicate Comparable(ps: seq<Parameter>, c: Condition) {
    exists k :: 0 <= k < |ps| && ps[k].name == c.parameter && ps[k].ptype == Number && forall j :: 0 <= j < k ==> ps[j].name != c.parameter
  }

  ghost predicate FunctionTyped(f: Function) {
    && (exists i :: 0 <= i < |f.body| && !T.IsWhite(f.body[i]))
    && Readable(f.parameters, f.body)
    && forall i :: 0 <= i < |f.conditions| ==>
         Comparable(f.parameters, f.conditions[i]) && Readable(f.parameters, f.conditions[i].template)
  }

  /** The first function of that name takes as many arguments, and each of its kind. */
  ghost predicate CallTyped(fs: seq<Function>, call: Call) {
    exists i :: 0 <= i < |fs| && fs[i].name == call.functionName && (forall j :: 0 <= j < i ==> fs[j].name != call.functionName)
      && |call.arguments| == |fs[i].parameters|
      && forall k :: 0 <= k < |call.arguments| ==> call.arguments[k].kind == fs[i].parameters[k].ptype
  }

  ghost predicate WellTyped(p: Program) {
    && |p.functions| > 0 && |p.calls| > 0
    && (forall i, k :: 0 <= i < k < |p.functions| ==> p.functions[i].name != p.functions[k].name)
    && (forall i :: 0 <= i < |p.functions| ==> FunctionTyped(p.functions[i]))
    && forall i :: 0 <= i < |p.calls| ==> CallTyped(p.functions, p.calls[i])
  }

  lemma TemplateReads(ps: seq<Parameter>, template: string)
    ensures TemplateOk(ps, template) <==> Readable(ps, template)
  {
    hide T.Spells, T.Regular, T.ParseFrom;
    var parsed := T.ParseFrom(template, 0, "");
    if parsed.Segments? {
      T.ParseIsTheReading(template, parsed.segments);
    }
    if Readable(ps, template) {
      var segments :| T.Spells(template, segments) && T.Regular(segments) && NamesParameters(ps, segments);
      T.ParseIsTheReading(template, segments);
    }
  }

  lemma FunctionIsTyped(f: Function)
    ensures FunctionOk(f) <==> FunctionTyped(f)
  {
    hide TemplateOk, Readable, T.IsWhite;
    TemplateReads(f.parameters, f.body);
    forall i | 0 <= i < |f.conditions|
      ensures ConditionOk(f.parameters, f.conditions[i])
              <==> Comparable(f.parameters, f.conditions[i]) && Readable(f.parameters, f.conditions[i].template)
    {
      TemplateReads(f.parameters, f.conditions[i].template);
    }
  }

  lemma CallIsTyped(p: Program, call: Call)
    ensures CallOk(p, call) <==> CallTyped(p.functions, call)
  {
  }

  /** The checked programs are exactly the well-typed ones. */
  lemma CheckedIsWellTyped(p: Program)
    ensures Checked(p) <==> WellTyped(p)
  {
    hide FunctionOk, FunctionTyped, CallOk, CallTyped;
    forall i | 0 <= i < |p.functions| ensures FunctionOk(p.functions[i]) <==> FunctionTyped(p.functions[i]) {
      FunctionIsTyped(p.functions[i]);
    }
    forall i | 0 <= i < |p.calls| ensures CallOk(p, p.calls[i]) <==> CallTyped(p.functions, p.calls[i]) {
      CallIsTyped(p, p.calls[i]);
    }
  }

  // ---- What each error says of the program

  predicate TemplateDefect(ps: seq<Parameter>, template: string, e: Error) {
    var parsed := T.ParseFrom(template, 0, "");
    match e
    case UnterminatedPlaceholder => parsed.Unterminated?
    case EmptyPlaceholder => parsed.EmptyPlaceholder?
    case UndefinedFunctionParameter =>
      parsed.Segments? && exists i :: 0 <= i < |parsed.segments| && !SegmentOk(ps, parsed.segments[i])
    case _ => false
  }

  predicate ConditionDefect(ps: seq<Parameter>, c: Condition, e: Error) {
    || (e == UndefinedFunctionParameter && !Defined(ps, c.parameter))
    || (e == ConditionRequiresNumber && Defined(ps, c.parameter) && !ComparesNumber(ps, c))
    || TemplateDefect(ps, c.template, e)
  }

  predicate FunctionDefect(f: Function, e: Error) {
    || (e == MissingFunctionBody && T.Blank(f.body))
    || TemplateDefect(f.parameters, f.body, e)
    || exists i :: 0 <= i < |f.conditions| && ConditionDefect(f.parameters, f.conditions[i], e)
  }

  predicate CallDefect(p: Program, call: Call, e: Error) {
    var i := IndexOfFunction(p.functions, call.functionName);
    match e
    case UndefinedFunctionCall => i.None?
    case FunctionArityMismatch =>
      i.Some? && |call.arguments| != |p.functions[i.value].parameters|
    case FunctionArgumentKindMismatch =>
      i.Some? && |call.arguments| == |p.functions[i.value].parameters|
      && !ArgumentsMatch(p.functions[i.value].parameters, call.arguments)
    case _ => false
  }

  ghost predicate Defect(p: Program, e: Error) {
    || (e == EmptyFunctionProgram && (|p.functions| == 0 || |p.calls| == 0))
    || (e == DuplicateFunctionName && !NamesDistinct(p.functions))
    || (exists i :: 0 <= i < |p.functions| && FunctionDefect(p.functions[i], e))
    || (exists i :: 0 <= i < |p.calls| && CallDefect(p, p.calls[i], e))
  }

  // ---- The checker

  method CheckTemplate(ps: seq<Parameter>, template: string) returns (error: Option<Error>)
    ensures error.None? <==> TemplateOk(ps, template)
    ensures error.Some? ==> TemplateDefect(ps, template, error.value)
  {
    var parsed := T.Parse(template);
    match parsed
    case Unterminated => return Some(UnterminatedPlaceholder);
    case EmptyPlaceholder => return Some(Error.EmptyPlaceholder);
    case Segments(segments) =>
      for i := 0 to |segments|
        invariant forall k :: 0 <= k < i ==> SegmentOk(ps, segments[k])
      {
        if !SegmentOk(ps, segments[i]) {
          return Some(UndefinedFunctionParameter);
        }
      }
      return None;
  }

  method CheckFunction(f: Function) returns (error: Option<Error>)
    ensures error.None? <==> FunctionOk(f)
    ensures error.Some? ==> FunctionDefect(f, error.value)
  {
    hide TemplateOk, TemplateDefect;
    if T.Blank(f.body) {
      return Some(MissingFunctionBody);
    }
    error := CheckTemplate(f.parameters, f.body);
    if error.Some? {
      return;
    }
    for i := 0 to |f.conditions|
      invariant forall k :: 0 <= k < i ==> ConditionOk(f.parameters, f.conditions[k])
    {
      var c := f.conditions[i];
      if !Defined(f.parameters, c.parameter) {
        error := Some(UndefinedFunctionParameter);
        assert ConditionDefect(f.parameters, c, error.value);
        return;
      }
      if !ComparesNumber(f.parameters, c) {
        error := Some(ConditionRequiresNumber);
        assert ConditionDefect(f.parameters, c, error.value);
        return;
      }
      error := CheckTemplate(f.parameters, c.template);
      if error.Some? {
        assert ConditionDefect(f.parameters, c, error.value);
        return;
      }
    }
    return None;
  }

  method CheckCall(p: Program, call: Call) returns (error: Option<Error>)
    ensures error.None? <==> CallOk(p, call)
    ensures error.Some? ==> CallDefect(p, call, error.value)
  {
    var found := IndexOfFunction(p.functions, call.functionName);
    if found.None? {
      return Some(UndefinedFunctionCall);
    }
    var ps := p.functions[found.value].parameters;
    if |call.arguments| != |ps| {
      return Some(FunctionArityMismatch);
    }
    for i := 0 to |call.arguments|
      invariant forall k :: 0 <= k < i ==> call.arguments[k].kind == ps[k].ptype
    {
      if call.arguments[i].kind != ps[i].ptype {
        return Some(FunctionArgumentKindMismatch);
      }
    }
    return None;
  }

  /** No error exactly for the checked programs, and an error only for a program with that
      defect. */
  method Check(p: Program) returns (error: Option<Error>)
    ensures error.None? <==> Checked(p)
    ensures error.None? <==> WellTyped(p)
    ensures error.Some? ==> Defect(p, error.value)
  {
    CheckedIsWellTyped(p);
    hide WellTyped;
    hide FunctionOk, FunctionDefect, CallOk, CallDefect;
    if |p.functions| == 0 || |p.calls| == 0 {
      return Some(EmptyFunctionProgram);
    }
    var seen: set<string> := {};
    for i := 0 to |p.functions|
      invariant seen == set k | 0 <= k < i :: p.functions[k].name
      invariant NamesDistinct(p.functions[..i])
      invariant forall k :: 0 <= k < i ==> FunctionOk(p.functions[k])
    {
      if p.functions[i].name in seen {
        return Some(DuplicateFunctionName);
      }
      seen := seen + {p.functions[i].name};
      error := CheckFunction(p.functions[i]);
      if error.Some? {
        return;
      }
    }
    assert p.functions[..|p.functions|] == p.functions;
    for i := 0 to |p.calls|
      invariant forall k :: 0 <= k < i ==> CallOk(p, p.calls[k])
    {
      error := CheckCall(p, p.calls[i]);
      if error.Some? {
        return;
      }
    }
    return None;
  }
}
