/** Compilation preserves meaning: the emitted module prints what the program says. */
module CompilerCorrectness {
  import opened Options
  import opened Text
  import opened LlvmText
  import opened LlvmModule
  import opened LlvmFunctionEmitter
  import opened FunctionModel
  import O = FunctionOutput
  import opened FunctionMeaning
  import T = FunctionTemplate
  import C = FunctionTypeChecker

  // ---- Constants

  lemma NamedBytes(gs: seq<Global>, symbol: nat, content: string)
    requires Names(gs, symbol, content)
    ensures BytesOf(gs, symbol) == Some(Utf8(content) + [0])
  {
    hide Unescape;
    var bytes := Utf8(content);
    EscapeConcat(bytes, [0]);
    EscapedNul();
    UnescapeEscape(bytes + [0]);
  }

  lemma EscapedNul()
    ensures Escape([0]) == "\\00"
  {
  }

  /** No symbol stands for two texts, and no text has two symbols: interning is one to one. */
  lemma InternedIsBijection(pool: map<string, nat>, gs: seq<Global>, c: string, d: string)
    requires Interned(pool, gs) && c in pool && d in pool && pool[c] == pool[d]
    ensures c == d
    ensures gs[pool[c]].length == |Utf8(c)| + 1 && BytesOf(gs, pool[c]) == Some(Utf8(c) + [0])
  {
    hide BytesOf, GlobalFor;
    NamedBytes(gs, pool[c], c);
    NamedBytes(gs, pool[d], d);
    assert Utf8(c) == (Utf8(c) + [0])[..|Utf8(c) + [0]| - 1] == (Utf8(d) + [0])[..|Utf8(d) + [0]| - 1] == Utf8(d);
    Utf8Injective(c, d);
    GlobalLength(pool[c], c);
  }

  lemma GlobalLength(symbol: nat, content: string)
    ensures GlobalFor(symbol, content).length == |Utf8(content)| + 1
  {
  }

  lemma {:induction false} CStringOfTerminated(bytes: seq<Byte>)
    requires 0 !in bytes
    ensures CString(bytes + [0]) == Some(bytes)
  {
    if |bytes| > 0 {
      assert (bytes + [0])[1..] == bytes[1..] + [0];
      CStringOfTerminated(bytes[1..]);
      assert bytes == [bytes[0]] + bytes[1..];
    }
  }

  lemma NamedText(gs: seq<Global>, symbol: nat, content: string)
    requires Names(gs, symbol, content) && '\0' !in content
    ensures TextAt(gs, symbol) == Some(Utf8(content))
  {
    hide Names, BytesOf, CString;
    NamedBytes(gs, symbol, content);
    Utf8HasNoNul(content);
    CStringOfTerminated(Utf8(content));
  }

  // ---- printf reads formats as they were written

  lemma {:induction false} PlainBytes(gs: seq<Global>, plain: seq<Byte>, rest: seq<Byte>, values: seq<Value>)
    requires 0 !in plain && PERCENT !in plain
    ensures PrintfOutput(gs, plain + rest, values) == Emit(plain, PrintfOutput(gs, rest, values))
  {
    hide Converted;
    if |plain| == 0 {
      assert plain + rest == rest;
      EmitNothing(PrintfOutput(gs, rest, values));
    } else {
      assert (plain + rest)[1..] == plain[1..] + rest;
      PlainBytes(gs, plain[1..], rest, values);
      EmitTwice([plain[0]], plain[1..], PrintfOutput(gs, rest, values));
      assert [plain[0]] + plain[1..] == plain;
    }
  }

  lemma EmitNothing(r: Option<seq<Byte>>)
    ensures Emit([], r) == r
  {
    if r.Some? {
      assert [] + r.value == r.value;
    }
  }

  lemma EmitSome(a: seq<Byte>, b: seq<Byte>)
    ensures Emit(a, Some(b)) == Some(a + b)
  {
  }

  lemma EmitTwice(a: seq<Byte>, b: seq<Byte>, r: Option<seq<Byte>>)
    ensures Emit(a, Emit(b, r)) == Emit(a + b, r)
  {
    if r.Some? {
      assert a + (b + r.value) == (a + b) + r.value;
    }
  }

  lemma PlainChar(c: char)
    requires c != '\0' && c != '%'
    ensures 0 !in Utf8Char(c) && PERCENT !in Utf8Char(c)
  {
  }

  lemma {:induction false} EscapedLiteral(gs: seq<Global>, text: string, rest: seq<Byte>, values: seq<Value>)
    requires '\0' !in text
    ensures PrintfOutput(gs, Utf8(EscapePercent(text)) + rest, values)
            == Emit(Utf8(text), PrintfOutput(gs, rest, values))
  {
    hide PrintfOutput, Utf8Char;
    if |text| == 0 {
      assert Utf8(text) == [] && Utf8(EscapePercent(text)) == [];
      assert Utf8(EscapePercent(text)) + rest == rest;
      EmitNothing(PrintfOutput(gs, rest, values));
    } else {
      var more := Utf8(EscapePercent(text[1..])) + rest;
      EscapedLiteral(gs, text[1..], rest, values);
      EscapedChar(gs, text[0], more, values);
      var head := if text[0] == '%' then "%%" else [text[0]];
      Utf8Concat(head, EscapePercent(text[1..]));
      assert Utf8(EscapePercent(text)) + rest == Utf8(head) + more;
      EmitTwice(Utf8Char(text[0]), Utf8(text[1..]), PrintfOutput(gs, rest, values));
    }
  }

  lemma EscapedChar(gs: seq<Global>, c: char, more: seq<Byte>, values: seq<Value>)
    requires c != '\0'
    ensures PrintfOutput(gs, Utf8(if c == '%' then "%%" else [c]) + more, values)
            == Emit(Utf8Char(c), PrintfOutput(gs, more, values))
  {
    if c == '%' {
      TwoAscii('%', '%');
      assert ([PERCENT, PERCENT] + more)[2..] == more;
    } else {
      PlainChar(c);
      OneChar(c);
      PlainBytes(gs, Utf8Char(c), more, values);
    }
  }

  lemma OneChar(c: char)
    ensures Utf8([c]) == Utf8Char(c)
  {
    assert [c][1..] == "";
    assert Utf8("") == [];
  }

  lemma TwoAscii(a: char, b: char)
    requires a as int < 0x80 && b as int < 0x80
    ensures Utf8([a, b]) == [a as int, b as int]
  {
    assert [a, b][1..] == [b];
    OneChar(b);
  }

  // ---- Arguments at run time

  /** The value passed for an argument. */
  predicate Passes(gs: seq<Global>, v: Value, a: Argument) {
    match a.kind
    case Text => v.PointerValue? && Names(gs, v.symbol, a.text)
    case Number => v == IntValue(a.number)
  }

  ghost predicate PassAll(gs: seq<Global>, params: seq<Value>, args: seq<Argument>) {
    |params| == |args| && forall i :: 0 <= i < |args| ==> Passes(gs, params[i], args[i])
  }

  lemma PassedPlaceholder(gs: seq<Global>, ps: seq<Parameter>, args: seq<Argument>, params: seq<Value>, i: nat,
                          rest: seq<Byte>, values: seq<Value>)
    requires C.ArgumentsMatch(ps, args) && PassAll(gs, params, args) && i < |ps|
    requires '\0' !in ArgumentText(args[i])
    ensures HasType(params[i], LlvmType(ps[i].ptype))
    ensures PrintfOutput(gs, Utf8(Conversion(ps[i].ptype)) + rest, [params[i]] + values)
            == Emit(Utf8(ArgumentText(args[i])), PrintfOutput(gs, rest, values))
  {
    hide Names, TextAt, Utf8, DecimalInt;
    var letter := if ps[i].ptype == Number then 'd' else 's';
    assert Conversion(ps[i].ptype) == ['%', letter];
    TwoAscii('%', letter);
    var format := [PERCENT, letter as int] + rest;
    assert format[2..] == rest && ([params[i]] + values)[1..] == values;
    assert Passes(gs, params[i], args[i]);
    if ps[i].ptype == Text {
      NamedText(gs, params[i].symbol, args[i].text);
    }
  }

  /** The values a segment takes from the argument list. */
  function SegmentValues(ps: seq<Parameter>, params: seq<Value>, s: T.Segment): seq<Value>
    requires |params| == |ps| && C.SegmentOk(ps, s)
  {
    match s
    case Literal(_) => []
    case Placeholder(name) => [params[IndexOfParameter(ps, name).value]]
  }

  lemma SegmentPrints(gs: seq<Global>, ps: seq<Parameter>, args: seq<Argument>, params: seq<Value>,
                      s: T.Segment, more: seq<Byte>, values: seq<Value>)
    requires C.ArgumentsMatch(ps, args) && PassAll(gs, params, args) && C.SegmentOk(ps, s)
    requires '\0' !in SegmentText(ps, args, s)
    ensures PrintfOutput(gs, Utf8(SegmentFormat(ps, s)) + more, SegmentValues(ps, params, s) + values)
            == Emit(Utf8(SegmentText(ps, args, s)), PrintfOutput(gs, more, values))
  {
    match s
    case Literal(text) =>
      assert SegmentValues(ps, params, s) + values == values;
      EscapedLiteral(gs, text, more, values);
    case Placeholder(name) =>
      PassedPlaceholder(gs, ps, args, params, IndexOfParameter(ps, name).value, more, values);
  }

  lemma SegmentTakes(gs: seq<Global>, ps: seq<Parameter>, args: seq<Argument>, params: seq<Value>, segments: seq<T.Segment>)
    requires C.ArgumentsMatch(ps, args) && PassAll(gs, params, args) && AllDefined(ps, segments) && |segments| > 0
    requires PrintfValues(Arguments(ps, segments[1..]), params).Some?
    ensures PrintfValues(Arguments(ps, segments), params)
            == Some(SegmentValues(ps, params, segments[0]) + PrintfValues(Arguments(ps, segments[1..]), params).value)
  {
    PassedTypes(gs, ps, args, params);
    hide PassAll, C.ArgumentsMatch, IndexOfParameter, HasType, LlvmType, PrintfValues;
    var s, tail := segments[0], Arguments(ps, segments[1..]);
    match s
    case Literal(_) =>
      assert Arguments(ps, segments) == [] + tail == tail;
      assert [] + PrintfValues(tail, params).value == PrintfValues(tail, params).value;
    case Placeholder(name) =>
      var i := IndexOfParameter(ps, name).value;
      OneMoreValue(params, PrintfArgument(LlvmType(ps[i].ptype), i), tail);
  }

  lemma PassedTypes(gs: seq<Global>, ps: seq<Parameter>, args: seq<Argument>, params: seq<Value>)
    requires C.ArgumentsMatch(ps, args) && PassAll(gs, params, args)
    ensures |params| == |args| == |ps|
    ensures forall i :: 0 <= i < |ps| ==> HasType(params[i], LlvmType(ps[i].ptype))
  {
    hide Names;
    forall i | 0 <= i < |ps| ensures HasType(params[i], LlvmType(ps[i].ptype)) {
      assert Passes(gs, params[i], args[i]);
    }
  }

  lemma OneMoreValue(params: seq<Value>, a: PrintfArgument, tail: seq<PrintfArgument>)
    requires a.parameter < |params| && HasType(params[a.parameter], a.irType) && PrintfValues(tail, params).Some?
    ensures PrintfValues([a] + tail, params) == Some([params[a.parameter]] + PrintfValues(tail, params).value)
  {
    assert ([a] + tail)[1..] == tail;
  }

  ghost predicate Prints(gs: seq<Global>, ps: seq<Parameter>, args: seq<Argument>, params: seq<Value>,
                         segments: seq<T.Segment>, rest: seq<Byte>)
    requires |args| == |ps| && AllDefined(ps, segments)
  {
    var values := PrintfValues(Arguments(ps, segments), params);
    && values.Some?
    && PrintfOutput(gs, Utf8(Format(ps, segments)) + rest, values.value)
       == Emit(Utf8(Render(ps, args, segments)), PrintfOutput(gs, rest, []))
  }

  lemma PrintsNothing(gs: seq<Global>, ps: seq<Parameter>, args: seq<Argument>, params: seq<Value>, rest: seq<Byte>)
    requires |args| == |ps|
    ensures Prints(gs, ps, args, params, [], rest)
  {
    hide PrintfOutput;
    assert Utf8("") == [] && [] + rest == rest;
    EmitNothing(PrintfOutput(gs, rest, []));
  }

  lemma PrintsOneMore(gs: seq<Global>, ps: seq<Parameter>, args: seq<Argument>, params: seq<Value>,
                      segments: seq<T.Segment>, rest: seq<Byte>)
    requires C.ArgumentsMatch(ps, args) && PassAll(gs, params, args) && AllDefined(ps, segments) && |segments| > 0
    requires '\0' !in SegmentText(ps, args, segments[0])
    requires Prints(gs, ps, args, params, segments[1..], rest)
    ensures Prints(gs, ps, args, params, segments, rest)
  {
    assert |params| == |args| == |ps|;
    hide PrintfOutput, PassAll, C.ArgumentsMatch, SegmentFormat, SegmentArguments, SegmentText, SegmentValues;
    hide Utf8, Format, Render, Arguments;
    var s, tail := segments[0], segments[1..];
    SegmentTakes(gs, ps, args, params, segments);
    var more := Utf8(Format(ps, tail)) + rest;
    SegmentPrints(gs, ps, args, params, s, more, PrintfValues(Arguments(ps, tail), params).value);
    FormatSplit(ps, segments, rest);
    RenderSplit(ps, args, segments);
    EmitTwice(Utf8(SegmentText(ps, args, s)), Utf8(Render(ps, args, tail)), PrintfOutput(gs, rest, []));
  }

  lemma FormatSplit(ps: seq<Parameter>, segments: seq<T.Segment>, rest: seq<Byte>)
    requires AllDefined(ps, segments) && |segments| > 0
    ensures Utf8(Format(ps, segments)) + rest
            == Utf8(SegmentFormat(ps, segments[0])) + (Utf8(Format(ps, segments[1..])) + rest)
  {
    hide SegmentFormat, Utf8;
    Utf8Concat(SegmentFormat(ps, segments[0]), Format(ps, segments[1..]));
  }

  lemma RenderSplit(ps: seq<Parameter>, args: seq<Argument>, segments: seq<T.Segment>)
    requires |args| == |ps| && AllDefined(ps, segments) && |segments| > 0
    ensures Utf8(Render(ps, args, segments))
            == Utf8(SegmentText(ps, args, segments[0])) + Utf8(Render(ps, args, segments[1..]))
  {
    hide SegmentText, Utf8;
    Utf8Concat(SegmentText(ps, args, segments[0]), Render(ps, args, segments[1..]));
  }

  lemma {:induction false} FormatPrints(gs: seq<Global>, ps: seq<Parameter>, args: seq<Argument>, params: seq<Value>,
                                        segments: seq<T.Segment>, rest: seq<Byte>)
    requires C.ArgumentsMatch(ps, args) && PassAll(gs, params, args) && AllDefined(ps, segments)
    requires '\0' !in Render(ps, args, segments)
    ensures Prints(gs, ps, args, params, segments, rest)
  {
    assert |args| == |ps|;
    hide Prints, PassAll, C.ArgumentsMatch, SegmentText, C.SegmentOk;
    if |segments| == 0 {
      PrintsNothing(gs, ps, args, params, rest);
      assert segments == [];
    } else {
      FormatPrints(gs, ps, args, params, segments[1..], rest);
      PrintsOneMore(gs, ps, args, params, segments, rest);
    }
  }

  const NEWLINE: Byte := 0x0A

  lemma PrintfPrints(gs: seq<Global>, line: Line, ps: seq<Parameter>, args: seq<Argument>, params: seq<Value>, template: string)
    requires C.ArgumentsMatch(ps, args) && PassAll(gs, params, args)
    requires IsPrintf(gs, line, ps, template)
    requires '\0' !in TemplateText(ps, args, template)
    ensures PrintfCall(gs, line.format, line.arguments, params)
            == Some(Utf8(TemplateText(ps, args, template) + "\n"))
  {
    assert |args| == |ps|;
    hide PrintfOutput, Format, Arguments, Names, BytesOf, Render, PrintfValues, PassAll, C.ArgumentsMatch;
    var segments := T.ParseFrom(template, 0, "").segments;
    var format := Format(ps, segments);
    NamedBytes(gs, line.format, format + "\n");
    FormatPrints(gs, ps, args, params, segments, [NEWLINE, 0]);
    NewlineByte();
    Utf8Concat(format, "\n");
    Utf8Concat(Render(ps, args, segments), "\n");
    assert (Utf8(format) + [NEWLINE]) + [0] == Utf8(format) + [NEWLINE, 0];
    NewlinePrints(gs, []);
    var bytes, values := BytesOf(gs, line.format).value, PrintfValues(line.arguments, params).value;
    assert bytes == Utf8(format) + [NEWLINE, 0];
    assert PrintfOutput(gs, bytes, values) == Emit(Utf8(Render(ps, args, segments)), Some([NEWLINE]));
    assert PrintfCall(gs, line.format, line.arguments, params) == PrintfOutput(gs, bytes, values);
    assert TemplateText(ps, args, template) == Render(ps, args, segments);
  }

  lemma NewlineByte()
    ensures Utf8("\n") == [NEWLINE]
  {
    assert "\n" == ['\n'];
    OneChar('\n');
  }

  lemma NewlinePrints(gs: seq<Global>, values: seq<Value>)
    ensures PrintfOutput(gs, [NEWLINE, 0], values) == Some([NEWLINE])
  {
    assert PrintfOutput(gs, [0], values) == Some([]);
    PlainBytes(gs, [NEWLINE], [0], values);
    assert [NEWLINE] + [0] == [NEWLINE, 0] && [NEWLINE] + [] == [NEWLINE];
  }

  // ---- Labels

  /** Every label of a function stands in one place. */
  predicate LabelAt(code: seq<Line>, i: nat)
    requires i < |code|
  {
    code[i].LabelLine? ==>
      || (i == 0 && code[i].name == Entry)
      || (code[i].name.Then? && i == 4 + 6 * code[i].name.number)
      || (code[i].name.Cont? && i == 7 + 6 * code[i].name.number)
  }

  lemma LabelsInPlace(gs: seq<Global>, code: seq<Line>, f: Function, i: nat)
    requires IsFunction(gs, code, f) && i < |code|
    ensures LabelAt(code, i)
  {
    hide IsPrintf, C.Defined;
    if 2 <= i < 2 + 6 * |f.conditions| {
      var k := (i - 2) / 6;
      assert IsCondition(gs, code[2 + 6 * k..8 + 6 * k], f.parameters, f.conditions[k], k);
      assert code[i] == code[2 + 6 * k..8 + 6 * k][i - 2 - 6 * k];
      IsPrintfIsNoLabel(gs, code[2 + 6 * k..8 + 6 * k][3], f.parameters, f.conditions[k].template);
    } else if i == 1 {
      IsPrintfIsNoLabel(gs, code[1], f.parameters, f.body);
    }
  }

  lemma IsPrintfIsNoLabel(gs: seq<Global>, line: Line, ps: seq<Parameter>, template: string)
    requires IsPrintf(gs, line, ps, template)
    ensures !line.LabelLine?
  {
  }

  lemma {:induction false} TargetFound(code: seq<Line>, name: BlockLabel, from: nat, at: nat)
    requires from <= at < |code| && code[at] == LabelLine(name)
    requires forall j :: from <= j < at ==> code[j] != LabelLine(name)
    ensures Target(code, name, from) == at + 1
    decreases at - from
  {
    if from < at {
      TargetFound(code, name, from + 1, at);
    }
  }

  lemma BranchTarget(gs: seq<Global>, code: seq<Line>, f: Function, name: BlockLabel, at: nat)
    requires IsFunction(gs, code, f) && at < |code| && code[at] == LabelLine(name)
    ensures Target(code, name, 0) == at + 1
  {
    hide IsFunction;
    LabelsInPlace(gs, code, f, at);
    forall j | 0 <= j < at ensures code[j] != LabelLine(name) {
      LabelsInPlace(gs, code, f, j);
    }
    TargetFound(code, name, 0, at);
  }

  // ---- Functions

  lemma SixLines(gs: seq<Global>, code: seq<Line>, f: Function, k: nat)
    requires IsFunction(gs, code, f) && k < |f.conditions|
    ensures |code| == 3 + 6 * |f.conditions|
    ensures C.Defined(f.parameters, f.conditions[k].parameter)
    ensures var a, c := 2 + 6 * k, f.conditions[k];
            && code[a] == IcmpLine(k, ComparisonOf(c.op), IndexOfParameter(f.parameters, c.parameter).value, c.value)
            && code[a + 1] == BranchLine(k, Then(k), Cont(k))
            && code[a + 2] == LabelLine(Then(k))
            && IsPrintf(gs, code[a + 3], f.parameters, c.template)
            && code[a + 4] == JumpLine(Cont(k))
            && code[a + 5] == LabelLine(Cont(k))
  {
    hide IsPrintf, C.Defined;
    var a := 2 + 6 * k;
    var lines := code[a..8 + 6 * k];
    assert IsCondition(gs, lines, f.parameters, f.conditions[k], k);
    assert code[a] == lines[0] && code[a + 1] == lines[1] && code[a + 2] == lines[2]
           && code[a + 3] == lines[3] && code[a + 4] == lines[4] && code[a + 5] == lines[5];
  }

  /** The six lines of condition k, with the places its branches lead to. */
  lemma ConditionLines(gs: seq<Global>, code: seq<Line>, f: Function, k: nat)
    requires IsFunction(gs, code, f) && k < |f.conditions|
    ensures |code| == 3 + 6 * |f.conditions|
    ensures C.Defined(f.parameters, f.conditions[k].parameter)
    ensures var a, c := 2 + 6 * k, f.conditions[k];
            && code[a] == IcmpLine(k, ComparisonOf(c.op), IndexOfParameter(f.parameters, c.parameter).value, c.value)
            && code[a + 1] == BranchLine(k, Then(k), Cont(k))
            && IsPrintf(gs, code[a + 3], f.parameters, c.template)
            && code[a + 4] == JumpLine(Cont(k))
            && Target(code, Then(k), 0) == a + 3 && Target(code, Cont(k), 0) == a + 6
  {
    var a := 2 + 6 * k;
    SixLines(gs, code, f, k);
    hide *;
    BranchTarget(gs, code, f, Then(k), a + 2);
    BranchTarget(gs, code, f, Cont(k), a + 5);
  }

  predicate ConditionsInI32(f: Function) {
    forall i :: 0 <= i < |f.conditions| ==> InI32(f.conditions[i].value)
  }

  lemma ComparisonHolds(gs: seq<Global>, ps: seq<Parameter>, args: seq<Argument>, params: seq<Value>, c: Condition)
    requires C.ArgumentsMatch(ps, args) && PassAll(gs, params, args) && C.ConditionOk(ps, c)
    ensures var i := IndexOfParameter(ps, c.parameter).value;
            && i < |params| && params[i].IntValue?
            && Compare(ComparisonOf(c.op), params[i].value, c.value) == Holds(ps, args, c)
  {
    hide Names, C.TemplateOk;
    var i := IndexOfParameter(ps, c.parameter).value;
    assert Passes(gs, params[i], args[i]);
  }

  predicate NoNul(s: string) {
    '\0' !in s
  }

  lemma NoNulInParts(a: string, b: string)
    requires NoNul(a + b)
    ensures NoNul(a) && NoNul(b)
  {
    forall i | 0 <= i < |a| ensures a[i] != '\0' {
      assert a[i] == (a + b)[i];
    }
    forall i | 0 <= i < |b| ensures b[i] != '\0' {
      assert b[i] == (a + b)[|a| + i];
    }
  }

  /** The code of a function, and the values passed for arguments that suit it. */
  ghost predicate Ready(gs: seq<Global>, code: seq<Line>, f: Function, args: seq<Argument>, params: seq<Value>) {
    && IsFunction(gs, code, f) && C.FunctionOk(f) && ConditionsInI32(f)
    && C.ArgumentsMatch(f.parameters, args) && PassAll(gs, params, args)
  }

  // ---- One line at a time

  lemma PrintfRuns(m: Module, code: seq<Line>, at: nat, params: seq<Value>, flags: map<nat, bool>, fuel: nat)
    requires fuel > 0 && at < |code| && code[at].PrintfLine?
    requires PrintfCall(m.globals, code[at].format, code[at].arguments, params).Some?
    ensures Exec(m, code, at, params, flags, fuel)
            == Emit(PrintfCall(m.globals, code[at].format, code[at].arguments, params).value,
                    Exec(m, code, at + 1, params, flags, fuel - 1))
  {
    hide PrintfCall;
  }

  lemma JumpRuns(m: Module, code: seq<Line>, at: nat, params: seq<Value>, flags: map<nat, bool>, fuel: nat)
    requires fuel > 0 && at < |code| && code[at].JumpLine?
    ensures Exec(m, code, at, params, flags, fuel)
            == Exec(m, code, Target(code, code[at].target, 0), params, flags, fuel - 1)
  {
  }

  lemma BranchRuns(m: Module, code: seq<Line>, at: nat, params: seq<Value>, flags: map<nat, bool>, fuel: nat)
    requires fuel > 0 && at < |code| && code[at].BranchLine? && code[at].flag in flags
    ensures Exec(m, code, at, params, flags, fuel)
            == Exec(m, code, Target(code, if flags[code[at].flag] then code[at].ifTrue else code[at].ifFalse, 0), params, flags, fuel - 1)
  {
  }

  lemma IcmpRuns(m: Module, code: seq<Line>, at: nat, params: seq<Value>, flags: map<nat, bool>, fuel: nat)
    requires fuel > 0 && at < |code| && code[at].IcmpLine? && code[at].flag !in flags && InI32(code[at].value)
    requires code[at].parameter < |params| && params[code[at].parameter].IntValue?
    ensures Exec(m, code, at, params, flags, fuel)
            == Exec(m, code, at + 1, params,
                    flags[code[at].flag := Compare(code[at].comparison, params[code[at].parameter].value, code[at].value)],
                    fuel - 1)
  {
  }

  lemma RetRuns(m: Module, code: seq<Line>, at: nat, params: seq<Value>, flags: map<nat, bool>, fuel: nat)
    requires fuel > 0 && at < |code| && code[at] == RetLine
    ensures Exec(m, code, at, params, flags, fuel) == Some([])
  {
  }

  /** A condition that holds prints its line and goes on; one that does not only goes on. */
  lemma ConditionRuns(m: Module, code: seq<Line>, f: Function, args: seq<Argument>,
                      params: seq<Value>, k: nat, flags: map<nat, bool>, fuel: nat)
    requires Ready(m.globals, code, f, args, params) && k < |f.conditions|
    requires NoNul(ConditionText(f.parameters, args, f.conditions[k]))
    requires k !in flags && fuel >= 4
    ensures var holds := Holds(f.parameters, args, f.conditions[k]);
            Exec(m, code, 2 + 6 * k, params, flags, fuel)
            == Emit(Utf8(ConditionText(f.parameters, args, f.conditions[k])),
                    Exec(m, code, 8 + 6 * k, params, flags[k := holds], if holds then fuel - 4 else fuel - 2))
  {
    hide *;
    ReadyShape(m.globals, code, f, args, params);
    ReadyCondition(m.globals, code, f, args, params, k);
    var c := f.conditions[k];
    var a := 2 + 6 * k;
    var holds := Holds(f.parameters, args, c);
    var flags' := flags[k := holds];
    ConditionLinesReady(m.globals, code, f, args, params, k);
    IcmpRuns(m, code, a, params, flags, fuel);
    BranchRuns(m, code, a + 1, params, flags', fuel - 1);
    ConditionTextIs(f.parameters, args, c);
    if holds {
      NoNulInParts(TemplateText(f.parameters, args, c.template), "\n");
      PrintfOfReady(m.globals, code, f, args, params, code[a + 3], c.template);
      PrintfRuns(m, code, a + 3, params, flags', fuel - 2);
      JumpRuns(m, code, a + 4, params, flags', fuel - 3);
    } else {
      NoText();
      EmitNothing(Exec(m, code, 8 + 6 * k, params, flags', fuel - 2));
    }
  }

  lemma ConditionLinesReady(gs: seq<Global>, code: seq<Line>, f: Function, args: seq<Argument>, params: seq<Value>, k: nat)
    requires Ready(gs, code, f, args, params) && k < |f.conditions|
    ensures |code| == 3 + 6 * |f.conditions|
    ensures C.Defined(f.parameters, f.conditions[k].parameter) && |args| == |f.parameters|
    ensures var a, c := 2 + 6 * k, f.conditions[k];
            && code[a].IcmpLine? && code[a].flag == k && code[a].value == c.value
            && code[a].parameter < |params| && params[code[a].parameter].IntValue?
            && Compare(code[a].comparison, params[code[a].parameter].value, c.value)
               == Holds(f.parameters, args, c)
            && code[a + 1] == BranchLine(k, Then(k), Cont(k))
            && IsPrintf(gs, code[a + 3], f.parameters, c.template)
            && code[a + 4] == JumpLine(Cont(k))
            && Target(code, Then(k), 0) == a + 3 && Target(code, Cont(k), 0) == a + 6
  {
    ReadyCondition(gs, code, f, args, params, k);
    hide IsFunction, PassAll, C.FunctionOk, C.ConditionOk, C.ArgumentsMatch, ConditionsInI32, IsPrintf, Compare, Holds;
    ConditionLines(gs, code, f, k);
    ComparisonHolds(gs, f.parameters, args, params, f.conditions[k]);
  }

  lemma ConditionTextIs(ps: seq<Parameter>, args: seq<Argument>, c: Condition)
    requires |args| == |ps| && C.ConditionOk(ps, c)
    ensures C.Defined(ps, c.parameter) && C.TemplateOk(ps, c.template)
    ensures ConditionText(ps, args, c) == if Holds(ps, args, c) then TemplateText(ps, args, c.template) + "\n" else ""
  {
    hide TemplateText, Holds;
  }

  lemma PrintfOfReady(gs: seq<Global>, code: seq<Line>, f: Function, args: seq<Argument>, params: seq<Value>,
                      line: Line, template: string)
    requires Ready(gs, code, f, args, params) && |args| == |f.parameters|
    requires IsPrintf(gs, line, f.parameters, template) && C.TemplateOk(f.parameters, template)
    requires NoNul(TemplateText(f.parameters, args, template))
    ensures line.PrintfLine?
    ensures PrintfCall(gs, line.format, line.arguments, params)
            == Some(Utf8(TemplateText(f.parameters, args, template) + "\n"))
  {
    hide IsFunction, C.FunctionOk, PassAll, C.ArgumentsMatch, TemplateText, PrintfCall;
    PrintfPrints(gs, line, f.parameters, args, params, template);
    IsPrintfIsPrintf(gs, line, f.parameters, template);
  }

  lemma NoText()
    ensures Utf8("") == []
  {
  }

  lemma IsPrintfIsPrintf(gs: seq<Global>, line: Line, ps: seq<Parameter>, template: string)
    requires IsPrintf(gs, line, ps, template)
    ensures line.PrintfLine?
  {
  }

  /** Running the conditions from the k-th on, with the earlier comparisons recorded. */
  lemma {:induction false} ConditionsRun(m: Module, code: seq<Line>, f: Function, args: seq<Argument>,
                                         params: seq<Value>, k: nat, flags: map<nat, bool>, fuel: nat)
    requires Ready(m.globals, code, f, args, params) && k <= |f.conditions|
    requires NoNul(ConditionsText(f, args, k))
    requires forall j :: k <= j ==> j !in flags
    requires fuel >= |code| - (2 + 6 * k)
    ensures Exec(m, code, 2 + 6 * k, params, flags, fuel) == Some(Utf8(ConditionsText(f, args, k)))
    decreases |f.conditions| - k
  {
    hide *;
    ReadyShape(m.globals, code, f, args, params);
    if k == |f.conditions| {
      NoMoreText(f, args);
      RetRuns(m, code, 2 + 6 * k, params, flags, fuel);
    } else {
      ReadyCondition(m.globals, code, f, args, params, k);
      ConditionsTextIs(f, args, k);
      var holds := Holds(f.parameters, args, f.conditions[k]);
      var text, more := ConditionText(f.parameters, args, f.conditions[k]), ConditionsText(f, args, k + 1);
      NoNulInParts(text, more);
      Utf8Concat(text, more);
      EmitSome(Utf8(text), Utf8(more));
      ConditionRuns(m, code, f, args, params, k, flags, fuel);
      ConditionsRun(m, code, f, args, params, k + 1, flags[k := holds], if holds then fuel - 4 else fuel - 2);
    }
  }

  lemma NoMoreText(f: Function, args: seq<Argument>)
    requires |args| == |f.parameters| && C.FunctionOk(f)
    ensures Utf8(ConditionsText(f, args, |f.conditions|)) == []
  {
  }

  lemma ReadyCondition(gs: seq<Global>, code: seq<Line>, f: Function, args: seq<Argument>, params: seq<Value>, k: nat)
    requires Ready(gs, code, f, args, params) && k < |f.conditions|
    ensures C.ConditionOk(f.parameters, f.conditions[k]) && C.Defined(f.parameters, f.conditions[k].parameter)
    ensures InI32(f.conditions[k].value)
  {
    hide IsFunction, PassAll, C.TemplateOk;
  }

  lemma ConditionsTextIs(f: Function, args: seq<Argument>, k: nat)
    requires |args| == |f.parameters| && C.FunctionOk(f) && k < |f.conditions|
    ensures C.ConditionOk(f.parameters, f.conditions[k])
    ensures ConditionsText(f, args, k)
            == ConditionText(f.parameters, args, f.conditions[k]) + ConditionsText(f, args, k + 1)
  {
    hide ConditionText;
  }

  lemma ReadyShape(gs: seq<Global>, code: seq<Line>, f: Function, args: seq<Argument>, params: seq<Value>)
    requires Ready(gs, code, f, args, params)
    ensures |args| == |f.parameters| && C.FunctionOk(f)
    ensures |code| == 3 + 6 * |f.conditions| && code[0] == LabelLine(Entry) && code[2 + 6 * |f.conditions|] == RetLine
    ensures code[1].PrintfLine? && IsPrintf(gs, code[1], f.parameters, f.body)
  {
    hide C.FunctionOk, PassAll;
    IsPrintfIsPrintf(gs, code[1], f.parameters, f.body);
  }

  lemma EnterRuns(m: Module, code: seq<Line>, params: seq<Value>, fuel: nat)
    requires |code| > 0 && code[0] == LabelLine(Entry)
    ensures Enter(m, code, params, fuel) == Exec(m, code, 1, params, map[], fuel)
  {
  }

  lemma BodyRuns(m: Module, code: seq<Line>, f: Function, args: seq<Argument>, params: seq<Value>, fuel: nat)
    requires Ready(m.globals, code, f, args, params)
    requires NoNul(TemplateText(f.parameters, args, f.body) + "\n") && fuel > 0
    ensures Exec(m, code, 1, params, map[], fuel)
            == Emit(Utf8(TemplateText(f.parameters, args, f.body) + "\n"), Exec(m, code, 2, params, map[], fuel - 1))
  {
    hide *;
    ReadyShape(m.globals, code, f, args, params);
    FunctionTextIs(f, args);
    NoNulInParts(TemplateText(f.parameters, args, f.body), "\n");
    PrintfOfReady(m.globals, code, f, args, params, code[1], f.body);
    PrintfRuns(m, code, 1, params, map[], fuel);
  }

  lemma FunctionTextIs(f: Function, args: seq<Argument>)
    requires |args| == |f.parameters| && C.FunctionOk(f)
    ensures C.TemplateOk(f.parameters, f.body)
    ensures FunctionText(f, args) == (TemplateText(f.parameters, args, f.body) + "\n") + ConditionsText(f, args, 0)
  {
  }

  lemma FunctionRuns(m: Module, code: seq<Line>, f: Function, args: seq<Argument>, params: seq<Value>, fuel: nat)
    requires Ready(m.globals, code, f, args, params)
    requires NoNul(FunctionText(f, args)) && fuel >= |code|
    ensures Enter(m, code, params, fuel) == Some(Utf8(FunctionText(f, args)))
  {
    hide *;
    ReadyShape(m.globals, code, f, args, params);
    FunctionTextIs(f, args);
    var head, tail := TemplateText(f.parameters, args, f.body) + "\n", ConditionsText(f, args, 0);
    NoNulInParts(head, tail);
    BodyRuns(m, code, f, args, params, fuel);
    ConditionsRun(m, code, f, args, params, 0, map[], fuel - 1);
    Utf8Concat(head, tail);
    EmitSome(Utf8(head), Utf8(tail));
    EnterRuns(m, code, params, fuel);
  }

  // ---- Calls

  lemma {:induction false} NothingToEscape(text: string)
    requires '%' !in text
    ensures EscapePercent(text) == text
  {
    if |text| > 0 {
      NothingToEscape(text[1..]);
      assert text == [text[0]] + text[1..];
    }
  }

  /** A constant without a conversion prints as it is. */
  lemma ConstantPrints(gs: seq<Global>, symbol: nat, content: string, params: seq<Value>)
    requires Names(gs, symbol, content) && '%' !in content && NoNul(content)
    ensures PrintfCall(gs, symbol, [], params) == Some(Utf8(content))
  {
    hide Names, BytesOf, EscapePercent, Utf8;
    NamedBytes(gs, symbol, content);
    NothingToEscape(content);
    EscapedLiteral(gs, content, [0], []);
    assert PrintfOutput(gs, [0], []) == Some([]);
    hide PrintfOutput;
    assert Utf8(content) + [] == Utf8(content);
  }

  lemma HeaderIsPlain(n: nat)
    ensures '%' !in Header(n)
  {
    forall i | 0 <= i < |Decimal(n)| ensures Decimal(n)[i] != '%' {
    }
    assert '%' !in Decimal(n);
  }

  lemma {:induction false} ActualsPass(gs: seq<Global>, actuals: seq<CallArgument>, ps: seq<Parameter>, args: seq<Argument>)
    requires C.ArgumentsMatch(ps, args) && AreActuals(gs, actuals, args) && ArgumentsInI32(args)
    ensures ActualValues(actuals, Signature(ps)).Some?
    ensures PassAll(gs, ActualValues(actuals, Signature(ps)).value, args)
    decreases |args|
  {
    hide Names, InI32;
    if |args| > 0 {
      assert Signature(ps)[1..] == Signature(ps[1..]);
      ActualsPass(gs, actuals[1..], ps[1..], args[1..]);
      assert IsActual(gs, actuals[0], args[0]);
    }
  }

  predicate ArgumentsInI32(args: seq<Argument>) {
    forall i :: 0 <= i < |args| && args[i].kind == Number ==> InI32(args[i].number)
  }

  /** All numbers of the program fit the 32-bit type that the code gives them. */
  ghost predicate NumbersInI32(p: Program) {
    && (forall i :: 0 <= i < |p.functions| ==> ConditionsInI32(p.functions[i]))
    && (forall i :: 0 <= i < |p.calls| ==> ArgumentsInI32(p.calls[i].arguments))
  }

  function TotalLines(ds: seq<Definition>): nat {
    if |ds| == 0 then 0 else |ds[0].body| + TotalLines(ds[1..])
  }

  lemma {:induction false} BodyWithinTotal(ds: seq<Definition>, i: nat)
    requires i < |ds|
    ensures |ds[i].body| <= TotalLines(ds)
  {
    if i > 0 {
      BodyWithinTotal(ds[1..], i - 1);
    }
  }

  ghost predicate Compiled(m: Module, symbols: map<string, nat>, p: Program) {
    C.Checked(p) && NumbersInI32(p) && IsModule(m, symbols, p)
  }

  /** The function that a call means. */
  ghost function Called(p: Program, k: nat): Function
    requires C.Checked(p) && k < |p.calls|
  {
    assert C.CallOk(p, p.calls[k]);
    p.functions[IndexOfFunction(p.functions, p.calls[k].functionName).value]
  }

  ghost function CallText(p: Program, k: nat): string
    requires C.Checked(p) && k < |p.calls|
  {
    CalledIsOk(p, k);
    Header(k + 1) + FunctionText(Called(p, k), p.calls[k].arguments) + "\n"
  }

  lemma CalledIsOk(p: Program, k: nat)
    requires C.Checked(p) && k < |p.calls|
    ensures C.FunctionOk(Called(p, k)) && C.ArgumentsMatch(Called(p, k).parameters, p.calls[k].arguments)
    ensures |Called(p, k).parameters| == |p.calls[k].arguments|
  {
    assert C.CallOk(p, p.calls[k]);
    hide C.FunctionOk;
  }

  lemma CallsTextIs(p: Program, k: nat)
    requires C.Checked(p) && k < |p.calls|
    ensures CallsText(p, k) == CallText(p, k) + CallsText(p, k + 1)
  {
    hide Header, FunctionText;
    assert C.CallOk(p, p.calls[k]);
  }

  lemma NoMoreCalls(p: Program)
    requires C.Checked(p)
    ensures Utf8(CallsText(p, |p.calls|)) == []
  {
  }

  /** The three lines of call k. */
  ghost predicate CallsAt(m: Module, symbols: map<string, nat>, p: Program, k: nat)
    requires |m.main| == 2 + 3 * |p.calls| && k < |p.calls|
  {
    var a := 1 + 3 * k;
    && m.main[a].PrintfLine? && m.main[a].arguments == [] && Names(m.globals, m.main[a].format, Header(k + 1))
    && m.main[a + 1].CallLine? && p.calls[k].functionName in symbols
    && m.main[a + 1].symbol == symbols[p.calls[k].functionName]
    && AreActuals(m.globals, m.main[a + 1].actuals, p.calls[k].arguments)
    && m.main[a + 2].PrintfLine? && m.main[a + 2].arguments == [] && Names(m.globals, m.main[a + 2].format, "\n")
  }

  /** They can be read off the whole of main. */
  lemma CallsAreAt(m: Module, symbols: map<string, nat>, p: Program, k: nat)
    requires |m.main| == 2 + 3 * |p.calls| && k < |p.calls| && Compiled(m, symbols, p)
    ensures CallsAt(m, symbols, p, k)
  {
    hide AreDefinitions, NumbersInI32, C.Checked, Header, Names, AreActuals, IsSymbolTable;
    var a := 1 + 3 * k;
    var lines := m.main[a..4 + 3 * k];
    assert IsCall(m.globals, lines, symbols, p.calls[k], k + 1);
    assert m.main[a] == lines[0] && m.main[a + 1] == lines[1] && m.main[a + 2] == lines[2];
  }

  lemma CallLines(m: Module, symbols: map<string, nat>, p: Program, k: nat)
    requires |m.main| == 2 + 3 * |p.calls| && k < |p.calls| && CallsAt(m, symbols, p, k)
    ensures var a := 1 + 3 * k;
            && m.main[a].PrintfLine? && m.main[a].arguments == [] && Names(m.globals, m.main[a].format, Header(k + 1))
            && m.main[a + 1].CallLine? && p.calls[k].functionName in symbols
            && m.main[a + 1].symbol == symbols[p.calls[k].functionName]
            && AreActuals(m.globals, m.main[a + 1].actuals, p.calls[k].arguments)
            && m.main[a + 2].PrintfLine? && m.main[a + 2].arguments == [] && Names(m.globals, m.main[a + 2].format, "\n")
  {
    hide Header, Names, AreActuals;
  }

  /** The symbol table leads a call to the function it means: names are distinct. */
  lemma SymbolOfCalled(m: Module, symbols: map<string, nat>, p: Program, k: nat)
    requires Compiled(m, symbols, p) && k < |p.calls|
    ensures p.calls[k].functionName in symbols
    ensures var s := symbols[p.calls[k].functionName];
            s < |m.functions| && m.functions[s].symbol == s && p.functions[s] == Called(p, k)
            && IsDefinition(m.globals, m.functions[s], symbols, Called(p, k))
  {
    CompiledIsChecked(m, symbols, p);
    var s := SymbolIsIndex(symbols, p, k);
    hide C.Checked, C.CallOk, C.NamesDistinct, IsSymbolTable, IsMain, NumbersInI32, IsDefinition;
    assert IsDefinition(m.globals, m.functions[s], symbols, p.functions[s]);
    DefinitionSymbol(m.globals, m.functions[s], symbols, p.functions[s]);
  }

  lemma DefinitionSymbol(gs: seq<Global>, d: Definition, symbols: map<string, nat>, f: Function)
    requires IsDefinition(gs, d, symbols, f)
    ensures f.name in symbols && d.symbol == symbols[f.name]
  {
  }

  lemma SymbolIsIndex(symbols: map<string, nat>, p: Program, k: nat) returns (s: nat)
    requires C.Checked(p) && IsSymbolTable(symbols, p.functions) && k < |p.calls|
    ensures p.calls[k].functionName in symbols && s == symbols[p.calls[k].functionName] < |p.functions|
    ensures p.functions[s].name == p.calls[k].functionName && p.functions[s] == Called(p, k)
  {
    assert C.CallOk(p, p.calls[k]);
    hide C.FunctionOk, C.ArgumentsMatch, C.CallOk;
    var name := p.calls[k].functionName;
    s := IndexOfFunction(p.functions, name).value;
    assert p.functions[s].name == name;
  }

  lemma Invoked(m: Module, symbols: map<string, nat>, p: Program, k: nat, actuals: seq<CallArgument>, fuel: nat)
    requires Compiled(m, symbols, p) && k < |p.calls| && p.calls[k].functionName in symbols
    requires AreActuals(m.globals, actuals, p.calls[k].arguments)
    requires C.FunctionOk(Called(p, k)) && |Called(p, k).parameters| == |p.calls[k].arguments|
    requires NoNul(FunctionText(Called(p, k), p.calls[k].arguments))
    requires fuel >= TotalLines(m.functions)
    ensures Invoke(m, symbols[p.calls[k].functionName], actuals, fuel)
            == Some(Utf8(FunctionText(Called(p, k), p.calls[k].arguments)))
  {
    hide *;
    CompiledIsChecked(m, symbols, p);
    CalledIsOk(p, k);
    var f, args := Called(p, k), p.calls[k].arguments;
    SymbolOfCalled(m, symbols, p, k);
    NumbersOfCall(p, k);
    ActualsPass(m.globals, actuals, f.parameters, args);
    var s := symbols[p.calls[k].functionName];
    var params := ActualValues(actuals, Signature(f.parameters)).value;
    ReadyToRun(m.globals, m.functions[s], symbols, f, args, params);
    BodyWithinTotal(m.functions, s);
    FunctionRuns(m, m.functions[s].body, f, args, params, fuel);
    InvokeRuns(m, s, actuals, f.parameters, fuel);
  }

  lemma NumbersOfCall(p: Program, k: nat)
    requires C.Checked(p) && NumbersInI32(p) && k < |p.calls|
    ensures ArgumentsInI32(p.calls[k].arguments) && ConditionsInI32(Called(p, k))
  {
    assert C.CallOk(p, p.calls[k]);
    hide C.FunctionOk, InI32;
  }

  lemma ReadyToRun(gs: seq<Global>, d: Definition, symbols: map<string, nat>, f: Function, args: seq<Argument>, params: seq<Value>)
    requires IsDefinition(gs, d, symbols, f) && C.FunctionOk(f) && ConditionsInI32(f)
    requires C.ArgumentsMatch(f.parameters, args) && PassAll(gs, params, args)
    ensures Ready(gs, d.body, f, args, params) && d.signature == Signature(f.parameters)
  {
    hide IsFunction, C.FunctionOk, ConditionsInI32, C.ArgumentsMatch, PassAll;
  }

  lemma InvokeRuns(m: Module, symbol: nat, actuals: seq<CallArgument>, ps: seq<Parameter>, fuel: nat)
    requires symbol < |m.functions| && m.functions[symbol].symbol == symbol
    requires m.functions[symbol].signature == Signature(ps) && ActualValues(actuals, Signature(ps)).Some?
    ensures Invoke(m, symbol, actuals, fuel)
            == Enter(m, m.functions[symbol].body, ActualValues(actuals, Signature(ps)).value, fuel)
  {
    hide Enter, ActualValues, Signature;
  }

  lemma CallLineRuns(m: Module, code: seq<Line>, at: nat, params: seq<Value>, flags: map<nat, bool>, fuel: nat)
    requires fuel > 0 && at < |code| && code[at].CallLine?
    requires Invoke(m, code[at].symbol, code[at].actuals, fuel - 1).Some?
    ensures Exec(m, code, at, params, flags, fuel)
            == Emit(Invoke(m, code[at].symbol, code[at].actuals, fuel - 1).value,
                    Exec(m, code, at + 1, params, flags, fuel - 1))
  {
    hide Invoke;
  }

  lemma CallRuns(m: Module, symbols: map<string, nat>, p: Program, k: nat, fuel: nat)
    requires Compiled(m, symbols, p) && k < |p.calls| && NoNul(CallText(p, k))
    requires fuel >= 3 + TotalLines(m.functions)
    ensures Exec(m, m.main, 1 + 3 * k, [], map[], fuel)
            == Emit(Utf8(CallText(p, k)), Exec(m, m.main, 4 + 3 * k, [], map[], fuel - 3))
  {
    hide *;
    var a := 1 + 3 * k;
    CompiledIsChecked(m, symbols, p);
    CalledIsOk(p, k);
    CallTextIs(p, k);
    var head, text := Header(k + 1), FunctionText(Called(p, k), p.calls[k].arguments);
    NoNulInParts(head + text, "\n");
    NoNulInParts(head, text);
    CallsAreAt(m, symbols, p, k);
    CallLines(m, symbols, p, k);
    HeaderIsPlain(k + 1);
    ConstantPrints(m.globals, m.main[a].format, head, []);
    Invoked(m, symbols, p, k, m.main[a + 1].actuals, fuel - 2);
    ConstantPrints(m.globals, m.main[a + 2].format, "\n", []);
    PrintfRuns(m, m.main, a, [], map[], fuel);
    CallLineRuns(m, m.main, a + 1, [], map[], fuel - 1);
    PrintfRuns(m, m.main, a + 2, [], map[], fuel - 2);
    Utf8Concat(head, text);
    Utf8Concat(head + text, "\n");
    var rest := Exec(m, m.main, 4 + 3 * k, [], map[], fuel - 3);
    EmitTwice(Utf8(text), Utf8("\n"), rest);
    EmitTwice(Utf8(head), Utf8(text) + Utf8("\n"), rest);
    assert Utf8(head) + (Utf8(text) + Utf8("\n")) == (Utf8(head) + Utf8(text)) + Utf8("\n");
  }

  lemma CompiledIsChecked(m: Module, symbols: map<string, nat>, p: Program)
    requires Compiled(m, symbols, p)
    ensures C.Checked(p) && NumbersInI32(p) && |m.main| == 2 + 3 * |p.calls|
    ensures m.main[0] == LabelLine(Entry) && m.main[1 + 3 * |p.calls|] == RetLine
  {
    hide C.Checked, NumbersInI32, AreDefinitions, IsCall;
  }

  lemma CallTextIs(p: Program, k: nat)
    requires C.Checked(p) && k < |p.calls|
    ensures C.FunctionOk(Called(p, k)) && |Called(p, k).parameters| == |p.calls[k].arguments|
    ensures CallText(p, k) == (Header(k + 1) + FunctionText(Called(p, k), p.calls[k].arguments)) + "\n"
  {
    CalledIsOk(p, k);
    hide FunctionText, Header, Called, C.FunctionOk, C.Checked;
  }

  lemma {:induction false} CallsRun(m: Module, symbols: map<string, nat>, p: Program, k: nat, fuel: nat)
    requires Compiled(m, symbols, p) && k <= |p.calls| && NoNul(CallsText(p, k))
    requires fuel >= |m.main| - (1 + 3 * k) + TotalLines(m.functions)
    ensures Exec(m, m.main, 1 + 3 * k, [], map[], fuel) == Some(Utf8(CallsText(p, k)))
    decreases |p.calls| - k
  {
    hide *;
    CompiledIsChecked(m, symbols, p);
    if k == |p.calls| {
      NoMoreCalls(p);
      RetRuns(m, m.main, 1 + 3 * k, [], map[], fuel);
    } else {
      CallsTextIs(p, k);
      NoNulInParts(CallText(p, k), CallsText(p, k + 1));
      CallRuns(m, symbols, p, k, fuel);
      CallsRun(m, symbols, p, k + 1, fuel - 3);
      Utf8Concat(CallText(p, k), CallsText(p, k + 1));
      EmitSome(Utf8(CallText(p, k)), Utf8(CallsText(p, k + 1)));
    }
  }

  /** The bound on the lines that a run of the module executes. */
  function Steps(m: Module): nat {
    |m.main| + TotalLines(m.functions)
  }

  lemma {:induction false} NulIsZeroByte(s: string)
    requires 0 !in Utf8(s)
    ensures NoNul(s)
  {
    if |s| > 0 {
      assert Utf8Char(s[0])[0] == Utf8(s)[0] && Utf8(s)[0] in Utf8(s);
      forall b | b in Utf8(s[1..]) ensures b != 0 {
        assert b in Utf8(s);
      }
      NulIsZeroByte(s[1..]);
      assert s == [s[0]] + s[1..];
    }
  }

  /** A checked program with 32-bit numbers prints what it says, and nothing else, exactly
      when that contains no NUL. */
  lemma CompilationPreservesMeaning(m: Module, symbols: map<string, nat>, p: Program, fuel: nat)
    requires C.Checked(p) && NumbersInI32(p) && IsModule(m, symbols, p) && fuel >= Steps(m)
    ensures Run(m, fuel) == Some(Utf8(Direct(p))) <==> '\0' !in Direct(p)
  {
    hide C.Checked, NumbersInI32, IsModule, CallsText, Exec;
    assert Compiled(m, symbols, p);
    CompiledIsChecked(m, symbols, p);
    if '\0' !in Direct(p) {
      CallsRun(m, symbols, p, 0, fuel);
      EnterRuns(m, m.main, [], fuel);
    }
    if Run(m, fuel) == Some(Utf8(Direct(p))) {
      RunHasNoNul(m, fuel);
      NulIsZeroByte(Direct(p));
    }
  }

  /** Running the module of a checked program prints its clauses, headed with the numbers 1, 2
      and so on, exactly when they contain no NUL. */
  lemma OutputOfModule(m: Module, symbols: map<string, nat>, p: Program, fuel: nat) returns (clauses: seq<string>)
    requires C.Checked(p) && NumbersInI32(p) && IsModule(m, symbols, p) && fuel >= Steps(m)
    ensures O.ClausesWritten(p, clauses)
    ensures Run(m, fuel) == Some(Utf8(O.Joined(clauses))) <==> '\0' !in O.Joined(clauses)
    ensures "«البند رقم 1»\n" <= O.Joined(clauses)
  {
    assert |p.calls| > 0;
    hide C.Checked, NumbersInI32, IsModule, Direct, Run, O.ClausesWritten, O.Joined;
    clauses := O.DirectIsWritten(p);
    O.BeginsWithClauseOne(p, clauses);
    CompilationPreservesMeaning(m, symbols, p, fuel);
  }

  /** Check, then emit: the whole compiler. A program without an error compiles, and its
      module then prints what the program says. */
  method Compile(p: Program) returns (error: Option<C.Error>, m: Option<Module>, ghost clauses: seq<string>)
    ensures error.None? <==> C.Checked(p)
    ensures error.None? <==> m.Some?
    ensures m.Some? && NumbersInI32(p) ==>
              forall fuel :: fuel >= Steps(m.value) ==>
                (Run(m.value, fuel) == Some(Utf8(Direct(p))) <==> '\0' !in Direct(p))
    ensures error.None? ==> O.ClausesWritten(p, clauses)
    ensures m.Some? && NumbersInI32(p) ==>
              forall fuel :: fuel >= Steps(m.value) ==>
                (Run(m.value, fuel) == Some(Utf8(O.Joined(clauses))) <==> '\0' !in O.Joined(clauses))
  {
    hide C.Checked, NumbersInI32, IsModule, Run, Emits, Direct, O.ClausesWritten, O.Joined;
    error := C.Check(p);
    if error.Some? {
      return error, None, [];
    }
    clauses := O.DirectIsWritten(p);
    var emitter := new Emitter();
    ghost var symbols;
    m, symbols := emitter.Build(p);
    CheckedEmits(p);
    forall fuel: nat | NumbersInI32(p) && fuel >= Steps(m.value)
      ensures Run(m.value, fuel) == Some(Utf8(Direct(p))) <==> '\0' !in Direct(p)
    {
      CompilationPreservesMeaning(m.value, symbols, p, fuel);
    }
  }

  lemma CheckedEmits(p: Program)
    requires C.Checked(p)
    ensures Emits(p)
  {
    hide C.TemplateOk;
    forall i | 0 <= i < |p.calls|
      ensures IndexOfFunction(p.functions, p.calls[i].functionName).Some?
    {
      assert C.CallOk(p, p.calls[i]);
    }
  }
}
