/** Emission of a function program as an LLVM module. */
module LlvmFunctionEmitter {
  import opened Options
  import opened Text
  import opened LlvmText
  import opened LlvmModule
  import opened FunctionModel
  import T = FunctionTemplate
  import C = FunctionTypeChecker
  import opened FunctionMeaning

  // ---- The formats

  function EscapePercent(text: string): string {
    if |text| == 0 then "" else (if text[0] == '%' then "%%" else [text[0]]) + EscapePercent(text[1..])
  }

  function Conversion(t: ParamType): string {
    if t == Number then "%d" else "%s"
  }

  function LlvmType(t: ParamType): IrType {
    if t == Number then I32 else Ptr
  }

  predicate AllDefined(ps: seq<Parameter>, segments: seq<T.Segment>) {
    forall i :: 0 <= i < |segments| ==> C.SegmentOk(ps, segments[i])
  }

  function SegmentFormat(ps: seq<Parameter>, s: T.Segment): string
    requires C.SegmentOk(ps, s)
  {
    match s
    case Literal(text) => EscapePercent(text)
    case Placeholder(name) => Conversion(ps[IndexOfParameter(ps, name).value].ptype)
  }

  function Format(ps: seq<Parameter>, segments: seq<T.Segment>): string
    requires AllDefined(ps, segments)
  {
    if |segments| == 0 then "" else SegmentFormat(ps, segments[0]) + Format(ps, segments[1..])
  }

  function SegmentArguments(ps: seq<Parameter>, s: T.Segment): seq<PrintfArgument>
    requires C.SegmentOk(ps, s)
  {
    match s
    case Literal(_) => []
    case Placeholder(name) =>
      var i := IndexOfParameter(ps, name).value;
      [PrintfArgument(LlvmType(ps[i].ptype), i)]
  }

  function Arguments(ps: seq<Parameter>, segments: seq<T.Segment>): seq<PrintfArgument>
    requires AllDefined(ps, segments)
  {
    if |segments| == 0 then [] else SegmentArguments(ps, segments[0]) + Arguments(ps, segments[1..])
  }

  // ---- The constants

  function GlobalFor(symbol: nat, content: string): Global {
    Global(symbol, |Utf8(content)| + 1, Escape(Utf8(content)) + "\\00")
  }

  /** The symbol stands for the content. */
  predicate Names(gs: seq<Global>, symbol: nat, content: string) {
    symbol < |gs| && gs[symbol] == GlobalFor(symbol, content)
  }

  /** The pool and the emitted constants belong together, one to one. */
  ghost predicate Interned(pool: map<string, nat>, gs: seq<Global>) {
    && (forall c :: c in pool ==> Names(gs, pool[c], c))
    && (forall i :: 0 <= i < |gs| ==> Used(pool, i))
  }

  ghost predicate Used(pool: map<string, nat>, symbol: nat) {
    exists c :: c in pool && pool[c] == symbol
  }

  // ---- The code, as a relation between the program and the emitted lines

  predicate IsPrintf(gs: seq<Global>, line: Line, ps: seq<Parameter>, template: string) {
    var parsed := T.ParseFrom(template, 0, "");
    && line.PrintfLine? && parsed.Segments? && AllDefined(ps, parsed.segments)
    && Names(gs, line.format, Format(ps, parsed.segments) + "\n")
    && line.arguments == Arguments(ps, parsed.segments)
  }

  function ComparisonOf(op: Operator): Comparison {
    match op
    case Greater => Sgt
    case Less => Slt
    case Equal => Eq
  }

  /** The six lines of condition k. */
  predicate IsCondition(gs: seq<Global>, lines: seq<Line>, ps: seq<Parameter>, c: Condition, k: nat) {
    && |lines| == 6 && C.Defined(ps, c.parameter)
    && lines[0] == IcmpLine(k, ComparisonOf(c.op), IndexOfParameter(ps, c.parameter).value, c.value)
    && lines[1] == BranchLine(k, Then(k), Cont(k))
    && lines[2] == LabelLine(Then(k))
    && IsPrintf(gs, lines[3], ps, c.template)
    && lines[4] == JumpLine(Cont(k))
    && lines[5] == LabelLine(Cont(k))
  }

  /** The first n conditions come one after the other behind the body's printf. */
  ghost predicate StartsFunction(gs: seq<Global>, code: seq<Line>, f: Function, n: nat) {
    && n <= |f.conditions| && |code| >= 2 + 6 * n
    && code[0] == LabelLine(Entry)
    && IsPrintf(gs, code[1], f.parameters, f.body)
    && forall k :: 0 <= k < n ==> IsCondition(gs, code[2 + 6 * k..8 + 6 * k], f.parameters, f.conditions[k], k)
  }

  ghost predicate IsFunction(gs: seq<Global>, code: seq<Line>, f: Function) {
    && StartsFunction(gs, code, f, |f.conditions|)
    && |code| == 3 + 6 * |f.conditions| && code[2 + 6 * |f.conditions|] == RetLine
  }

  predicate IsActual(gs: seq<Global>, actual: CallArgument, a: Argument) {
    match a.kind
    case Text => actual.Pointer? && Names(gs, actual.symbol, a.text)
    case Number => actual == Constant(a.number)
  }

  ghost predicate AreActuals(gs: seq<Global>, actuals: seq<CallArgument>, args: seq<Argument>) {
    |actuals| == |args| && forall i :: 0 <= i < |args| ==> IsActual(gs, actuals[i], args[i])
  }

  /** The three lines of the call with this number, counted from one. */
  ghost predicate IsCall(gs: seq<Global>, lines: seq<Line>, symbols: map<string, nat>, call: Call, number: nat) {
    && |lines| == 3 && call.functionName in symbols
    && lines[0].PrintfLine? && Names(gs, lines[0].format, Header(number)) && lines[0].arguments == []
    && lines[1].CallLine? && lines[1].symbol == symbols[call.functionName]
    && AreActuals(gs, lines[1].actuals, call.arguments)
    && lines[2].PrintfLine? && Names(gs, lines[2].format, "\n") && lines[2].arguments == []
  }

  ghost predicate StartsMain(gs: seq<Global>, code: seq<Line>, symbols: map<string, nat>, calls: seq<Call>, n: nat) {
    && n <= |calls| && |code| >= 1 + 3 * n
    && code[0] == LabelLine(Entry)
    && forall k :: 0 <= k < n ==> IsCall(gs, code[1 + 3 * k..4 + 3 * k], symbols, calls[k], k + 1)
  }

  ghost predicate IsMain(gs: seq<Global>, code: seq<Line>, symbols: map<string, nat>, calls: seq<Call>) {
    && StartsMain(gs, code, symbols, calls, |calls|)
    && |code| == 2 + 3 * |calls| && code[1 + 3 * |calls|] == RetLine
  }

  function Signature(ps: seq<Parameter>): (s: seq<IrType>)
    ensures |s| == |ps|
    ensures forall i :: 0 <= i < |ps| ==> s[i] == LlvmType(ps[i].ptype)
  {
    seq(|ps|, i requires 0 <= i < |ps| => LlvmType(ps[i].ptype))
  }

  /** Every name has the index of the last function with it. */
  predicate IsSymbolTable(symbols: map<string, nat>, fs: seq<Function>) {
    && (forall i :: 0 <= i < |fs| ==> fs[i].name in symbols)
    && forall name :: name in symbols ==>
         && symbols[name] < |fs| && fs[symbols[name]].name == name
         && forall k :: symbols[name] < k < |fs| ==> fs[k].name != name
  }

  ghost predicate IsDefinition(gs: seq<Global>, d: Definition, symbols: map<string, nat>, f: Function) {
    && f.name in symbols && d.symbol == symbols[f.name]
    && d.signature == Signature(f.parameters)
    && IsFunction(gs, d.body, f)
  }

  ghost predicate AreDefinitions(gs: seq<Global>, ds: seq<Definition>, symbols: map<string, nat>, fs: seq<Function>) {
    |ds| == |fs| && forall i :: 0 <= i < |fs| ==> IsDefinition(gs, ds[i], symbols, fs[i])
  }

  ghost predicate IsModule(m: Module, symbols: map<string, nat>, p: Program) {
    && IsSymbolTable(symbols, p.functions)
    && AreDefinitions(m.globals, m.functions, symbols, p.functions)
    && IsMain(m.globals, m.main, symbols, p.calls)
  }

  /** The first of the three lines of call k prints the heading with the digits of k. */
  ghost predicate HeadingsAreNumbered(gs: seq<Global>, code: seq<Line>, n: nat) {
    |code| == 2 + 3 * n && forall k :: 0 <= k < n ==> IsHeading(gs, code[1 + 3 * k], k + 1)
  }

  ghost predicate IsHeading(gs: seq<Global>, line: Line, number: nat) {
    line.PrintfLine? && exists digits :: IsNumeral(digits, number) && Names(gs, line.format, "«البند رقم " + digits + "»\n")
  }

  lemma HeaderIsNumbered(gs: seq<Global>, line: Line, number: nat)
    requires line.PrintfLine? && Names(gs, line.format, Header(number))
    ensures IsHeading(gs, line, number)
  {
    hide Names;
    DecimalIsNumeral(number);
  }

  lemma MainIsNumbered(gs: seq<Global>, code: seq<Line>, symbols: map<string, nat>, calls: seq<Call>)
    requires IsMain(gs, code, symbols, calls)
    ensures HeadingsAreNumbered(gs, code, |calls|)
  {
    hide Names, Header, AreActuals, IsHeading;
    forall k | 0 <= k < |calls| ensures IsHeading(gs, code[1 + 3 * k], k + 1) {
      var lines := code[1 + 3 * k..4 + 3 * k];
      assert IsCall(gs, lines, symbols, calls[k], k + 1);
      HeaderIsNumbered(gs, lines[0], k + 1);
    }
  }

  /** What emission needs of the program; everything else it emits code for. */
  predicate TemplateEmits(ps: seq<Parameter>, template: string) {
    C.TemplateOk(ps, template)
  }

  predicate FunctionEmits(f: Function) {
    && TemplateEmits(f.parameters, f.body)
    && forall i :: 0 <= i < |f.conditions| ==>
         C.Defined(f.parameters, f.conditions[i].parameter) && TemplateEmits(f.parameters, f.conditions[i].template)
  }

  ghost predicate Emits(p: Program) {
    && (forall i :: 0 <= i < |p.functions| ==> FunctionEmits(p.functions[i]))
    && (forall i :: 0 <= i < |p.calls| ==> IndexOfFunction(p.functions, p.calls[i].functionName).Some?)
  }

  // ---- Later constants change nothing of earlier code

  lemma PrintfStays(gs: seq<Global>, more: seq<Global>, line: Line, ps: seq<Parameter>, template: string)
    requires gs <= more && IsPrintf(gs, line, ps, template)
    ensures IsPrintf(more, line, ps, template)
  {
    hide Format, Arguments, GlobalFor;
  }

  lemma ConditionStays(gs: seq<Global>, more: seq<Global>, lines: seq<Line>, ps: seq<Parameter>, c: Condition, k: nat)
    requires gs <= more && IsCondition(gs, lines, ps, c, k)
    ensures IsCondition(more, lines, ps, c, k)
  {
    hide IsPrintf;
    PrintfStays(gs, more, lines[3], ps, c.template);
  }

  lemma StartStays(gs: seq<Global>, more: seq<Global>, code: seq<Line>, tail: seq<Line>, f: Function, n: nat)
    requires gs <= more && StartsFunction(gs, code, f, n)
    ensures StartsFunction(more, code + tail, f, n)
  {
    hide IsCondition, IsPrintf;
    PrintfStays(gs, more, code[1], f.parameters, f.body);
    forall k | 0 <= k < n
      ensures IsCondition(more, (code + tail)[2 + 6 * k..8 + 6 * k], f.parameters, f.conditions[k], k)
    {
      assert (code + tail)[2 + 6 * k..8 + 6 * k] == code[2 + 6 * k..8 + 6 * k];
      ConditionStays(gs, more, code[2 + 6 * k..8 + 6 * k], f.parameters, f.conditions[k], k);
    }
  }

  lemma FunctionStays(gs: seq<Global>, more: seq<Global>, code: seq<Line>, f: Function)
    requires gs <= more && IsFunction(gs, code, f)
    ensures IsFunction(more, code, f)
  {
    hide StartsFunction;
    StartStays(gs, more, code, [], f, |f.conditions|);
    assert code + [] == code;
  }

  lemma DefinitionsStay(gs: seq<Global>, more: seq<Global>, ds: seq<Definition>, symbols: map<string, nat>, fs: seq<Function>)
    requires gs <= more && AreDefinitions(gs, ds, symbols, fs)
    ensures AreDefinitions(more, ds, symbols, fs)
  {
    hide IsFunction;
    forall i | 0 <= i < |fs| ensures IsDefinition(more, ds[i], symbols, fs[i]) {
      FunctionStays(gs, more, ds[i].body, fs[i]);
    }
  }

  lemma ActualsStay(gs: seq<Global>, more: seq<Global>, actuals: seq<CallArgument>, args: seq<Argument>)
    requires gs <= more && AreActuals(gs, actuals, args)
    ensures AreActuals(more, actuals, args)
  {
    hide GlobalFor;
  }

  lemma MainStays(gs: seq<Global>, more: seq<Global>, code: seq<Line>, tail: seq<Line>, symbols: map<string, nat>, calls: seq<Call>, n: nat)
    requires gs <= more && StartsMain(gs, code, symbols, calls, n)
    ensures StartsMain(more, code + tail, symbols, calls, n)
  {
    hide GlobalFor, Header, AreActuals;
    forall k | 0 <= k < n
      ensures IsCall(more, (code + tail)[1 + 3 * k..4 + 3 * k], symbols, calls[k], k + 1)
    {
      var lines := code[1 + 3 * k..4 + 3 * k];
      assert (code + tail)[1 + 3 * k..4 + 3 * k] == lines;
      assert IsCall(gs, lines, symbols, calls[k], k + 1);
      ActualsStay(gs, more, lines[1].actuals, calls[k].arguments);
    }
  }

  // ---- The emitter

  class Emitter {
    var pool: map<string, nat>
    var globals: seq<Global>
    var stringCounter: nat

    ghost predicate Valid()
      reads this
    {
      stringCounter == |globals| && Interned(pool, globals)
    }

    constructor ()
      ensures Valid() && globals == [] && pool == map[]
    {
      pool := map[];
      globals := [];
      stringCounter := 0;
    }

    method Intern(content: string) returns (symbol: nat)
      requires Valid()
      modifies this
      ensures Valid() && Names(globals, symbol, content)
      ensures content in old(pool) ==>
                pool == old(pool) && globals == old(globals) && symbol == old(pool)[content]
      ensures content !in old(pool) ==>
                symbol == old(stringCounter) && pool == old(pool)[content := symbol]
                && globals == old(globals) + [GlobalFor(symbol, content)]
    {
      hide GlobalFor;
      if content in pool {
        return pool[content];
      }
      symbol := stringCounter;
      stringCounter := stringCounter + 1;
      var bytes := Utf8(content);
      var length := |bytes| + 1;
      var literal := EscapeCString(bytes);
      var global := Global(symbol, length, literal + "\\00");
      IsGlobalFor(global, content);
      globals := globals + [global];
      pool := pool[content := symbol];
      InternOne(old(pool), old(globals), content);
    }

    method EmitPrintf(ps: seq<Parameter>, template: string) returns (line: Option<Line>)
      requires Valid()
      modifies this
      ensures Valid() && old(globals) <= globals
      ensures line.Some? <==> TemplateEmits(ps, template)
      ensures line.Some? ==> IsPrintf(globals, line.value, ps, template)
    {
      hide GlobalFor, Format, Arguments, SegmentFormat, SegmentArguments;
      var parsed := T.Parse(template);
      if !parsed.Segments? {
        return None;
      }
      var segments := parsed.segments;
      var format := "";
      var arguments: seq<PrintfArgument> := [];
      FormatOfNone(ps);
      for i := 0 to |segments|
        invariant AllDefined(ps, segments[..i])
        invariant format == Format(ps, segments[..i]) && arguments == Arguments(ps, segments[..i])
        invariant Valid() && globals == old(globals)
      {
        if segments[i].Placeholder? && IndexOfParameter(ps, segments[i].name).None? {
          assert !C.SegmentOk(ps, segments[i]);
          return None;
        }
        var piece, taken := EmitSegment(ps, segments[i]);
        format := format + piece;
        arguments := arguments + taken;
        assert segments[..i + 1] == segments[..i] + [segments[i]];
        FormatAppend(ps, segments[..i], segments[i]);
      }
      assert segments[..|segments|] == segments;
      var formatSymbol := Intern(format + "\n");
      line := Some(PrintfLine(formatSymbol, arguments));
    }

    method EmitFunction(f: Function, symbol: nat) returns (definition: Option<Definition>)
      requires Valid()
      modifies this
      ensures Valid() && old(globals) <= globals
      ensures definition.Some? <==> FunctionEmits(f)
      ensures definition.Some? ==>
                && definition.value.symbol == symbol && definition.value.signature == Signature(f.parameters)
                && IsFunction(globals, definition.value.body, f)
    {
      hide Interned, IsPrintf, TemplateEmits, StartsFunction;
      var body := EmitPrintf(f.parameters, f.body);
      if body.None? {
        return None;
      }
      var code := [LabelLine(Entry), body.value];
      StartFunction(globals, code, f);
      for k := 0 to |f.conditions|
        invariant Valid() && old(globals) <= globals
        invariant |code| == 2 + 6 * k && StartsFunction(globals, code, f, k)
        invariant TemplateEmits(f.parameters, f.body)
        invariant forall j :: 0 <= j < k ==>
                    && C.Defined(f.parameters, f.conditions[j].parameter)
                    && TemplateEmits(f.parameters, f.conditions[j].template)
      {
        var condition := f.conditions[k];
        var parameterIndex := IndexOfParameter(f.parameters, condition.parameter);
        if parameterIndex.None? {
          return None;
        }
        ghost var before := globals;
        var consequence := EmitPrintf(f.parameters, condition.template);
        if consequence.None? {
          return None;
        }
        var lines := [
          IcmpLine(k, ComparisonOf(condition.op), parameterIndex.value, condition.value),
          BranchLine(k, Then(k), Cont(k)),
          LabelLine(Then(k)),
          consequence.value,
          JumpLine(Cont(k)),
          LabelLine(Cont(k))];
        AddCondition(before, globals, code, lines, f, k);
        code := code + lines;
      }
      StartStays(globals, globals, code, [RetLine], f, |f.conditions|);
      definition := Some(Definition(symbol, Signature(f.parameters), code + [RetLine]));
    }

    method InternArguments(args: seq<Argument>) returns (actuals: seq<CallArgument>)
      requires Valid()
      modifies this
      ensures Valid() && old(globals) <= globals && AreActuals(globals, actuals, args)
    {
      hide Interned, GlobalFor;
      actuals := [];
      for i := 0 to |args|
        invariant Valid() && old(globals) <= globals && AreActuals(globals, actuals, args[..i])
      {
        ghost var before := globals;
        if args[i].kind == Text {
          var symbol := Intern(args[i].text);
          actuals := actuals + [Pointer(symbol)];
        } else {
          actuals := actuals + [Constant(args[i].number)];
        }
        ActualsStay(before, globals, actuals[..i], args[..i]);
      }
      assert args[..|args|] == args;
    }

    method EmitMain(fs: seq<Function>, calls: seq<Call>, symbols: map<string, nat>) returns (code: Option<seq<Line>>)
      requires Valid() && IsSymbolTable(symbols, fs)
      modifies this
      ensures Valid() && old(globals) <= globals
      ensures code.Some? <==> forall i :: 0 <= i < |calls| ==> IndexOfFunction(fs, calls[i].functionName).Some?
      ensures code.Some? ==> IsMain(globals, code.value, symbols, calls)
      ensures code.Some? ==> HeadingsAreNumbered(globals, code.value, |calls|)
    {
      hide Interned, GlobalFor, AreActuals, StartsMain, Header, IsSymbolTable, HeadingsAreNumbered;
      var newlineSymbol := Intern("\n");
      var lines := [LabelLine(Entry)];
      StartMain(globals, lines, symbols, calls);
      for k := 0 to |calls|
        invariant Valid() && old(globals) <= globals && Names(globals, newlineSymbol, "\n")
        invariant |lines| == 1 + 3 * k && StartsMain(globals, lines, symbols, calls, k)
        invariant forall i :: 0 <= i < k ==> IndexOfFunction(fs, calls[i].functionName).Some?
      {
        var found := IndexOfFunction(fs, calls[k].functionName);
        if found.None? {
          return None;
        }
        ghost var before := globals;
        var separator := Intern(Header(k + 1));
        ghost var between := globals;
        var actuals := InternArguments(calls[k].arguments);
        SymbolIsKnown(symbols, fs, found.value);
        var call := [
          PrintfLine(separator, []),
          CallLine(symbols[fs[found.value].name], actuals),
          PrintfLine(newlineSymbol, [])];
        assert before <= globals && between <= globals;
        assert IsCall(globals, call, symbols, calls[k], k + 1);
        AddCall(before, globals, lines, call, symbols, calls, k);
        lines := lines + call;
      }
      MainStays(globals, globals, lines, [RetLine], symbols, calls, |calls|);
      code := Some(lines + [RetLine]);
      MainIsNumbered(globals, code.value, symbols, calls);
    }

    /** Emission throws exactly when a template does not parse, a template or a condition
        names no parameter of its function, or a call names no function. */
    method Build(p: Program) returns (m: Option<Module>, ghost symbols: map<string, nat>)
      requires Valid() && globals == []
      modifies this
      ensures Valid()
      ensures m.Some? <==> Emits(p)
      ensures m.Some? ==> m.value.globals == globals && IsModule(m.value, symbols, p)
    {
      hide Interned, FunctionEmits, IsMain, IsDefinition, IsSymbolTable, AreDefinitions, IsModule, Signature, IsFunction;
      var functionSymbols: map<string, nat> := map[];
      NoSymbols(p.functions[..0]);
      for i := 0 to |p.functions|
        invariant Valid() && globals == [] && IsSymbolTable(functionSymbols, p.functions[..i])
      {
        AddSymbol(functionSymbols, p.functions, i);
        functionSymbols := functionSymbols[p.functions[i].name := i];
      }
      assert p.functions[..|p.functions|] == p.functions;
      symbols := functionSymbols;
      var definitions: seq<Definition> := [];
      NoDefinitions(globals, symbols, p.functions[..0]);
      for i := 0 to |p.functions|
        invariant Valid()
        invariant AreDefinitions(globals, definitions, symbols, p.functions[..i])
        invariant forall k :: 0 <= k < i ==> FunctionEmits(p.functions[k])
      {
        ghost var before := globals;
        SymbolIsKnown(symbols, p.functions, i);
        var definition := EmitFunction(p.functions[i], functionSymbols[p.functions[i].name]);
        if definition.None? {
          return None, symbols;
        }
        AddDefinition(before, globals, definitions, symbols, p.functions, i, definition.value);
        definitions := definitions + [definition.value];
      }
      ghost var before := globals;
      var main := EmitMain(p.functions, p.calls, functionSymbols);
      if main.None? {
        return None, symbols;
      }
      DefinitionsStay(before, globals, definitions, symbols, p.functions);
      m := Some(Module(globals, definitions, main.value));
      ModuleOf(m.value, symbols, p);
    }
  }

  lemma NoDefinitions(gs: seq<Global>, symbols: map<string, nat>, fs: seq<Function>)
    requires |fs| == 0
    ensures AreDefinitions(gs, [], symbols, fs)
  {
  }

  lemma AddDefinition(gs: seq<Global>, more: seq<Global>, ds: seq<Definition>, symbols: map<string, nat>,
                      fs: seq<Function>, i: nat, d: Definition)
    requires gs <= more && i < |fs| && AreDefinitions(gs, ds, symbols, fs[..i])
    requires fs[i].name in symbols && d.symbol == symbols[fs[i].name] && d.signature == Signature(fs[i].parameters)
    requires IsFunction(more, d.body, fs[i])
    ensures AreDefinitions(more, ds + [d], symbols, fs[..i + 1])
  {
    DefinitionsStay(gs, more, ds, symbols, fs[..i]);
    hide Signature, IsFunction;
    assert IsDefinition(more, d, symbols, fs[i]);
    hide IsDefinition;
  }

  lemma ModuleOf(m: Module, symbols: map<string, nat>, p: Program)
    requires IsSymbolTable(symbols, p.functions)
    requires AreDefinitions(m.globals, m.functions, symbols, p.functions)
    requires IsMain(m.globals, m.main, symbols, p.calls)
    ensures IsModule(m, symbols, p)
  {
  }

  lemma NoSymbols(fs: seq<Function>)
    requires |fs| == 0
    ensures IsSymbolTable(map[], fs)
  {
  }

  lemma AddSymbol(symbols: map<string, nat>, fs: seq<Function>, i: nat)
    requires i < |fs| && IsSymbolTable(symbols, fs[..i])
    ensures IsSymbolTable(symbols[fs[i].name := i], fs[..i + 1])
  {
  }

  lemma SymbolIsKnown(symbols: map<string, nat>, fs: seq<Function>, i: nat)
    requires IsSymbolTable(symbols, fs) && i < |fs|
    ensures fs[i].name in symbols
  {
  }

  lemma StartFunction(gs: seq<Global>, code: seq<Line>, f: Function)
    requires |code| == 2 && code[0] == LabelLine(Entry) && IsPrintf(gs, code[1], f.parameters, f.body)
    ensures StartsFunction(gs, code, f, 0)
  {
  }

  lemma AddCondition(gs: seq<Global>, more: seq<Global>, code: seq<Line>, lines: seq<Line>, f: Function, n: nat)
    requires gs <= more && StartsFunction(gs, code, f, n) && |code| == 2 + 6 * n && n < |f.conditions|
    requires IsCondition(more, lines, f.parameters, f.conditions[n], n)
    ensures StartsFunction(more, code + lines, f, n + 1)
  {
    hide IsPrintf;
    StartStays(gs, more, code, lines, f, n);
    assert |lines| == 6;
    hide IsCondition;
    forall k | 0 <= k < n + 1
      ensures IsCondition(more, (code + lines)[2 + 6 * k..8 + 6 * k], f.parameters, f.conditions[k], k)
    {
      if k == n {
        assert (code + lines)[2 + 6 * k..8 + 6 * k] == lines;
      }
    }
  }

  lemma StartMain(gs: seq<Global>, code: seq<Line>, symbols: map<string, nat>, calls: seq<Call>)
    requires code == [LabelLine(Entry)]
    ensures StartsMain(gs, code, symbols, calls, 0)
  {
  }

  lemma AddCall(gs: seq<Global>, more: seq<Global>, code: seq<Line>, lines: seq<Line>,
                symbols: map<string, nat>, calls: seq<Call>, n: nat)
    requires gs <= more && StartsMain(gs, code, symbols, calls, n) && |code| == 1 + 3 * n && n < |calls|
    requires IsCall(more, lines, symbols, calls[n], n + 1)
    ensures StartsMain(more, code + lines, symbols, calls, n + 1)
  {
    MainStays(gs, more, code, lines, symbols, calls, n);
    assert |lines| == 3;
    hide IsCall;
    forall k | 0 <= k < n + 1
      ensures IsCall(more, (code + lines)[1 + 3 * k..4 + 3 * k], symbols, calls[k], k + 1)
    {
      if k == n {
        assert (code + lines)[1 + 3 * k..4 + 3 * k] == lines;
      }
    }
  }

  method EmitSegment(ps: seq<Parameter>, s: T.Segment) returns (format: string, arguments: seq<PrintfArgument>)
    requires C.SegmentOk(ps, s)
    ensures format == SegmentFormat(ps, s) && arguments == SegmentArguments(ps, s)
  {
    match s {
      case Literal(text) =>
        format := EscapeLiteral(text);
        arguments := [];
      case Placeholder(name) =>
        var parameterIndex := IndexOfParameter(ps, name).value;
        var parameter := ps[parameterIndex];
        format := if parameter.ptype == Number then "%d" else "%s";
        arguments := [PrintfArgument(LlvmType(parameter.ptype), parameterIndex)];
    }
  }

  lemma FormatOfNone(ps: seq<Parameter>)
    ensures Format(ps, []) == "" && Arguments(ps, []) == []
  {
  }

  lemma {:induction false} FormatAppend(ps: seq<Parameter>, a: seq<T.Segment>, s: T.Segment)
    requires AllDefined(ps, a) && C.SegmentOk(ps, s)
    ensures Format(ps, a + [s]) == Format(ps, a) + SegmentFormat(ps, s)
    ensures Arguments(ps, a + [s]) == Arguments(ps, a) + SegmentArguments(ps, s)
  {
    hide SegmentFormat, SegmentArguments;
    if |a| == 0 {
      assert (a + [s])[1..] == [];
    } else {
      assert (a + [s])[1..] == a[1..] + [s];
      FormatAppend(ps, a[1..], s);
    }
  }

  method EscapeLiteral(text: string) returns (escaped: string)
    ensures escaped == EscapePercent(text)
  {
    escaped := "";
    for i := 0 to |text|
      invariant EscapePercent(text) == escaped + EscapePercent(text[i..])
    {
      if text[i] == '%' {
        escaped := escaped + "%%";
      } else {
        escaped := escaped + [text[i]];
      }
      assert text[i..][1..] == text[i + 1..];
    }
  }

  lemma IsGlobalFor(g: Global, content: string)
    requires g == Global(g.symbol, |Utf8(content)| + 1, Escape(Utf8(content)) + "\\00")
    ensures g == GlobalFor(g.symbol, content)
  {
  }

  lemma InternOne(pool: map<string, nat>, gs: seq<Global>, content: string)
    requires Interned(pool, gs) && content !in pool
    ensures Interned(pool[content := |gs|], gs + [GlobalFor(|gs|, content)])
  {
    hide GlobalFor;
    var pool', gs' := pool[content := |gs|], gs + [GlobalFor(|gs|, content)];
    forall i | 0 <= i < |gs'| ensures Used(pool', i) {
      if i < |gs| {
        assert Used(pool, i);
        var c :| c in pool && pool[c] == i;
        assert c in pool' && pool'[c] == i;
      } else {
        assert content in pool' && pool'[content] == i;
      }
    }
  }
}
