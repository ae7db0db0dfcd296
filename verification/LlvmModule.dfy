/** The part of LLVM assembly that function programs are compiled to, and its meaning:
    string constants, functions of basic blocks, and calls of the C library's printf. */
module LlvmModule {
  import opened Options
  import opened Text
  import opened LlvmText

  /** `@.adg.s<symbol> = constant [length x i8] c"literal"` */
  datatype Global = Global(symbol: nat, length: nat, literal: string)

  datatype IrType = I32 | Ptr
  datatype Comparison = Sgt | Slt | Eq
  datatype BlockLabel = Entry | Then(number: nat) | Cont(number: nat)

  /** An argument of a printf call: `i32 %p<parameter>` or `ptr %p<parameter>`. */
  datatype PrintfArgument = PrintfArgument(irType: IrType, parameter: nat)

  /** An argument of a call in main: `ptr @.adg.s<symbol>` or `i32 <value>`. */
  datatype CallArgument = Pointer(symbol: nat) | Constant(value: int)

  datatype Line =
    | LabelLine(name: BlockLabel)
    | PrintfLine(format: nat, arguments: seq<PrintfArgument>)
    | IcmpLine(flag: nat, comparison: Comparison, parameter: nat, value: int)
    | BranchLine(flag: nat, ifTrue: BlockLabel, ifFalse: BlockLabel)
    | JumpLine(target: BlockLabel)
    | CallLine(symbol: nat, actuals: seq<CallArgument>)
    | RetLine

  /** `define void @adg_func<symbol>(signature)` */
  datatype Definition = Definition(symbol: nat, signature: seq<IrType>, body: seq<Line>)

  datatype Module = Module(globals: seq<Global>, functions: seq<Definition>, main: seq<Line>)

  // ---- Values and memory

  datatype Value = IntValue(value: int) | PointerValue(symbol: nat)

  predicate InI32(n: int) {
    -0x8000_0000 <= n < 0x8000_0000
  }

  predicate HasType(v: Value, t: IrType) {
    t.I32? == v.IntValue?
  }

  /** The bytes of a string constant, when it is well formed. */
  function BytesOf(gs: seq<Global>, symbol: nat): Option<seq<Byte>> {
    if symbol >= |gs| || gs[symbol].symbol != symbol then None
    else
      match Unescape(gs[symbol].literal)
      case None => None
      case Some(bytes) => if |bytes| == gs[symbol].length then Some(bytes) else None
  }

  /** The bytes before the first NUL; a string without one would be read past its end. */
  function CString(bytes: seq<Byte>): Option<seq<Byte>> {
    if |bytes| == 0 then None
    else if bytes[0] == 0 then Some([])
    else Emit([bytes[0]], CString(bytes[1..]))
  }

  function Emit(bytes: seq<Byte>, rest: Option<seq<Byte>>): Option<seq<Byte>> {
    match rest
    case None => None
    case Some(more) => Some(bytes + more)
  }

  function TextAt(gs: seq<Global>, symbol: nat): Option<seq<Byte>> {
    match BytesOf(gs, symbol)
    case None => None
    case Some(bytes) => CString(bytes)
  }

  // ---- printf

  const PERCENT: Byte := 0x25
  const LETTER_D: Byte := 0x64
  const LETTER_S: Byte := 0x73

  /** What printf writes for a format: conversions take the arguments in order, and the
      format ends at its first NUL. No meaning is given to anything but %%, %d and %s. */
  function PrintfOutput(gs: seq<Global>, format: seq<Byte>, values: seq<Value>): Option<seq<Byte>> {
    if |format| == 0 then None
    else if format[0] == 0 then Some([])
    else if format[0] != PERCENT then Emit([format[0]], PrintfOutput(gs, format[1..], values))
    else if |format| < 2 then None
    else if format[1] == PERCENT then Emit([PERCENT], PrintfOutput(gs, format[2..], values))
    else if |values| == 0 then None
    else
      match Converted(gs, format[1], values[0])
      case None => None
      case Some(text) => Emit(text, PrintfOutput(gs, format[2..], values[1..]))
  }

  function Converted(gs: seq<Global>, letter: Byte, v: Value): Option<seq<Byte>> {
    if letter == LETTER_D && v.IntValue? then Some(Utf8(DecimalInt(v.value)))
    else if letter == LETTER_S && v.PointerValue? then TextAt(gs, v.symbol)
    else None
  }

  function PrintfValues(arguments: seq<PrintfArgument>, params: seq<Value>): Option<seq<Value>> {
    if |arguments| == 0 then Some([])
    else
      var a := arguments[0];
      if a.parameter >= |params| || !HasType(params[a.parameter], a.irType) then None
      else
        match PrintfValues(arguments[1..], params)
        case None => None
        case Some(rest) => Some([params[a.parameter]] + rest)
  }

  function PrintfCall(gs: seq<Global>, format: nat, arguments: seq<PrintfArgument>, params: seq<Value>): Option<seq<Byte>> {
    match (BytesOf(gs, format), PrintfValues(arguments, params))
    case (Some(bytes), Some(values)) => PrintfOutput(gs, bytes, values)
    case _ => None
  }

  // ---- Control flow

  function Compare(c: Comparison, a: int, b: int): bool {
    match c
    case Sgt => a > b
    case Slt => a < b
    case Eq => a == b
  }

  /** The place after the label, which no other line of the function may carry. */
  function Target(code: seq<Line>, name: BlockLabel, from: nat): nat
    decreases |code| - from
  {
    if from >= |code| then |code|
    else if code[from] == LabelLine(name) then from + 1
    else Target(code, name, from + 1)
  }

  function ActualValue(a: CallArgument): Option<Value> {
    match a
    case Pointer(s) => Some(PointerValue(s))
    case Constant(n) => if InI32(n) then Some(IntValue(n)) else None
  }

  function ActualValues(actuals: seq<CallArgument>, signature: seq<IrType>): Option<seq<Value>> {
    if |actuals| != |signature| then None
    else if |actuals| == 0 then Some([])
    else
      match (ActualValue(actuals[0]), ActualValues(actuals[1..], signature[1..]))
      case (Some(v), Some(rest)) => if HasType(v, signature[0]) then Some([v] + rest) else None
      case _ => None
  }

  /** What the code writes from line `at` on. `fuel` bounds the lines executed; a block that
      is entered other than by a branch, an undefined name or a type error has no meaning. */
  function Exec(m: Module, code: seq<Line>, at: nat, params: seq<Value>, flags: map<nat, bool>, fuel: nat): Option<seq<Byte>>
    decreases fuel, 0, 0
  {
    if fuel == 0 || at >= |code| then None
    else
      match code[at]
      case LabelLine(_) => None
      case PrintfLine(format, arguments) =>
        (match PrintfCall(m.globals, format, arguments, params)
         case None => None
         case Some(out) => Emit(out, Exec(m, code, at + 1, params, flags, fuel - 1)))
      case IcmpLine(flag, comparison, parameter, value) =>
        if flag !in flags && parameter < |params| && params[parameter].IntValue? && InI32(value) then
          Exec(m, code, at + 1, params, flags[flag := Compare(comparison, params[parameter].value, value)], fuel - 1)
        else None
      case BranchLine(flag, ifTrue, ifFalse) =>
        if flag in flags then
          Exec(m, code, Target(code, if flags[flag] then ifTrue else ifFalse, 0), params, flags, fuel - 1)
        else None
      case JumpLine(target) => Exec(m, code, Target(code, target, 0), params, flags, fuel - 1)
      case CallLine(symbol, actuals) =>
        (match Invoke(m, symbol, actuals, fuel - 1)
         case None => None
         case Some(out) => Emit(out, Exec(m, code, at + 1, params, flags, fuel - 1)))
      case RetLine => Some([])
  }

  function Invoke(m: Module, symbol: nat, actuals: seq<CallArgument>, fuel: nat): Option<seq<Byte>>
    decreases fuel, 1
  {
    if symbol >= |m.functions| || m.functions[symbol].symbol != symbol then None
    else
      match ActualValues(actuals, m.functions[symbol].signature)
      case None => None
      case Some(values) => Enter(m, m.functions[symbol].body, values, fuel)
  }

  function Enter(m: Module, code: seq<Line>, values: seq<Value>, fuel: nat): Option<seq<Byte>>
    decreases fuel, 0, 1
  {
    if |code| > 0 && code[0] == LabelLine(Entry) then Exec(m, code, 1, values, map[], fuel) else None
  }

  /** What the program writes when it is run. */
  function Run(m: Module, fuel: nat): Option<seq<Byte>> {
    Enter(m, m.main, [], fuel)
  }

  // ---- Nothing written contains a NUL

  lemma {:induction false} CStringHasNoNul(bytes: seq<Byte>)
    requires CString(bytes).Some?
    ensures 0 !in CString(bytes).value
  {
    if bytes[0] != 0 {
      CStringHasNoNul(bytes[1..]);
    }
  }

  lemma {:induction false} Utf8HasNoNul(s: string)
    requires '\0' !in s
    ensures 0 !in Utf8(s)
  {
    if |s| > 0 {
      Utf8HasNoNul(s[1..]);
    }
  }

  lemma {:induction false} PrintfOutputHasNoNul(gs: seq<Global>, format: seq<Byte>, values: seq<Value>)
    requires PrintfOutput(gs, format, values).Some?
    ensures 0 !in PrintfOutput(gs, format, values).value
    decreases |format|
  {
    hide BytesOf;
    if format[0] == 0 {
    } else if format[0] != PERCENT {
      PrintfOutputHasNoNul(gs, format[1..], values);
    } else if format[1] == PERCENT {
      PrintfOutputHasNoNul(gs, format[2..], values);
    } else {
      PrintfOutputHasNoNul(gs, format[2..], values[1..]);
      ConvertedHasNoNul(gs, format[1], values[0]);
    }
  }

  lemma ConvertedHasNoNul(gs: seq<Global>, letter: Byte, v: Value)
    requires Converted(gs, letter, v).Some?
    ensures 0 !in Converted(gs, letter, v).value
  {
    hide BytesOf, CString, Utf8;
    if letter == LETTER_D && v.IntValue? {
      Utf8HasNoNul(DecimalInt(v.value));
    } else {
      CStringHasNoNul(BytesOf(gs, v.symbol).value);
    }
  }

  lemma InvokeEnters(m: Module, symbol: nat, actuals: seq<CallArgument>, fuel: nat) returns (f: Definition)
    requires Invoke(m, symbol, actuals, fuel).Some?
    ensures symbol < |m.functions| && f == m.functions[symbol] && ActualValues(actuals, f.signature).Some?
    ensures Invoke(m, symbol, actuals, fuel)
            == Exec(m, f.body, 1, ActualValues(actuals, f.signature).value, map[], fuel)
  {
    f := m.functions[symbol];
    assert Enter(m, f.body, ActualValues(actuals, f.signature).value, fuel).Some?;
  }

  lemma {:induction false} ExecHasNoNul(m: Module, code: seq<Line>, at: nat, params: seq<Value>, flags: map<nat, bool>, fuel: nat)
    requires Exec(m, code, at, params, flags, fuel).Some?
    ensures 0 !in Exec(m, code, at, params, flags, fuel).value
    decreases fuel
  {
    hide PrintfOutput, BytesOf, ActualValues, PrintfValues;
    match code[at]
    case PrintfLine(format, arguments) =>
      PrintfOutputHasNoNul(m.globals, BytesOf(m.globals, format).value, PrintfValues(arguments, params).value);
      ExecHasNoNul(m, code, at + 1, params, flags, fuel - 1);
    case IcmpLine(flag, comparison, parameter, value) =>
      ExecHasNoNul(m, code, at + 1, params, flags[flag := Compare(comparison, params[parameter].value, value)], fuel - 1);
    case BranchLine(flag, ifTrue, ifFalse) =>
      ExecHasNoNul(m, code, Target(code, if flags[flag] then ifTrue else ifFalse, 0), params, flags, fuel - 1);
    case JumpLine(target) =>
      ExecHasNoNul(m, code, Target(code, target, 0), params, flags, fuel - 1);
    case CallLine(symbol, actuals) =>
      var f := InvokeEnters(m, symbol, actuals, fuel - 1);
      ExecHasNoNul(m, f.body, 1, ActualValues(actuals, f.signature).value, map[], fuel - 1);
      ExecHasNoNul(m, code, at + 1, params, flags, fuel - 1);
    case RetLine =>
  }

  lemma RunHasNoNul(m: Module, fuel: nat)
    requires Run(m, fuel).Some?
    ensures 0 !in Run(m, fuel).value
  {
    ExecHasNoNul(m, m.main, 1, [], map[], fuel);
  }
}
