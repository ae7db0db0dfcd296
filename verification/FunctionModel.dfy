/** The checked form of an ADG function program: functions, their templates and conditions,
    and the calls. The grammatical case of a parameter plays no part here. */
module FunctionModel {
  import opened Options

  datatype ParamType = Text | Number
  datatype Operator = Greater | Less | Equal

  datatype Parameter = Parameter(name: string, ptype: ParamType)
  datatype Condition = Condition(parameter: string, op: Operator, value: int, template: string)

  datatype Function = Function(
    name: string,
    parameters: seq<Parameter>,
    body: string,
    conditions: seq<Condition>)

  /** A record with a text and a number, of which `kind` says which one counts. */
  datatype Argument = Argument(kind: ParamType, text: string, number: int)

  datatype Call = Call(functionName: string, arguments: seq<Argument>)

  datatype Program = Program(functions: seq<Function>, calls: seq<Call>)

  /** The index of the first parameter of that name. */
  function IndexOfParameter(ps: seq<Parameter>, name: string): (i: Option<nat>)
    ensures i.Some? ==> i.value < |ps| && ps[i.value].name == name
                        && forall k :: 0 <= k < i.value ==> ps[k].name != name
    ensures i.None? ==> forall k :: 0 <= k < |ps| ==> ps[k].name != name
  {
    if |ps| == 0 then None
    else if ps[0].name == name then Some(0)
    else
      match IndexOfParameter(ps[1..], name)
      case None => None
      case Some(i) => Some(i + 1)
  }

  /** The index of the first function of that name. */
  function IndexOfFunction(fs: seq<Function>, name: string): (i: Option<nat>)
    ensures i.Some? ==> i.value < |fs| && fs[i.value].name == name
                        && forall k :: 0 <= k < i.value ==> fs[k].name != name
    ensures i.None? ==> forall k :: 0 <= k < |fs| ==> fs[k].name != name
  {
    if |fs| == 0 then None
    else if fs[0].name == name then Some(0)
    else
      match IndexOfFunction(fs[1..], name)
      case None => None
      case Some(i) => Some(i + 1)
  }
}
