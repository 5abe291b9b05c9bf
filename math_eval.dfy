/** The builtin two-operand calculator: an operator table and one operation, or an error. */
module MathEval {
  import opened Wrappers
  import opened Text
  import opened Values
  import opened Tools
  import opened ToolCalls
  import opened ToolCallResults
  import opened Registry

  /** The keys of the operator table, in table order. */
  const OPERATORS: seq<string> := ["+", "-", "*", "/"]

  const MATH_SCHEMA := ParamSchema(
    [ ("a", ParamSpec("number", "First operand")),
      ("operator", ParamSpec("string", "Operation to perform", Some(OPERATORS))),
      ("b", ParamSpec("number", "Second operand")) ],
    ["a", "operator", "b"])

  /** Python numbers: `bool` and `int` are integers, `float` is modelled exactly. */
  predicate IsInteger(v: Value) {
    v.VInt? || v.VBool?
  }

  predicate IsNumber(v: Value) {
    IsInteger(v) || v.VFloat?
  }

  function IntegerOf(v: Value): int
    requires IsInteger(v)
  {
    if v.VInt? then v.i else if v.b then 1 else 0
  }

  function RealOf(v: Value): real
    requires IsNumber(v)
  {
    if v.VFloat? then v.r else IntegerOf(v) as real
  }

  /**
   * `OPERATORS[op](a, b)` for one of the four table entries: integers stay
   * integers under +, - and *, a float operand makes a float, `/` always
   * makes a float, and a zero divisor raises `ZeroDivisionError`.
   */
  function Apply(op: string, a: Value, b: Value): (r: Result<Value>)
    requires op in OPERATORS
    ensures IsInteger(a) && IsInteger(b) && op == "+" ==> r == Ok(VInt(IntegerOf(a) + IntegerOf(b)))
    ensures IsInteger(a) && IsInteger(b) && op == "-" ==> r == Ok(VInt(IntegerOf(a) - IntegerOf(b)))
    ensures IsInteger(a) && IsInteger(b) && op == "*" ==> r == Ok(VInt(IntegerOf(a) * IntegerOf(b)))
    ensures IsNumber(a) && IsNumber(b) && op == "/" ==> (r.Err? <==> RealOf(b) == 0.0)
    ensures IsNumber(a) && IsNumber(b) && op == "/" && RealOf(b) != 0.0 ==> r == Ok(VFloat(RealOf(a) / RealOf(b)))
    ensures !(IsNumber(a) && IsNumber(b)) ==> r.Err?
  {
    if !(IsNumber(a) && IsNumber(b)) then
      Err("unsupported operand type(s) for " + op + ": '" + TypeName(a) + "' and '" + TypeName(b) + "'")
    else if op == "/" then
      if RealOf(b) == 0.0 then
        Err(if IsInteger(a) && IsInteger(b) then "division by zero" else "float division by zero")
      else Ok(VFloat(RealOf(a) / RealOf(b)))
    else if IsInteger(a) && IsInteger(b) then
      var x, y := IntegerOf(a), IntegerOf(b);
      Ok(VInt(if op == "+" then x + y else if op == "-" then x - y else x * y))
    else
      var x, y := RealOf(a), RealOf(b);
      Ok(VFloat(if op == "+" then x + y else if op == "-" then x - y else x * y))
  }

  /**
   * The body of `__call__`: an operator that is not a table key raises
   * `ValueError("Unsupported operator: <op>")` (a list or dict cannot even
   * be looked up and raises `TypeError`); a table key is applied.
   */
  function Evaluate(a: Value, op: Value, b: Value): (r: Result<Value>)
    ensures !(op.VStr? && op.s in OPERATORS) && !op.VList? && !op.VObj? ==> r == Err("Unsupported operator: " + Str(op))
    ensures op.VStr? && op.s in OPERATORS ==> r == Apply(op.s, a, b)
    ensures !(op.VStr? && op.s in OPERATORS) ==> r.Err?
  {
    if op.VList? || op.VObj? then Err("unhashable type: '" + TypeName(op) + "'")
    else if !(op.VStr? && op.s in OPERATORS) then Err("Unsupported operator: " + Str(op))
    else Apply(op.s, a, b)
  }

  /** `MathEvalTool()(**args)`: binds a, operator and b, then evaluates. */
  function MathInvoke(args: Args): (r: Result<Value>)
    ensures ("a" !in args || "operator" !in args || "b" !in args) ==> r.Err?
    ensures "a" in args && "operator" in args && "b" in args ==>
      r == Evaluate(args["a"], args["operator"], args["b"])
  {
    match Bind("MathEvalTool.__call__", ["a", "operator", "b"], args)
    case Ok(vs) => Evaluate(vs[0], vs[1], vs[2])
    case Err(e) => Err(e)
  }

  const MATH_EVAL_TOOL := Tool(
    "math_eval",
    "Evaluates a simple math expression with two operands. Supports +, -, *, /",
    MATH_SCHEMA,
    MathInvoke)

  /**
   * The schema's operator enum and the operator table agree: on integer
   * operands with a non-zero divisor, an operator string succeeds exactly
   * when the schema lists it.
   */
  lemma SchemaMatchesTable(op: string, x: int, y: int)
    requires y != 0
    ensures Evaluate(VInt(x), VStr(op), VInt(y)).Ok? <==> op in MATH_SCHEMA.properties[1].1.choices.value
  {
  }

  /**
   * Through a registry holding the calculator, integer +, - and * on bound
   * arguments come back as successful results carrying the exact value.
   */
  lemma MathThroughRegistry(tools: map<string, Tool>, call: ToolCall, x: int, y: int, op: string)
    requires "math_eval" in tools && tools["math_eval"] == MATH_EVAL_TOOL && call.name == "math_eval"
    requires call.arguments == map["a" := VInt(x), "operator" := VStr(op), "b" := VInt(y)]
    ensures op == "+" ==> ExecuteWith(tools, call).result == VInt(x + y)
    ensures op == "-" ==> ExecuteWith(tools, call).result == VInt(x - y)
    ensures op == "*" ==> ExecuteWith(tools, call).result == VInt(x * y)
  {
    CalculatorCallEvaluates(tools, call, x, y, op);
  }

  /**
   * Through a registry holding the calculator, dividing by zero or naming an
   * unknown operator comes back as an error result with Python's message.
   */
  lemma MathErrorsThroughRegistry(tools: map<string, Tool>, call: ToolCall, x: int, y: int, op: string)
    requires "math_eval" in tools && tools["math_eval"] == MATH_EVAL_TOOL && call.name == "math_eval"
    requires call.arguments == map["a" := VInt(x), "operator" := VStr(op), "b" := VInt(y)]
    ensures op == "/" && y == 0 ==> ExecuteWith(tools, call).error == Some("division by zero")
    ensures op !in OPERATORS ==> ExecuteWith(tools, call).error == Some("Unsupported operator: " + op)
  {
    CalculatorCallEvaluates(tools, call, x, y, op);
  }

  /** The registered calculator binds the three arguments by name and evaluates them. */
  lemma CalculatorCallEvaluates(tools: map<string, Tool>, call: ToolCall, x: int, y: int, op: string)
    requires "math_eval" in tools && tools["math_eval"] == MATH_EVAL_TOOL && call.name == "math_eval"
    requires call.arguments == map["a" := VInt(x), "operator" := VStr(op), "b" := VInt(y)]
    ensures tools[call.name].invoke(call.arguments) == Evaluate(VInt(x), VStr(op), VInt(y))
  {
    assert MathInvoke(call.arguments) == Evaluate(VInt(x), VStr(op), VInt(y));
  }
}
