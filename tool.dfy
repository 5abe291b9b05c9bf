/**
 * The tool capability: a name, a description, a parameter schema and an
 * invocation on keyword arguments that either returns a value or raises.
 */
module Tools {
  import opened Wrappers
  import opened Text
  import opened Values

  /** One parameter of a JSON schema: its type, description and allowed values. */
  datatype ParamSpec = ParamSpec(kind: string, description: string, choices: Option<seq<string>> := None)

  /** An object schema: named properties in order and the required names. */
  datatype ParamSchema = ParamSchema(properties: seq<(string, ParamSpec)>, required: seq<string>)

  /** The "function" part of a catalog entry. */
  datatype FunctionSpec = FunctionSpec(name: string, description: string, parameters: ParamSchema)

  /** A tool as listed for the model: `{"type": ..., "function": {...}}`. */
  datatype CatalogEntry = CatalogEntry(kind: string, fn: FunctionSpec)

  /**
   * A tool. `invoke` stands for calling the tool with `**arguments`: binding
   * the keywords to its parameters and running it, with `Err(str(e))` for
   * any exception raised on the way.
   */
  datatype Tool = Tool(
    name: string,
    description: string,
    paramsSchema: ParamSchema,
    invoke: Args -> Result<Value>)
  {
    /** `to_dict`: the OpenAI function-calling entry for this tool. */
    function ToDict(): (e: CatalogEntry)
      ensures e.kind == "function"
      ensures e.fn.name == name
      ensures e.fn.description == description && e.fn.parameters == paramsSchema
    {
      CatalogEntry("function", FunctionSpec(name, description, paramsSchema))
    }
  }

  /** The required names missing from `args`, in the order they are declared. */
  function Missing(required: seq<string>, args: Args): (r: seq<string>)
    ensures forall x :: x in r <==> x in required && x !in args
    ensures |r| <= |required|
    decreases |required|
  {
    if required == [] then []
    else (if required[0] in args then [] else [required[0]]) + Missing(required[1..], args)
  }

  /** `'a'`, `'a' and 'b'`, `'a', 'b', and 'c'`: how Python lists missing names. */
  function QuoteNames(names: seq<string>): string
    decreases |names|
  {
    if |names| == 0 then ""
    else if |names| == 1 then "'" + names[0] + "'"
    else if |names| == 2 then "'" + names[0] + "' and '" + names[1] + "'"
    else Prefixes(names[..|names| - 1]) + "and '" + names[|names| - 1] + "'"
  }

  /** `'a', 'b', ` for every name given. */
  function Prefixes(names: seq<string>): string
    decreases |names|
  {
    if |names| == 0 then "" else "'" + names[0] + "', " + Prefixes(names[1..])
  }

  /**
   * The `TypeError` Python raises when a call of `owner` lacks required
   * keyword arguments.
   */
  function MissingArgumentsError(owner: string, names: seq<string>): (msg: string)
    requires |names| > 0
  {
    owner + "() missing " + NatToString(|names|) + " required positional argument"
    + (if |names| == 1 then "" else "s") + ": " + QuoteNames(names)
  }

  /**
   * Binds `args` to the required parameters of `owner`: the bound arguments in
   * parameter order, or the `TypeError` naming every one that is missing.
   * Extra keywords are accepted and ignored (`**kwargs`).
   */
  function Bind(owner: string, params: seq<string>, args: Args): (r: Result<seq<Value>>)
    ensures r.Ok? <==> forall k :: 0 <= k < |params| ==> params[k] in args
    ensures r.Ok? ==> |r.value| == |params| && forall k :: 0 <= k < |params| ==> r.value[k] == args[params[k]]
  {
    var missing := Missing(params, args);
    if |missing| > 0 then
      assert missing[0] in params && missing[0] !in args;
      Err(MissingArgumentsError(owner, missing))
    else
      Ok(seq(|params|, k requires 0 <= k < |params| => args[params[k]]))
  }
}
