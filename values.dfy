/**
 * The JSON-like values that flow through the framework: tool arguments and
 * results, event data, scripted responses and serialised trajectories.
 */
module Values {
  import opened Wrappers
  import opened Text

  /**
   * A Python value of the kinds the framework passes around. Dicts keep their
   * insertion order, as Python's do, so they are association lists.
   */
  datatype Value =
    | VNull
    | VBool(b: bool)
    | VInt(i: int)
    | VFloat(r: real)
    | VStr(s: string)
    | VList(items: seq<Value>)
    | VObj(fields: seq<(string, Value)>)

  /** Keyword arguments of a tool call (`dict[str, Any]`). */
  type Args = map<string, Value>

  /** Python's `type(v).__name__`. */
  function TypeName(v: Value): string {
    match v
    case VNull => "NoneType"
    case VBool(_) => "bool"
    case VInt(_) => "int"
    case VFloat(_) => "float"
    case VStr(_) => "str"
    case VList(_) => "list"
    case VObj(_) => "dict"
  }

  /**
   * Python's `str(v)` (`quoted` = false) and `repr(v)` (`quoted` = true), as
   * they print the values above. Strings are quoted with single quotes and
   * not escaped; floats print exactly only when integral.
   */
  function Render(v: Value, quoted: bool): string
    decreases v
  {
    match v
    case VNull => "None"
    case VBool(b) => if b then "True" else "False"
    case VInt(i) => IntToString(i)
    case VFloat(r) => if r == r.Floor as real then IntToString(r.Floor) + ".0" else "<float>"
    case VStr(s) => if quoted then "'" + s + "'" else s
    case VList(items) =>
      "[" + JoinWith(seq(|items|, k requires 0 <= k < |items| => Render(items[k], true))) + "]"
    case VObj(fields) =>
      "{" + JoinWith(seq(|fields|, k requires 0 <= k < |fields| =>
        "'" + fields[k].0 + "': " + Render(fields[k].1, true))) + "}"
  }

  /** `", ".join(parts)`. */
  function JoinWith(parts: seq<string>): string
    decreases |parts|
  {
    if |parts| == 0 then ""
    else if |parts| == 1 then parts[0]
    else parts[0] + ", " + JoinWith(parts[1..])
  }

  /** Python's `str(v)`. */
  function Str(v: Value): (s: string)
    ensures v.VStr? ==> s == v.s
    ensures v.VNull? ==> s == "None"
    ensures v.VBool? ==> s == (if v.b then "True" else "False")
    ensures v.VInt? && v.i >= 0 ==> AllDigits(s) && ParseNat(s) == v.i
    ensures v.VInt? && v.i < 0 ==> |s| > 1 && s[0] == '-' && AllDigits(s[1..]) && ParseNat(s[1..]) == -v.i
  {
    var n: nat := if !v.VInt? then 0 else if v.i < 0 then -v.i else v.i;
    NatToStringRoundTrip(n);
    Render(v, false)
  }

  /** `str(x)` of an `Optional[str]`: the text itself, or "None". */
  function OptStr(x: Option<string>): (s: string)
    ensures x.Some? ==> s == x.value
  {
    match x
    case Some(t) => t
    case None => "None"
  }
}
