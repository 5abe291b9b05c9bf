/** The mock MCP provider: loads a fixed list of tools into a registry. */
module Mcp {
  import opened Wrappers
  import opened Values
  import opened Dicts
  import opened Tools
  import opened Registry

  const WEATHER_REPORT := "Sunny, 22Â°C (Mock data from MCP)"

  const WEATHER_SCHEMA := ParamSchema([("location", ParamSpec("string", "City name or location"))], ["location"])

  /**
   * `MockWeatherTool()(**args)`: a canned report for the given location
   * (the degree sign is spelled with the two characters the source file holds).
   */
  function WeatherInvoke(args: Args): (r: Result<Value>)
    ensures "location" in args ==>
      r.Ok? && r.value.VStr? && r.value.s == "Weather in " + Str(args["location"]) + ": " + WEATHER_REPORT
    ensures "location" !in args ==> r.Err?
  {
    match Bind("MockWeatherTool.__call__", ["location"], args)
    case Ok(vs) => Ok(VStr("Weather in " + Str(vs[0]) + ": " + WEATHER_REPORT))
    case Err(e) => Err(e)
  }

  const WEATHER_TOOL := Tool("get_weather", "Get current weather for a location (mock MCP tool)", WEATHER_SCHEMA, WeatherInvoke)

  /** The report begins with "Weather in <location>: ". */
  lemma WeatherReportPrefix(location: Value)
    ensures WeatherInvoke(map["location" := location]).Ok?
    ensures var s := WeatherInvoke(map["location" := location]).value.s;
      var p := "Weather in " + Str(location) + ": ";
      |p| <= |s| && s[..|p|] == p
  {
    var s := WeatherInvoke(map["location" := location]).value.s;
    var p := "Weather in " + Str(location) + ": ";
    assert s == p + WEATHER_REPORT;
  }

  /**
   * The registry contents after registering `ts` one by one with
   * `replace=False`, and the first refusal: registration stops at the first
   * name already present, keeping every tool registered before it.
   */
  function LoadAll(d: Dict<Tool>, ts: seq<Tool>): (res: (Dict<Tool>, Outcome))
    requires d.Valid()
    ensures res.0.Valid()
    decreases |ts|
  {
    if ts == [] then (d, Pass)
    else
      var (d', o) := LoadAll(d, ts[..|ts| - 1]);
      var t := ts[|ts| - 1];
      if o.Fail? then (d', o)
      else if t.name in d'.entries then (d', Fail(DuplicateError(t.name)))
      else (d'.Put(t.name, t), Pass)
  }

  function Names(ts: seq<Tool>): (ns: seq<string>)
    ensures |ns| == |ts| && forall i :: 0 <= i < |ts| ==> ns[i] == ts[i].name
  {
    seq(|ts|, i requires 0 <= i < |ts| => ts[i].name)
  }

  /** No tool in `ts` is filed in `d` already. */
  ghost predicate AllFresh(d: Dict<Tool>, ts: seq<Tool>) {
    forall i :: 0 <= i < |ts| ==> ts[i].name !in d.entries
  }

  /**
   * A load that succeeds appends the names in list order and files each tool
   * under its name, leaving the entries that were there untouched.
   */
  lemma {:induction false} LoadAllContents(d: Dict<Tool>, ts: seq<Tool>)
    requires d.Valid() && LoadAll(d, ts).1.Pass?
    ensures LoadAll(d, ts).0.keys == d.keys + Names(ts)
    ensures forall k :: k in d.entries ==> k in LoadAll(d, ts).0.entries && LoadAll(d, ts).0.entries[k] == d.entries[k]
    decreases |ts|
  {
    if ts == [] {
      assert d.keys + Names(ts) == d.keys;
    } else {
      var init := ts[..|ts| - 1];
      var t := ts[|ts| - 1];
      var r := LoadAll(d, init);
      assert r.1.Pass? && t.name !in r.0.entries && LoadAll(d, ts) == (r.0.Put(t.name, t), Pass);
      LoadAllContents(d, init);
      var e := r.0.Put(t.name, t);
      assert Names(ts) == Names(init) + [t.name];
      assert d.keys + Names(ts) == (d.keys + Names(init)) + [t.name];
      forall k | k in d.entries ensures k in e.entries && e.entries[k] == d.entries[k] {
        assert k in r.0.entries && k != t.name;
      }
    }
  }

  /** After a load that succeeds, every loaded name is filed with its own tool. */
  lemma {:induction false} LoadAllFiles(d: Dict<Tool>, ts: seq<Tool>, i: nat)
    requires d.Valid() && LoadAll(d, ts).1.Pass? && i < |ts|
    ensures ts[i].name in LoadAll(d, ts).0.entries && LoadAll(d, ts).0.entries[ts[i].name] == ts[i]
    decreases |ts|
  {
    var init := ts[..|ts| - 1];
    var t := ts[|ts| - 1];
    var r := LoadAll(d, init);
    assert r.1.Pass? && t.name !in r.0.entries && LoadAll(d, ts) == (r.0.Put(t.name, t), Pass);
    if i < |init| {
      LoadAllFiles(d, init, i);
      assert ts[i] == init[i];
      assert ts[i].name != t.name;
    }
  }

  /**
   * Loading succeeds exactly when the tool names are distinct and none is
   * registered already.
   */
  lemma {:induction false} LoadAllSucceeds(d: Dict<Tool>, ts: seq<Tool>)
    requires d.Valid()
    ensures LoadAll(d, ts).1.Pass? <==> Distinct(Names(ts)) && AllFresh(d, ts)
    decreases |ts|
  {
    if ts != [] {
      var init := ts[..|ts| - 1];
      var t := ts[|ts| - 1];
      var (d', o) := LoadAll(d, init);
      LoadAllSucceeds(d, init);
      assert Names(ts) == Names(init) + [t.name];
      DistinctSnoc(Names(init), t.name);
      assert AllFresh(d, ts) <==> AllFresh(d, init) && t.name !in d.entries by {
        assert forall i :: 0 <= i < |init| ==> ts[i] == init[i];
      }
      if o.Pass? {
        LoadAllContents(d, init);
        assert t.name in d'.entries <==> t.name in d.keys + Names(init);
      }
    }
  }

  class MockMCPProvider {
    const mockTools: seq<Tool>

    /** `MockMCPProvider(mock_tools)`: no list means no tools. */
    constructor (mockTools: Option<seq<Tool>>)
      ensures this.mockTools == (if mockTools.Some? then mockTools.value else [])
    {
      this.mockTools := if mockTools.Some? then mockTools.value else [];
    }

    /**
     * `load_tools(registry)`: registers every tool in list order with
     * `replace=False`; the first duplicate name raises `ValueError` and ends
     * the loop, leaving the tools before it registered.
     */
    method LoadTools(registry: ToolRegistry) returns (o: Outcome)
      requires registry.Valid()
      modifies registry
      ensures registry.Valid()
      ensures (registry.tools, o) == LoadAll(old(registry.tools), mockTools)
    {
      o := Pass;
      var i := 0;
      while i < |mockTools|
        invariant 0 <= i <= |mockTools| && registry.Valid()
        invariant o == Pass && (registry.tools, o) == LoadAll(old(registry.tools), mockTools[..i])
      {
        assert mockTools[..i + 1][..i] == mockTools[..i];
        o := registry.Register(mockTools[i]);
        assert (registry.tools, o) == LoadAll(old(registry.tools), mockTools[..i + 1]);
        if o.Fail? {
          LoadAllStops(old(registry.tools), mockTools, i + 1);
          return;
        }
        i := i + 1;
      }
      assert mockTools[..i] == mockTools;
    }
  }

  /** Once a prefix fails, loading more tools changes nothing. */
  lemma {:induction false} LoadAllStops(d: Dict<Tool>, ts: seq<Tool>, n: nat)
    requires d.Valid() && n <= |ts| && LoadAll(d, ts[..n]).1.Fail?
    ensures LoadAll(d, ts) == LoadAll(d, ts[..n])
    decreases |ts| - n
  {
    if n < |ts| {
      assert ts[..n + 1][..n] == ts[..n];
      LoadAllStops(d, ts, n + 1);
    } else {
      assert ts[..n] == ts;
    }
  }
}
