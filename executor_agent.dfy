/**
 * `ExecutorAgent` of the legacy package: checks that the plan names a tool
 * of the sandbox registry, extracts one parameter value, calls the tool
 * and wraps its rows with their count.
 */
module ExecutorAgent {
  import opened Wrappers
  import opened Py
  import opened Trace
  import McpTools

  /**
   * The dict `execute` returns: `{"error": ...}`, or `{"status": "success",
   * "tool", "parameters", "row_count", "data"}`.
   */
  datatype Outcome =
    | Failure(error: string)
    | Success(tool: string, parameters: Value, rowCount: nat, data: seq<Value>)

  /** `plan.get("tool")`. */
  function ToolName(plan: Value): Value
    requires plan.Dict?
  {
    GetOr(plan.entries, "tool", Null)
  }

  /** `plan.get("parameters", {})`. */
  function Parameters(plan: Value): Value
    requires plan.Dict?
  {
    GetOr(plan.entries, "parameters", Dict([]))
  }

  /** The plan's tool name is a key of the sandbox. */
  predicate Registered(plan: Value)
    requires plan.Dict?
  {
    ToolName(plan).Str? && ToolName(plan).s in McpTools.Tools
  }

  /**
   * The parameter value: the first value of a dict, the first item of a
   * list (`None` for an empty one), and `str(parameters)` for anything
   * else, so a `null` parameters entry becomes the text `None`.
   */
  function ParamValue(repr: Value -> string, params: Value): (r: Value)
    ensures params.Dict? ==> r == (if params.entries == [] then Null else params.entries[0].1)
    ensures params.List? ==> r == (if params.items == [] then Null else params.items[0])
    ensures !params.Dict? && !params.List? ==> r == Str(StrOf(repr, params))
  {
    if params.Dict? then (if params.entries == [] then Null else params.entries[0].1)
    else if params.List? then (if params.items == [] then Null else params.items[0])
    else Str(StrOf(repr, params))
  }

  /** What a tool's return value becomes: a list is the rows, anything else one row. */
  function Wrap(tool: string, params: Value, result: Value): (r: Outcome)
    ensures r.Success? && r.tool == tool && r.parameters == params && r.rowCount == |r.data|
    ensures result.List? ==> r.data == result.items
    ensures !result.List? ==> r.data == [result]
  {
    match result
    case List(rows) => Success(tool, params, |rows|, rows)
    case _ => Success(tool, params, 1, [result])
  }

  /** `execute(plan)`; `Raised` is an exception that escapes it (an unhashable tool name, hashed before the `try`). */
  function Execute(plan: Value, db: McpTools.Db, repr: Value -> string): (r: Traced<Result<Outcome>>)
    requires plan.Dict?
    ensures (plan.entries == [] || !HasKey(plan.entries, "tool")) ==>
      r == Traced(Ok(Failure("Invalid plan - tool missing")), [])
    ensures HasKey(plan.entries, "tool") && Unhashable(ToolName(plan)).Some? ==>
      r == Traced(Raised("unhashable type: '" + Unhashable(ToolName(plan)).value + "'"), [])
    ensures (HasKey(plan.entries, "tool") && Unhashable(ToolName(plan)).None? && !Registered(plan)) ==>
      r == Traced(Ok(Failure("Tool '" + StrOf(repr, ToolName(plan)) + "' not allowed")), [])
    ensures r.events != [] ==>
      Registered(plan) && ParamValue(repr, Parameters(plan)) != Null &&
      r.events == [ToolCall(ToolName(plan).s, ParamValue(repr, Parameters(plan)))]
    ensures r.value.Ok? && r.value.value.Success? ==>
      r.events != [] && r.value.value.tool == ToolName(plan).s && r.value.value.parameters == Parameters(plan) &&
      r.value.value.rowCount == |r.value.value.data|
    ensures r.value.Ok? && r.value.value.Failure? ==> r.value.value.error != ""
  {
    if plan.entries == [] || !HasKey(plan.entries, "tool") then
      Traced(Ok(Failure("Invalid plan - tool missing")), [])
    else
      var tool := ToolName(plan);
      var params := Parameters(plan);
      match KeyIn(tool, McpTools.Tools.Keys)
      case Raised(e) => Traced(Raised(e), [])
      case Ok(allowed) =>
        if !allowed then Traced(Ok(Failure("Tool '" + StrOf(repr, tool) + "' not allowed")), [])
        else
          var arg := ParamValue(repr, params);
          if arg == Null then Traced(Ok(Failure("No parameter value in plan")), [])
          else
            var outcome :=
              match McpTools.Call(db, McpTools.Tools[tool.s], arg)
              case Ok(result) => Wrap(tool.s, params, result)
              case Raised(e) => Failure("Error: " + e);
            Traced(Ok(outcome), [ToolCall(tool.s, arg)])
  }

  /** At most one tool runs per plan, and only one the sandbox holds. */
  lemma AtMostOneRegisteredCall(plan: Value, db: McpTools.Db, repr: Value -> string)
    requires plan.Dict?
    ensures var r := Execute(plan, db, repr);
      |ToolCalls(r.events)| <= 1 && |r.events| == |ToolCalls(r.events)| && OnlyTools(r.events, McpTools.Tools.Keys)
  {
    var r := Execute(plan, db, repr);
    if r.events != [] {
      assert r.events == [r.events[0]];
      assert ToolCalls(r.events) == [r.events[0]] + ToolCalls([]);
    }
  }

  /**
   * The sandbox is checked before the parameters are read: two plans
   * naming the same unregistered tool get the same answer, whatever their
   * parameters, and no tool runs.
   */
  lemma AllowlistBeforeParameters(plan1: Value, plan2: Value, db: McpTools.Db, repr: Value -> string)
    requires plan1.Dict? && plan2.Dict?
    requires HasKey(plan1.entries, "tool") && HasKey(plan2.entries, "tool")
    requires ToolName(plan1) == ToolName(plan2) && !Registered(plan1)
    ensures Execute(plan1, db, repr) == Execute(plan2, db, repr)
    ensures Execute(plan1, db, repr).events == []
  {
  }

  /**
   * A registered tool with a parameter value is called exactly once with
   * it; its rows come back with their count, and its exception becomes
   * `Error: ...`.
   */
  lemma RegisteredToolRuns(plan: Value, db: McpTools.Db, repr: Value -> string)
    requires plan.Dict? && HasKey(plan.entries, "tool") && Registered(plan)
    requires ParamValue(repr, Parameters(plan)) != Null
    ensures var r := Execute(plan, db, repr);
      var arg := ParamValue(repr, Parameters(plan));
      var name := ToolName(plan).s;
      r.events == [ToolCall(name, arg)] &&
      match McpTools.Call(db, McpTools.Tools[name], arg)
      case Ok(result) =>
        r.value.Ok? && r.value.value.Success? &&
        r.value.value.data == (if result.List? then result.items else [result])
      case Raised(e) => r.value == Ok(Failure("Error: " + e))
  {
  }

  /** Without a parameter value the executor reports it and calls nothing. */
  lemma MissingParameterValue(plan: Value, db: McpTools.Db, repr: Value -> string)
    requires plan.Dict? && HasKey(plan.entries, "tool") && Registered(plan)
    requires ParamValue(repr, Parameters(plan)) == Null
    ensures Execute(plan, db, repr) == Traced(Ok(Failure("No parameter value in plan")), [])
  {
  }
}
