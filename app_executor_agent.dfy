/**
 * `ExecutorAgent` of the `app` package: runs the tool a plan names, but
 * only if the name is a key of the tool registry, and with the plan's
 * single argument.
 */
module AppExecutorAgent {
  import opened Wrappers
  import opened Py
  import opened Trace
  import AppTools

  /** The dict `execute` returns: `{"error": ...}` or `{"status": "success", "tool": ..., "data": ...}`. */
  datatype Outcome = Failure(error: string) | Success(tool: string, data: Value)

  /**
   * The argument passed to the tool: the first value of a non-empty dict,
   * the first item of a non-empty list, or a string itself; anything else
   * means the parameters are missing.
   */
  function Argument(params: Value): (r: Option<Value>)
    ensures r.Some? <==> (params.Dict? && params.entries != []) || (params.List? && params.items != []) || params.Str?
    ensures r.Some? && params.Dict? ==> r.value == params.entries[0].1
    ensures r.Some? && params.List? ==> r.value == params.items[0]
    ensures r.Some? && params.Str? ==> r.value == params
  {
    if params.Dict? && params.entries != [] then Some(params.entries[0].1)
    else if params.List? && params.items != [] then Some(params.items[0])
    else if params.Str? then Some(params)
    else None
  }

  /** `plan.get("tool")`. */
  function ToolName(plan: Value): Value
    requires plan.Dict?
  {
    GetOr(plan.entries, "tool", Null)
  }

  /** The plan's tool name is a registry key. */
  predicate Registered(plan: Value)
    requires plan.Dict?
  {
    ToolName(plan).Str? && ToolName(plan).s in AppTools.Tools
  }

  /** `execute(plan)`; `Raised` is an exception that escapes it (an unhashable tool name). */
  function Execute(plan: Value, db: AppTools.Db, repr: Value -> string): (r: Traced<Result<Outcome>>)
    requires plan.Dict?
    ensures !Truthy(ToolName(plan)) ==> r == Traced(Ok(Failure("No tool selected")), [])
    ensures Truthy(ToolName(plan)) && Unhashable(ToolName(plan)).Some? ==> r.value.Raised? && r.events == []
    ensures Truthy(ToolName(plan)) && Unhashable(ToolName(plan)).None? && !Registered(plan) ==>
      r == Traced(Ok(Failure("Tool '" + StrOf(repr, ToolName(plan)) + "' is not allowed")), [])
    ensures r.value.Raised? ==> Unhashable(ToolName(plan)).Some?
    ensures r.events != [] ==> (Registered(plan) && Truthy(ToolName(plan)) &&
      var arg := Argument(GetOr(plan.entries, "parameters", Dict([])));
      arg.Some? && r.events == [ToolCall(ToolName(plan).s, arg.value)])
    ensures r.value.Ok? && r.value.value.Success? ==>
      r.events != [] && r.value.value.tool == ToolName(plan).s &&
      AppTools.Call(db, AppTools.Tools[r.value.value.tool], r.events[0].arg) == Ok(r.value.value.data)
    ensures r.value.Ok? && r.value.value.Failure? ==> r.value.value.error != ""
  {
    var tool := ToolName(plan);
    if !Truthy(tool) then Traced(Ok(Failure("No tool selected")), [])
    else if Unhashable(tool).Some? then Traced(Raised("unhashable type: '" + Unhashable(tool).value + "'"), [])
    else if !(tool.Str? && tool.s in AppTools.Tools) then
      Traced(Ok(Failure("Tool '" + StrOf(repr, tool) + "' is not allowed")), [])
    else
      match Argument(GetOr(plan.entries, "parameters", Dict([])))
      case None => Traced(Ok(Failure("Missing parameters")), [])
      case Some(arg) =>
        var outcome :=
          match AppTools.Call(db, AppTools.Tools[tool.s], arg)
          case Ok(data) => Success(tool.s, data)
          case Raised(e) => Failure("Execution error: " + e);
        Traced(Ok(outcome), [ToolCall(tool.s, arg)])
  }

  /** At most one tool runs per plan, and only a registered one. */
  lemma AtMostOneRegisteredCall(plan: Value, db: AppTools.Db, repr: Value -> string)
    requires plan.Dict?
    ensures var r := Execute(plan, db, repr);
      |ToolCalls(r.events)| <= 1 && |r.events| == |ToolCalls(r.events)| && OnlyTools(r.events, AppTools.Tools.Keys)
  {
    var r := Execute(plan, db, repr);
    if r.events != [] {
      assert r.events == [r.events[0]];
      assert ToolCalls(r.events) == [r.events[0]] + ToolCalls([]);
    }
  }

  /**
   * The allowlist is applied before the parameters are looked at: two
   * plans naming the same unregistered tool get the same answer, whatever
   * their parameters, and no tool runs.
   */
  lemma AllowlistBeforeParameters(plan1: Value, plan2: Value, db: AppTools.Db, repr: Value -> string)
    requires plan1.Dict? && plan2.Dict?
    requires ToolName(plan1) == ToolName(plan2) && !Registered(plan1)
    ensures Execute(plan1, db, repr) == Execute(plan2, db, repr)
    ensures Execute(plan1, db, repr).events == []
  {
  }

  /** A registered tool name never makes `execute` raise: it either runs, or the parameters are missing, or the tool failed. */
  lemma RegisteredNeverRaises(plan: Value, db: AppTools.Db, repr: Value -> string)
    requires plan.Dict? && Registered(plan)
    ensures var r := Execute(plan, db, repr).value;
      r.Ok? && (r.value.Failure? ==>
        r.value.error == "Missing parameters" || (|r.value.error| >= 17 && r.value.error[..17] == "Execution error: "))
  {
    assert Unhashable(ToolName(plan)).None?;
  }

  /** A registered tool without a usable argument gets exactly `Missing parameters`, and no tool runs. */
  lemma MissingParameters(plan: Value, db: AppTools.Db, repr: Value -> string)
    requires plan.Dict? && Registered(plan)
    requires Argument(GetOr(plan.entries, "parameters", Dict([]))).None?
    ensures Execute(plan, db, repr) == Traced(Ok(Failure("Missing parameters")), [])
  {
    assert Unhashable(ToolName(plan)).None?;
  }

  /** A registered tool with a usable argument is called once, and its exception becomes an execution error. */
  lemma RegisteredToolRuns(plan: Value, db: AppTools.Db, repr: Value -> string)
    requires plan.Dict? && Registered(plan)
    requires Argument(GetOr(plan.entries, "parameters", Dict([]))).Some?
    ensures var r := Execute(plan, db, repr);
      var arg := Argument(GetOr(plan.entries, "parameters", Dict([]))).value;
      var name := ToolName(plan).s;
      r.events == [ToolCall(name, arg)] &&
      match AppTools.Call(db, AppTools.Tools[name], arg)
      case Ok(data) => r.value == Ok(Success(name, data))
      case Raised(e) => r.value == Ok(Failure("Execution error: " + e))
  {
    AppTools.RegistryNamesWrappers();
  }
}
