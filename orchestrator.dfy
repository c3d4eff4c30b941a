/**
 * `AgentOrchestrator` of the legacy package: plan, execute, reason, with
 * an early error response after each of the first two stages, all inside
 * one `try` that turns any exception into an error response.
 */
module Orchestrator {
  import opened Wrappers
  import opened Py
  import opened Trace
  import McpTools
  import LlmProvider
  import PlannerAgent
  import ExecutorAgent
  import ReasonerAgent

  /**
   * The collaborators the agents are built with: the shared provider,
   * `json.loads`, the project's JSON serialiser, `repr` of containers, and
   * the database.
   */
  datatype Env = Env(
    provider: LlmProvider.Provider,
    loads: string -> Result<Value>,
    serialize: Value -> Result<string>,
    repr: Value -> string,
    db: McpTools.Db)

  /**
   * The response dict. An error response carries the plan only when the
   * executor rejected it; `error` is whatever the plan or executor put
   * there, or `str(e)` of an exception.
   */
  datatype Response =
    | Success(query: string, plan: Value, data: seq<Value>, rowCount: nat, explanation: string)
    | Failure(query: string, rejectedPlan: Option<Value>, error: Value)
  {
    function Status(): string
    {
      if Success? then "success" else "error"
    }
  }

  /** `plan.get("error")`. */
  function PlanError(plan: Value): Value
    requires plan.Dict?
  {
    GetOr(plan.entries, "error", Null)
  }

  /** `process_query(user_query)`; it never raises, so the result is a response. */
  function ProcessQuery(env: Env, query: string): (r: Traced<Response>)
    ensures r.value.query == query
  {
    Respond(env, query, PlannerAgent.Plan(env.provider, env.loads, query))
  }

  /**
   * The rest of the `try` once the planner has answered: stop with the
   * plan's truthy `error`, or execute it, stop with the executor's error, or
   * reason about the rows; an exception becomes an error response.
   */
  function Respond(env: Env, query: string, planned: Traced<Value>): (r: Traced<Response>)
    requires planned.value.Dict?
    ensures r.value.query == query
  {
    var plan := planned.value;
    if Truthy(PlanError(plan)) then Traced(Failure(query, None, PlanError(plan)), planned.events)
    else
      var executed := ExecutorAgent.Execute(plan, env.db, env.repr);
      match executed.value
      case Raised(e) => Traced(Failure(query, None, Str(e)), planned.events + executed.events)
      case Ok(Failure(message)) => Traced(Failure(query, Some(plan), Str(message)), planned.events + executed.events)
      case Ok(Success(_, _, rowCount, rows)) =>
        var reasoned := ReasonerAgent.Reason(env.provider, env.serialize, env.repr, query, List(rows));
        var events := planned.events + executed.events + reasoned.events;
        match reasoned.value
        case Raised(e) => Traced(Failure(query, None, Str(e)), events)
        case Ok(explanation) => Traced(Success(query, plan, rows, rowCount, explanation), events)
  }

  /** A truthy planning error ends the request after the one model call: no tool runs. */
  lemma PlanErrorStopsEarly(env: Env, query: string)
    requires Truthy(PlanError(PlannerAgent.Plan(env.provider, env.loads, query).value))
    ensures var r := ProcessQuery(env, query);
      r.value == Failure(query, None, PlanError(PlannerAgent.Plan(env.provider, env.loads, query).value)) &&
      r.events == [LlmCall(PlannerAgent.BuildPrompt(query))]
  {
  }

  /**
   * A planning error with empty text is falsy, so it is not caught here:
   * the plan goes to the executor, which finds no tool in it.
   */
  lemma EmptyPlanErrorReachesExecutor(env: Env, query: string)
    requires PlannerAgent.Plan(env.provider, env.loads, query).value == PlannerAgent.ErrorPlan("")
    ensures ProcessQuery(env, query).value ==
      Failure(query, Some(PlannerAgent.ErrorPlan("")), Str("Invalid plan - tool missing"))
  {
    RespondToEmptyError(env, query, PlannerAgent.Plan(env.provider, env.loads, query));
  }

  lemma RespondToEmptyError(env: Env, query: string, planned: Traced<Value>)
    requires planned.value == PlannerAgent.ErrorPlan("")
    ensures Respond(env, query, planned).value ==
      Failure(query, Some(PlannerAgent.ErrorPlan("")), Str("Invalid plan - tool missing"))
  {
    NoToolInErrorPlan(env, "");
    assert !Truthy(PlanError(planned.value));
  }

  lemma NoToolInErrorPlan(env: Env, msg: string)
    ensures ExecutorAgent.Execute(PlannerAgent.ErrorPlan(msg), env.db, env.repr) ==
      Traced(Ok(ExecutorAgent.Failure("Invalid plan - tool missing")), [])
  {
    var plan := PlannerAgent.ErrorPlan(msg);
    assert Get(plan.entries[1..], "tool") == None;
    assert !HasKey(plan.entries, "tool");
  }

  /** An executor rejection is reported with the plan, and the reasoner is not asked. */
  lemma ExecutorErrorKeepsPlan(env: Env, query: string)
    requires var plan := PlannerAgent.Plan(env.provider, env.loads, query).value;
      !Truthy(PlanError(plan)) && ExecutorAgent.Execute(plan, env.db, env.repr).value.Ok? &&
      ExecutorAgent.Execute(plan, env.db, env.repr).value.value.Failure?
    ensures var plan := PlannerAgent.Plan(env.provider, env.loads, query).value;
      var executed := ExecutorAgent.Execute(plan, env.db, env.repr);
      var r := ProcessQuery(env, query);
      r.value == Failure(query, Some(plan), Str(executed.value.value.error)) &&
      r.events == [LlmCall(PlannerAgent.BuildPrompt(query))] + executed.events
  {
  }

  /**
   * Whole-request call log: the planner's model call comes first, then at
   * most one tool call, to a tool of the sandbox, and only after a tool has
   * run may the reasoner's model call follow.
   */
  lemma StagesInOrder(env: Env, query: string)
    ensures var r := ProcessQuery(env, query);
      |r.events| >= 1 && r.events[0] == LlmCall(PlannerAgent.BuildPrompt(query)) &&
      |ToolCalls(r.events)| <= 1 && OnlyTools(r.events, McpTools.Tools.Keys) &&
      (|r.events| > 1 ==> r.events[1].ToolCall?) &&
      (r.value.Success? ==> |ToolCalls(r.events)| == 1)
  {
    RespondStages(env, query, PlannerAgent.Plan(env.provider, env.loads, query));
  }

  /** Whatever the plan, the log is the planner's call, at most one sandbox tool call, then model calls only after a tool call. */
  lemma RespondStages(env: Env, query: string, planned: Traced<Value>)
    requires planned.value.Dict? && |planned.events| == 1 && planned.events[0].LlmCall?
    ensures var r := Respond(env, query, planned);
      |r.events| >= 1 && r.events[0] == planned.events[0] &&
      |ToolCalls(r.events)| <= 1 && OnlyTools(r.events, McpTools.Tools.Keys) &&
      (|r.events| > 1 ==> r.events[1].ToolCall?) &&
      (r.value.Success? ==> |ToolCalls(r.events)| == 1)
  {
    var r := Respond(env, query, planned);
    var head := planned.events[0];
    assert planned.events == [head];
    if Truthy(PlanError(planned.value)) {
      assert r.events == [head] + [] + [];
      StagedLog(head, [], [], McpTools.Tools.Keys);
    } else {
      var executed := ExecutorAgent.Execute(planned.value, env.db, env.repr);
      ExecutorAgent.AtMostOneRegisteredCall(planned.value, env.db, env.repr);
      if executed.value.Ok? && executed.value.value.Success? {
        var reasoned := ReasonerAgent.Reason(env.provider, env.serialize, env.repr, query, List(executed.value.value.data));
        assert r.events == [head] + executed.events + reasoned.events;
        StagedLog(head, executed.events, reasoned.events, McpTools.Tools.Keys);
      } else {
        assert r.events == [head] + executed.events + [];
        StagedLog(head, executed.events, [], McpTools.Tools.Keys);
      }
    }
  }

  /**
   * A successful response carries the plan, the executor's rows, their
   * count, and exactly the reasoner's explanation of those rows.
   */
  lemma SuccessFields(env: Env, query: string)
    ensures var r := ProcessQuery(env, query);
      r.value.Success? ==>
        var s := r.value;
        var ex := ExecutorAgent.Execute(PlannerAgent.Plan(env.provider, env.loads, query).value, env.db, env.repr).value;
        ex.Ok? && ex.value.Success? && s.data == ex.value.data && s.rowCount == ex.value.rowCount &&
        s.Status() == "success" && s.plan == PlannerAgent.Plan(env.provider, env.loads, query).value &&
        s.rowCount == |s.data| &&
        ReasonerAgent.Reason(env.provider, env.serialize, env.repr, query, List(s.data)).value == Ok(s.explanation)
  {
  }

  /**
   * The converse of `SuccessFields`: a plan without a truthy `error` that
   * the executor carries out, with rows the serialiser accepts, always gives
   * a success carrying those rows, their count and the reasoner's answer.
   */
  lemma ExecutorSuccessSucceeds(env: Env, query: string)
    requires !Truthy(PlanError(PlannerAgent.Plan(env.provider, env.loads, query).value))
    requires ExecutorAgent.Execute(PlannerAgent.Plan(env.provider, env.loads, query).value, env.db, env.repr).value.Ok?
    requires ExecutorAgent.Execute(PlannerAgent.Plan(env.provider, env.loads, query).value, env.db, env.repr).value.value.Success?
    requires env.serialize(List(ExecutorAgent.Execute(PlannerAgent.Plan(env.provider, env.loads, query).value, env.db, env.repr).value.value.data)).Ok?
    ensures var plan := PlannerAgent.Plan(env.provider, env.loads, query).value;
      var ex := ExecutorAgent.Execute(plan, env.db, env.repr).value.value;
      var reasoned := ReasonerAgent.Reason(env.provider, env.serialize, env.repr, query, List(ex.data)).value;
      reasoned.Ok? && ProcessQuery(env, query).value == Success(query, plan, ex.data, ex.rowCount, reasoned.value)
  {
  }

  /**
   * The executor never raises on a plan from the planner: the only
   * exception it lets escape, hashing an unhashable tool name, cannot
   * happen there.
   */
  lemma ExecutorNeverRaises(env: Env, query: string)
    ensures var plan := PlannerAgent.Plan(env.provider, env.loads, query).value;
      plan.Dict? && ExecutorAgent.Execute(plan, env.db, env.repr).value.Ok?
  {
    PlannerAgent.PlannedToolHashable(env.provider, env.loads, query);
  }

  /**
   * An exception in the sequence (the serialiser rejecting the rows) becomes
   * an error response with its text and without the plan.
   */
  lemma SerializerFailureBecomesError(env: Env, query: string)
    requires var plan := PlannerAgent.Plan(env.provider, env.loads, query).value;
      !Truthy(PlanError(plan)) && ExecutorAgent.Execute(plan, env.db, env.repr).value.Ok? &&
      ExecutorAgent.Execute(plan, env.db, env.repr).value.value.Success? &&
      env.serialize(List(ExecutorAgent.Execute(plan, env.db, env.repr).value.value.data)).Raised?
    ensures var plan := PlannerAgent.Plan(env.provider, env.loads, query).value;
      var rows := ExecutorAgent.Execute(plan, env.db, env.repr).value.value.data;
      ProcessQuery(env, query).value == Failure(query, None, Str(env.serialize(List(rows)).error))
  {
  }
}
