/**
 * `AgentOrchestrator` of the `app` package: plan, execute, explain, with
 * an early error response after each of the first two stages. Nothing
 * here catches exceptions; `Raised` is one escaping to the caller.
 */
module AppOrchestrator {
  import opened Py
  import opened Trace
  import AppTools
  import AppLlmProvider
  import AppPlannerAgent
  import AppExecutorAgent
  import AppReasonerAgent

  /**
   * The collaborators the agents are built with: the shared provider,
   * `json.loads`, `json.dumps(indent=2, default=str)`, `repr` of
   * containers, and the database.
   */
  datatype Env = Env(
    provider: AppLlmProvider.Provider,
    loads: string -> Result<Value>,
    dumps: Value -> string,
    repr: Value -> string,
    db: AppTools.Db)

  /** The response dict: `status` is `success` or `error`, and an error carries neither plan nor data. */
  datatype Response =
    | Success(query: string, plan: Value, data: Value, rowCount: nat, explanation: string)
    | Failure(query: string, error: Value)
  {
    function Status(): string
    {
      if Success? then "success" else "error"
    }
  }

  /** `row_count`: the length of a list, and 1 for anything else. */
  function RowCount(data: Value): nat
  {
    if data.List? then |data.items| else 1
  }

  /** `process_query(user_query)`: plan, then respond to the plan. */
  function ProcessQuery(env: Env, query: string): (r: Traced<Result<Response>>)
    ensures r.value.Ok? ==> r.value.value.query == query
  {
    Respond(env, query, AppPlannerAgent.Plan(env.provider, env.loads, query))
  }

  /**
   * The rest of `process_query` once the planner has answered: stop with
   * the plan's `error`, or execute it, stop with the executor's error, or
   * explain the data.
   */
  function Respond(env: Env, query: string, planned: Traced<Value>): (r: Traced<Result<Response>>)
    requires planned.value.Dict?
    ensures r.value.Ok? ==> r.value.value.query == query
  {
    var plan := planned.value;
    if HasKey(plan.entries, "error") then
      Traced(Ok(Failure(query, Get(plan.entries, "error").value)), planned.events)
    else
      var executed := AppExecutorAgent.Execute(plan, env.db, env.repr);
      match executed.value
      case Raised(e) => Traced(Raised(e), planned.events + executed.events)
      case Ok(Failure(message)) => Traced(Ok(Failure(query, Str(message))), planned.events + executed.events)
      case Ok(Success(_, data)) =>
        var explained := AppReasonerAgent.Explain(env.provider, env.dumps, env.repr, query, data);
        Traced(Ok(Success(query, plan, data, RowCount(data), explained.value)),
          planned.events + executed.events + explained.events)
  }

  /** Whatever the plan, the log is the planner's call, at most one registered tool call, then model calls only after a tool call. */
  lemma RespondStages(env: Env, query: string, planned: Traced<Value>)
    requires planned.value.Dict? && |planned.events| == 1 && planned.events[0].LlmCall?
    ensures var r := Respond(env, query, planned);
      |r.events| >= 1 && r.events[0] == planned.events[0] &&
      |ToolCalls(r.events)| <= 1 && OnlyTools(r.events, AppTools.Tools.Keys) &&
      (|r.events| > 1 ==> r.events[1].ToolCall?) &&
      (r.value.Ok? && r.value.value.Success? ==> |ToolCalls(r.events)| == 1)
  {
    var r := Respond(env, query, planned);
    var head := planned.events[0];
    assert planned.events == [head];
    if HasKey(planned.value.entries, "error") {
      assert r.events == [head] + [] + [];
      StagedLog(head, [], [], AppTools.Tools.Keys);
    } else {
      var executed := AppExecutorAgent.Execute(planned.value, env.db, env.repr);
      AppExecutorAgent.AtMostOneRegisteredCall(planned.value, env.db, env.repr);
      if executed.value.Ok? && executed.value.value.Success? {
        var explained := AppReasonerAgent.Explain(env.provider, env.dumps, env.repr, query, executed.value.value.data);
        assert r.events == [head] + executed.events + explained.events;
        StagedLog(head, executed.events, explained.events, AppTools.Tools.Keys);
      } else {
        assert r.events == [head] + executed.events + [];
        StagedLog(head, executed.events, [], AppTools.Tools.Keys);
      }
    }
  }

  /** A plan the planner returns without an `error` key names a registered tool. */
  lemma PlanWithoutErrorIsRegistered(env: Env, query: string)
    ensures var plan := AppPlannerAgent.Plan(env.provider, env.loads, query).value;
      plan.Dict? && (!HasKey(plan.entries, "error") ==> AppExecutorAgent.Registered(plan) && Truthy(AppExecutorAgent.ToolName(plan)))
  {
    var plan := AppPlannerAgent.Plan(env.provider, env.loads, query).value;
    AppPlannerAgent.FallbackErrorSaysError();
    if !HasKey(plan.entries, "error") {
      assert AppPlannerAgent.NamesSchemaTool(plan);
      AppPlannerAgent.SchemaToolIsRegistered(plan);
    }
  }

  /**
   * The executor's answer to a plan from the planner: it runs the tool or
   * reports missing parameters or a failed call, but never raises, never
   * finds the tool missing and never rejects it as not allowed.
   */
  lemma ExecutorAcceptsPlannedTool(env: Env, query: string)
    requires !HasKey(AppPlannerAgent.Plan(env.provider, env.loads, query).value.entries, "error")
    ensures var plan := AppPlannerAgent.Plan(env.provider, env.loads, query).value;
      plan.Dict? &&
      var r := AppExecutorAgent.Execute(plan, env.db, env.repr).value;
      r.Ok? && (r.value.Failure? ==>
        r.value.error == "Missing parameters" || (|r.value.error| >= 17 && r.value.error[..17] == "Execution error: "))
  {
    PlanWithoutErrorIsRegistered(env, query);
    var plan := AppPlannerAgent.Plan(env.provider, env.loads, query).value;
    AppExecutorAgent.RegisteredNeverRaises(plan, env.db, env.repr);
  }

  /** The pipeline never raises: the planner's validation rules out every exception the executor could throw. */
  lemma NeverRaises(env: Env, query: string)
    ensures ProcessQuery(env, query).value.Ok?
  {
    var plan := AppPlannerAgent.Plan(env.provider, env.loads, query).value;
    if !HasKey(plan.entries, "error") {
      ExecutorAcceptsPlannedTool(env, query);
    }
  }

  /** A planning error ends the request after the one model call, reporting the plan's `error` value: no tool runs. */
  lemma PlanErrorStopsEarly(env: Env, query: string)
    requires HasKey(AppPlannerAgent.Plan(env.provider, env.loads, query).value.entries, "error")
    ensures var plan := AppPlannerAgent.Plan(env.provider, env.loads, query).value;
      var r := ProcessQuery(env, query);
      r.value == Ok(Failure(query, Get(plan.entries, "error").value)) &&
      r.events == [LlmCall(AppPlannerAgent.BuildPrompt(query))] && ToolCalls(r.events) == []
  {
    var r := ProcessQuery(env, query);
    assert ToolCalls(r.events) == ToolCalls([]);
  }

  /**
   * An executor error ends the request with that message as the response's
   * `error`: the log is the planner's call and the executor's events, and
   * the reasoner is never asked.
   */
  lemma ExecutorErrorStops(env: Env, query: string)
    requires !HasKey(AppPlannerAgent.Plan(env.provider, env.loads, query).value.entries, "error")
    requires AppExecutorAgent.Execute(AppPlannerAgent.Plan(env.provider, env.loads, query).value, env.db, env.repr).value.Ok?
    requires AppExecutorAgent.Execute(AppPlannerAgent.Plan(env.provider, env.loads, query).value, env.db, env.repr).value.value.Failure?
    ensures var executed := AppExecutorAgent.Execute(AppPlannerAgent.Plan(env.provider, env.loads, query).value, env.db, env.repr);
      var r := ProcessQuery(env, query);
      r.value == Ok(Failure(query, Str(executed.value.value.error))) &&
      r.events == [LlmCall(AppPlannerAgent.BuildPrompt(query))] + executed.events &&
      |ToolCalls(r.events)| <= 1
  {
    var executed := AppExecutorAgent.Execute(AppPlannerAgent.Plan(env.provider, env.loads, query).value, env.db, env.repr);
    AppExecutorAgent.AtMostOneRegisteredCall(AppPlannerAgent.Plan(env.provider, env.loads, query).value, env.db, env.repr);
    ToolCallsConcat([LlmCall(AppPlannerAgent.BuildPrompt(query))], executed.events);
  }

  /**
   * Whole-request call log: the planner's model call comes first, then at
   * most one tool call, to a registered tool, and only after a tool has run
   * may the reasoner's model call follow.
   */
  lemma StagesInOrder(env: Env, query: string)
    ensures var r := ProcessQuery(env, query);
      |r.events| >= 1 && r.events[0] == LlmCall(AppPlannerAgent.BuildPrompt(query)) &&
      |ToolCalls(r.events)| <= 1 && OnlyTools(r.events, AppTools.Tools.Keys) &&
      (|r.events| > 1 ==> r.events[1].ToolCall?) &&
      (r.value.Ok? && r.value.value.Success? ==> |ToolCalls(r.events)| == 1)
  {
    var planned := AppPlannerAgent.Plan(env.provider, env.loads, query);
    PlanWithoutErrorIsRegistered(env, query);
    RespondStages(env, query, planned);
  }

  /**
   * A successful response reports the plan, the executor's data, the list's
   * length as its row count (1 for a non-list), and the explanation the
   * reasoner gave.
   */
  lemma SuccessFields(env: Env, query: string)
    ensures var r := ProcessQuery(env, query);
      r.value.Ok? && r.value.value.Success? ==>
        var s := r.value.value;
        var ex := AppExecutorAgent.Execute(AppPlannerAgent.Plan(env.provider, env.loads, query).value, env.db, env.repr).value;
        ex.Ok? && ex.value.Success? && s.data == ex.value.data &&
        s.Status() == "success" && s.plan == AppPlannerAgent.Plan(env.provider, env.loads, query).value &&
        s.rowCount == (if s.data.List? then |s.data.items| else 1) &&
        s.explanation == AppReasonerAgent.Explain(env.provider, env.dumps, env.repr, query, s.data).value
  {
  }

  /**
   * The converse of `SuccessFields`: a plan without an `error` key that the
   * executor carries out always gives a success, with the executor's data
   * and the reasoner's explanation of it.
   */
  lemma ExecutorSuccessSucceeds(env: Env, query: string)
    requires !HasKey(AppPlannerAgent.Plan(env.provider, env.loads, query).value.entries, "error")
    requires AppExecutorAgent.Execute(AppPlannerAgent.Plan(env.provider, env.loads, query).value, env.db, env.repr).value.Ok?
    requires AppExecutorAgent.Execute(AppPlannerAgent.Plan(env.provider, env.loads, query).value, env.db, env.repr).value.value.Success?
    ensures var plan := AppPlannerAgent.Plan(env.provider, env.loads, query).value;
      var data := AppExecutorAgent.Execute(plan, env.db, env.repr).value.value.data;
      ProcessQuery(env, query).value ==
        Ok(Success(query, plan, data, RowCount(data), AppReasonerAgent.Explain(env.provider, env.dumps, env.repr, query, data).value))
  {
  }
}
