/**
 * `PlannerAgent` of the `app` package: asks the language model to pick a
 * tool, accepts the answer only when it names a tool of the schema, and
 * otherwise falls back to keyword rules.
 */
module AppPlannerAgent {
  import opened Wrappers
  import opened Py
  import opened Text
  import opened Trace
  import JsonText
  import AppTools
  import AppLlmProvider

  /** One entry of `tools_schema`: its description and argument names. */
  datatype ToolSpec = ToolSpec(desc: string, args: seq<string>)

  /** `tools_schema`, in its insertion order. */
  const ToolsSchema: seq<(string, ToolSpec)> := [
    ("get_employees_by_department", ToolSpec("Find employees in a dept (AI, Backend, Frontend, DevOps)", ["department"])),
    ("get_projects_by_status", ToolSpec("Find projects by status (Completed, In Progress, Planning)", ["status"])),
    ("get_issues_by_priority", ToolSpec("Find issues by priority (Critical, High, Medium, Low)", ["priority"])),
    ("run_sql_query", ToolSpec("Execute a raw SQL SELECT query for complex data retrieval. Use this when no other tool fits.", ["query"]))
  ]

  function SchemaNames(): set<string>
  {
    set k | 0 <= k < |ToolsSchema| :: ToolsSchema[k].0
  }

  /** The schema as the dict the prompt serialises. */
  function SchemaValue(): Value
  {
    Dict(seq(|ToolsSchema|, k requires 0 <= k < |ToolsSchema| =>
      (ToolsSchema[k].0, Dict([
        ("desc", Str(ToolsSchema[k].1.desc)),
        ("args", List(seq(|ToolsSchema[k].1.args|, a requires 0 <= a < |ToolsSchema[k].1.args| => Str(ToolsSchema[k].1.args[a]))))]))))
  }

  /** The planner advertises exactly the tools the executor's registry holds, each with one argument. */
  lemma SchemaMatchesRegistry()
    ensures SchemaNames() == AppTools.Tools.Keys
    ensures forall k :: 0 <= k < |ToolsSchema| ==> |ToolsSchema[k].1.args| == 1
  {
    AppTools.RegistryNamesWrappers();
    assert ToolsSchema[0].0 in SchemaNames();
    assert ToolsSchema[1].0 in SchemaNames();
    assert ToolsSchema[2].0 in SchemaNames();
    assert ToolsSchema[3].0 in SchemaNames();
  }

  const DbSchema: string :=
    "\n        Database Schema:\n" +
    "        - employees(id, name, email, department, salary, hire_date, is_active)\n" +
    "        - projects(id, name, description, status, start_date, end_date, budget, lead_id)\n" +
    "        - issues(id, title, description, priority, status, assigned_to, project_id, created_date, due_date)\n" +
    "        "

  const PromptHead: string :=
    "You are a smart routing agent. Your goal is to pick the best tool to answer the user's question.\n" +
    "If the question is simple, use a specific tool (e.g. get_employees_by_department).\n" +
    "If the question is complex or about fields like 'salary' or 'budget' that are not covered by specific tools, use 'run_sql_query' and generate a valid SQL SELECT statement.\n\n" +
    "Available Tools:\n"

  const PromptTail: string :=
    "\n\n" +
    "Constraints:\n" +
    "- For 'run_sql_query', the 'query' parameter MUST be a valid SQL SELECT Statement.\n" +
    "- Do NOT use DROP, DELETE, or INSERT.\n\n" +
    "Return purely JSON in this format:\n" +
    "{\"tool\": \"TOOL_NAME\", \"parameters\": {\"ARG_NAME\": \"VALUE\"}, \"reasoning\": \"...\"}"

  /** `json.dumps(self.tools_schema, indent=2)`. */
  function SchemaText(): string
  {
    JsonText.DumpsIndent(SchemaValue(), 0)
  }

  /** The prompt around a given schema text. */
  function PromptWith(schema: string, query: string): string
  {
    PromptHead + schema + AfterSchema(query)
  }

  function QueryLine(query: string): string
  {
    "User Query: \"" + query + "\""
  }

  function AfterSchema(query: string): string
  {
    "\n\n" + DbSchema + "\n\n" + QueryLine(query) + PromptTail
  }

  /** `_build_prompt(query)`. */
  function BuildPrompt(query: string): string
  {
    PromptWith(SchemaText(), query)
  }

  /** The prompt shows the serialised tool schema and quotes the user's query. */
  lemma PromptShowsToolsAndQuery(schema: string, query: string)
    ensures Contains(PromptWith(schema, query), schema)
    ensures Contains(PromptWith(schema, query), QueryLine(query))
  {
    var line := QueryLine(query);
    ContainsAt(schema, schema, 0);
    ContainsInfix(PromptHead, schema, AfterSchema(query), schema);
    ContainsAt(line, line, 0);
    ContainsInfix("\n\n" + DbSchema + "\n\n", line, PromptTail, line);
    ContainsRight(PromptHead + schema, AfterSchema(query), line);
  }

  /** The prompt `plan` sends shows the serialised tool schema and quotes the user's query. */
  lemma BuildPromptShows(query: string)
    ensures Contains(BuildPrompt(query), SchemaText()) && Contains(BuildPrompt(query), QueryLine(query))
  {
    PromptShowsToolsAndQuery(SchemaText(), query);
  }

  /**
   * The text `_parse_response` decodes: the span from the first `{` of the
   * reply to its last `}` when there is one, else the whole reply.
   */
  function ExtractJson(text: string): (r: string)
    ensures BraceSpan(text).None? ==> r == text
    ensures BraceSpan(text).Some? ==> r == BraceSpan(text).value
    ensures BraceSpan(text).Some? ==> |r| >= 2 && r[0] == '{' && r[|r| - 1] == '}' && Contains(text, r)
    ensures BraceSpan(text).Some? ==> exists i: nat :: (IsAt(text, r, i) &&
      (forall k :: 0 <= k < i ==> text[k] != '{') &&
      (forall k :: i + |r| <= k < |text| ==> text[k] != '}'))
  {
    match BraceSpan(text)
    case Some(m) =>
      var i :| IsAt(text, m, i);
      ContainsAt(text, m, i);
      m
    case None => text
  }

  /**
   * `_parse_response(text)`, with `json.loads` given as `loads`: what is
   * decoded is the brace span of the reply when there is one, and the
   * whole reply otherwise.
   */
  function ParseResponse(loads: string -> Result<Value>, text: string): (r: Result<Value>)
    ensures BraceSpan(text).Some? ==> r == loads(BraceSpan(text).value)
    ensures BraceSpan(text).None? ==> r == loads(text)
  {
    loads(ExtractJson(text))
  }

  /**
   * The check in `plan`: the decoded reply is a dict whose `tool` is a
   * schema name (any other outcome, including an exception from `.get` or
   * from hashing, sends the planner to its fallback).
   */
  predicate NamesSchemaTool(v: Value)
  {
    v.Dict? && match Get(v.entries, "tool")
      case Some(Str(name)) => name in SchemaNames()
      case _ => false
  }

  // ---------------------------------------------------------------- fallback

  const DepartmentWords: seq<string> := ["backend", "frontend", "devops"]

  /** The department after the loop has looked at the first `n` words: the last hit, capitalised, else AI. */
  function DepartmentAfter(q: string, n: nat): string
    requires n <= |DepartmentWords|
  {
    match LastContained(DepartmentWords[..n], q)
    case Some(k) => Capitalize(DepartmentWords[k])
    case None => "AI"
  }

  function SalarySql(q: string): string
  {
    match FirstNumber(q)
    case Some(n) => "SELECT * FROM employees WHERE salary > " + Remove(n, ',') + " ORDER BY salary DESC"
    case None => "SELECT * FROM employees ORDER BY salary DESC"
  }

  const FallbackError: Value := Dict([("error", Str("Sorry, I couldn't figure out which tool to use."))])

  function Entries(tool: string, param: string, arg: string): seq<(string, Value)>
  {
    [("tool", Str(tool)), ("parameters", Dict([(param, Str(arg))]))]
  }

  /**
   * `_fallback_logic(query)`: always a dict, either the failure dict or a
   * plan that carries the fallback's reasoning.
   */
  function Fallback(query: string): (r: Value)
    ensures r.Dict?
    ensures r == FallbackError || Get(r.entries, "reasoning") == Some(Str("Fallback heuristic used."))
  {
    var q := Lower(query);
    var plan :=
      if Contains(q, "salary") || Contains(q, "budget") then
        (if Contains(q, "salary") then Entries("run_sql_query", "query", SalarySql(q))
         else Entries("run_sql_query", "query", "SELECT * FROM projects ORDER BY budget DESC"))
      else if Contains(q, "department") || Contains(q, "employees") then
        Entries("get_employees_by_department", "department", DepartmentAfter(q, |DepartmentWords|))
      else if Contains(q, "project") then Entries("get_projects_by_status", "status", "In Progress")
      else if Contains(q, "issue") then Entries("get_issues_by_priority", "priority", "High")
      else [];
    if plan == [] then FallbackError
    else Dict(Put(plan, "reasoning", Str("Fallback heuristic used.")))
  }

  /** `plan["parameters"][key] = v`. */
  function SetParameter(plan: seq<(string, Value)>, key: string, v: Value): seq<(string, Value)>
    requires HasKey(plan, "parameters") && Get(plan, "parameters").value.Dict?
  {
    Put(plan, "parameters", Dict(Put(Get(plan, "parameters").value.entries, key, v)))
  }

  /** `_fallback_logic(query)` as written: the plan dict is built up, and the department overwritten in a loop. */
  method FallbackLogic(query: string) returns (result: Value)
    ensures result == Fallback(query)
  {
    var q := Lower(query);
    var plan: seq<(string, Value)> := [];
    if Contains(q, "salary") || Contains(q, "budget") {
      if Contains(q, "salary") {
        var sql: string;
        var m := FirstNumber(q);
        if m.Some? {
          var amount := Remove(m.value, ',');
          sql := "SELECT * FROM employees WHERE salary > " + amount + " ORDER BY salary DESC";
        } else {
          sql := "SELECT * FROM employees ORDER BY salary DESC";
        }
        plan := Entries("run_sql_query", "query", sql);
      } else if Contains(q, "budget") {
        plan := Entries("run_sql_query", "query", "SELECT * FROM projects ORDER BY budget DESC");
      }
    } else if Contains(q, "department") || Contains(q, "employees") {
      plan := DepartmentPlan(q);
    } else if Contains(q, "project") {
      plan := Entries("get_projects_by_status", "status", "In Progress");
    } else if Contains(q, "issue") {
      plan := Entries("get_issues_by_priority", "priority", "High");
    }
    if plan == [] {
      return FallbackError;
    }
    plan := Put(plan, "reasoning", Str("Fallback heuristic used."));
    result := Dict(plan);
  }

  lemma SetParameterOfEntries(tool: string, param: string, old_arg: string, arg: string)
    ensures SetParameter(Entries(tool, param, old_arg), param, Str(arg)) == Entries(tool, param, arg)
  {
    var e := Entries(tool, param, old_arg);
    assert e[0].0 == "tool" && e[1].0 == "parameters";
    assert "tool" != "parameters";
    assert Get(e, "parameters") == Some(Dict([(param, Str(old_arg))]));
    var inner := Put([(param, Str(old_arg))], param, Str(arg));
    assert inner == [(param, Str(arg))];
    assert e[1..] == [("parameters", Dict([(param, Str(old_arg))]))];
    assert Put(e[1..], "parameters", Dict(inner)) == [("parameters", Dict(inner))];
    assert Put(e, "parameters", Dict(inner)) == [e[0]] + Put(e[1..], "parameters", Dict(inner));
  }

  /** The department branch: start from AI and let every department word present overwrite it. */
  method DepartmentPlan(q: string) returns (plan: seq<(string, Value)>)
    ensures plan == Entries("get_employees_by_department", "department", DepartmentAfter(q, |DepartmentWords|))
  {
    plan := Entries("get_employees_by_department", "department", "AI");
    for i := 0 to |DepartmentWords|
      invariant plan == Entries("get_employees_by_department", "department", DepartmentAfter(q, i))
    {
      var d := DepartmentWords[i];
      assert DepartmentWords[..i + 1][..i] == DepartmentWords[..i];
      assert DepartmentWords[..i + 1][i] == d;
      if Contains(q, d) {
        assert DepartmentAfter(q, i + 1) == Capitalize(d);
        SetParameterOfEntries("get_employees_by_department", "department", DepartmentAfter(q, i), Capitalize(d));
        plan := SetParameter(plan, "department", Str(Capitalize(d)));
      } else {
        assert DepartmentAfter(q, i + 1) == DepartmentAfter(q, i);
      }
    }
  }

  /**
   * The fallback either admits it found nothing, or returns a plan with a
   * schema tool, exactly one parameter and the fallback reasoning.
   */
  lemma FallbackShape(query: string)
    ensures var f := Fallback(query);
      f == FallbackError ||
      (f.Dict? && |f.entries| == 3 &&
       f.entries[0].0 == "tool" && f.entries[0].1.Str? && f.entries[0].1.s in SchemaNames() &&
       f.entries[1].0 == "parameters" && f.entries[1].1.Dict? && |f.entries[1].1.entries| == 1 &&
       f.entries[2] == ("reasoning", Str("Fallback heuristic used.")))
  {
    var q := Lower(query);
    SchemaToolNames();
    var tool, param, arg;
    if Contains(q, "salary") {
      tool, param, arg := "run_sql_query", "query", SalarySql(q);
    } else if Contains(q, "budget") {
      tool, param, arg := "run_sql_query", "query", "SELECT * FROM projects ORDER BY budget DESC";
    } else if Contains(q, "department") || Contains(q, "employees") {
      tool, param, arg := "get_employees_by_department", "department", DepartmentAfter(q, |DepartmentWords|);
    } else if Contains(q, "project") {
      tool, param, arg := "get_projects_by_status", "status", "In Progress";
    } else if Contains(q, "issue") {
      tool, param, arg := "get_issues_by_priority", "priority", "High";
    } else {
      assert Fallback(query) == FallbackError;
      return;
    }
    assert Fallback(query) == Dict(Put(Entries(tool, param, arg), "reasoning", Str("Fallback heuristic used.")));
    ReasonedEntries(tool, param, arg);
  }

  /** The fallback's answer passes the planner's own check, unless it is the error dict. */
  lemma FallbackNamesSchemaTool(query: string)
    ensures NamesSchemaTool(Fallback(query)) || Fallback(query) == FallbackError
  {
    FallbackShape(query);
    var f := Fallback(query);
    if f != FallbackError {
      assert Get(f.entries, "tool") == Some(f.entries[0].1);
    }
  }

  lemma SchemaToolNames()
    ensures "get_employees_by_department" in SchemaNames() && "get_projects_by_status" in SchemaNames()
    ensures "get_issues_by_priority" in SchemaNames() && "run_sql_query" in SchemaNames()
  {
    assert ToolsSchema[0].0 in SchemaNames();
    assert ToolsSchema[1].0 in SchemaNames();
    assert ToolsSchema[2].0 in SchemaNames();
    assert ToolsSchema[3].0 in SchemaNames();
  }

  /** Adding the reasoning to a one-parameter plan appends it as the third entry. */
  lemma ReasonedEntries(tool: string, param: string, arg: string)
    ensures Put(Entries(tool, param, arg), "reasoning", Str("Fallback heuristic used.")) ==
      Entries(tool, param, arg) + [("reasoning", Str("Fallback heuristic used."))]
  {
    var e := Entries(tool, param, arg);
    assert e[0].0 == "tool" && e[1].0 == "parameters";
    assert !HasKey(e, "reasoning") by {
      assert Get(e[2..], "reasoning") == None;
      assert Get(e[1..], "reasoning") == Get(e[2..], "reasoning");
    }
  }

  /**
   * The rules are tried in the order salary, budget, department/employees,
   * project, issue on the lowered query, and the fallback reports failure
   * exactly when none of these words occurs.
   */
  lemma FallbackOrder(query: string)
    ensures var q := Lower(query); var f := Fallback(query);
      (f == FallbackError <==>
        !Contains(q, "salary") && !Contains(q, "budget") && !Contains(q, "department") &&
        !Contains(q, "employees") && !Contains(q, "project") && !Contains(q, "issue")) &&
      (Contains(q, "salary") ==> f.entries[0].1 == Str("run_sql_query") && f.entries[1].1 == Dict([("query", Str(SalarySql(q)))])) &&
      (!Contains(q, "salary") && Contains(q, "budget") ==>
        f.entries[0].1 == Str("run_sql_query") &&
        f.entries[1].1 == Dict([("query", Str("SELECT * FROM projects ORDER BY budget DESC"))])) &&
      (!Contains(q, "salary") && !Contains(q, "budget") && (Contains(q, "department") || Contains(q, "employees")) ==>
        f.entries[0].1 == Str("get_employees_by_department") &&
        f.entries[1].1 == Dict([("department", Str(DepartmentAfter(q, |DepartmentWords|)))])) &&
      ((!Contains(q, "salary") && !Contains(q, "budget") && !Contains(q, "department") && !Contains(q, "employees") &&
        Contains(q, "project")) ==>
        f.entries[0].1 == Str("get_projects_by_status") && f.entries[1].1 == Dict([("status", Str("In Progress"))])) &&
      ((!Contains(q, "salary") && !Contains(q, "budget") && !Contains(q, "department") && !Contains(q, "employees") &&
        !Contains(q, "project") && Contains(q, "issue")) ==>
        f.entries[0].1 == Str("get_issues_by_priority") && f.entries[1].1 == Dict([("priority", Str("High"))]))
  {
    var q := Lower(query);
    if Contains(q, "salary") {
      PlanEntries("run_sql_query", "query", SalarySql(q));
    } else if Contains(q, "budget") {
      PlanEntries("run_sql_query", "query", "SELECT * FROM projects ORDER BY budget DESC");
    } else if Contains(q, "department") || Contains(q, "employees") {
      PlanEntries("get_employees_by_department", "department", DepartmentAfter(q, |DepartmentWords|));
    } else if Contains(q, "project") {
      PlanEntries("get_projects_by_status", "status", "In Progress");
    } else if Contains(q, "issue") {
      PlanEntries("get_issues_by_priority", "priority", "High");
    }
  }

  /** A fallback plan holds the tool first and its one parameter second, and is not the failure dict. */
  lemma PlanEntries(tool: string, param: string, arg: string)
    ensures var f := Dict(Put(Entries(tool, param, arg), "reasoning", Str("Fallback heuristic used.")));
      f != FallbackError && f.entries[0].1 == Str(tool) && f.entries[1].1 == Dict([(param, Str(arg))])
  {
    ReasonedEntries(tool, param, arg);
  }

  /**
   * The department is AI unless one of backend, frontend, devops occurs;
   * then it is the last of them present, capitalised (so `Devops`).
   */
  lemma FallbackDepartment(q: string)
    ensures var d := DepartmentAfter(q, |DepartmentWords|);
      (Contains(q, "devops") ==> d == "Devops") &&
      (!Contains(q, "devops") && Contains(q, "frontend") ==> d == "Frontend") &&
      (!Contains(q, "devops") && !Contains(q, "frontend") && Contains(q, "backend") ==> d == "Backend") &&
      (!Contains(q, "devops") && !Contains(q, "frontend") && !Contains(q, "backend") ==> d == "AI")
  {
    var words := DepartmentWords;
    assert words[..|words|] == words;
    DepartmentCapitals();
    if LastContained(words, q).None? {
      assert !Contains(q, words[0]);
    }
  }

  lemma DepartmentCapitals()
    ensures DepartmentWords[0] == "backend" && Capitalize(DepartmentWords[0]) == "Backend"
    ensures DepartmentWords[1] == "frontend" && Capitalize(DepartmentWords[1]) == "Frontend"
    ensures DepartmentWords[2] == "devops" && Capitalize(DepartmentWords[2]) == "Devops"
  {
    CapitalizedAs("backend", "Backend");
    CapitalizedAs("frontend", "Frontend");
    CapitalizedAs("devops", "Devops");
  }

  /**
   * A salary threshold taken from the query is the first number in it with
   * its commas removed, a non-empty run of digits; without a number the
   * SQL has no threshold.
   */
  lemma FallbackSalaryAmount(q: string)
    ensures FirstNumber(q).None? ==> SalarySql(q) == "SELECT * FROM employees ORDER BY salary DESC"
    ensures FirstNumber(q).Some? ==> var amount := Remove(FirstNumber(q).value, ',');
      SalarySql(q) == "SELECT * FROM employees WHERE salary > " + amount + " ORDER BY salary DESC" &&
      |amount| > 0 && forall k :: 0 <= k < |amount| ==> IsDigit(amount[k])
  {
    if FirstNumber(q).Some? {
      NumberWithoutCommas(q);
    }
  }

  // ---------------------------------------------------------------- plan

  /** A plan that passes the check names a registered tool by a non-empty string. */
  lemma SchemaToolIsRegistered(v: Value)
    requires NamesSchemaTool(v)
    ensures Get(v.entries, "tool").Some? && Get(v.entries, "tool").value.Str?
    ensures Get(v.entries, "tool").value.s in AppTools.Tools && Get(v.entries, "tool").value.s != ""
  {
    SchemaMatchesRegistry();
  }

  lemma FallbackErrorSaysError()
    ensures FallbackError.Dict? && HasKey(FallbackError.entries, "error")
  {
  }

  /** `plan(query)`: one model call; its answer is kept only when it names a schema tool. */
  function Plan(p: AppLlmProvider.Provider, loads: string -> Result<Value>, query: string): (r: Traced<Value>)
    ensures r.events == [LlmCall(BuildPrompt(query))]
    ensures NamesSchemaTool(r.value) || r.value == FallbackError
    ensures AppLlmProvider.Generate(p, BuildPrompt(query)).Raised? ==> r.value == Fallback(query)
    ensures AppLlmProvider.Generate(p, BuildPrompt(query)).Ok? ==>
      var parsed := ParseResponse(loads, AppLlmProvider.Generate(p, BuildPrompt(query)).value);
      r.value == if parsed.Ok? && NamesSchemaTool(parsed.value) then parsed.value else Fallback(query)
  {
    FallbackNamesSchemaTool(query);
    var prompt := BuildPrompt(query);
    var plan :=
      match AppLlmProvider.Generate(p, prompt)
      case Raised(_) => Fallback(query)
      case Ok(raw) =>
        match ParseResponse(loads, raw)
        case Raised(_) => Fallback(query)
        case Ok(v) => if NamesSchemaTool(v) then v else Fallback(query);
    Traced(plan, [LlmCall(prompt)])
  }
}
