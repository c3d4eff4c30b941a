/**
 * `PlannerAgent` of the legacy package: shows the model the tool menu,
 * takes the first-`{`-to-last-`}` span of its reply as the plan, falls
 * back to keyword rules only when the reply has no such span, and repairs
 * an unknown tool name by keywords.
 */
module PlannerAgent {
  import opened Wrappers
  import opened Py
  import opened Text
  import opened Trace
  import JsonText
  import McpTools
  import LlmProvider

  /** One entry of `_get_tool_definitions()`. */
  datatype ToolDefinition = ToolDefinition(description: string, parameters: seq<string>)

  /** `_get_tool_definitions()`, in its insertion order. */
  const AvailableTools: seq<(string, ToolDefinition)> := [
    ("get_employees_by_department", ToolDefinition(
      "Fetch employees from a specific department (e.g., AI, Backend, Frontend, DevOps, Data Science)", ["department"])),
    ("get_projects_by_status", ToolDefinition(
      "Fetch projects with a specific status (e.g., Completed, In Progress, On Hold)", ["status"])),
    ("get_issues_by_priority", ToolDefinition(
      "Fetch issues with a specific priority level (e.g., High, Medium, Low)", ["priority"]))
  ]

  function ToolNames(): set<string>
  {
    set k | 0 <= k < |AvailableTools| :: AvailableTools[k].0
  }

  /** The definitions as the dict the prompt serialises. */
  function DefinitionsValue(): Value
  {
    Dict(seq(|AvailableTools|, k requires 0 <= k < |AvailableTools| =>
      (AvailableTools[k].0, Dict([
        ("description", Str(AvailableTools[k].1.description)),
        ("parameters", List(seq(|AvailableTools[k].1.parameters|,
          a requires 0 <= a < |AvailableTools[k].1.parameters| => Str(AvailableTools[k].1.parameters[a]))))]))))
  }

  /**
   * The menu offers exactly the tools of the sandbox registry, and each
   * takes the one argument the executor passes.
   */
  lemma DefinitionsMatchRegistry()
    ensures ToolNames() == McpTools.Tools.Keys
    ensures forall k :: 0 <= k < |AvailableTools| ==> |AvailableTools[k].1.parameters| == 1
  {
    McpTools.RegistryNamesWrappers();
    assert AvailableTools[0].0 in ToolNames();
    assert AvailableTools[1].0 in ToolNames();
    assert AvailableTools[2].0 in ToolNames();
  }

  // ---------------------------------------------------------------- prompt

  const PromptHead: string := "You are a query planner.\nAvailable tools:\n"

  const TaskText: string :=
    "Task: Select the tool that best matches the query. Extract the parameter.\n\n" +
    "Respond only with this JSON format:\n" +
    "{\n  \"tool\": \"EXACT_TOOL_NAME\",\n  \"parameters\": { \"param\": \"value\" },\n  \"reasoning\": \"reason\"\n}\n"

  /** `json.dumps(self.available_tools, indent=2)`. */
  function ToolsText(): string
  {
    JsonText.DumpsIndent(DefinitionsValue(), 0)
  }

  function QueryLine(query: string): string
  {
    "Query: \"" + query + "\""
  }

  /** The prompt around a given menu text. */
  function PromptWith(tools: string, query: string): string
  {
    PromptHead + tools + AfterTools(query, TaskText)
  }

  function AfterTools(query: string, task: string): string
  {
    "\n\n" + QueryLine(query) + "\n\n" + task
  }

  /** The prompt `plan` builds: it shows the serialised menu and quotes the query on a line of its own. */
  function BuildPrompt(query: string): (r: string)
    ensures Contains(r, ToolsText()) && Contains(r, "\n" + QueryLine(query) + "\n")
  {
    PromptShowsToolsAndQuery(ToolsText(), query);
    PromptWith(ToolsText(), query)
  }

  /** The prompt shows the menu and quotes the query on a line of its own. */
  lemma PromptShowsToolsAndQuery(tools: string, query: string)
    ensures Contains(PromptWith(tools, query), tools)
    ensures Contains(PromptWith(tools, query), "\n" + QueryLine(query) + "\n")
  {
    ContainsAt(tools, tools, 0);
    ContainsInfix(PromptHead, tools, AfterTools(query, TaskText), tools);
    QueryOnItsOwnLine(query, TaskText);
    ContainsRight(PromptHead + tools, AfterTools(query, TaskText), "\n" + QueryLine(query) + "\n");
  }

  lemma QueryOnItsOwnLine(query: string, task: string)
    ensures Contains(AfterTools(query, task), "\n" + QueryLine(query) + "\n")
  {
    var line := "\n" + QueryLine(query) + "\n";
    assert AfterTools(query, task) == "\n" + line + ("\n" + task);
    ContainsAt(line, line, 0);
    ContainsInfix("\n", line, "\n" + task, line);
  }

  // ---------------------------------------------------------------- keyword fallback

  const DepartmentWords: seq<string> := ["ai", "backend", "frontend", "devops", "data science"]
  const StatusWords: seq<string> := ["completed", "in progress", "on hold"]
  const PriorityWords: seq<string> := ["critical", "high", "medium", "low"]

  const FallbackReasoning: string := "Fallback strategy used due to LLM parsing failure"
  const NotUnderstood: Value := Dict([("error", Str("Could not understand query"))])

  function DepartmentLabel(dept: string): string
  {
    if dept == "ai" then Upper(dept) else Capitalize(dept)
  }

  /** The department the loop settles on: the first listed word present, else AI. */
  function Department(q: string): string
  {
    match FirstContained(DepartmentWords, q)
    case Some(k) => DepartmentLabel(DepartmentWords[k])
    case None => "AI"
  }

  function Status(q: string): string
  {
    match FirstContained(StatusWords, q)
    case Some(k) => Title(StatusWords[k])
    case None => "In Progress"
  }

  function Priority(q: string): string
  {
    match FirstContained(PriorityWords, q)
    case Some(k) => Capitalize(PriorityWords[k])
    case None => "High"
  }

  function Entries(tool: string, param: string, arg: string): seq<(string, Value)>
  {
    [("tool", Str(tool)), ("parameters", Dict([(param, Str(arg))]))]
  }

  /**
   * The keyword fallback, as the plan it returns: a dict, with an `error`
   * key only when it reports that the query was not understood.
   */
  function Fallback(query: string): (r: Value)
    ensures r.Dict?
    ensures HasKey(r.entries, "error") <==> r == NotUnderstood
  {
    var q := Lower(query);
    if Contains(q, "department") then
      Dict(Entries("get_employees_by_department", "department", Department(q)) + [("reasoning", Str(FallbackReasoning))])
    else if Contains(q, "project") then
      Dict(Entries("get_projects_by_status", "status", Status(q)) + [("reasoning", Str(FallbackReasoning))])
    else if Contains(q, "issue") || Contains(q, "priority") then
      Dict(Entries("get_issues_by_priority", "priority", Priority(q)) + [("reasoning", Str(FallbackReasoning))])
    else NotUnderstood
  }

  /** `for w in words: if w in text: ...; break`: the position of the first word present. */
  method FirstPresent(words: seq<string>, text: string) returns (hit: Option<nat>)
    ensures hit == FirstContained(words, text)
  {
    hit := None;
    for i := 0 to |words|
      invariant forall j :: 0 <= j < i ==> !Contains(text, words[j])
    {
      if Contains(text, words[i]) {
        hit := Some(i);
        break;
      }
    }
  }

  lemma PutTwo(tool: Value, params: Value)
    ensures Put([], "tool", tool) == [("tool", tool)]
    ensures Put([("tool", tool)], "parameters", params) == [("tool", tool), ("parameters", params)]
    ensures HasKey([("tool", tool), ("parameters", params)], "parameters")
    ensures !HasKey([("tool", tool)], "parameters")
  {
    assert Get([("tool", tool)], "parameters") == Get([], "parameters");
  }

  lemma PutReasoning(tool: string, param: string, arg: string)
    ensures Put(Entries(tool, param, arg), "reasoning", Str(FallbackReasoning)) ==
      Entries(tool, param, arg) + [("reasoning", Str(FallbackReasoning))]
  {
    var e := Entries(tool, param, arg);
    assert e[1..][1..] == [];
    assert Put(e[1..], "reasoning", Str(FallbackReasoning)) == [e[1]] + Put([], "reasoning", Str(FallbackReasoning));
  }

  /** `plan["tool"] = tool`, then the loop over the department words, then the default. */
  method DepartmentEntries(q: string) returns (plan: seq<(string, Value)>)
    ensures plan == Entries("get_employees_by_department", "department", Department(q))
  {
    PutTwo(Str("get_employees_by_department"), Dict([("department", Str(Department(q)))]));
    plan := Put([], "tool", Str("get_employees_by_department"));
    var hit := FirstPresent(DepartmentWords, q);
    if hit.Some? {
      var dept := DepartmentWords[hit.value];
      plan := Put(plan, "parameters", Dict([("department", Str(if dept == "ai" then Upper(dept) else Capitalize(dept)))]));
    }
    if !HasKey(plan, "parameters") {
      plan := Put(plan, "parameters", Dict([("department", Str("AI"))]));
    }
  }

  /** `plan["tool"] = tool`, then the loop over the status words, then the default. */
  method StatusEntries(q: string) returns (plan: seq<(string, Value)>)
    ensures plan == Entries("get_projects_by_status", "status", Status(q))
  {
    PutTwo(Str("get_projects_by_status"), Dict([("status", Str(Status(q)))]));
    plan := Put([], "tool", Str("get_projects_by_status"));
    var hit := FirstPresent(StatusWords, q);
    if hit.Some? {
      plan := Put(plan, "parameters", Dict([("status", Str(Title(StatusWords[hit.value])))]));
    }
    if !HasKey(plan, "parameters") {
      plan := Put(plan, "parameters", Dict([("status", Str("In Progress"))]));
    }
  }

  /** `plan["tool"] = tool`, then the loop over the priority words, then the default. */
  method PriorityEntries(q: string) returns (plan: seq<(string, Value)>)
    ensures plan == Entries("get_issues_by_priority", "priority", Priority(q))
  {
    PutTwo(Str("get_issues_by_priority"), Dict([("priority", Str(Priority(q)))]));
    plan := Put([], "tool", Str("get_issues_by_priority"));
    var hit := FirstPresent(PriorityWords, q);
    if hit.Some? {
      plan := Put(plan, "parameters", Dict([("priority", Str(Capitalize(PriorityWords[hit.value])))]));
    }
    if !HasKey(plan, "parameters") {
      plan := Put(plan, "parameters", Dict([("priority", Str("High"))]));
    }
  }

  /**
   * The fallback branch of `plan` as written: the plan dict is filled key
   * by key, the value found by a loop that stops at the first hit.
   */
  method KeywordFallback(query: string) returns (result: Value)
    ensures result == Fallback(query)
  {
    var q := Lower(query);
    var plan: seq<(string, Value)> := [];
    if Contains(q, "department") {
      plan := DepartmentEntries(q);
      PutReasoning("get_employees_by_department", "department", Department(q));
    } else if Contains(q, "project") {
      plan := StatusEntries(q);
      PutReasoning("get_projects_by_status", "status", Status(q));
    } else if Contains(q, "issue") || Contains(q, "priority") {
      plan := PriorityEntries(q);
      PutReasoning("get_issues_by_priority", "priority", Priority(q));
    }
    if plan == [] {
      return NotUnderstood;
    }
    plan := Put(plan, "reasoning", Str(FallbackReasoning));
    result := Dict(plan);
  }

  // ---------------------------------------------------------------- plan

  /** `{"error": msg}`. */
  function ErrorPlan(msg: string): Value
  {
    Dict([("error", Str(msg))])
  }

  /**
   * The repair of an unknown tool: only `tool` is overwritten, chosen by
   * keywords in the lowered query, and what is written is a menu tool's name.
   */
  function Corrected(plan: seq<(string, Value)>, query: string): (r: seq<(string, Value)>)
    ensures forall key :: key != "tool" ==> Get(r, key) == Get(plan, key)
    ensures r == plan || (Get(r, "tool").Some? && Get(r, "tool").value.Str? && Get(r, "tool").value.s in ToolNames())
  {
    DefinitionsMatchRegistry();
    var q := Lower(query);
    if Contains(q, "department") then Put(plan, "tool", Str("get_employees_by_department"))
    else if Contains(q, "project") then Put(plan, "tool", Str("get_projects_by_status"))
    else if Contains(q, "issue") then Put(plan, "tool", Str("get_issues_by_priority"))
    else plan
  }

  /**
   * What `plan` does with the decoded reply `v`: the result is a dict whose
   * `tool`, if any, can be hashed, since only a hashable tool passes the
   * check and a repair writes a string.
   */
  function Validated(v: Value, query: string): (r: Value)
    ensures r.Dict?
    ensures Unhashable(GetOr(r.entries, "tool", Null)).None?
  {
    if !v.Dict? then
      var msg := "'" + TypeName(v) + "' object has no attribute 'get'";
      ErrorPlanToolHashable(msg);
      ErrorPlan(msg)
    else match KeyIn(GetOr(v.entries, "tool", Null), ToolNames())
      case Raised(e) => ErrorPlanToolHashable(e); ErrorPlan(e)
      case Ok(known) => if known then v else Dict(Corrected(v.entries, query))
  }

  /** `plan(user_query)`: one model call; every exception becomes `{"error": str(e)}`. */
  function Plan(p: LlmProvider.Provider, loads: string -> Result<Value>, query: string): (r: Traced<Value>)
    ensures r.events == [LlmCall(BuildPrompt(query))]
    ensures r.value.Dict?
    ensures LlmProvider.Generate(p, BuildPrompt(query)).Raised? ==>
      r.value == ErrorPlan(LlmProvider.Generate(p, BuildPrompt(query)).error)
    ensures LlmProvider.Generate(p, BuildPrompt(query)).Ok? ==>
      var reply := LlmProvider.Generate(p, BuildPrompt(query)).value;
      (BraceSpan(reply).None? ==> r.value == Fallback(query)) &&
      (BraceSpan(reply).Some? ==>
        match loads(BraceSpan(reply).value)
        case Raised(e) => r.value == ErrorPlan(e)
        case Ok(v) => r.value == Validated(v, query))
  {
    var prompt := BuildPrompt(query);
    var plan :=
      match LlmProvider.Generate(p, prompt)
      case Raised(e) => ErrorPlan(e)
      case Ok(reply) =>
        match BraceSpan(reply)
        case None => Fallback(query)
        case Some(span) =>
          match loads(span)
          case Raised(e) => ErrorPlan(e)
          case Ok(v) => Validated(v, query);
    Traced(plan, [LlmCall(prompt)])
  }

  // ---------------------------------------------------------------- properties

  /**
   * The fallback either reports that it understood nothing, or returns a
   * menu tool with exactly one parameter, followed by the fallback
   * reasoning.
   */
  lemma FallbackShape(query: string)
    ensures var f := Fallback(query);
      f == NotUnderstood ||
      (f.Dict? && |f.entries| == 3 &&
       f.entries[0].0 == "tool" && f.entries[0].1.Str? && f.entries[0].1.s in ToolNames() &&
       f.entries[1].0 == "parameters" && f.entries[1].1.Dict? && |f.entries[1].1.entries| == 1 &&
       f.entries[2] == ("reasoning", Str(FallbackReasoning)))
  {
    DefinitionsMatchRegistry();
  }

  /**
   * The categories are tried in the order department, project,
   * issue-or-priority on the lowered query, and the fallback reports
   * failure exactly when none of these words occurs.
   */
  lemma FallbackOrder(query: string)
    ensures var q := Lower(query); var f := Fallback(query);
      (f == NotUnderstood <==>
        !Contains(q, "department") && !Contains(q, "project") && !Contains(q, "issue") && !Contains(q, "priority")) &&
      (Contains(q, "department") ==>
        f.entries[0].1 == Str("get_employees_by_department") && f.entries[1].1 == Dict([("department", Str(Department(q)))])) &&
      (!Contains(q, "department") && Contains(q, "project") ==>
        f.entries[0].1 == Str("get_projects_by_status") && f.entries[1].1 == Dict([("status", Str(Status(q)))])) &&
      ((!Contains(q, "department") && !Contains(q, "project") && (Contains(q, "issue") || Contains(q, "priority"))) ==>
        f.entries[0].1 == Str("get_issues_by_priority") && f.entries[1].1 == Dict([("priority", Str(Priority(q)))]))
  {
  }

  /** The first listed department present wins: "ai" becomes AI, the rest are capitalised; AI is the default. */
  lemma FallbackDepartment(q: string)
    ensures var d := Department(q);
      (Contains(q, "ai") ==> d == "AI") &&
      (!Contains(q, "ai") && Contains(q, "backend") ==> d == "Backend") &&
      (!Contains(q, "ai") && !Contains(q, "backend") && Contains(q, "frontend") ==> d == "Frontend") &&
      (!Contains(q, "ai") && !Contains(q, "backend") && !Contains(q, "frontend") && Contains(q, "devops") ==> d == "Devops") &&
      ((!Contains(q, "ai") && !Contains(q, "backend") && !Contains(q, "frontend") && !Contains(q, "devops") &&
        Contains(q, "data science")) ==> d == "Data science") &&
      ((!Contains(q, "ai") && !Contains(q, "backend") && !Contains(q, "frontend") && !Contains(q, "devops") &&
        !Contains(q, "data science")) ==> d == "AI")
  {
    DepartmentLabels();
  }

  lemma DepartmentLabels()
    ensures var w := DepartmentWords;
      |w| == 5 && w[0] == "ai" && w[1] == "backend" && w[2] == "frontend" && w[3] == "devops" && w[4] == "data science"
    ensures DepartmentLabel("ai") == "AI" && DepartmentLabel("backend") == "Backend" &&
      DepartmentLabel("frontend") == "Frontend" && DepartmentLabel("devops") == "Devops" &&
      DepartmentLabel("data science") == "Data science"
  {
    assert Upper("ai") == "AI";
    CapitalLabel("backend", "Backend");
    CapitalLabel("frontend", "Frontend");
    CapitalLabel("devops", "Devops");
    CapitalLabel("data science", "Data science");
  }

  lemma CapitalLabel(w: string, cap: string)
    requires w != "ai" && |w| >= 1 && forall i :: 0 <= i < |w| ==> !('A' <= w[i] <= 'Z')
    requires cap == [UpperChar(w[0])] + w[1..]
    ensures DepartmentLabel(w) == cap
  {
    CapitalizedAs(w, cap);
  }

  /** The first listed status present wins, title-cased; In Progress is the default. */
  lemma FallbackStatus(q: string)
    ensures var s := Status(q);
      (Contains(q, "completed") ==> s == "Completed") &&
      (!Contains(q, "completed") && Contains(q, "in progress") ==> s == "In Progress") &&
      (!Contains(q, "completed") && !Contains(q, "in progress") && Contains(q, "on hold") ==> s == "On Hold") &&
      (!Contains(q, "completed") && !Contains(q, "in progress") && !Contains(q, "on hold") ==> s == "In Progress")
  {
    var w := StatusWords;
    assert w[0] == "completed" && w[1] == "in progress" && w[2] == "on hold";
    TitleCompleted();
    TitleInProgress();
    TitleOnHold();
  }

  lemma TitleCompleted()
    ensures Title("completed") == "Completed"
  {
    var s := "completed";
    var w := s[1..];
    assert forall i :: 0 <= i < |w| ==> 'a' <= w[i] <= 'z';
    assert w + [] == w;
    TitleLowerRun(w, []);
    assert [UpperChar(s[0])] + w == "Completed";
  }

  lemma TitleInProgress()
    ensures Title("in progress") == "In Progress"
  {
    var a, b := "in", "progress";
    assert forall i :: 0 <= i < |a| ==> 'a' <= a[i] <= 'z';
    assert forall i :: 0 <= i < |b| ==> 'a' <= b[i] <= 'z';
    TitleTwoWords(a, b);
    assert a + " " + b == "in progress";
    assert [UpperChar(a[0])] + a[1..] + " " + [UpperChar(b[0])] + b[1..] == "In Progress";
  }

  lemma TitleOnHold()
    ensures Title("on hold") == "On Hold"
  {
    var a, b := "on", "hold";
    assert forall i :: 0 <= i < |a| ==> 'a' <= a[i] <= 'z';
    assert forall i :: 0 <= i < |b| ==> 'a' <= b[i] <= 'z';
    TitleTwoWords(a, b);
    assert a + " " + b == "on hold";
    assert [UpperChar(a[0])] + a[1..] + " " + [UpperChar(b[0])] + b[1..] == "On Hold";
  }

  /** Two lower-case words separated by a space are title-cased word by word. */
  lemma TitleTwoWords(a: string, b: string)
    requires |a| >= 1 && |b| >= 1
    requires forall i :: 0 <= i < |a| ==> 'a' <= a[i] <= 'z'
    requires forall i :: 0 <= i < |b| ==> 'a' <= b[i] <= 'z'
    ensures Title(a + " " + b) == [UpperChar(a[0])] + a[1..] + " " + [UpperChar(b[0])] + b[1..]
  {
    var s := a + " " + b;
    assert s[0] == a[0];
    assert s[1..] == a[1..] + (" " + b);
    TitleLowerRun(a[1..], " " + b);
    assert (" " + b)[1..] == b;
    assert b[1..] + [] == b[1..];
    assert TitleAfter(b, false) == [UpperChar(b[0])] + TitleAfter(b[1..], true);
    TitleLowerRun(b[1..], []);
  }

  /** The first listed priority present wins, capitalised; High is the default. */
  lemma FallbackPriority(q: string)
    ensures var p := Priority(q);
      (Contains(q, "critical") ==> p == "Critical") &&
      (!Contains(q, "critical") && Contains(q, "high") ==> p == "High") &&
      (!Contains(q, "critical") && !Contains(q, "high") && Contains(q, "medium") ==> p == "Medium") &&
      (!Contains(q, "critical") && !Contains(q, "high") && !Contains(q, "medium") && Contains(q, "low") ==> p == "Low") &&
      (!Contains(q, "critical") && !Contains(q, "high") && !Contains(q, "medium") && !Contains(q, "low") ==> p == "High")
  {
    PriorityCapitals();
  }

  lemma PriorityCapitals()
    ensures var w := PriorityWords;
      |w| == 4 && w[0] == "critical" && w[1] == "high" && w[2] == "medium" && w[3] == "low"
    ensures Capitalize("critical") == "Critical" && Capitalize("high") == "High" &&
      Capitalize("medium") == "Medium" && Capitalize("low") == "Low"
  {
    CapitalizedAs("critical", "Critical");
    CapitalizedAs("high", "High");
    CapitalizedAs("medium", "Medium");
    CapitalizedAs("low", "Low");
  }

  /**
   * The repair overwrites only `tool`, by the keywords department,
   * project, issue (not priority) of the lowered query; every other key,
   * an `error` among them, keeps its value, and without a keyword the plan
   * is left as it was.
   */
  lemma CorrectionOnlyTouchesTool(plan: seq<(string, Value)>, query: string)
    ensures var q := Lower(query);
      (Contains(q, "department") ==> Get(Corrected(plan, query), "tool") == Some(Str("get_employees_by_department"))) &&
      (!Contains(q, "department") && Contains(q, "project") ==> Get(Corrected(plan, query), "tool") == Some(Str("get_projects_by_status"))) &&
      (!Contains(q, "department") && !Contains(q, "project") && Contains(q, "issue") ==>
        Get(Corrected(plan, query), "tool") == Some(Str("get_issues_by_priority"))) &&
      (!Contains(q, "department") && !Contains(q, "project") && !Contains(q, "issue") ==> Corrected(plan, query) == plan)
  {
  }

  /**
   * The keyword fallback is reached only through a reply without a brace
   * span: a model exception, or a reply that fails to decode, gives an
   * error plan instead.
   */
  lemma DecodeFailureIsError(p: LlmProvider.Provider, loads: string -> Result<Value>, query: string)
    requires LlmProvider.Generate(p, BuildPrompt(query)).Ok?
    requires BraceSpan(LlmProvider.Generate(p, BuildPrompt(query)).value).Some?
    requires loads(BraceSpan(LlmProvider.Generate(p, BuildPrompt(query)).value).value).Raised?
    ensures HasKey(Plan(p, loads, query).value.entries, "error")
    ensures Get(Plan(p, loads, query).value.entries, "error") ==
      Some(Str(loads(BraceSpan(LlmProvider.Generate(p, BuildPrompt(query)).value).value).error))
  {
  }

  /**
   * A decoded plan naming a menu tool is passed on untouched; one that is
   * not a dict, or whose tool cannot be hashed, becomes an error plan.
   */
  lemma ValidationCases(v: Value, query: string)
    ensures v.Dict? && GetOr(v.entries, "tool", Null).Str? && GetOr(v.entries, "tool", Null).s in ToolNames() ==>
      Validated(v, query) == v
    ensures !v.Dict? ==> Validated(v, query) == ErrorPlan("'" + TypeName(v) + "' object has no attribute 'get'")
    ensures v.Dict? && Unhashable(GetOr(v.entries, "tool", Null)).Some? ==>
      Validated(v, query) == ErrorPlan("unhashable type: '" + Unhashable(GetOr(v.entries, "tool", Null)).value + "'")
    ensures (v.Dict? && Unhashable(GetOr(v.entries, "tool", Null)).None? &&
      !(GetOr(v.entries, "tool", Null).Str? && GetOr(v.entries, "tool", Null).s in ToolNames())) ==>
      Validated(v, query) == Dict(Corrected(v.entries, query))
  {
  }

  /**
   * Whatever the model and the decoder do, the plan's `tool` (if any) can
   * be hashed: an unhashable one was already turned into an error plan.
   */
  lemma PlannedToolHashable(p: LlmProvider.Provider, loads: string -> Result<Value>, query: string)
    ensures var plan := Plan(p, loads, query).value;
      plan.Dict? && Unhashable(GetOr(plan.entries, "tool", Null)).None?
  {
    match LlmProvider.Generate(p, BuildPrompt(query))
    case Raised(e) => ErrorPlanToolHashable(e);
    case Ok(reply) =>
      match BraceSpan(reply)
      case None =>
        FallbackShape(query);
      case Some(span) =>
        match loads(span)
        case Raised(e) => ErrorPlanToolHashable(e);
        case Ok(_) =>
  }

  lemma ErrorPlanToolHashable(msg: string)
    ensures Unhashable(GetOr(ErrorPlan(msg).entries, "tool", Null)).None?
  {
    assert Get(ErrorPlan(msg).entries[1..], "tool") == None;
  }
}
