/**
 * `LLMProvider` of the `app` package: dispatch to the configured backend,
 * and the deterministic mock backend, which plays both the planner (a JSON
 * tool choice) and the reasoner (a one-sentence summary).
 */
module AppLlmProvider {
  import opened Wrappers
  import opened Py
  import opened Text
  import JsonText
  import AppTools

  /**
   * A configured provider: its name and the two live backends, each of
   * which answers a prompt with text or raises (network, HTTP status,
   * missing API key, timeout).
   */
  datatype Provider = Provider(
    name: string,
    ollama: string -> Result<string>,
    openai: string -> Result<string>)

  /** `generate(prompt)`: route the prompt to the backend the provider names. */
  function Generate(p: Provider, prompt: string): (r: Result<string>)
    ensures p.name == "mock" ==> r == Ok(MockResponse(prompt))
    ensures p.name == "ollama" ==> r == p.ollama(prompt)
    ensures p.name == "openai" ==> r == p.openai(prompt)
    ensures p.name !in {"mock", "ollama", "openai"} ==> r == Raised("Unknown LLM provider: " + p.name)
  {
    if p.name == "mock" then Ok(MockResponse(prompt))
    else if p.name == "ollama" then p.ollama(prompt)
    else if p.name == "openai" then p.openai(prompt)
    else Raised("Unknown LLM provider: " + p.name)
  }

  /** The mock answers as the reasoner when the lowered prompt carries either reasoner marker. */
  predicate IsSummaryRequest(lower: string)
  {
    Contains(lower, "database result:") || Contains(lower, "summarize this data")
  }

  function Max(a: nat, b: nat): nat
  {
    if a < b then b else a
  }

  /** The noun the summary uses, chosen by the first entity word present. */
  function EntityWord(lower: string): string
  {
    if Contains(lower, "employee") then "employees"
    else if Contains(lower, "project") then "projects"
    else if Contains(lower, "issue") then "issues"
    else "records"
  }

  /** The mock reasoner's sentence. */
  function MockSummary(prompt: string): string
  {
    var lower := Lower(prompt);
    var count := Max(Count(lower, "\"id\":"), Count(lower, "\"name\":"));
    if count == 0 && (Contains(prompt, "[]") || Contains(lower, "empty") || Contains(lower, "null")) then
      "No records found matching your query."
    else
      "Found " + NatToString(count) + " " + EntityWord(lower) + " matching your criteria. (Mocked SQL Result)"
  }

  /** The text the mock planner searches: after the last `user query:`, or the whole lowered prompt. */
  function UserQueryPart(lower: string): string
  {
    if Contains(lower, "user query:") then Last(Split(lower, "user query:")) else lower
  }

  /** A plan naming one tool and its single parameter. */
  datatype ToolChoice = ToolChoice(tool: string, param: string, arg: string)

  /** The salary threshold: the first number in the text without its commas, else 90000. */
  function SalaryThreshold(part: string): string
  {
    match FirstNumber(part)
    case Some(n) => Remove(n, ',')
    case None => "90000"
  }

  function Choose(words: seq<string>, labels: seq<string>, text: string, default: string): string
    requires |words| == |labels|
  {
    match LastContained(words, text)
    case Some(k) => labels[k]
    case None => default
  }

  /** The mock planner's decision, `None` when no keyword matches. */
  function MockChoice(part: string): Option<ToolChoice>
  {
    if Contains(part, "salary") then
      Some(ToolChoice("run_sql_query", "query",
        "SELECT name, department, salary FROM employees WHERE salary > " + SalaryThreshold(part) + " ORDER BY salary DESC"))
    else if Contains(part, "budget") then
      Some(ToolChoice("run_sql_query", "query",
        "SELECT name, status, budget FROM projects WHERE budget > 200000 ORDER BY budget DESC"))
    else if Contains(part, "department") || Contains(part, "employees") then
      Some(ToolChoice("get_employees_by_department", "department",
        Choose(["backend", "frontend", "devops"], ["Backend", "Frontend", "DevOps"], part, "AI")))
    else if Contains(part, "project") then
      Some(ToolChoice("get_projects_by_status", "status",
        Choose(["completed", "planning"], ["Completed", "Planning"], part, "In Progress")))
    else if Contains(part, "issue") then
      Some(ToolChoice("get_issues_by_priority", "priority",
        Choose(["critical", "medium", "low"], ["Critical", "Medium", "Low"], part, "High")))
    else None
  }

  /** `{"tool": ..., "parameters": {param: arg}}`. */
  function ChoiceDict(c: ToolChoice): Value
  {
    Dict([("tool", Str(c.tool)), ("parameters", Dict([(c.param, Str(c.arg))]))])
  }

  const MockErrorReply: Value := Dict([("error", Str("Mock LLM didn't understand query"))])

  /**
   * `_mock_response(prompt)`: a JSON object exactly when the prompt is not
   * a reasoner prompt; reasoner prompts get a plain sentence.
   */
  function MockResponse(prompt: string): (r: string)
    ensures |r| > 0 && (r[0] == '{' <==> !IsSummaryRequest(Lower(prompt)))
  {
    var lower := Lower(prompt);
    if IsSummaryRequest(lower) then MockSummary(prompt)
    else match MockChoice(UserQueryPart(lower))
      case Some(c) => JsonText.Dumps(ChoiceDict(c))
      case None => JsonText.Dumps(MockErrorReply)
  }

  /**
   * The summary reports the larger of the `"id":` and `"name":` tallies;
   * it says that nothing was found exactly when neither key occurs and the
   * prompt shows `[]`, `empty` or `null`.
   */
  lemma MockSummaryCases(prompt: string)
    ensures var lower := Lower(prompt);
      var none := !Contains(lower, "\"id\":") && !Contains(lower, "\"name\":") &&
        (Contains(prompt, "[]") || Contains(lower, "empty") || Contains(lower, "null"));
      (MockSummary(prompt) == "No records found matching your query." <==> none) &&
      (!none ==> (MockSummary(prompt) ==
        "Found " + NatToString(Max(Count(lower, "\"id\":"), Count(lower, "\"name\":"))) + " " +
        EntityWord(lower) + " matching your criteria. (Mocked SQL Result)"))
  {
    var lower := Lower(prompt);
    CountZero(lower, "\"id\":");
    CountZero(lower, "\"name\":");
    var found := "Found " + NatToString(Max(Count(lower, "\"id\":"), Count(lower, "\"name\":"))) + " " +
      EntityWord(lower) + " matching your criteria. (Mocked SQL Result)";
    assert found[0] == 'F';
  }

  /** The entity noun follows the order employee, project, issue. */
  lemma EntityOrder(lower: string)
    ensures Contains(lower, "employee") ==> EntityWord(lower) == "employees"
    ensures !Contains(lower, "employee") && Contains(lower, "project") ==> EntityWord(lower) == "projects"
    ensures !Contains(lower, "employee") && !Contains(lower, "project") && Contains(lower, "issue") ==> EntityWord(lower) == "issues"
    ensures !Contains(lower, "employee") && !Contains(lower, "project") && !Contains(lower, "issue") ==> EntityWord(lower) == "records"
  {
  }

  /**
   * The planner keywords are read only from the text after the last
   * `user query:` marker, which contains no further marker.
   */
  lemma UserPartAfterLastMarker(lower: string) returns (k: nat)
    ensures k <= |lower| && UserQueryPart(lower) == lower[k..]
    ensures !Contains(UserQueryPart(lower), "user query:")
    ensures Contains(lower, "user query:") ==> 11 <= k && IsAt(lower, "user query:", k - 11)
    ensures !Contains(lower, "user query:") ==> k == 0
  {
    k := SplitLastPiece(lower, "user query:");
  }

  /**
   * The category is decided by the first keyword group present, in the
   * order salary, budget, department/employees, project, issue; with none
   * present the mock has no plan.
   */
  lemma MockCategoryOrder(part: string)
    ensures Contains(part, "salary") ==> MockChoice(part).Some? && MockChoice(part).value.tool == "run_sql_query"
    ensures !Contains(part, "salary") && Contains(part, "budget") ==>
      MockChoice(part) == Some(ToolChoice("run_sql_query", "query", "SELECT name, status, budget FROM projects WHERE budget > 200000 ORDER BY budget DESC"))
    ensures !Contains(part, "salary") && !Contains(part, "budget") && (Contains(part, "department") || Contains(part, "employees")) ==>
      MockChoice(part).Some? && MockChoice(part).value.tool == "get_employees_by_department"
    ensures !Contains(part, "salary") && !Contains(part, "budget") && !Contains(part, "department") && !Contains(part, "employees") && Contains(part, "project") ==>
      MockChoice(part).Some? && MockChoice(part).value.tool == "get_projects_by_status"
    ensures !Contains(part, "salary") && !Contains(part, "budget") && !Contains(part, "department") && !Contains(part, "employees") && !Contains(part, "project") ==>
      (MockChoice(part).Some? <==> Contains(part, "issue")) &&
      (Contains(part, "issue") ==> MockChoice(part).value.tool == "get_issues_by_priority")
  {
  }

  /** Within the department group the last listed keyword present wins, and AI is the default. */
  lemma MockDepartmentValue(part: string)
    requires !Contains(part, "salary") && !Contains(part, "budget")
    requires Contains(part, "department") || Contains(part, "employees")
    ensures var d := MockChoice(part).value.arg;
      (Contains(part, "devops") ==> d == "DevOps") &&
      (!Contains(part, "devops") && Contains(part, "frontend") ==> d == "Frontend") &&
      (!Contains(part, "devops") && !Contains(part, "frontend") && Contains(part, "backend") ==> d == "Backend") &&
      (!Contains(part, "devops") && !Contains(part, "frontend") && !Contains(part, "backend") ==> d == "AI")
  {
    var words := ["backend", "frontend", "devops"];
    var r := LastContained(words, part);
    assert words[0] == "backend" && words[1] == "frontend" && words[2] == "devops";
    if r.None? {
      assert !Contains(part, words[0]);
    }
  }

  /** Within the project group the last listed keyword present wins, with In Progress the default. */
  lemma MockStatusValue(part: string)
    requires !Contains(part, "salary") && !Contains(part, "budget")
    requires !Contains(part, "department") && !Contains(part, "employees") && Contains(part, "project")
    ensures var s := MockChoice(part).value.arg;
      (Contains(part, "planning") ==> s == "Planning") &&
      (!Contains(part, "planning") && Contains(part, "completed") ==> s == "Completed") &&
      (!Contains(part, "planning") && !Contains(part, "completed") ==> s == "In Progress")
  {
    var words := ["completed", "planning"];
    var r := LastContained(words, part);
    assert words[0] == "completed" && words[1] == "planning";
    if r.None? {
      assert !Contains(part, words[0]);
    }
  }

  /** Within the issue group the last listed keyword present wins, with High the default. */
  lemma MockPriorityValue(part: string)
    requires !Contains(part, "salary") && !Contains(part, "budget")
    requires !Contains(part, "department") && !Contains(part, "employees") && !Contains(part, "project")
    requires Contains(part, "issue")
    ensures var p := MockChoice(part).value.arg;
      (Contains(part, "low") ==> p == "Low") &&
      (!Contains(part, "low") && Contains(part, "medium") ==> p == "Medium") &&
      (!Contains(part, "low") && !Contains(part, "medium") && Contains(part, "critical") ==> p == "Critical") &&
      (!Contains(part, "low") && !Contains(part, "medium") && !Contains(part, "critical") ==> p == "High")
  {
    var words := ["critical", "medium", "low"];
    var r := LastContained(words, part);
    assert words[0] == "critical" && words[1] == "medium" && words[2] == "low";
    if r.None? {
      assert !Contains(part, words[0]);
    }
  }

  /**
   * The salary SQL always compares against a non-empty run of digits: the
   * first number in the text with its commas removed, or 90000.
   */
  lemma SalaryThresholdDigits(part: string)
    ensures var t := SalaryThreshold(part);
      |t| > 0 && forall k :: 0 <= k < |t| ==> IsDigit(t[k])
    ensures FirstNumber(part).Some? ==> SalaryThreshold(part) == Remove(FirstNumber(part).value, ',')
    ensures FirstNumber(part).None? ==> SalaryThreshold(part) == "90000"
  {
    if FirstNumber(part).Some? {
      NumberWithoutCommas(part);
    }
  }

  /**
   * Every plan the mock emits names a registered tool together with the
   * parameter that tool takes, holds exactly that one parameter, and has
   * no reasoning key.
   */
  lemma MockPlansShape(part: string)
    ensures MockChoice(part).Some? ==>
      var c := MockChoice(part).value;
      var d := ChoiceDict(c);
      c.tool in AppTools.Tools.Keys &&
      ((c.tool == "run_sql_query" && c.param == "query") ||
       (c.tool == "get_employees_by_department" && c.param == "department") ||
       (c.tool == "get_projects_by_status" && c.param == "status") ||
       (c.tool == "get_issues_by_priority" && c.param == "priority")) &&
      Get(d.entries, "parameters") == Some(Dict([(c.param, Str(c.arg))])) && !HasKey(d.entries, "reasoning")
  {
    if MockChoice(part).Some? {
      var c := MockChoice(part).value;
      MockChoiceTool(part);
      ChoiceDictShape(c);
      AppTools.RegistryNamesWrappers();
    }
  }

  /** The mock pairs each tool with its own parameter name. */
  lemma MockChoiceTool(part: string)
    requires MockChoice(part).Some?
    ensures var c := MockChoice(part).value;
      (c.tool == "run_sql_query" && c.param == "query") ||
      (c.tool == "get_employees_by_department" && c.param == "department") ||
      (c.tool == "get_projects_by_status" && c.param == "status") ||
      (c.tool == "get_issues_by_priority" && c.param == "priority")
  {
    var c := MockChoice(part).value;
    if Contains(part, "salary") || Contains(part, "budget") {
      assert c.tool == "run_sql_query" && c.param == "query";
    } else if Contains(part, "department") || Contains(part, "employees") {
      assert c.tool == "get_employees_by_department" && c.param == "department";
    } else if Contains(part, "project") {
      assert c.tool == "get_projects_by_status" && c.param == "status";
    } else {
      assert c.tool == "get_issues_by_priority" && c.param == "priority";
    }
  }

  /** The plan dict holds the tool, then the one parameter, and nothing else. */
  lemma ChoiceDictShape(c: ToolChoice)
    ensures Get(ChoiceDict(c).entries, "parameters") == Some(Dict([(c.param, Str(c.arg))]))
    ensures !HasKey(ChoiceDict(c).entries, "reasoning")
  {
    var e := ChoiceDict(c).entries;
    assert Get(e[2..], "reasoning") == None;
  }

  /** The mock's reply depends on the prompt alone, not on the live backends configured beside it. */
  lemma MockIgnoresBackends(p: Provider, q: Provider, prompt: string)
    requires p.name == "mock" && q.name == "mock"
    ensures Generate(p, prompt) == Generate(q, prompt) == Ok(MockResponse(prompt))
  {
  }
}
