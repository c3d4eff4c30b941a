/**
 * `LLMProvider` of the legacy package: dispatch to the configured backend,
 * and the mock backend, which answers reasoner prompts (those starting
 * with `User asked:`) by echoing the database text between two markers,
 * and planner prompts with a JSON plan chosen by keywords in the query line.
 */
module LlmProvider {
  import opened Wrappers
  import opened Py
  import opened Text
  import JsonText

  /** One chat message as the OpenAI client receives it. */
  datatype Message = Message(role: string, content: string)

  /**
   * A configured provider: its name and the two live backends, each of
   * which answers with text or raises (connection refused, HTTP status,
   * timeout, API error).
   */
  datatype Provider = Provider(
    name: string,
    ollama: string -> Result<string>,
    openai: seq<Message> -> Result<string>)

  /**
   * `generate(prompt)`: `mock` and `ollama` are recognised; every other
   * name, unknown ones included, goes to OpenAI as a single user message.
   */
  function Generate(p: Provider, prompt: string): (r: Result<string>)
    ensures p.name == "mock" ==> r == Ok(CallMock(prompt))
    ensures p.name == "ollama" ==> r == p.ollama(prompt)
    ensures p.name != "mock" && p.name != "ollama" ==> r == p.openai([Message("user", prompt)])
  {
    if p.name == "mock" then Ok(CallMock(prompt))
    else if p.name == "ollama" then p.ollama(prompt)
    else p.openai([Message("user", prompt)])
  }

  // ---------------------------------------------------------------- reasoner side

  const ReasonerHeader := "User asked:"
  const StartMarker := "Database returned:\n"
  const EndMarker := "\n\nProvide a clear"
  const EchoHead := "Here is the data found in the database:\n"
  const EchoTail := "\n\n(Data retrieved via MCP tools layer)"
  const DefaultExplanation :=
    "Here is the data you requested. It was retrieved securely via the MCP tools layer (no direct DB access by the LLM)."

  predicate StartsWith(s: string, prefix: string)
  {
    IsAt(s, prefix, 0)
  }

  /** Python's `s[i:j]` for `0 <= i`, `0 <= j`: bounds are clamped and a reversed range is empty. */
  function PySlice(s: string, i: nat, j: nat): (r: string)
    ensures |r| <= |s|
    ensures i <= j <= |s| ==> r == s[i..j]
    ensures j <= i ==> r == ""
  {
    var hi := if j <= |s| then j else |s|;
    if i < hi then s[i..hi] else ""
  }

  /** The mock reasoner: the stripped text between the two markers, or a fixed sentence. */
  function MockExplanation(prompt: string): string
  {
    match (Find(prompt, StartMarker), Find(prompt, EndMarker))
    case (Some(i), Some(j)) => EchoHead + Strip(PySlice(prompt, i + |StartMarker|, j), Whitespace) + EchoTail
    case _ => DefaultExplanation
  }

  // ---------------------------------------------------------------- planner side

  const QueryMarker := "query:"

  /**
   * The text the mock planner searches: what follows the first `query:`
   * of the lowered prompt up to the next line break or the next `query:`,
   * stripped of quotes and spaces; the whole lowered prompt when there is
   * no `query:`.
   */
  function QueryText(lower: string): string
  {
    if Contains(lower, QueryMarker) then
      var parts := Split(lower, QueryMarker);
      SplitMany(lower, QueryMarker);
      Strip(Split(parts[1], "\n")[0], {'"', ' '})
    else lower
  }

  /** A line break or a `sep` starts at `k`: either one ends the window the mock reads. */
  predicate WindowStopsAt(s: string, sep: string, k: nat)
  {
    k < |s| && (s[k] == '\n' || IsAt(s, sep, k))
  }

  /** Where the window starting at `j` ends: the first stop at or after `j`, or the end of `s`. */
  function WindowEnd(s: string, sep: string, j: nat): (e: nat)
    requires j <= |s|
    ensures j <= e <= |s|
    ensures forall k :: j <= k < e ==> !WindowStopsAt(s, sep, k)
    ensures e < |s| ==> WindowStopsAt(s, sep, e)
    decreases |s| - j
  {
    if j == |s| || WindowStopsAt(s, sep, j) then j else WindowEnd(s, sep, j + 1)
  }

  /** A plan with one tool, one parameter and the mock's reasoning sentence. */
  datatype MockPlan = MockPlan(tool: string, param: string, arg: string, reasoning: string)

  /** The mock planner's decision, `None` when no rule applies. */
  function MockChoice(text: string): Option<MockPlan>
  {
    if Contains(text, "department") && Contains(text, "ai") then
      Some(MockPlan("get_employees_by_department", "department", "AI", "User asked for employees in AI department."))
    else if Contains(text, "project") then
      if Contains(text, "progress") then
        Some(MockPlan("get_projects_by_status", "status", "In Progress", "User asked for projects in progress."))
      else if Contains(text, "completed") then
        Some(MockPlan("get_projects_by_status", "status", "Completed", "User asked for completed projects."))
      else None
    else if Contains(text, "issue") then
      if Contains(text, "high") then
        Some(MockPlan("get_issues_by_priority", "priority", "High", "User asked for high priority issues."))
      else if Contains(text, "critical") then
        Some(MockPlan("get_issues_by_priority", "priority", "Critical", "User asked for critical priority issues."))
      else None
    else None
  }

  /** `{"tool": ..., "parameters": {param: arg}, "reasoning": ...}`. */
  function PlanDict(c: MockPlan): Value
  {
    Dict([("tool", Str(c.tool)), ("parameters", Dict([(c.param, Str(c.arg))])), ("reasoning", Str(c.reasoning))])
  }

  const MockErrorReply: Value := Dict([("error", Str("I could not understand the query in mock mode."))])

  function MockPlanReply(prompt: string): string
  {
    match MockChoice(QueryText(Lower(prompt)))
    case Some(c) => JsonText.Dumps(PlanDict(c))
    case None => JsonText.Dumps(MockErrorReply)
  }

  /**
   * `call_mock(prompt)`: a prompt starting with `User asked:` gets prose
   * (the echo or the fixed sentence); any other prompt gets a JSON object.
   */
  function CallMock(prompt: string): (r: string)
    ensures StartsWith(prompt, ReasonerHeader) ==>
      r == DefaultExplanation || (|r| >= |EchoHead| && r[..|EchoHead|] == EchoHead)
    ensures !StartsWith(prompt, ReasonerHeader) ==> |r| >= 2 && r[0] == '{' && r[|r| - 1] == '}'
  {
    if StartsWith(prompt, ReasonerHeader) then
      MockExplanationIsProse(prompt);
      MockExplanation(prompt)
    else
      MockPlanReplyIsObject(prompt);
      MockPlanReply(prompt)
  }

  // ---------------------------------------------------------------- properties

  lemma MockExplanationIsProse(prompt: string)
    ensures var r := MockExplanation(prompt);
      r == DefaultExplanation || (|r| >= |EchoHead| && r[..|EchoHead|] == EchoHead)
  {
    match (Find(prompt, StartMarker), Find(prompt, EndMarker))
    case (Some(i), Some(j)) =>
      var mid := Strip(PySlice(prompt, i + |StartMarker|, j), Whitespace);
      assert MockExplanation(prompt) == EchoHead + mid + EchoTail;
      PrefixOfConcat(EchoHead, mid, EchoTail);
    case _ =>
  }

  lemma PrefixOfConcat(a: string, b: string, c: string)
    ensures |a + b + c| >= |a| && (a + b + c)[..|a|] == a
  {
    assert a + b + c == a + (b + c);
  }

  lemma MockPlanReplyIsObject(prompt: string)
    ensures var r := MockPlanReply(prompt);
      |r| >= 2 && r[0] == '{' && r[|r| - 1] == '}'
  {
    match MockChoice(QueryText(Lower(prompt)))
    case Some(c) => assert PlanDict(c).Dict?;
    case None => assert MockErrorReply.Dict?;
  }

  /** The echo appears exactly when both markers occur, and carries the stripped text between them. */
  lemma MockExplanationCases(prompt: string)
    ensures Contains(prompt, StartMarker) && Contains(prompt, EndMarker) ==>
      var i := Find(prompt, StartMarker).value;
      var j := Find(prompt, EndMarker).value;
      MockExplanation(prompt) == EchoHead + Strip(PySlice(prompt, i + |StartMarker|, j), Whitespace) + EchoTail
    ensures !(Contains(prompt, StartMarker) && Contains(prompt, EndMarker)) ==>
      MockExplanation(prompt) == DefaultExplanation
  {
    var fi, fj := Find(prompt, StartMarker), Find(prompt, EndMarker);
    if fi.Some? && fj.Some? {
      assert MockExplanation(prompt) ==
        EchoHead + Strip(PySlice(prompt, fi.value + |StartMarker|, fj.value), Whitespace) + EchoTail;
    } else {
      assert MockExplanation(prompt) == DefaultExplanation;
    }
  }

  /** A reasoner prompt whose markers are found at `i` and `j` is answered with the stripped text between them. */
  lemma MockEchoAt(prompt: string, i: nat, j: nat, data: string)
    requires Find(prompt, StartMarker) == Some(i) && Find(prompt, EndMarker) == Some(j)
    requires PySlice(prompt, i + |StartMarker|, j) == data
    ensures MockExplanation(prompt) == EchoHead + Strip(data, Whitespace) + EchoTail
  {
    assert MockExplanation(prompt) == EchoHead + Strip(PySlice(prompt, i + |StartMarker|, j), Whitespace) + EchoTail;
  }

  /** A prompt starting with `User asked:` is answered by the mock reasoner. */
  lemma ReasonerPromptExplained(prompt: string)
    requires StartsWith(prompt, ReasonerHeader)
    ensures CallMock(prompt) == MockExplanation(prompt)
  {
  }

  /** A reasoner prompt whose markers are found at `i` and `j` is answered by the mock with the stripped text between them. */
  lemma MockEchoes(prompt: string, i: nat, j: nat, data: string)
    requires StartsWith(prompt, ReasonerHeader)
    requires Find(prompt, StartMarker) == Some(i) && Find(prompt, EndMarker) == Some(j)
    requires PySlice(prompt, i + |StartMarker|, j) == data
    ensures CallMock(prompt) == EchoHead + Strip(data, Whitespace) + EchoTail
  {
    ReasonerPromptExplained(prompt);
    MockEchoAt(prompt, i, j, data);
  }

  /**
   * The piece `Split(Split(lower, "query:")[1], "\n")[0]` is the window
   * from just after the first `query:` up to the next line break or the
   * next `query:`, whichever comes first.
   */
  lemma QueryLineIsWindow(lower: string)
    requires Contains(lower, QueryMarker)
    ensures var i := Find(lower, QueryMarker).value + |QueryMarker|;
      i <= |lower| && Split(Split(lower, QueryMarker)[1], "\n")[0] == lower[i..WindowEnd(lower, QueryMarker, i)]
  {
    var i := Find(lower, QueryMarker).value + |QueryMarker|;
    SplitSecond(lower, QueryMarker);
    RestLineIsWindow(lower, QueryMarker, i);
  }

  /** The first line of the text after `i` up to the next `sep` is the window starting at `i`. */
  lemma RestLineIsWindow(lower: string, sep: string, i: nat)
    requires |sep| > 0 && i <= |lower|
    ensures Split(Split(lower[i..], sep)[0], "\n")[0] == lower[i..WindowEnd(lower, sep, i)]
  {
    var rest := lower[i..];
    var seg := Split(rest, sep)[0];
    SplitFirstPiece(rest, sep);
    SplitFirstLine(seg);
    LineIsWindow(lower, sep, i, seg, Split(seg, "\n")[0]);
  }

  /**
   * A prefix `seg` of `lower[i..]` that ends at the first `sep`, cut at its
   * first line break, is the window starting at `i`.
   */
  lemma LineIsWindow(lower: string, sep: string, i: nat, seg: string, line: string)
    requires |sep| > 0 && i <= |lower|
    requires |seg| <= |lower| - i && seg == lower[i..][..|seg|]
    requires forall k :: 0 <= k < |seg| ==> !IsAt(lower[i..], sep, k)
    requires |seg| < |lower[i..]| ==> IsAt(lower[i..], sep, |seg|)
    requires |line| <= |seg| && line == seg[..|line|] && '\n' !in line
    requires |line| < |seg| ==> seg[|line|] == '\n'
    ensures line == lower[i..WindowEnd(lower, sep, i)]
  {
    var m := i + |line|;
    assert line == lower[i..m] by {
      assert lower[i..][..|seg|][..|line|] == lower[i..m];
    }
    NoStopInLine(lower, sep, i, |seg|, line);
    if m < |lower| {
      if |line| < |seg| {
        assert lower[m] == seg[|line|];
      } else {
        IsAtSuffix(lower, sep, i, |seg|);
      }
      assert WindowStopsAt(lower, sep, m);
    }
    WindowEndIs(lower, sep, i, m);
  }

  /** Inside a line of `lower[i..]` that lies before the first `sep`, nothing stops the window. */
  lemma NoStopInLine(lower: string, sep: string, i: nat, n: nat, line: string)
    requires i + |line| <= |lower| && |line| <= n && line == lower[i..i + |line|] && '\n' !in line
    requires forall k :: 0 <= k < n ==> !IsAt(lower[i..], sep, k)
    ensures forall k :: i <= k < i + |line| ==> !WindowStopsAt(lower, sep, k)
  {
    forall k | i <= k < i + |line|
      ensures !WindowStopsAt(lower, sep, k)
    {
      assert lower[k] == line[k - i];
      IsAtSuffix(lower, sep, i, k - i);
    }
  }

  /** A position with no stop before it, and a stop or the end at it, is where the window ends. */
  lemma WindowEndIs(s: string, sep: string, j: nat, m: nat)
    requires j <= m <= |s|
    requires forall k :: j <= k < m ==> !WindowStopsAt(s, sep, k)
    requires m < |s| ==> WindowStopsAt(s, sep, m)
    ensures WindowEnd(s, sep, j) == m
  {
  }

  /**
   * When the lowered prompt has a `query:`, the mock reads the text from
   * just after the first one up to the next line break or the next
   * `query:`, stripped of quotes and spaces: a result with no line break
   * and no quote or space at either end. Without a `query:` it reads the
   * whole prompt.
   */
  lemma QueryTextWindow(lower: string)
    ensures Contains(lower, QueryMarker) ==>
      var i := Find(lower, QueryMarker).value + |QueryMarker|;
      var t := QueryText(lower);
      i <= |lower| && t == Strip(lower[i..WindowEnd(lower, QueryMarker, i)], {'"', ' '}) &&
      '\n' !in t && (t != [] ==> t[0] !in {'"', ' '} && t[|t| - 1] !in {'"', ' '})
    ensures !Contains(lower, QueryMarker) ==> QueryText(lower) == lower
  {
    if Contains(lower, QueryMarker) {
      SplitMany(lower, QueryMarker);
      var parts := Split(lower, QueryMarker);
      var line := Split(parts[1], "\n")[0];
      SplitFirstLine(parts[1]);
      QueryLineIsWindow(lower);
      StripEnds(line, {'"', ' '});
      assert QueryText(lower) == Strip(line, {'"', ' '});
    }
  }

  /**
   * The rules are tried in the order employees-in-AI, project, issue; a
   * project or issue query without one of its two recognised values gets
   * no plan (the error reply) rather than a default.
   */
  lemma MockRuleOrder(text: string)
    ensures Contains(text, "department") && Contains(text, "ai") ==>
      MockChoice(text) == Some(MockPlan("get_employees_by_department", "department", "AI", "User asked for employees in AI department."))
    ensures !(Contains(text, "department") && Contains(text, "ai")) && Contains(text, "project") ==>
      (MockChoice(text).Some? <==> Contains(text, "progress") || Contains(text, "completed")) &&
      (Contains(text, "progress") ==> MockChoice(text).value.arg == "In Progress") &&
      (!Contains(text, "progress") && Contains(text, "completed") ==> MockChoice(text).value.arg == "Completed")
    ensures !(Contains(text, "department") && Contains(text, "ai")) && !Contains(text, "project") && Contains(text, "issue") ==>
      (MockChoice(text).Some? <==> Contains(text, "high") || Contains(text, "critical")) &&
      (Contains(text, "high") ==> MockChoice(text).value.arg == "High") &&
      (!Contains(text, "high") && Contains(text, "critical") ==> MockChoice(text).value.arg == "Critical")
    ensures !(Contains(text, "department") && Contains(text, "ai")) && !Contains(text, "project") && !Contains(text, "issue") ==>
      MockChoice(text).None?
  {
  }

  /**
   * Every plan the mock emits names a registered tool together with the
   * parameter that tool takes.
   */
  lemma MockPlansShape(text: string)
    ensures MockChoice(text).Some? ==>
      var c := MockChoice(text).value;
      (c.tool == "get_employees_by_department" && c.param == "department") ||
      (c.tool == "get_projects_by_status" && c.param == "status") ||
      (c.tool == "get_issues_by_priority" && c.param == "priority")
  {
  }

  /**
   * The AI rule matches substrings: a question about the Backend
   * department that says "details" contains "ai", and is answered with
   * the AI department.
   */
  lemma MockAiIsSubstring(text: string)
    requires Contains(text, "backend department details")
    ensures MockChoice(text) == Some(MockPlan("get_employees_by_department", "department", "AI", "User asked for employees in AI department."))
  {
    var example := "backend department details";
    ExampleWords(example);
    ContainsTrans(text, example, "department");
    ContainsTrans(text, example, "ai");
    MockRuleOrder(text);
  }

  lemma ExampleWords(example: string)
    requires example == "backend department details"
    ensures Contains(example, "department") && Contains(example, "ai")
  {
    assert example[8..18] == "department";
    ContainsAt(example, "department", 8);
    assert example[22..24] == "ai";
    ContainsAt(example, "ai", 22);
  }

  /** The mock's reply depends on the prompt alone, not on the live backends configured beside it. */
  lemma MockIgnoresBackends(p: Provider, q: Provider, prompt: string)
    requires p.name == "mock" && q.name == "mock"
    ensures Generate(p, prompt) == Generate(q, prompt) == Ok(CallMock(prompt))
  {
  }
}
