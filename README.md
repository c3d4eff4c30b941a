# Enterprise data assistant: a Dafny model of the agent pipeline

The system answers a natural-language question about company data
(employees, projects, issues) in three stages:

1. A **planner** asks a language model to pick one tool and its parameter.
2. An **executor** runs that tool, but only if the tool is in the registry
   (the "sandbox" of MCP tools).
3. A **reasoner** asks the model to explain the returned rows.

An **orchestrator** chains the three stages and turns failures into an error
response. The language model sits behind a provider. The provider dispatches
to a live backend (Ollama or OpenAI) or to a deterministic **mock** that
imitates both the planner and the reasoner from keywords.

The repository holds two versions of this pipeline, and both are modelled
side by side:

- **`app/`**: a registry of four tools, including `run_sql_query`. The
  planner checks the model's choice against its tool schema, and a keyword
  fallback can emit SQL. Modules: `AppTools`, `AppLlmProvider`,
  `AppPlannerAgent`, `AppExecutorAgent`, `AppReasonerAgent`,
  `AppOrchestrator`.
- **the top-level `agents/` and `mcp/` packages**: a registry of three
  tools. The planner repairs an unknown tool name by keywords, and the
  orchestrator catches every exception. Modules: `McpTools`,
  `LlmProvider`, `PlannerAgent`, `ExecutorAgent`, `ReasonerAgent`,
  `Orchestrator`.

Shared modules model the Python the agents rely on:

- `Py`: dict values with insertion order, `get`, item assignment,
  truthiness, hashability, `str`. Exceptions are `Raised`.
- `Text`: `find`, `in`, `split`, `strip`, ASCII case mapping, the
  `\d[\d,]+` search, and the `\{.*\}` brace span.
- `JsonText`: `json.dumps`, with the default separators and with `indent=2`.
- `Trace`: a call log of model calls and tool calls.

Every stage returns its value together with the calls it made. Properties
about which tool may run, and in what order the stages call out, are
therefore stated over that log.

Collaborators outside the core are parameters of the model: the live model
backends, `json.loads`, the database query functions, the project's JSON
serialiser, and `repr` of containers.

## Model

| member | source | states |
|---|---|---|
| AppTools.RegistryNamesWrappers | app/mcp/tools.py:39-44 | The registry has exactly the four keys `run_sql_query`, `get_employees_by_department`, `get_projects_by_status` and `get_issues_by_priority`, each under the name of the wrapper it holds. |
| AppTools.WrappersForward | app/mcp/tools.py:13-35 | Each wrapper, and `Call` on each registered tool, passes its argument unchanged to its database function and returns or raises what that returns. `run_sql_query` applies no check of its own, so any statement reaches the database. |
| AppLlmProvider.Generate | app/agents/llm_provider.py:23-32 | `mock`, `ollama` and `openai` go to their backends. Any other provider name raises `Unknown LLM provider: <name>`. |
| AppLlmProvider.MockResponse | app/agents/llm_provider.py:34-120 | The mock answers with a sentence exactly when the lowered prompt contains `database result:` or `summarize this data`. Otherwise it answers with a JSON object (the plan or the error dict). |
| AppLlmProvider.MockSummaryCases | app/agents/llm_provider.py:44-62 | The count is the larger of the `"id":` and `"name":` tallies. The reply is "No records found" exactly when that count is 0 and the prompt shows `[]`, `empty` or `null`; otherwise it is `Found <count> <entity> ...`. |
| AppLlmProvider.EntityOrder | app/agents/llm_provider.py:56-59 | The entity noun is chosen by the first of employee, project, issue present, and defaults to records. |
| AppLlmProvider.UserPartAfterLastMarker | app/agents/llm_provider.py:66-70 | The planner keywords are read from the text after the last `user query:` (which holds no further marker), or from the whole lowered prompt. |
| AppLlmProvider.MockCategoryOrder | app/agents/llm_provider.py:75-114 | The category is the first keyword group present, in the order salary, budget, department/employees, project, issue. With none present there is no plan. |
| AppLlmProvider.MockDepartmentValue | app/agents/llm_provider.py:96-101 | The last of backend, frontend, devops present sets the department; AI is the default. |
| AppLlmProvider.MockStatusValue | app/agents/llm_provider.py:103-107 | The last of completed, planning present sets the status; In Progress is the default. |
| AppLlmProvider.MockPriorityValue | app/agents/llm_provider.py:109-114 | The last of critical, medium, low present sets the priority; High is the default. |
| AppLlmProvider.SalaryThresholdDigits | app/agents/llm_provider.py:77-78 | The salary threshold is the first number in the query part with its commas removed, a non-empty run of decimal digits (any Unicode decimal digit, as `\d` matches them); without a number it is 90000. |
| AppLlmProvider.MockPlansShape | app/agents/llm_provider.py:79-114 | Every mock plan names a registry tool together with the parameter that tool takes (`query`, `department`, `status` or `priority`). Its `parameters` dict holds that one parameter, and there is no `reasoning` key. |
| AppLlmProvider.MockIgnoresBackends | app/agents/llm_provider.py:25-26 | A mock provider's reply depends on the prompt alone. |
| AppPlannerAgent.SchemaMatchesRegistry | app/agents/planner_agent.py:18-35 | The planner's tool schema names exactly the executor registry's tools, each with one argument. |
| AppPlannerAgent.PromptShowsToolsAndQuery | app/agents/planner_agent.py:66-80 | For any schema text, the prompt contains that text and the line `User Query: "<query>"`. |
| AppPlannerAgent.BuildPromptShows | app/agents/planner_agent.py:66-80 | The prompt `_build_prompt` returns contains the serialised tool schema and quotes the user's query. |
| AppPlannerAgent.ExtractJson | app/agents/planner_agent.py:82-87 | The text decoded is the span from the reply's first `{` to its last `}` (no `{` before it, no `}` after it), or the whole reply when no `{` precedes a `}`. |
| AppPlannerAgent.ParseResponse | app/agents/planner_agent.py:82-87 | `json.loads` is applied to the brace span when there is one, and to the whole reply otherwise. |
| AppPlannerAgent.Fallback | app/agents/planner_agent.py:89-127 | The fallback always returns a dict: the failure dict, or a plan carrying `reasoning: "Fallback heuristic used."`. |
| AppPlannerAgent.FallbackLogic | app/agents/planner_agent.py:89-127 | The imperative fallback, which builds the dict key by key, returns exactly the fallback specification's plan. |
| AppPlannerAgent.DepartmentPlan | app/agents/planner_agent.py:112-115 | The department loop leaves the department of the last word present, capitalised, or AI. |
| AppPlannerAgent.SetParameterOfEntries | app/agents/planner_agent.py:115 | Assigning `plan["parameters"][key]` changes only that parameter's value. |
| AppPlannerAgent.FallbackShape | app/agents/planner_agent.py:108-127 | The fallback returns either the error dict, or a plan with a schema tool, exactly one parameter and the fallback reasoning. |
| AppPlannerAgent.FallbackNamesSchemaTool | app/agents/planner_agent.py:55-57 | The fallback's plan passes the planner's own schema check, unless it is the error dict. |
| AppPlannerAgent.FallbackOrder | app/agents/planner_agent.py:95-124 | Rules are tried in the order salary, budget, department/employees, project, issue, and each rule fixes both the tool and its parameter. Salary and budget give `run_sql_query` with their SQL. Department/employees gives `get_employees_by_department` with the last department word present, or AI. Project gives `get_projects_by_status` with `In Progress`, and issue gives `get_issues_by_priority` with `High`. The fallback fails exactly when none of these words occurs. |
| AppPlannerAgent.FallbackDepartment | app/agents/planner_agent.py:112-115 | The department is AI unless backend, frontend or devops occurs; then it is the last of them present, capitalised (`Devops`). |
| AppPlannerAgent.FallbackSalaryAmount | app/agents/planner_agent.py:99-108 | With a number in the lowered query, the SQL compares salaries against the first number with its commas removed, a non-empty run of decimal digits (any Unicode decimal digit, as `\d` matches them). Without one, the SQL has no threshold. |
| AppPlannerAgent.SchemaToolIsRegistered | app/agents/planner_agent.py:55 | A plan that passes the schema check names a registered tool by a non-empty string. |
| AppPlannerAgent.FallbackErrorSaysError | app/agents/planner_agent.py:123-124 | The fallback's failure value is a dict with an `error` key, so the orchestrator treats it as a planning error. |
| AppPlannerAgent.Plan | app/agents/planner_agent.py:45-64 | One model call is made. The decoded reply is kept only when it names a schema tool; every other outcome, exceptions included, gives the fallback. The result is a checked plan or the fallback error. |
| AppExecutorAgent.Argument | app/agents/executor_agent.py:27-38 | The argument is the first value of a non-empty dict, the first item of a non-empty list, or the string itself, and is missing exactly otherwise. |
| AppExecutorAgent.Execute | app/agents/executor_agent.py:15-51 | A falsy tool gives `No tool selected`. An unregistered tool gives `Tool '<t>' is not allowed`. Only an unhashable tool raises. A tool call happens only for a registered tool with an argument. On success the data is what the tool returned for that argument. |
| AppExecutorAgent.AtMostOneRegisteredCall | app/agents/executor_agent.py:22-41 | At most one tool runs per plan, and only a registered one. |
| AppExecutorAgent.AllowlistBeforeParameters | app/agents/executor_agent.py:22-27 | Two plans naming the same unregistered tool get the same answer whatever their parameters, and no tool runs. |
| AppExecutorAgent.RegisteredNeverRaises | app/agents/executor_agent.py:15-51 | A plan naming a registered tool never makes `execute` raise. The answer is a success, `Missing parameters`, or `Execution error: ...`. |
| AppExecutorAgent.MissingParameters | app/agents/executor_agent.py:30-38 | A registered tool whose parameters give no usable argument gets exactly `{"error": "Missing parameters"}`, and no tool runs. |
| AppExecutorAgent.RegisteredToolRuns | app/agents/executor_agent.py:31-51 | A registered tool with an argument is called once. Its exception becomes `Execution error: ...`. |
| AppReasonerAgent.Explain | app/agents/reasoner_agent.py:15-36 | Falsy data gets the fixed no-data answer without a model call. Otherwise one model call is made on the prompt around `json.dumps(data)`, and its answer is returned, or `Here is the raw data: <str(data)>` if the call raised. |
| AppReasonerAgent.PromptShowsQueryAndData | app/agents/reasoner_agent.py:25-30 | The prompt quotes the user's question and shows the serialised data right after `Database Result:\n`. |
| AppReasonerAgent.MockSummarises | app/agents/reasoner_agent.py:25-30 | Every reasoner prompt carries `Database Result:`, so the mock always answers it with a summary sentence. |
| AppOrchestrator.ProcessQuery | app/agents/orchestrator.py:29-60 | The response always carries the user's query. |
| AppOrchestrator.Respond | app/agents/orchestrator.py:32-52 | What follows the planner's answer: the response carries the user's query. |
| AppOrchestrator.RespondStages | app/agents/orchestrator.py:32-52 | Whatever the plan, the planner's call stays first. At most one registered tool call follows. A model call after it comes only once a tool has run, and a success has exactly one tool call. |
| AppOrchestrator.PlanWithoutErrorIsRegistered | app/agents/orchestrator.py:31-36 | A plan without an `error` key names a registered tool. |
| AppOrchestrator.ExecutorAcceptsPlannedTool | app/agents/orchestrator.py:36-38 | On the planner's output the executor never raises, never finds the tool missing and never rejects it. |
| AppOrchestrator.NeverRaises | app/agents/orchestrator.py:29-52 | No exception escapes `process_query`, although nothing in it catches one. |
| AppOrchestrator.PlanErrorStopsEarly | app/agents/orchestrator.py:31-33 | A plan with an `error` key ends the request after the planner's single model call, with the plan's `error` value as the response's error. |
| AppOrchestrator.ExecutorErrorStops | app/agents/orchestrator.py:36-38 | An executor error ends the request with the executor's message as the error. The log is the planner's call and the executor's events, with no reasoner call. |
| AppOrchestrator.StagesInOrder | app/agents/orchestrator.py:29-52 | The planner call comes first. At most one tool call follows, to a registered tool. The reasoner call comes only after a tool has run. |
| AppOrchestrator.SuccessFields | app/agents/orchestrator.py:42-52 | A success comes from a successful executor result. It reports the plan, the executor's data, a row count (the list length, or 1 for a non-list) and the reasoner's explanation of that data. |
| AppOrchestrator.ExecutorSuccessSucceeds | app/agents/orchestrator.py:36-52 | The converse: when the plan has no `error` key and the executor succeeds, the response is a success. It carries the plan, the executor's data, its row count and the reasoner's explanation. |
| McpTools.RegistryNamesWrappers | mcp/tools.py:55-59 | The sandbox has exactly the three fetch tools, each under its own name. `run_sql_query` is not among them. |
| McpTools.WrappersForward | mcp/tools.py:12-51 | Each wrapper, and `Call` on each registered tool, passes its argument unchanged to its fetch function and returns or raises what that returns. |
| LlmProvider.Generate | agents/llm_provider.py:155-162 | `mock` and `ollama` are recognised. Every other provider name goes to OpenAI as a single user message. |
| LlmProvider.PySlice | agents/llm_provider.py:48 | Python slicing: clamped to the string, empty for a reversed range, and the ordinary slice within bounds. |
| LlmProvider.CallMock | agents/llm_provider.py:19-111 | A prompt starting with `User asked:` gets prose (the echo or the fixed sentence). Any other prompt gets a JSON object. |
| LlmProvider.MockExplanationCases | agents/llm_provider.py:41-59 | The echo appears exactly when both markers occur, and carries the stripped text between their first occurrences. Otherwise the reply is the fixed sentence. |
| LlmProvider.QueryTextWindow | agents/llm_provider.py:65-69 | With a `query:` present, the mock reads the text from just after the first `query:` up to the next line break or the next `query:`, stripped of quotes and spaces. So `query: "show query: ai department"` is read as `show`. Without a `query:` it reads the whole lowered prompt. |
| LlmProvider.MockRuleOrder | agents/llm_provider.py:73-104 | The rule order is AI-department, then project, then issue. A project or issue query without one of its two recognised words gets no plan rather than a default. |
| LlmProvider.MockPlansShape | agents/llm_provider.py:73-104 | Every mock plan names a sandbox tool together with the parameter that tool takes. |
| LlmProvider.MockAiIsSubstring | agents/llm_provider.py:73 | The AI rule matches substrings: a text containing "backend department details" is answered with the AI department. |
| LlmProvider.MockIgnoresBackends | agents/llm_provider.py:157-158 | A mock provider's reply depends on the prompt alone. |
| PlannerAgent.DefinitionsMatchRegistry | agents/planner_agent.py:41-60 | The tool menu offers exactly the sandbox's tools, each with the one parameter the executor passes. |
| PlannerAgent.PromptShowsToolsAndQuery | agents/planner_agent.py:74-90 | For any menu text, the prompt contains that text, and the line `Query: "<query>"` on a line of its own. |
| PlannerAgent.BuildPrompt | agents/planner_agent.py:74-90 | The prompt shows the serialised menu, and the line `Query: "<query>"` on a line of its own. |
| PlannerAgent.FirstPresent | agents/planner_agent.py:106-109 | The `for … break` loop finds the first listed word present. |
| PlannerAgent.DepartmentEntries | agents/planner_agent.py:103-111 | The department branch builds `tool` and then `parameters`, and gives the first listed department present, or AI. |
| PlannerAgent.StatusEntries | agents/planner_agent.py:113-120 | The project branch builds `tool` and then `parameters`, and gives the first listed status present, title-cased, or In Progress. |
| PlannerAgent.PriorityEntries | agents/planner_agent.py:122-129 | The issue/priority branch builds `tool` and then `parameters`, and gives the first listed priority present, capitalised, or High. |
| PlannerAgent.KeywordFallback | agents/planner_agent.py:100-136 | The imperative fallback, which builds the dict key by key, returns exactly the fallback specification's plan. |
| PlannerAgent.Plan | agents/planner_agent.py:62-155 | One model call is made. A model exception or a decode failure gives `{"error": str(e)}`. A reply without a brace span gives the keyword fallback. A decoded reply goes through validation. The result is always a dict. |
| PlannerAgent.FallbackShape | agents/planner_agent.py:100-136 | The fallback gives `Could not understand query`, or a menu tool with exactly one parameter followed by the fallback reasoning. |
| PlannerAgent.Fallback | agents/planner_agent.py:100-136 | The fallback is always a dict, and it has an `error` key only when it says the query was not understood. |
| PlannerAgent.FallbackOrder | agents/planner_agent.py:103-132 | The categories are tried in the order department, project, issue-or-priority. The fallback fails exactly when none of these words occurs. |
| PlannerAgent.FallbackDepartment | agents/planner_agent.py:103-111 | The first listed department present wins: `ai` becomes AI and the others are capitalised. AI is the default. |
| PlannerAgent.FallbackStatus | agents/planner_agent.py:113-120 | The first listed status present wins, title-cased. In Progress is the default. |
| PlannerAgent.FallbackPriority | agents/planner_agent.py:122-129 | The first listed priority present wins, capitalised. High is the default. |
| PlannerAgent.CorrectionOnlyTouchesTool | agents/planner_agent.py:142-149 | The repair overwrites only `tool`, using department, project or issue in the lowered query. Every other key keeps its value. Without a keyword the plan is unchanged. |
| PlannerAgent.Corrected | agents/planner_agent.py:142-149 | The repair changes no key except `tool`. It either leaves the plan as it was or writes the name of a menu tool. |
| PlannerAgent.DecodeFailureIsError | agents/planner_agent.py:96-155 | The keyword fallback is reached only through a reply without a brace span. A model exception or an undecodable span gives an error plan. |
| PlannerAgent.ValidationCases | agents/planner_agent.py:138-152 | A decoded plan naming a menu tool passes untouched. A non-dict or an unhashable tool becomes an error plan. |
| PlannerAgent.Validated | agents/planner_agent.py:138-152 | After validation the plan is a dict whose `tool`, if any, can be hashed: only a hashable tool passes the check, and a repair writes a string. |
| PlannerAgent.PlannedToolHashable | agents/planner_agent.py:138-155 | Whatever the model and decoder do, the plan is a dict whose `tool`, if any, can be hashed. |
| ExecutorAgent.ParamValue | agents/executor_agent.py:68-73 | The parameter value is the first dict value or list item (`None` when empty), or `str(parameters)` for anything else. |
| ExecutorAgent.Wrap | agents/executor_agent.py:82-100 | A list result is the rows and anything else one row. `row_count` is the number of rows. |
| ExecutorAgent.Execute | agents/executor_agent.py:33-106 | An empty or toolless plan gives `Invalid plan - tool missing`. An unhashable tool raises. An unregistered one gives `Tool '<t>' not allowed`. A tool call happens only for a registered tool with a non-`None` value. Success carries the tool, the parameters and a row count equal to the rows' length. |
| ExecutorAgent.AtMostOneRegisteredCall | agents/executor_agent.py:43-79 | At most one tool runs per plan, and only one the sandbox holds. |
| ExecutorAgent.AllowlistBeforeParameters | agents/executor_agent.py:53-55 | Two plans naming the same unregistered tool get the same answer whatever their parameters, and no tool runs. |
| ExecutorAgent.RegisteredToolRuns | agents/executor_agent.py:65-106 | A registered tool with a value is called once with it. Its rows come back wrapped, and its exception becomes `Error: ...`. |
| ExecutorAgent.MissingParameterValue | agents/executor_agent.py:75-77 | Without a parameter value the executor reports it and calls nothing. |
| ReasonerAgent.Reason | agents/reasoner_agent.py:34-66 | A serialiser exception escapes. Otherwise one model call is made on the prompt around the text, and its answer is returned. On a model failure the answer is `Database returned N records` for a list, else `str(result)`. |
| ReasonerAgent.ResultText | agents/reasoner_agent.py:42-46 | Only a dict or a list can make the conversion raise, and then the exception is the serialiser's; anything else goes through `str`. |
| ReasonerAgent.PromptLayout | agents/reasoner_agent.py:48-58 | The prompt is the opening `User asked: "<query>"` and a blank line, then `Database returned:\n`, the result text and `\n\nProvide a clear`, each at its fixed offset. |
| ReasonerAgent.ReturnedFoundAfterOpening | agents/reasoner_agent.py:48-51 | For a one-line query, the first `Database returned:\n` in the prompt is the one right after the opening. |
| ReasonerAgent.ProvideFoundAfterData | agents/reasoner_agent.py:48-53 | The first `\n\nProvide a clear` is the one right after the data, provided the data does not contain it or start with a line break. |
| ReasonerAgent.MockEchoesResult | agents/reasoner_agent.py:48-61 | Under those conditions the mock answers the reasoner prompt with the serialised result, stripped, between its fixed header and footer. |
| ReasonerAgent.AlwaysAsks | agents/reasoner_agent.py:60-63 | The model is asked exactly once, and a successful answer is returned as it is. |
| Orchestrator.ProcessQuery | agents/orchestrator.py:29-76 | The response always carries the user's query. |
| Orchestrator.Respond | agents/orchestrator.py:33-76 | What follows the planner's answer: the response carries the user's query. |
| Orchestrator.RespondStages | agents/orchestrator.py:33-68 | Whatever the plan, the planner's call stays first. At most one sandbox tool call follows. A model call after it comes only once a tool has run, and a success has exactly one tool call. |
| Orchestrator.PlanErrorStopsEarly | agents/orchestrator.py:32-39 | A truthy planning error ends the request after the one planner call, with that error and without the plan. |
| Orchestrator.EmptyPlanErrorReachesExecutor | agents/orchestrator.py:33 | An empty error text is falsy, so that plan goes on to the executor, which reports the tool missing. |
| Orchestrator.ExecutorErrorKeepsPlan | agents/orchestrator.py:43-51 | An executor rejection is reported together with the plan, and the reasoner is not asked. |
| Orchestrator.StagesInOrder | agents/orchestrator.py:29-68 | The planner call comes first. At most one tool call follows, to a sandbox tool. The reasoner call comes only after a tool has run. |
| Orchestrator.SuccessFields | agents/orchestrator.py:55-68 | A success comes from a successful executor result. It carries the plan, the executor's rows, the executor's row count (the number of rows), and the reasoner's explanation of those rows. |
| Orchestrator.ExecutorSuccessSucceeds | agents/orchestrator.py:43-68 | The converse: when the plan's `error` is falsy, the executor succeeds and the serialiser accepts the rows, the response is a success. It carries the plan, the rows, the executor's row count and the reasoner's answer. |
| Orchestrator.ExecutorNeverRaises | agents/orchestrator.py:43 | On a plan from the planner the executor never raises. |
| Orchestrator.SerializerFailureBecomesError | agents/orchestrator.py:70-76 | A serialiser exception becomes an error response with its text and without the plan. |
| Text.FirstNumber | app/agents/planner_agent.py:102-104 | `re.search(r'(\d[\d,]+)', s).group(1)`: a match exists exactly when some digit is followed by a digit or comma. A digit is any Unicode decimal digit (category Nd), as `\d` matches in a `str` pattern, so `٩٠,٠٠٠` is found (`Text.ArabicIndicNumber`). The match starts at the leftmost such place, runs over digits and commas only, and stops where that run stops. |
| Text.ArabicIndicNumber | app/agents/llm_provider.py:77 | `\d` matches Arabic-Indic digits: in `> ٩٠,٠٠٠` the number found is `٩٠,٠٠٠`. |

## Left out

- Live model backends: the bodies of the Ollama and OpenAI calls (HTTP, timeouts, API keys) are not modelled. Each backend is a function parameter that returns text or raises.
- `json.loads` is a parameter and is not modelled. The project's JSON serialiser of the legacy reasoner is a parameter that may raise. `json.dumps(default=str)` of the `app` reasoner is also a parameter.
- `str()` of a dict or list is a parameter (`repr`). Scalars are rendered by the model.
- The database functions and SQL execution are parameters of the `Db` collaborator. No table contents are modelled.
- Logging is not modelled. This includes the legacy planner's `response[:200]` in its log call, which would raise on a non-string reply; the model's providers always return text.
- The web API, the agent singletons, and configuration from environment variables are not modelled.
- Case mapping (`lower`, `upper`, `capitalize`, `title`) covers ASCII letters only.
- `Py.Truthy` treats every value of another type (`Other`) as true. Python finds a zero `Decimal` or empty `bytes` falsy. The fetch functions return lists (of row tuples, in the legacy package), and the pipeline tests only the truthiness of the list, never of an element.
- `run_sql_query` is documented as SELECT-only, but the wrapper checks nothing. The model follows the code, and `AppTools.WrappersForward` states that any statement is forwarded.
- `AppExecutorAgent.Execute`, `ExecutorAgent.Execute`, `AppOrchestrator.Respond` and `Orchestrator.Respond` require the plan to be a dict. Every caller passes one, and the planners are proved to return one.
- `Orchestrator.ProcessQuery` does not model the `result.get("data", result)` and `get("row_count", 0)` defaults, because every successful executor result has both keys.
- `ReasonerAgent.MockEchoesResult` holds only for a query without a line break and a serialised result that neither contains the end marker nor starts with a line break. Outside those conditions the mock may cut the text elsewhere; the general behaviour is stated by `LlmProvider.MockExplanationCases`.
- No concrete end-to-end scenario over the full prompt text (a fixed query through the mock) is stated as a lemma.
