/**
 * `ReasonerAgent` of the `app` package: turns the rows a tool returned
 * into a short explanation through the language model.
 */
module AppReasonerAgent {
  import opened Py
  import opened Text
  import opened Trace
  import AppLlmProvider

  const NoDataAnswer: string := "I couldn't find any data matching your request."

  const ResultHeader: string := "Database Result:\n"

  const Instructions: string :=
    "\n\nPlease summarize this data for the user. Highlight key insights.\nKeep it concise (3-4 sentences)."

  /** The prompt around the serialised data. */
  function Prompt(query: string, dataText: string): string
  {
    "User Question: \"" + query + "\"\n\n" + ResultHeader + (dataText + Instructions)
  }

  /** The prompt quotes the user's question and shows the data right after the `Database Result:` header. */
  lemma PromptShowsQueryAndData(query: string, dataText: string)
    ensures Contains(Prompt(query, dataText), "User Question: \"" + query + "\"")
    ensures Contains(Prompt(query, dataText), ResultHeader + dataText)
  {
    var line := "User Question: \"" + query + "\"";
    var shown := ResultHeader + dataText;
    assert Prompt(query, dataText) == line + ("\n\n" + ResultHeader + (dataText + Instructions));
    ContainsAt(line, line, 0);
    ContainsLeft(line, "\n\n" + ResultHeader + (dataText + Instructions), line);
    assert Prompt(query, dataText) == (line + "\n\n") + shown + Instructions;
    ContainsAt(shown, shown, 0);
    ContainsInfix(line + "\n\n", shown, Instructions, shown);
  }

  /**
   * `explain(query, data)`, with `json.dumps(data, indent=2, default=str)`
   * given as `dumps` and `str(data)` as `StrOf(repr, data)`.
   */
  function Explain(p: AppLlmProvider.Provider, dumps: Value -> string, repr: Value -> string,
                   query: string, data: Value): (r: Traced<string>)
    ensures !Truthy(data) ==> r == Traced(NoDataAnswer, [])
    ensures Truthy(data) ==> r.events == [LlmCall(Prompt(query, dumps(data)))]
    ensures Truthy(data) ==>
      match AppLlmProvider.Generate(p, Prompt(query, dumps(data)))
      case Ok(text) => r.value == text
      case Raised(_) => r.value == "Here is the raw data: " + StrOf(repr, data)
  {
    if !Truthy(data) then Traced(NoDataAnswer, [])
    else
      var prompt := Prompt(query, dumps(data));
      var answer :=
        match AppLlmProvider.Generate(p, prompt)
        case Ok(text) => text
        case Raised(_) => "Here is the raw data: " + StrOf(repr, data);
      Traced(answer, [LlmCall(prompt)])
  }

  /**
   * Every reasoner prompt carries the `Database Result:` marker, so the
   * mock backend always answers it with a summary sentence, never a plan.
   */
  lemma {:induction false} MockSummarises(query: string, dataText: string)
    ensures AppLlmProvider.IsSummaryRequest(Lower(Prompt(query, dataText)))
    ensures AppLlmProvider.MockResponse(Prompt(query, dataText)) == AppLlmProvider.MockSummary(Prompt(query, dataText))
  {
    var head := "User Question: \"" + query + "\"\n\n";
    var rest := dataText + Instructions;
    LowerConcat(head + ResultHeader, rest);
    LowerConcat(head, ResultHeader);
    assert Lower(ResultHeader) == "database result:\n";
    assert IsAt(Lower(ResultHeader), "database result:", 0);
    ContainsAt(Lower(ResultHeader), "database result:", 0);
    ContainsInfix(Lower(head), Lower(ResultHeader), Lower(rest), "database result:");
  }
}
