/**
 * `ReasonerAgent` of the legacy package: serialises the executor's result,
 * asks the language model for a short explanation, and falls back to a
 * one-line description when the model fails.
 */
module ReasonerAgent {
  import opened Wrappers
  import opened Py
  import opened Text
  import opened Trace
  import LlmProvider

  const Returned: string := "Database returned:\n"
  const ProvideMarker: string := "\n\nProvide a clear"
  const Request: string :=
    ", concise explanation of:\n1. What data was retrieved\n2. Key insights or patterns\n3. Any recommendations\n\n" +
    "Be conversational and helpful. Keep response to 3-4 sentences."

  function Opening(query: string): string
  {
    "User asked: \"" + query + "\"\n\n"
  }

  /** The prompt around the serialised result `text`. */
  function Prompt(query: string, text: string): string
  {
    Opening(query) + Returned + text + ProvideMarker + Request
  }

  /**
   * The result as text: dicts and lists through the project's JSON
   * serialiser (`serialize`, which may raise), anything else through `str`.
   */
  function ResultText(serialize: Value -> Result<string>, repr: Value -> string, result: Value): (r: Result<string>)
    ensures r.Raised? ==> (result.Dict? || result.List?) && r == serialize(result)
  {
    if result.Dict? || result.List? then serialize(result) else Ok(StrOf(repr, result))
  }

  /** The answer when the model fails. */
  function FallbackText(repr: Value -> string, result: Value): string
  {
    if result.List? then "Database returned " + NatToString(|result.items|) + " records" else StrOf(repr, result)
  }

  /**
   * `reason(user_query, execution_result)`. Serialisation happens before
   * the `try`, so its exception escapes as `Raised`; a model failure does
   * not.
   */
  function Reason(p: LlmProvider.Provider, serialize: Value -> Result<string>, repr: Value -> string,
                  query: string, result: Value): (r: Traced<Result<string>>)
    ensures ResultText(serialize, repr, result).Raised? ==>
      r == Traced(Raised(ResultText(serialize, repr, result).error), [])
    ensures ResultText(serialize, repr, result).Ok? ==>
      var prompt := Prompt(query, ResultText(serialize, repr, result).value);
      r.events == [LlmCall(prompt)] &&
      match LlmProvider.Generate(p, prompt)
      case Ok(text) => r.value == Ok(text)
      case Raised(_) => r.value == Ok(FallbackText(repr, result))
  {
    match ResultText(serialize, repr, result)
    case Raised(e) => Traced(Raised(e), [])
    case Ok(text) =>
      var prompt := Prompt(query, text);
      var answer :=
        match LlmProvider.Generate(p, prompt)
        case Ok(explanation) => explanation
        case Raised(_) => FallbackText(repr, result);
      Traced(Ok(answer), [LlmCall(prompt)])
  }

  // ---------------------------------------------------------------- the mock's view of the prompt

  /** Where the pieces of the prompt sit. */
  lemma PromptLayout(query: string, text: string)
    ensures Laid(Prompt(query, text), Opening(query), Returned, text, ProvideMarker)
  {
    LaidOut(Opening(query), Returned, text, ProvideMarker, Request);
  }

  lemma LaidOut(o: string, r: string, text: string, m: string, tail: string)
    ensures Laid(o + r + text + m + tail, o, r, text, m)
  {
    var prompt := o + r + text + m + tail;
    var b := |o| + |r|;
    var e := b + |text|;
    var p1 := o + r;
    var p2 := p1 + text;
    var p3 := p2 + m;
    assert prompt == p3 + tail;
    assert prompt[..|o|] == p3[..|o|] == p2[..|o|] == p1[..|o|] == o;
    assert prompt[|o|..b] == p3[|o|..b] == p2[|o|..b] == p1[|o|..] == r;
    assert prompt[b..e] == p3[b..e] == p2[b..] == text;
    assert prompt[e..e + |m|] == p3[e..] == m;
  }

  /** `prompt` starts with `o`, then `r`, then `text`, then `m`. */
  predicate Laid(prompt: string, o: string, r: string, text: string, m: string)
  {
    var b := |o| + |r|;
    var e := b + |text|;
    e + |m| <= |prompt| &&
    prompt[..|o|] == o && prompt[|o|..b] == r && prompt[b..e] == text && prompt[e..e + |m|] == m
  }

  /** The opening's only line breaks are its last two places, right after the closing quote. */
  predicate OpeningShape(o: string)
  {
    |o| >= 3 && '\n' !in o[..|o| - 2] && o[|o| - 3] == '"' && o[|o| - 2] == '\n' && o[|o| - 1] == '\n'
  }

  /** The data marker: a `D` first, and a line break only at its end, after a colon. */
  predicate ReturnedShape(r: string)
  {
    |r| == 19 && r[0] == 'D' && r[17] == ':' && r[18] == '\n' && '\n' !in r[..18]
  }

  /** The end marker: two line breaks, then a `P`, then no further line break. */
  predicate ProvideShape(m: string)
  {
    |m| >= 3 && m[0] == '\n' && m[1] == '\n' && m[2] == 'P' && '\n' !in m[2..]
  }

  lemma OpeningLines(query: string)
    requires '\n' !in query
    ensures OpeningShape(Opening(query))
    ensures Opening(query)[..11] == LlmProvider.ReasonerHeader
  {
    var o := Opening(query);
    assert o[..|o| - 2] == "User asked: \"" + query + "\"";
  }

  lemma MarkersShaped()
    ensures ReturnedShape(Returned) && ProvideShape(ProvideMarker)
    ensures LlmProvider.StartMarker == Returned && LlmProvider.EndMarker == ProvideMarker
  {
    assert Returned[..18] == "Database returned:";
    assert ProvideMarker[2..] == "Provide a clear";
  }

  /** The data marker does not start inside the opening. */
  lemma ReturnedNotBefore(prompt: string, o: string, r: string, j: nat)
    requires OpeningShape(o) && ReturnedShape(r)
    requires |o| + |r| <= |prompt| && prompt[..|o|] == o && prompt[|o|..|o| + |r|] == r
    requires j < |o|
    ensures !IsAt(prompt, r, j)
  {
    var a := |o|;
    if j + 18 < a - 2 {
      assert prompt[j + 18] == o[..a - 2][j + 18];
      assert prompt[j + 18] != r[18];
    } else if j + 18 < a {
      assert prompt[j + 17] == o[j + 17];
      assert prompt[j + 17] != r[17];
    } else if j + 18 < |prompt| {
      assert prompt[j + 18] == r[j + 18 - a];
      assert r[j + 18 - a] in r[..18];
      assert prompt[j + 18] != r[18];
    }
  }

  /** In a laid-out prompt the data marker first occurs right after the opening. */
  lemma ReturnedFirstAt(prompt: string, o: string, r: string, text: string, m: string)
    requires OpeningShape(o) && ReturnedShape(r) && Laid(prompt, o, r, text, m)
    ensures Find(prompt, r) == Some(|o|)
  {
    assert IsAt(prompt, r, |o|);
    forall j | 0 <= j < |o|
      ensures !IsAt(prompt, r, j)
    {
      ReturnedNotBefore(prompt, o, r, j);
    }
    FindIs(prompt, r, |o|);
  }

  /** The data marker the mock looks for first occurs right after the opening. */
  lemma ReturnedFoundAfterOpening(query: string, text: string)
    requires '\n' !in query
    ensures Find(Prompt(query, text), LlmProvider.StartMarker) == Some(|Opening(query)|)
  {
    PromptLayout(query, text);
    OpeningLines(query);
    MarkersShaped();
    ReturnedFirstAt(Prompt(query, text), Opening(query), Returned, text, ProvideMarker);
  }

  /** The end marker does not start in the opening or the data marker. */
  lemma ProvideNotInHead(prompt: string, o: string, r: string, text: string, m: string, j: nat)
    requires OpeningShape(o) && ReturnedShape(r) && ProvideShape(m) && Laid(prompt, o, r, text, m)
    requires text == [] || text[0] != '\n'
    requires j < |o| + |r|
    ensures !IsAt(prompt, m, j)
  {
    var a := |o|;
    var b := a + |r|;
    if j < a - 2 {
      assert prompt[j] == o[..a - 2][j];
      assert prompt[j] != m[0];
    } else if j == a - 2 {
      assert prompt[j + 2] == r[0];
      assert prompt[j + 2] != m[2];
    } else if j == a - 1 {
      assert prompt[j + 1] == r[0];
      assert prompt[j + 1] != m[1];
    } else if j < b - 1 {
      assert prompt[j] == r[j - a];
      assert r[j - a] in r[..18];
      assert prompt[j] != m[0];
    } else if text == [] {
      assert prompt[j + 2] == m[1];
      assert prompt[j + 2] != m[2];
    } else {
      assert prompt[j + 1] == text[0];
      assert prompt[j + 1] != m[1];
    }
  }

  /** The end marker does not start inside the data, given that the data does not contain it. */
  lemma ProvideNotInData(prompt: string, text: string, m: string, b: nat, j: nat)
    requires ProvideShape(m)
    requires b + |text| + |m| <= |prompt|
    requires prompt[b..b + |text|] == text
    requires prompt[b + |text|..b + |text| + |m|] == m
    requires !Contains(text, m)
    requires b <= j < b + |text|
    ensures !IsAt(prompt, m, j)
  {
    var e := b + |text|;
    if j + |m| <= e {
      if IsAt(prompt, m, j) {
        forall k | 0 <= k < |m|
          ensures text[j - b + k] == m[k]
        {
          assert prompt[b..e][j - b + k] == prompt[j + k];
          assert prompt[j..j + |m|][k] == prompt[j + k];
        }
        assert text[j - b..j - b + |m|] == m;
        ContainsAt(text, m, j - b);
      }
    } else {
      // An occurrence overlapping the real one at e would need a line
      // break of the marker to meet the marker's first character.
      var d := e - j;
      assert prompt[e] == m[0] && prompt[e + 1] == m[1];
      if d >= 2 {
        assert m[d] in m[2..];
        assert prompt[j + d] != m[d];
      } else {
        assert prompt[j + 2] != m[2];
      }
    }
  }

  /** In a laid-out prompt the end marker first occurs right after the data. */
  lemma ProvideFirstAt(prompt: string, o: string, r: string, text: string, m: string)
    requires OpeningShape(o) && ReturnedShape(r) && ProvideShape(m) && Laid(prompt, o, r, text, m)
    requires !Contains(text, m)
    requires text == [] || text[0] != '\n'
    ensures Find(prompt, m) == Some(|o| + |r| + |text|)
  {
    var b := |o| + |r|;
    var e := b + |text|;
    assert IsAt(prompt, m, e);
    forall j | 0 <= j < e
      ensures !IsAt(prompt, m, j)
    {
      if j < b {
        ProvideNotInHead(prompt, o, r, text, m, j);
      } else {
        ProvideNotInData(prompt, text, m, b, j);
      }
    }
    FindIs(prompt, m, e);
  }

  /**
   * The end marker the mock looks for first occurs right after the data,
   * provided the data does not itself contain it or start with a line break.
   */
  lemma ProvideFoundAfterData(query: string, text: string)
    requires '\n' !in query
    requires !Contains(text, ProvideMarker)
    requires text == [] || text[0] != '\n'
    ensures Find(Prompt(query, text), LlmProvider.EndMarker) ==
      Some(|Opening(query)| + |Returned| + |text|)
  {
    PromptLayout(query, text);
    OpeningLines(query);
    MarkersShaped();
    ProvideFirstAt(Prompt(query, text), Opening(query), Returned, text, ProvideMarker);
  }

  /** In a laid-out prompt the slice between the data marker and the end marker is the data. */
  lemma DataBetween(prompt: string, o: string, r: string, text: string, m: string)
    requires Laid(prompt, o, r, text, m)
    ensures LlmProvider.PySlice(prompt, |o| + |r|, |o| + |r| + |text|) == text
  {
  }

  /** The reasoner prompt starts with the header the mock recognises. */
  lemma PromptStartsWithHeader(query: string, text: string)
    requires '\n' !in query
    ensures LlmProvider.StartsWith(Prompt(query, text), LlmProvider.ReasonerHeader)
  {
    var prompt := Prompt(query, text);
    PromptLayout(query, text);
    OpeningLines(query);
    assert prompt[..11] == prompt[..|Opening(query)|][..11];
  }

  /**
   * End to end with the mock backend: the reasoner prompt starts with
   * `User asked:`, its markers are found around the serialised result, and
   * the mock answers with that text, stripped, between its fixed header
   * and footer.
   */
  lemma MockEchoesResult(query: string, text: string)
    requires '\n' !in query
    requires !Contains(text, ProvideMarker)
    requires text == [] || text[0] != '\n'
    ensures LlmProvider.CallMock(Prompt(query, text)) ==
      LlmProvider.EchoHead + Strip(text, Whitespace) + LlmProvider.EchoTail
  {
    PromptLayout(query, text);
    OpeningLines(query);
    MarkersShaped();
    EchoOfLaid(Prompt(query, text), Opening(query), Returned, text, ProvideMarker);
  }

  lemma HeaderAt(prompt: string, o: string)
    requires |o| >= 11 && |o| <= |prompt| && prompt[..|o|] == o && o[..11] == LlmProvider.ReasonerHeader
    ensures LlmProvider.StartsWith(prompt, LlmProvider.ReasonerHeader)
  {
    assert prompt[..11] == prompt[..|o|][..11];
  }

  /** The mock's echo of any prompt laid out as the reasoner lays it out. */
  lemma EchoOfLaid(prompt: string, o: string, r: string, text: string, m: string)
    requires OpeningShape(o) && ReturnedShape(r) && ProvideShape(m) && Laid(prompt, o, r, text, m)
    requires |o| >= 11 && o[..11] == LlmProvider.ReasonerHeader
    requires r == LlmProvider.StartMarker && m == LlmProvider.EndMarker
    requires !Contains(text, m)
    requires text == [] || text[0] != '\n'
    ensures LlmProvider.CallMock(prompt) == LlmProvider.EchoHead + Strip(text, Whitespace) + LlmProvider.EchoTail
  {
    ReturnedFirstAt(prompt, o, r, text, m);
    ProvideFirstAt(prompt, o, r, text, m);
    DataBetween(prompt, o, r, text, m);
    HeaderAt(prompt, o);
    LlmProvider.MockEchoes(prompt, |o|, |o| + |r| + |text|, text);
  }

  /** The model is always asked, and its answer is returned as it is. */
  lemma AlwaysAsks(p: LlmProvider.Provider, serialize: Value -> Result<string>, repr: Value -> string,
                   query: string, result: Value)
    requires ResultText(serialize, repr, result).Ok?
    requires LlmProvider.Generate(p, Prompt(query, ResultText(serialize, repr, result).value)).Ok?
    ensures Reason(p, serialize, repr, query, result).value ==
      Ok(LlmProvider.Generate(p, Prompt(query, ResultText(serialize, repr, result).value)).value)
    ensures |Reason(p, serialize, repr, query, result).events| == 1
  {
  }
}
