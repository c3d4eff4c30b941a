/**
 * What an agent did besides computing its answer: the prompts it sent to
 * the language model and the tools it invoked, in order.
 */
module Trace {
  import Py

  datatype Event =
    | LlmCall(prompt: string)
    | ToolCall(tool: string, arg: Py.Value)

  /** A stage's answer together with the calls it made. */
  datatype Traced<+T> = Traced(value: T, events: seq<Event>)

  /** The tool invocations among `events`, in order. */
  function ToolCalls(events: seq<Event>): (r: seq<Event>)
    ensures |r| <= |events|
    ensures forall e :: e in r <==> e in events && e.ToolCall?
  {
    if events == [] then []
    else (if events[0].ToolCall? then [events[0]] else []) + ToolCalls(events[1..])
  }

  lemma {:induction false} ToolCallsConcat(a: seq<Event>, b: seq<Event>)
    ensures ToolCalls(a + b) == ToolCalls(a) + ToolCalls(b)
  {
    if a == [] {
      assert a + b == b;
    } else {
      assert (a + b)[0] == a[0];
      assert (a + b)[1..] == a[1..] + b;
      ToolCallsConcat(a[1..], b);
    }
  }

  /** Every tool invoked in `events` is one of `names`. */
  predicate OnlyTools(events: seq<Event>, names: set<string>)
  {
    forall e :: e in events && e.ToolCall? ==> e.tool in names
  }

  lemma {:induction false} NoToolCalls(events: seq<Event>)
    requires forall e :: e in events ==> e.LlmCall?
    ensures ToolCalls(events) == []
  {
    if events != [] {
      assert events[0] in events;
      NoToolCalls(events[1..]);
    }
  }

  /**
   * A request's log built from a planning call, the executor's calls (at
   * most one tool) and model calls that only follow a tool call: the
   * planning call comes first, a tool call second, and the tools invoked are
   * exactly the executor's.
   */
  lemma StagedLog(head: Event, exec: seq<Event>, tail: seq<Event>, names: set<string>)
    requires head.LlmCall?
    requires |ToolCalls(exec)| <= 1 && |exec| == |ToolCalls(exec)| && OnlyTools(exec, names)
    requires forall e :: e in tail ==> e.LlmCall?
    requires tail != [] ==> exec != []
    ensures var log := [head] + exec + tail;
      log[0] == head && ToolCalls(log) == ToolCalls(exec) && |ToolCalls(log)| <= 1 &&
      OnlyTools(log, names) && (|log| > 1 ==> log[1].ToolCall?)
  {
    var log := [head] + exec + tail;
    ToolCallsConcat([head], exec);
    ToolCallsConcat([head] + exec, tail);
    assert ToolCalls([head]) == [] + ToolCalls([]);
    NoToolCalls(tail);
    if exec != [] {
      assert exec == [exec[0]];
      assert ToolCalls(exec) == (if exec[0].ToolCall? then [exec[0]] else []) + ToolCalls([]);
      assert log[1] == exec[0];
    }
    forall e | e in log && e.ToolCall?
      ensures e.tool in names
    {
      assert e in ToolCalls(log);
    }
  }
}
