/** The agent graph and the run that the upload endpoint drives: the `agent`
    node appends one reasoner reply; a reply with tool calls goes to the
    `tools` node and every tools step goes back to `agent`; a reply without
    tool calls ends the run. At most 15 node executions are allowed. The final
    response is the content of the closing reply, a fixed default, or an error
    text when the run raises. */
module AgentGraph {
  import opened Values
  import opened Messages
  import opened ToolDispatch
  import opened Text

  /** What the reasoner does with the history: reply, or raise. */
  datatype Reply = Reply(content: string, toolCalls: seq<ToolCall>) | ReplyFailed(error: string)

  /** The capabilities the run depends on: the tool-bound reasoner and the tools. */
  datatype Env = Env(reason: seq<Message> -> Reply, tools: Tools)

  datatype Node = AgentNode | ToolsNode

  /** One event of the stream: the reply the agent node added, or the tool
      results the tools node added. */
  datatype Event = AgentEvent(content: string, toolCalls: seq<ToolCall>) | ToolsEvent(outputs: seq<Message>)

  /** How a run stops: at the graph's end, or by an exception. */
  datatype Ending = Ended | Aborted(error: string)

  /** A run: the history it leaves, the analysis slot, its events, its ending. */
  datatype Trace = Trace(history: seq<Message>, analysis: AnalysisSlot, events: seq<Event>, ending: Ending)

  /** The step budget of a run. */
  const StepLimit: nat := 15

  /** The message of the exception raised when the budget runs out. */
  const RecursionLimitError: string :=
    "Recursion limit of 15 reached without hitting a stop condition. You can increase the limit by setting the `recursion_limit` config key."

  const NoFinalResponse: string := "Agent did not produce a final response."
  const ErrorPrefix: string := "An error occurred: "

  /** An agent event whose reply calls no tool: the conditional edge goes to END. */
  predicate Finishes(e: Event) {
    e.AgentEvent? && e.toolCalls == []
  }

  /** The messages an event adds to the history. */
  function Added(e: Event): seq<Message> {
    match e
    case AgentEvent(content, calls) => [Ai(content, calls)]
    case ToolsEvent(outputs) => outputs
  }

  /** The messages a sequence of events adds to the history, in order. */
  function AddedAll(events: seq<Event>): seq<Message>
    decreases |events|
  {
    if events == [] then [] else Added(events[0]) + AddedAll(events[1..])
  }

  /** The graph run from `node` with `budget` node executions left. The tools
      node returns only its tool results: the analysis it writes goes into its
      own copy of the state, so every step sees the slot the run started with. */
  function Drive(node: Node, history: seq<Message>, analysis: AnalysisSlot, budget: nat, env: Env): (tr: Trace)
    requires node.ToolsNode? ==> AwaitsTools(history)
    decreases budget
  {
    if budget == 0 then Trace(history, analysis, [], Aborted(RecursionLimitError))
    else
      match node
      case AgentNode =>
        (match env.reason(history)
         case ReplyFailed(e) => Trace(history, analysis, [], Aborted(e))
         case Reply(content, calls) =>
           var e := AgentEvent(content, calls);
           var h := history + [Ai(content, calls)];
           if calls == [] then Trace(h, analysis, [e], Ended)
           else
             var rest := Drive(ToolsNode, h, analysis, budget - 1, env);
             rest.(events := [e] + rest.events))
      case ToolsNode =>
        var b := Dispatch(Last(history).toolCalls, analysis, env.tools);
        if b.failure.Some? then Trace(history, analysis, [], Aborted(b.failure.value))
        else
          var e := ToolsEvent(b.outputs);
          var rest := Drive(AgentNode, history + b.outputs, analysis, budget - 1, env);
          rest.(events := [e] + rest.events)
  }

  /** A run leaves the history it started from followed by the messages its
      events added, in order, takes at most its budget of steps, and leaves the
      analysis slot as it found it. */
  lemma {:induction false} DriveExtends(node: Node, history: seq<Message>, analysis: AnalysisSlot, budget: nat, env: Env)
    requires node.ToolsNode? ==> AwaitsTools(history)
    ensures var tr := Drive(node, history, analysis, budget, env);
      tr.history == history + AddedAll(tr.events) && |tr.events| <= budget && tr.analysis == analysis
    decreases budget, 1
  {
    if budget > 0 {
      match node
      case AgentNode => AgentExtends(history, analysis, budget, env);
      case ToolsNode => ToolsExtends(history, analysis, budget, env);
    }
  }

  /** The agent-node case of `DriveExtends`. */
  lemma {:induction false} AgentExtends(history: seq<Message>, analysis: AnalysisSlot, budget: nat, env: Env)
    requires budget > 0
    ensures var tr := Drive(AgentNode, history, analysis, budget, env);
      tr.history == history + AddedAll(tr.events) && |tr.events| <= budget && tr.analysis == analysis
    decreases budget, 0
  {
    var reply := env.reason(history);
    if reply.Reply? {
      var e := AgentEvent(reply.content, reply.toolCalls);
      var h := history + [Ai(reply.content, reply.toolCalls)];
      if reply.toolCalls == [] {
        assert AddedAll([e]) == [Ai(reply.content, reply.toolCalls)];
      } else {
        var rest := Drive(ToolsNode, h, analysis, budget - 1, env);
        var tr := Drive(AgentNode, history, analysis, budget, env);
        assert tr.events == [e] + rest.events && tr.history == rest.history && tr.analysis == rest.analysis;
        DriveExtends(ToolsNode, h, analysis, budget - 1, env);
        assert tr.events[1..] == rest.events;
        assert AddedAll(tr.events) == [Ai(reply.content, reply.toolCalls)] + AddedAll(rest.events);
        Associative(history, [Ai(reply.content, reply.toolCalls)], AddedAll(rest.events));
        assert |tr.events| == 1 + |rest.events|;
      }
    }
  }

  /** The tools-node case of `DriveExtends`. */
  lemma {:induction false} ToolsExtends(history: seq<Message>, analysis: AnalysisSlot, budget: nat, env: Env)
    requires AwaitsTools(history) && budget > 0
    ensures var tr := Drive(ToolsNode, history, analysis, budget, env);
      tr.history == history + AddedAll(tr.events) && |tr.events| <= budget && tr.analysis == analysis
    decreases budget, 0
  {
    var b := Dispatch(Last(history).toolCalls, analysis, env.tools);
    if b.failure.None? {
      var e := ToolsEvent(b.outputs);
      var rest := Drive(AgentNode, history + b.outputs, analysis, budget - 1, env);
      var tr := Drive(ToolsNode, history, analysis, budget, env);
      assert tr.events == [e] + rest.events && tr.history == rest.history && tr.analysis == rest.analysis;
      DriveExtends(AgentNode, history + b.outputs, analysis, budget - 1, env);
      assert tr.events[1..] == rest.events;
      assert AddedAll(tr.events) == b.outputs + AddedAll(rest.events);
      Associative(history, b.outputs, AddedAll(rest.events));
      assert |tr.events| == 1 + |rest.events|;
    }
  }

  /** No event before the last is a reply without tool calls. */
  predicate OnlyLastFinishes(events: seq<Event>) {
    forall i :: 0 <= i < |events| - 1 ==> !Finishes(events[i])
  }

  /** Agent and tools events take turns. */
  predicate Alternating(events: seq<Event>) {
    forall i :: 0 <= i < |events| - 1 ==> (events[i].AgentEvent? <==> events[i + 1].ToolsEvent?)
  }

  /** An event that does not finish, put in front of events of which only the
      last may finish. */
  lemma ConsOnlyLast(e: Event, events: seq<Event>)
    requires !Finishes(e) && OnlyLastFinishes(events)
    ensures OnlyLastFinishes([e] + events)
    ensures events != [] ==> ([e] + events)[|events|] == events[|events| - 1]
  {
    forall i | 0 < i < |events| ensures ([e] + events)[i] == events[i - 1] {
    }
  }

  /** The last of an event put in front of events. */
  lemma LastOfCons(e: Event, events: seq<Event>)
    ensures events == [] ==> [e] + events == [e]
    ensures events != [] ==> ([e] + events)[|events|] == events[|events| - 1]
  {
  }

  /** An event put in front of alternating events it alternates with. */
  lemma ConsAlternating(e: Event, events: seq<Event>)
    requires Alternating(events)
    requires events != [] ==> (e.AgentEvent? <==> events[0].ToolsEvent?)
    ensures Alternating([e] + events)
  {
    forall i | 0 < i < |events| ensures ([e] + events)[i] == events[i - 1] && ([e] + events)[i + 1] == events[i] {
    }
  }

  /** Only the last event of a run may be a reply without tool calls, and it
      is one exactly when the run ended at the graph's end. */
  lemma {:induction false} DriveFinishes(node: Node, history: seq<Message>, analysis: AnalysisSlot, budget: nat, env: Env)
    requires node.ToolsNode? ==> AwaitsTools(history)
    ensures var tr := Drive(node, history, analysis, budget, env);
      && OnlyLastFinishes(tr.events)
      && (tr.ending.Ended? <==> tr.events != [] && Finishes(tr.events[|tr.events| - 1]))
    decreases budget, 1
  {
    if budget > 0 {
      match node
      case AgentNode => AgentFinishes(history, analysis, budget, env);
      case ToolsNode => ToolsFinishes(history, analysis, budget, env);
    }
  }

  /** The agent-node case of `DriveFinishes`. */
  lemma {:induction false} AgentFinishes(history: seq<Message>, analysis: AnalysisSlot, budget: nat, env: Env)
    requires budget > 0
    ensures var tr := Drive(AgentNode, history, analysis, budget, env);
      && OnlyLastFinishes(tr.events)
      && (tr.ending.Ended? <==> tr.events != [] && Finishes(tr.events[|tr.events| - 1]))
    decreases budget, 0
  {
    var reply := env.reason(history);
    if reply.Reply? && reply.toolCalls != [] {
      var e := AgentEvent(reply.content, reply.toolCalls);
      var h := history + [Ai(reply.content, reply.toolCalls)];
      var rest := Drive(ToolsNode, h, analysis, budget - 1, env);
      var tr := Drive(AgentNode, history, analysis, budget, env);
      assert tr.events == [e] + rest.events && tr.ending == rest.ending;
      DriveFinishes(ToolsNode, h, analysis, budget - 1, env);
      ConsOnlyLast(e, rest.events);
      LastOfCons(e, rest.events);
    }
  }

  /** The tools-node case of `DriveFinishes`. */
  lemma {:induction false} ToolsFinishes(history: seq<Message>, analysis: AnalysisSlot, budget: nat, env: Env)
    requires AwaitsTools(history) && budget > 0
    ensures var tr := Drive(ToolsNode, history, analysis, budget, env);
      && OnlyLastFinishes(tr.events)
      && (tr.ending.Ended? <==> tr.events != [] && Finishes(tr.events[|tr.events| - 1]))
    decreases budget, 0
  {
    var b := Dispatch(Last(history).toolCalls, analysis, env.tools);
    if b.failure.None? {
      var e := ToolsEvent(b.outputs);
      var rest := Drive(AgentNode, history + b.outputs, analysis, budget - 1, env);
      var tr := Drive(ToolsNode, history, analysis, budget, env);
      assert tr.events == [e] + rest.events && tr.ending == rest.ending;
      DriveFinishes(AgentNode, history + b.outputs, analysis, budget - 1, env);
      ConsOnlyLast(e, rest.events);
      LastOfCons(e, rest.events);
    }
  }

  /** Agent and tools events alternate, from the node the run starts at. */
  lemma {:induction false} DriveAlternates(node: Node, history: seq<Message>, analysis: AnalysisSlot, budget: nat, env: Env)
    requires node.ToolsNode? ==> AwaitsTools(history)
    ensures var tr := Drive(node, history, analysis, budget, env);
      && (tr.events != [] ==> (tr.events[0].AgentEvent? <==> node.AgentNode?))
      && Alternating(tr.events)
    decreases budget, 1
  {
    if budget > 0 {
      match node
      case AgentNode => AgentAlternates(history, analysis, budget, env);
      case ToolsNode => ToolsAlternates(history, analysis, budget, env);
    }
  }

  /** The agent-node case of `DriveAlternates`. */
  lemma {:induction false} AgentAlternates(history: seq<Message>, analysis: AnalysisSlot, budget: nat, env: Env)
    requires budget > 0
    ensures var tr := Drive(AgentNode, history, analysis, budget, env);
      && (tr.events != [] ==> tr.events[0].AgentEvent?)
      && Alternating(tr.events)
    decreases budget, 0
  {
    var reply := env.reason(history);
    if reply.Reply? && reply.toolCalls != [] {
      var e := AgentEvent(reply.content, reply.toolCalls);
      var h := history + [Ai(reply.content, reply.toolCalls)];
      var rest := Drive(ToolsNode, h, analysis, budget - 1, env);
      var tr := Drive(AgentNode, history, analysis, budget, env);
      assert tr.events == [e] + rest.events;
      DriveAlternates(ToolsNode, h, analysis, budget - 1, env);
      ConsAlternating(e, rest.events);
    }
  }

  /** The tools-node case of `DriveAlternates`. */
  lemma {:induction false} ToolsAlternates(history: seq<Message>, analysis: AnalysisSlot, budget: nat, env: Env)
    requires AwaitsTools(history) && budget > 0
    ensures var tr := Drive(ToolsNode, history, analysis, budget, env);
      && (tr.events != [] ==> tr.events[0].ToolsEvent?)
      && Alternating(tr.events)
    decreases budget, 0
  {
    var b := Dispatch(Last(history).toolCalls, analysis, env.tools);
    if b.failure.None? {
      var e := ToolsEvent(b.outputs);
      var rest := Drive(AgentNode, history + b.outputs, analysis, budget - 1, env);
      var tr := Drive(ToolsNode, history, analysis, budget, env);
      assert tr.events == [e] + rest.events;
      DriveAlternates(AgentNode, history + b.outputs, analysis, budget - 1, env);
      ConsAlternating(e, rest.events);
    }
  }

  /** The final response after one more event of the stream. */
  function Select(final: string, e: Event): string {
    if Finishes(e) && e.content != "" then e.content else final
  }

  /** The final response after a sequence of events, from `final`. */
  function FinalOver(events: seq<Event>, final: string): string
    decreases |events|
  {
    if events == [] then final else FinalOver(events[1..], Select(final, events[0]))
  }

  /** The response the endpoint returns for a run. */
  function FinalResponse(tr: Trace): string {
    if tr.ending.Aborted? then ErrorPrefix + tr.ending.error
    else FinalOver(tr.events, NoFinalResponse)
  }

  /** Events before the last that do not finish leave the response to the last one. */
  lemma {:induction false} FinalOverLast(events: seq<Event>, final: string)
    requires events != []
    requires OnlyLastFinishes(events)
    ensures FinalOver(events, final) == Select(final, events[|events| - 1])
    decreases |events|
  {
    if |events| > 1 {
      FinalOverLast(events[1..], final);
    }
  }

  /** The history only grows: each run extends the history it starts from. */
  lemma HistoryOnlyGrows(node: Node, history: seq<Message>, analysis: AnalysisSlot, budget: nat, env: Env)
    requires node.ToolsNode? ==> AwaitsTools(history)
    ensures history <= Drive(node, history, analysis, budget, env).history
  {
    var tr := Drive(node, history, analysis, budget, env);
    DriveExtends(node, history, analysis, budget, env);
    assert tr.history[..|history|] == history;
  }

  /** The response of a run: the error text when it raised; otherwise the run
      closed with a reply without tool calls, and the response is that reply's
      content, or the default when the content is empty. */
  lemma FinalResponseShape(node: Node, history: seq<Message>, analysis: AnalysisSlot, budget: nat, env: Env)
    requires node.ToolsNode? ==> AwaitsTools(history)
    ensures var tr := Drive(node, history, analysis, budget, env);
      && (tr.ending.Aborted? ==> FinalResponse(tr) == ErrorPrefix + tr.ending.error)
      && (tr.ending.Ended? ==>
            tr.history != [] && Last(tr.history).Ai? && Last(tr.history).toolCalls == []
            && FinalResponse(tr) ==
                 (if Last(tr.history).content != "" then Last(tr.history).content else NoFinalResponse))
  {
    var tr := Drive(node, history, analysis, budget, env);
    DriveExtends(node, history, analysis, budget, env);
    DriveFinishes(node, history, analysis, budget, env);
    if tr.ending.Ended? {
      var n := |tr.events|;
      var last := tr.events[n - 1];
      FinalOverLast(tr.events, NoFinalResponse);
      SplitLast(tr.events);
      AddedAllSnoc(tr.events[..n - 1], last);
      assert Added(last) == [Ai(last.content, [])];
      assert tr.history == (history + AddedAll(tr.events[..n - 1])) + [Ai(last.content, [])];
      assert Last(tr.history) == Ai(last.content, []);
    }
  }

  /** A non-empty sequence is its front and its last element. */
  lemma SplitLast<T>(s: seq<T>)
    requires s != []
    ensures s[..|s| - 1] + [s[|s| - 1]] == s
  {
  }

  /** The messages of events then one more event. */
  lemma {:induction false} AddedAllSnoc(events: seq<Event>, e: Event)
    ensures AddedAll(events + [e]) == AddedAll(events) + Added(e)
    decreases |events|
  {
    if events == [] {
      assert [e][1..] == [];
    } else {
      assert (events + [e])[1..] == events[1..] + [e];
      AddedAllSnoc(events[1..], e);
    }
  }

  /** The reasoner always calls tools, by names that resolve, and no tool raises. */
  ghost predicate AlwaysCallsTools(env: Env) {
    && (forall h :: env.reason(h).Reply? && env.reason(h).toolCalls != [])
    && (forall h, c :: c in env.reason(h).toolCalls ==> Resolve(c.name).Some?)
    && (forall s :: !env.tools.parse(s).ParseThrew?)
    && (forall t, args :: env.tools.invoke(t, args).Returned?)
  }

  /** A reasoner that always calls tools runs the budget out: the run takes
      every step it is allowed and aborts with the recursion-limit error. */
  lemma {:induction false} StepCapAborts(node: Node, history: seq<Message>, analysis: AnalysisSlot, budget: nat, env: Env)
    requires AlwaysCallsTools(env)
    requires node.ToolsNode? ==> AwaitsTools(history)
    requires node.ToolsNode? ==> forall c :: c in Last(history).toolCalls ==> Resolve(c.name).Some?
    ensures var tr := Drive(node, history, analysis, budget, env);
      |tr.events| == budget && tr.ending == Aborted(RecursionLimitError)
    decreases budget, 1
  {
    if budget > 0 {
      match node
      case AgentNode => AgentCapAborts(history, analysis, budget, env);
      case ToolsNode => ToolsCapAborts(history, analysis, budget, env);
    }
  }

  /** The agent-node case of `StepCapAborts`. */
  lemma {:induction false} AgentCapAborts(history: seq<Message>, analysis: AnalysisSlot, budget: nat, env: Env)
    requires AlwaysCallsTools(env) && budget > 0
    ensures var tr := Drive(AgentNode, history, analysis, budget, env);
      |tr.events| == budget && tr.ending == Aborted(RecursionLimitError)
    decreases budget, 0
  {
    var reply := env.reason(history);
    assert reply.Reply? && reply.toolCalls != [];
    assert forall c :: c in reply.toolCalls ==> Resolve(c.name).Some?;
    var h := history + [Ai(reply.content, reply.toolCalls)];
    assert Last(h) == Ai(reply.content, reply.toolCalls);
    var rest := Drive(ToolsNode, h, analysis, budget - 1, env);
    var tr := Drive(AgentNode, history, analysis, budget, env);
    assert tr.events == [AgentEvent(reply.content, reply.toolCalls)] + rest.events && tr.ending == rest.ending;
    StepCapAborts(ToolsNode, h, analysis, budget - 1, env);
  }

  /** The tools-node case of `StepCapAborts`. */
  lemma {:induction false} ToolsCapAborts(history: seq<Message>, analysis: AnalysisSlot, budget: nat, env: Env)
    requires AlwaysCallsTools(env)
    requires AwaitsTools(history) && budget > 0
    requires forall c :: c in Last(history).toolCalls ==> Resolve(c.name).Some?
    ensures var tr := Drive(ToolsNode, history, analysis, budget, env);
      |tr.events| == budget && tr.ending == Aborted(RecursionLimitError)
    decreases budget, 0
  {
    var calls := Last(history).toolCalls;
    forall i | 0 <= i < |calls| ensures Resolve(calls[i].name).Some? {
      assert calls[i] in calls;
    }
    NoAbortWhenResolved(calls, analysis, env.tools);
    var b := Dispatch(calls, analysis, env.tools);
    var rest := Drive(AgentNode, history + b.outputs, analysis, budget - 1, env);
    var tr := Drive(ToolsNode, history, analysis, budget, env);
    assert tr.events == [ToolsEvent(b.outputs)] + rest.events && tr.ending == rest.ending;
    StepCapAborts(AgentNode, history + b.outputs, analysis, budget - 1, env);
  }

  /** From the request on, such a run executes 15 nodes and then answers with
      the recursion-limit error. */
  lemma StepCapResponse(request: string, env: Env)
    requires AlwaysCallsTools(env)
    ensures var tr := Drive(AgentNode, [Human(request)], Absent, StepLimit, env);
      && |tr.events| == StepLimit
      && FinalResponse(tr) == ErrorPrefix + RecursionLimitError
  {
    StepCapAborts(AgentNode, [Human(request)], Absent, StepLimit, env);
  }

  /** `upload_file` from the initial message on: stream the graph, keep the
      content of a reply without tool calls as the response, and answer with
      the error text when the run raises. */
  method Upload(request: string, env: Env) returns (final: string)
    ensures final == FinalResponse(Drive(AgentNode, [Human(request)], Absent, StepLimit, env))
  {
    final := NoFinalResponse;
    var history := [Human(request)];
    var analysis: AnalysisSlot := Absent;
    var node := AgentNode;
    var budget := StepLimit;
    ghost var total := Drive(node, history, analysis, budget, env);
    var done := false;
    while !done
      invariant node.ToolsNode? ==> AwaitsTools(history)
      invariant !done ==> total.ending == Drive(node, history, analysis, budget, env).ending
      invariant !done ==>
        FinalOver(total.events, NoFinalResponse) == FinalOver(Drive(node, history, analysis, budget, env).events, final)
      invariant done ==> final == FinalResponse(total)
      decreases budget, !done
    {
      if budget == 0 {
        final := ErrorPrefix + RecursionLimitError;
        done := true;
      } else if node.AgentNode? {
        var reply := env.reason(history);
        if reply.ReplyFailed? {
          final := ErrorPrefix + reply.error;
          done := true;
        } else {
          var message := Ai(reply.content, reply.toolCalls);
          history := history + [message];
          if message.toolCalls == [] && message.content != "" {
            final := message.content;
          }
          if reply.toolCalls == [] {
            done := true;
          } else {
            node := ToolsNode;
            budget := budget - 1;
          }
        }
      } else {
        var state := new AgentState(history, analysis);
        var r := state.ToolNode(env.tools);
        match r
        case NodeRaised(e) =>
          final := ErrorPrefix + e;
          done := true;
        case Emitted(outputs) =>
          history := history + outputs;
          node := AgentNode;
          budget := budget - 1;
      }
    }
  }
}
