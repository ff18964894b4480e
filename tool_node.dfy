/** The tools node of the agent graph: it runs the tool calls of the latest
    reasoner reply in order, repairs a stringified `data` argument of the
    insert tool, stops at an unknown tool name or a tool that raises, keeps the
    analysis tool's output in the state, and answers each call with one tool
    result carrying the call's id. */
module ToolDispatch {
  import opened Values
  import opened Messages

  /** The four tools bound to the reasoner. */
  datatype ToolName = AnalyzeIdCard | CheckDuplicateNik | InsertIdCard | NotifyFraud

  /** The name under which a tool is registered. */
  function Name(t: ToolName): string {
    match t
    case AnalyzeIdCard => "analyze_id_card_tool"
    case CheckDuplicateNik => "check_duplicate_nik_tool"
    case InsertIdCard => "insert_id_card_tool"
    case NotifyFraud => "notify_fraud_tool"
  }

  /** The lookup of a tool by name in the tool list; `None` for an unknown name. */
  function Resolve(name: string): (r: Option<ToolName>)
    ensures r.Some? ==> Name(r.value) == name
    ensures forall t :: Name(t) == name ==> r == Some(t)
  {
    if name == "analyze_id_card_tool" then Some(AnalyzeIdCard)
    else if name == "check_duplicate_nik_tool" then Some(CheckDuplicateNik)
    else if name == "insert_id_card_tool" then Some(InsertIdCard)
    else if name == "notify_fraud_tool" then Some(NotifyFraud)
    else None
  }

  /** What a tool invocation does: it returns a value or raises with a message. */
  datatype ToolReturn = Returned(value: Value) | Threw(error: string)

  /** What `ast.literal_eval` does with a string: it gives a value, raises the
      `ValueError` or `SyntaxError` that the repair catches, or raises any other
      exception, which the repair lets through. */
  datatype Literal = Parsed(value: Value) | Malformed | ParseThrew(error: string)

  /** The capabilities the tools node relies on and that are outside this model:
      `ast.literal_eval`, the tools themselves, and `str()` of a tool's output. */
  datatype Tools = Tools(
    parse: string -> Literal,
    invoke: (ToolName, map<string, Value>) -> ToolReturn,
    show: Value -> string)

  const MalformedDataError: string :=
    "Error: The 'data' argument was a malformed string and could not be parsed."

  /** The message of the `ValueError` raised for an unknown tool name. */
  function NotFoundError(name: string): string {
    "Tool '" + name + "' not found."
  }

  /** The repair applies to the insert tool's `data` argument when it is a string. */
  predicate RepairApplies(call: ToolCall) {
    call.name == "insert_id_card_tool" && Get(call.args, "data").Str?
  }

  /** The outcome of the repair: the arguments the tool receives, a caught
      parse failure, or an exception that leaves the tools node. */
  datatype Repair = ArgsReady(args: map<string, Value>) | ArgsMalformed | ArgsRaised(error: string)

  /** The repair of a call's arguments. */
  function RepairArgs(call: ToolCall, parse: string -> Literal): (r: Repair)
    ensures !RepairApplies(call) ==> r == ArgsReady(call.args)
    ensures RepairApplies(call) ==> (r.ArgsMalformed? <==> parse(call.args["data"].s).Malformed?)
    ensures RepairApplies(call) ==> (r.ArgsRaised? <==> parse(call.args["data"].s).ParseThrew?)
    ensures r.ArgsRaised? ==> parse(call.args["data"].s) == ParseThrew(r.error)
  {
    if RepairApplies(call) then
      match parse(call.args["data"].s)
      case Malformed => ArgsMalformed
      case ParseThrew(e) => ArgsRaised(e)
      case Parsed(v) => ArgsReady(call.args["data" := v])
    else ArgsReady(call.args)
  }

  /** The repair only ever replaces the `data` argument, by the parsed value. */
  lemma RepairOnlyTouchesData(call: ToolCall, parse: string -> Literal)
    requires RepairArgs(call, parse).ArgsReady?
    ensures var args := RepairArgs(call, parse).args;
      && args.Keys == call.args.Keys
      && (forall k :: k in args && k != "data" ==> args[k] == call.args[k])
      && ("data" in args && args["data"] != call.args["data"] ==>
            RepairApplies(call) && parse(call.args["data"].s) == Parsed(args["data"]))
      && (RepairApplies(call) ==> parse(call.args["data"].s) == Parsed(args["data"]))
  {
  }

  /** One tool invocation: which tool, with which arguments, and its outcome. */
  datatype Invocation = Invocation(tool: ToolName, args: map<string, Value>, result: ToolReturn)

  /** The tools node part way through a batch: the tool results so far, the
      invocations made, the analysis slot, and the error that aborted the
      batch, if any. */
  datatype Batch = Batch(
    outputs: seq<Message>,
    log: seq<Invocation>,
    analysis: AnalysisSlot,
    failure: Option<string>)

  /** One call of the batch. */
  function Step(b: Batch, call: ToolCall, tools: Tools): Batch
    requires b.failure.None?
  {
    match RepairArgs(call, tools.parse)
    case ArgsMalformed =>
      b.(outputs := b.outputs + [ToolResult(MalformedDataError, call.id)])
    case ArgsRaised(e) => b.(failure := Some(e))
    case ArgsReady(args) =>
      match Resolve(call.name)
      case None => b.(failure := Some(NotFoundError(call.name)))
      case Some(t) =>
        var r := tools.invoke(t, args);
        var b' := b.(log := b.log + [Invocation(t, args, r)]);
        match r
        case Threw(e) => b'.(failure := Some(e))
        case Returned(v) =>
          b'.(outputs := b.outputs + [ToolResult(tools.show(v), call.id)],
              analysis := if call.name == "analyze_id_card_tool" then Present(v) else b.analysis)
  }

  /** The content of the tool result answering one call that does not abort:
      the fixed error text for a malformed `data` string, otherwise `str()` of
      the output of the tool the call names, invoked with its repaired
      arguments. Empty for a call that aborts the batch. */
  function Answer(call: ToolCall, tools: Tools): string {
    match RepairArgs(call, tools.parse)
    case ArgsMalformed => MalformedDataError
    case ArgsRaised(_) => ""
    case ArgsReady(args) =>
      match Resolve(call.name)
      case None => ""
      case Some(t) =>
        match tools.invoke(t, args)
        case Returned(v) => tools.show(v)
        case Threw(_) => ""
  }

  /** The whole batch, call by call, from the analysis slot the state held. */
  function Dispatch(calls: seq<ToolCall>, analysis: AnalysisSlot, tools: Tools): Batch
    decreases |calls|
  {
    if calls == [] then Batch([], [], analysis, None)
    else
      var b := Dispatch(calls[..|calls| - 1], analysis, tools);
      if b.failure.Some? then b else Step(b, calls[|calls| - 1], tools)
  }

  /** The batch extended by one call. */
  lemma DispatchSnoc(calls: seq<ToolCall>, c: ToolCall, analysis: AnalysisSlot, tools: Tools)
    ensures var b := Dispatch(calls, analysis, tools);
      Dispatch(calls + [c], analysis, tools) == if b.failure.Some? then b else Step(b, c, tools)
  {
    assert (calls + [c])[..|calls|] == calls;
  }

  /** The batch of the first `i + 1` calls. */
  lemma DispatchPrefix(calls: seq<ToolCall>, i: nat, analysis: AnalysisSlot, tools: Tools)
    requires i < |calls|
    ensures var b := Dispatch(calls[..i], analysis, tools);
      Dispatch(calls[..i + 1], analysis, tools) == if b.failure.Some? then b else Step(b, calls[i], tools)
  {
    assert calls[..i + 1] == calls[..i] + [calls[i]];
    DispatchSnoc(calls[..i], calls[i], analysis, tools);
  }

  /** Once a call has aborted the batch, no later call runs. */
  lemma {:induction false} DispatchStops(calls: seq<ToolCall>, k: nat, analysis: AnalysisSlot, tools: Tools)
    requires k <= |calls| && Dispatch(calls[..k], analysis, tools).failure.Some?
    ensures Dispatch(calls, analysis, tools) == Dispatch(calls[..k], analysis, tools)
    decreases |calls| - k
  {
    if k < |calls| {
      DispatchPrefix(calls, k, analysis, tools);
      DispatchStops(calls, k + 1, analysis, tools);
    } else {
      assert calls[..k] == calls;
    }
  }

  /** Without an abort, the batch answers every call with exactly one tool
      result, in call order, carrying that call's id. */
  lemma {:induction false} DispatchOneToOne(calls: seq<ToolCall>, analysis: AnalysisSlot, tools: Tools)
    requires Dispatch(calls, analysis, tools).failure.None?
    ensures var out := Dispatch(calls, analysis, tools).outputs;
      && |out| == |calls|
      && forall i :: 0 <= i < |calls| ==> out[i].ToolResult? && out[i].toolCallId == calls[i].id
    decreases |calls|
  {
    if calls != [] {
      var init := calls[..|calls| - 1];
      var b := Dispatch(init, analysis, tools);
      assert b.failure.None?;
      var out := Step(b, calls[|calls| - 1], tools).outputs;
      assert Dispatch(calls, analysis, tools).outputs == out;
      DispatchOneToOne(init, analysis, tools);
      StepAnswers(b, calls[|calls| - 1], tools);
      forall i | 0 <= i < |calls| ensures out[i].ToolResult? && out[i].toolCallId == calls[i].id {
        if i < |init| {
          assert out[i] == out[..|b.outputs|][i] == b.outputs[i];
          assert calls[i] == init[i];
        }
      }
    }
  }

  /** Without an abort, the tool result answering call `i` says what `Answer`
      gives for that call: the malformed-string error, or `str()` of the
      output of the tool it names. */
  lemma {:induction false} DispatchContents(calls: seq<ToolCall>, analysis: AnalysisSlot, tools: Tools)
    requires Dispatch(calls, analysis, tools).failure.None?
    ensures var out := Dispatch(calls, analysis, tools).outputs;
      && |out| == |calls|
      && forall i :: 0 <= i < |calls| ==> out[i].content == Answer(calls[i], tools)
    decreases |calls|
  {
    if calls != [] {
      var init := calls[..|calls| - 1];
      var b := Dispatch(init, analysis, tools);
      assert b.failure.None?;
      var out := Step(b, calls[|calls| - 1], tools).outputs;
      assert Dispatch(calls, analysis, tools).outputs == out;
      DispatchContents(init, analysis, tools);
      StepAnswers(b, calls[|calls| - 1], tools);
      forall i | 0 <= i < |calls| ensures out[i].content == Answer(calls[i], tools) {
        if i < |init| {
          assert out[i] == out[..|b.outputs|][i] == b.outputs[i];
          assert calls[i] == init[i];
        }
      }
    }
  }

  /** A call that does not abort the batch adds one tool result, carrying its id. */
  lemma StepAnswers(b: Batch, call: ToolCall, tools: Tools)
    requires b.failure.None?
    ensures var b' := Step(b, call, tools);
      b'.failure.None? ==>
        && |b'.outputs| == |b.outputs| + 1
        && b'.outputs[..|b.outputs|] == b.outputs
        && b'.outputs[|b.outputs|].ToolResult?
        && b'.outputs[|b.outputs|].toolCallId == call.id
        && b'.outputs[|b.outputs|].content == Answer(call, tools)
  {
  }

  /** A malformed `data` string yields the fixed error result for that call; the
      tool is not invoked and the batch goes on. */
  lemma MalformedContinues(calls: seq<ToolCall>, i: nat, analysis: AnalysisSlot, tools: Tools)
    requires i < |calls| && Dispatch(calls[..i], analysis, tools).failure.None?
    requires RepairApplies(calls[i]) && tools.parse(calls[i].args["data"].s).Malformed?
    ensures var b := Dispatch(calls[..i], analysis, tools);
      Dispatch(calls[..i + 1], analysis, tools)
        == b.(outputs := b.outputs + [ToolResult(MalformedDataError, calls[i].id)])
  {
    DispatchPrefix(calls, i, analysis, tools);
  }

  /** An unknown tool name aborts the batch with the not-found error; the calls
      before it have been invoked and nothing after it is. */
  lemma UnknownNameAborts(calls: seq<ToolCall>, i: nat, analysis: AnalysisSlot, tools: Tools)
    requires i < |calls| && Dispatch(calls[..i], analysis, tools).failure.None?
    requires RepairArgs(calls[i], tools.parse).ArgsReady? && Resolve(calls[i].name).None?
    ensures var b, b' := Dispatch(calls[..i], analysis, tools), Dispatch(calls, analysis, tools);
      b' == b.(failure := Some(NotFoundError(calls[i].name)))
  {
    DispatchPrefix(calls, i, analysis, tools);
    DispatchStops(calls, i + 1, analysis, tools);
  }

  /** An exception of the parser other than the two the repair catches aborts
      the batch with that exception, before the tool is looked up. */
  lemma ParseErrorAborts(calls: seq<ToolCall>, i: nat, analysis: AnalysisSlot, tools: Tools)
    requires i < |calls| && Dispatch(calls[..i], analysis, tools).failure.None?
    requires RepairApplies(calls[i]) && tools.parse(calls[i].args["data"].s).ParseThrew?
    ensures var b, b' := Dispatch(calls[..i], analysis, tools), Dispatch(calls, analysis, tools);
      b' == b.(failure := Some(tools.parse(calls[i].args["data"].s).error))
  {
    DispatchPrefix(calls, i, analysis, tools);
    DispatchStops(calls, i + 1, analysis, tools);
  }

  /** The calls that pass the repair, with the arguments they are invoked with:
      the reference for the invocation log. */
  function Repaired(calls: seq<ToolCall>, parse: string -> Literal): seq<ToolCall>
    decreases |calls|
  {
    if calls == [] then []
    else
      var init := Repaired(calls[..|calls| - 1], parse);
      var c := calls[|calls| - 1];
      match RepairArgs(c, parse)
      case ArgsReady(args) => init + [c.(args := args)]
      case _ => init
  }

  /** Without an abort, the tools invoked are exactly the calls that pass the
      repair, in order, each by its own name and with its repaired arguments. */
  lemma {:induction false} DispatchInvokes(calls: seq<ToolCall>, analysis: AnalysisSlot, tools: Tools)
    requires Dispatch(calls, analysis, tools).failure.None?
    ensures var log, rep := Dispatch(calls, analysis, tools).log, Repaired(calls, tools.parse);
      && |log| == |rep|
      && forall j :: 0 <= j < |log| ==>
           && Name(log[j].tool) == rep[j].name && log[j].args == rep[j].args
           && log[j].result == tools.invoke(log[j].tool, log[j].args) && log[j].result.Returned?
    decreases |calls|
  {
    if calls != [] {
      DispatchInvokes(calls[..|calls| - 1], analysis, tools);
    }
  }

  /** The analysis slot a log leaves: the output of the last analysis
      invocation that returned, or the slot as it was. */
  function LastAnalysis(log: seq<Invocation>, analysis: AnalysisSlot): AnalysisSlot
    decreases |log|
  {
    if log == [] then analysis
    else
      var inv := log[|log| - 1];
      if inv.tool == AnalyzeIdCard && inv.result.Returned? then Present(inv.result.value)
      else LastAnalysis(log[..|log| - 1], analysis)
  }

  /** The slot only ever changes through the analysis tool: after the batch,
      aborted or not, it holds the last analysis output returned. */
  lemma {:induction false} DispatchAnalysis(calls: seq<ToolCall>, analysis: AnalysisSlot, tools: Tools)
    ensures var b := Dispatch(calls, analysis, tools);
      b.analysis == LastAnalysis(b.log, analysis)
    decreases |calls|
  {
    if calls != [] {
      var init := calls[..|calls| - 1];
      DispatchAnalysis(init, analysis, tools);
      var b := Dispatch(init, analysis, tools);
      if b.failure.None? {
        var c := calls[|calls| - 1];
        var b' := Step(b, c, tools);
        if |b'.log| != |b.log| {
          assert b'.log[..|b'.log| - 1] == b.log;
        }
      }
    }
  }

  /** No invocation of the analysis tool leaves the slot as it was. */
  lemma {:induction false} NoAnalysisKeepsSlot(log: seq<Invocation>, analysis: AnalysisSlot)
    requires forall j :: 0 <= j < |log| ==> log[j].tool != AnalyzeIdCard
    ensures LastAnalysis(log, analysis) == analysis
    decreases |log|
  {
    if log != [] {
      NoAnalysisKeepsSlot(log[..|log| - 1], analysis);
    }
  }

  /** A batch whose names all resolve, when neither the parser nor a tool
      raises, is never aborted. */
  lemma {:induction false} NoAbortWhenResolved(calls: seq<ToolCall>, analysis: AnalysisSlot, tools: Tools)
    requires forall i :: 0 <= i < |calls| ==> Resolve(calls[i].name).Some?
    requires forall s :: !tools.parse(s).ParseThrew?
    requires forall t, args :: tools.invoke(t, args).Returned?
    ensures Dispatch(calls, analysis, tools).failure.None?
    decreases |calls|
  {
    if calls != [] {
      NoAbortWhenResolved(calls[..|calls| - 1], analysis, tools);
    }
  }

  /** The outcome of the tools node: the tool results it returns for the
      history, or the exception that leaves it. */
  datatype NodeResult = Emitted(outputs: seq<Message>) | NodeRaised(error: string)

  /** The agent state the nodes receive. */
  class AgentState {
    var messages: seq<Message>
    var analysisResult: AnalysisSlot

    constructor (messages: seq<Message>, analysisResult: AnalysisSlot)
      ensures this.messages == messages && this.analysisResult == analysisResult
    {
      this.messages := messages;
      this.analysisResult := analysisResult;
    }

    /** `tool_node`: run the calls of the latest reply; the analysis output is
        written into the state as it is produced, even when a later call aborts. */
    method ToolNode(tools: Tools) returns (r: NodeResult)
      requires messages != [] && Last(messages).Ai?
      modifies this`analysisResult
      ensures var b := Dispatch(Last(messages).toolCalls, old(analysisResult), tools);
        && analysisResult == b.analysis
        && r == (if b.failure.Some? then NodeRaised(b.failure.value) else Emitted(b.outputs))
    {
      var calls := messages[|messages| - 1].toolCalls;
      ghost var start := analysisResult;
      var outputs: seq<Message> := [];
      ghost var log: seq<Invocation> := [];
      for i := 0 to |calls|
        invariant Dispatch(calls[..i], start, tools) == Batch(outputs, log, analysisResult, None)
      {
        DispatchPrefix(calls, i, start, tools);
        var call := calls[i];
        var args := call.args;
        if call.name == "insert_id_card_tool" && Get(args, "data").Str? {
          var parsed := tools.parse(args["data"].s);
          if parsed.Malformed? {
            outputs := outputs + [ToolResult(MalformedDataError, call.id)];
            continue;
          }
          if parsed.ParseThrew? {
            DispatchStops(calls, i + 1, start, tools);
            return NodeRaised(parsed.error);
          }
          args := args["data" := parsed.value];
        }
        var selected := Resolve(call.name);
        if selected.None? {
          DispatchStops(calls, i + 1, start, tools);
          return NodeRaised(NotFoundError(call.name));
        }
        var output := tools.invoke(selected.value, args);
        log := log + [Invocation(selected.value, args, output)];
        if output.Threw? {
          DispatchStops(calls, i + 1, start, tools);
          return NodeRaised(output.error);
        }
        if call.name == "analyze_id_card_tool" {
          analysisResult := Present(output.value);
        }
        outputs := outputs + [ToolResult(tools.show(output.value), call.id)];
      }
      assert calls[..|calls|] == calls;
      return Emitted(outputs);
    }
  }
}
