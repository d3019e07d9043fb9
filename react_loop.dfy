/**
 * `run_react_loop` of nakari/agent/loop.py: a bounded loop over a growing
 * message buffer. The chat model is an oracle from a request to a
 * completion (or the message of what it raised); the tools see an
 * environment that may depend on everything in the buffer before them.
 *
 * The loop is specified over any round, the inner loop over one reply's
 * tool calls: `Iterate` runs the iterations that go on, and `Leave` is how
 * the loop ends from the state it stops at. A whole run starts from the
 * initial buffer at iteration 0 with no requests and no steps, and the
 * program is the run whose round dispatches each call through
 * `_execute_tool` (`ToolRound(opts, ToolDispatch(opts))`). The shape
 * lemmas hold for every round that keeps the inner loop's promises.
 */
module ReactLoop {
  import opened Wrappers
  import opened PyValue
  import opened Serialize
  import opened Dispatch

  const MAX_ITERATIONS: nat := 10
  const MAX_ITERATIONS_NOTICE: string :=
    "You have reached the maximum number of iterations. "
    + "Please provide your final response to the user now."

  /** `tool_call.function.arguments`: empty or missing, not valid JSON, or
      the value the JSON text decodes to. */
  datatype RawArgs = NoArgs | Malformed | Parsed(value: Json)

  /** `json.loads(args_json) if args_json else {}`, with `{}` on a decode
      error too. */
  function ParseArguments(raw: RawArgs): (args: Json)
    ensures raw.Parsed? ==> args == raw.value
    ensures !raw.Parsed? ==> args == Dict(map[])
  {
    match raw
    case Parsed(v) => v
    case _ => Dict(map[])
  }

  datatype ToolCall = ToolCall(id: string, name: string, arguments: RawArgs)

  /** `response.choices[0].message`: its text and its tool calls (`None`
      and an empty list alike are no calls). */
  datatype Completion = Completion(content: Option<string>, toolCalls: seq<ToolCall>)

  /** A chat message. A tool message carries, as `output`, the JSON value
      whose serialisation is its `content`. The assistant message is
      recorded with its text only, as the loop appends it. */
  datatype Message =
    | SystemMsg(text: string)
    | UserMsg(text: string)
    | AssistantMsg(content: Option<string>)
    | ToolMsg(toolCallId: string, output: Value)

  /** One `chat.completions.create` call. `offersTools` is whether it
      passes `tools=get_memory_tools()` (the catalog `Tools.MemoryTools`). */
  datatype Request = Request(model: string, messages: seq<Message>, offersTools: bool,
                             parallelToolCalls: Option<bool>)

  type ChatModel = Request -> Result<Completion, string>

  /** `LoopOptions`: the model, the prompt, whether an `on_step` callback is
      set, the chat model, and the services as they stand for a buffer. */
  datatype LoopOptions = LoopOptions(model: string, systemPrompt: string, hasOnStep: bool, chat: ChatModel,
                                     world: seq<Message> -> Env)

  /** What one tool call answers, given the buffer before it. */
  type Dispatcher = (ToolCall, seq<Message>) -> Value

  /** `_execute_tool` against the services of the buffer so far. */
  function ToolDispatch(opts: LoopOptions): Dispatcher
  {
    (call: ToolCall, messages: seq<Message>) => ExecuteTool(call.name, ParseArguments(call.arguments), opts.world(messages))
  }

  const TOOL_CALL := "tool_call"
  const TOOL_RESULT := "tool_result"
  const RESPONSE := "response"

  /** `LoopStep(step_type, content="", name="", arguments=None, result=None)`. */
  datatype LoopStep = LoopStep(stepType: string, content: string := "", name: string := "",
                               arguments: Option<Value> := None, result: Value := Null)
  {
    /** `LoopStep.to_dict`. */
    function ToDict(): (d: map<string, Value>)
      ensures d.Keys == {"type", "content", "name", "arguments", "result"}
      ensures d["type"] == Str(stepType) && d["content"] == Str(content) && d["name"] == Str(name)
      ensures d["arguments"] == (if arguments.Some? then arguments.value else Null) && d["result"] == result
    {
      map["type" := Str(stepType), "content" := Str(content), "name" := Str(name),
          "arguments" := (if arguments.Some? then arguments.value else Null), "result" := result]
    }
  }

  /** `_emit_step`: the callback sees the step only when it is set. */
  function Emit(steps: seq<LoopStep>, opts: LoopOptions, step: LoopStep): seq<LoopStep>
  {
    if opts.hasOnStep then steps + [step] else steps
  }

  /** The callback is handed exactly this one step exactly when it is set,
      and the steps it has seen only grow. */
  lemma EmitSeen(steps: seq<LoopStep>, opts: LoopOptions, step: LoopStep)
    ensures var r := Emit(steps, opts, step);
      && |steps| <= |r| <= |steps| + 1 && r[..|steps|] == steps
      && (|r| == |steps| + 1 <==> opts.hasOnStep)
      && (opts.hasOnStep ==> r[|steps|] == step)
  {
  }

  /** The buffer the loop starts from. */
  function Initial(systemPrompt: string, history: seq<Message>, userMessage: string): seq<Message>
  {
    [SystemMsg(systemPrompt)] + history + [UserMsg(userMessage)]
  }

  /** A call inside the loop: the tools offered, one tool call per turn. */
  function ToolRequest(opts: LoopOptions, messages: seq<Message>): Request
  {
    Request(opts.model, messages, true, Some(false))
  }

  /** The call after the last iteration: no tools. */
  function FinalRequest(opts: LoopOptions, messages: seq<Message>): Request
  {
    Request(opts.model, messages, false, None)
  }

  /** What the loop accumulates: the message buffer and the emitted steps. */
  datatype Buffer = Buffer(messages: seq<Message>, steps: seq<LoopStep>)

  function CallStep(call: ToolCall): LoopStep
  {
    LoopStep(TOOL_CALL, name := call.name, arguments := Some(ParseArguments(call.arguments)))
  }

  function ResultStep(call: ToolCall, result: Value): LoopStep
  {
    LoopStep(TOOL_RESULT, name := call.name, result := result)
  }

  /** One requested call: a `tool_call` step, the dispatch, a `tool_result`
      step, and the tool message holding the serialised result. */
  function ToolTurn(call: ToolCall, b: Buffer, opts: LoopOptions, dispatch: Dispatcher): Buffer
  {
    var result := dispatch(call, b.messages);
    Buffer(b.messages + [ToolMsg(call.id, JsonSerializable(result))],
           Emit(Emit(b.steps, opts, CallStep(call)), opts, ResultStep(call, result)))
  }

  /** The inner `for tool_call in message.tool_calls` loop. */
  function ToolTurns(calls: seq<ToolCall>, b: Buffer, opts: LoopOptions, dispatch: Dispatcher): Buffer
    decreases |calls|
  {
    if calls == [] then b
    else ToolTurn(calls[|calls| - 1], ToolTurns(calls[..|calls| - 1], b, opts, dispatch), opts, dispatch)
  }

  /** What the inner loop over one reply's tool calls does to the buffer. */
  type Round = (seq<ToolCall>, Buffer) -> Buffer

  /** The program's round: every call dispatched in turn. */
  function ToolRound(opts: LoopOptions, dispatch: Dispatcher): Round
  {
    (calls: seq<ToolCall>, b: Buffer) => ToolTurns(calls, b, opts, dispatch)
  }

  /** How the loop ended, every request it made, and the steps it emitted. */
  datatype Run = Run(outcome: Result<string, string>, requests: seq<Request>, steps: seq<LoopStep>)

  /** `message.content or ""`. */
  function FinalContent(c: Completion): string
  {
    c.content.GetOr("")
  }

  /** The loop's state at the top of an iteration: the buffer, the
      iteration number, and the requests made and steps emitted so far. */
  datatype State = State(messages: seq<Message>, iteration: nat, requests: seq<Request>, steps: seq<LoopStep>)

  /** The request made from a state: with the tools while iterations are
      left, otherwise the final call, after the notice, without them. */
  function NextRequest(s: State, opts: LoopOptions): Request
  {
    if s.iteration >= MAX_ITERATIONS then FinalRequest(opts, s.messages + [SystemMsg(MAX_ITERATIONS_NOTICE)])
    else ToolRequest(opts, s.messages)
  }

  /** The loop leaves from this state: no iteration is left, or the call
      raised, or its reply has no tool calls. */
  predicate Stops(s: State, opts: LoopOptions)
  {
    || s.iteration >= MAX_ITERATIONS
    || opts.chat(ToolRequest(opts, s.messages)).Err?
    || opts.chat(ToolRequest(opts, s.messages)).value.toolCalls == []
  }

  /** An iteration that goes on: the call, the assistant message, the
      round over its tool calls. */
  function Advance(s: State, opts: LoopOptions, round: Round): State
    requires !Stops(s, opts)
  {
    var request := ToolRequest(opts, s.messages);
    var reply := opts.chat(request).value;
    var b := round(reply.toolCalls, Buffer(s.messages + [AssistantMsg(reply.content)], s.steps));
    State(b.messages, s.iteration + 1, s.requests + [request], b.steps)
  }

  /** The iterations that go on, over a given round, up to the state the
      loop leaves from. */
  function Iterate(s: State, opts: LoopOptions, round: Round): State
    decreases MAX_ITERATIONS - s.iteration
  {
    if Stops(s, opts) then s else Iterate(Advance(s, opts, round), opts, round)
  }

  /** How the loop leaves from a state it stops at: the exception the call
      raised, or the reply's text (or `""`) and the `response` step. After
      the last iteration this is the final call; before it, the call made
      at the top of the iteration. */
  function Leave(s: State, opts: LoopOptions): Run
  {
    var request := NextRequest(s, opts);
    match opts.chat(request)
    case Err(e) => Run(Err(e), s.requests + [request], s.steps)
    case Ok(reply) =>
      Run(Ok(FinalContent(reply)), s.requests + [request],
          Emit(s.steps, opts, LoopStep(RESPONSE, content := FinalContent(reply))))
  }

  /** `run_react_loop`: the message buffer grows by appends; every model
      call is recorded in `requests` and every callback in `steps`. The run
      starts from the initial buffer at iteration 0. */
  method RunReactLoop(userMessage: string, history: seq<Message>, opts: LoopOptions)
    returns (outcome: Result<string, string>, requests: seq<Request>, steps: seq<LoopStep>)
    ensures Run(outcome, requests, steps) ==
            Leave(Iterate(State(Initial(opts.systemPrompt, history, userMessage), 0, [], []), opts,
                          ToolRound(opts, ToolDispatch(opts))), opts)
  {
    var messages := [SystemMsg(opts.systemPrompt)] + history + [UserMsg(userMessage)];
    requests := [];
    steps := [];
    ghost var round := ToolRound(opts, ToolDispatch(opts));
    ghost var start := State(messages, 0, [], []);
    for iteration := 0 to MAX_ITERATIONS
      invariant Iterate(State(messages, iteration, requests, steps), opts, round) == Iterate(start, opts, round)
    {
      ghost var s := State(messages, iteration, requests, steps);
      var request := Request(opts.model, messages, true, Some(false));
      requests := requests + [request];
      var reply := opts.chat(request);
      if reply.Err? {
        outcome := Err(reply.error);
        assert Iterate(start, opts, round) == s;
        assert Leave(s, opts) == Run(outcome, requests, steps);
        return;
      }
      var message := reply.value;
      messages := messages + [AssistantMsg(message.content)];
      if message.toolCalls == [] {
        var finalContent := if message.content.Some? then message.content.value else "";
        steps := Emit(steps, opts, LoopStep(RESPONSE, content := finalContent));
        outcome := Ok(finalContent);
        assert Iterate(start, opts, round) == s;
        assert Leave(s, opts) == Run(outcome, requests, steps);
        return;
      }
      messages, steps := RunToolCalls(message.toolCalls, messages, steps, opts);
      assert State(messages, iteration + 1, requests, steps) == Advance(s, opts, round);
    }
    assert Iterate(start, opts, round) == State(messages, MAX_ITERATIONS, requests, steps);
    outcome, requests, steps := FinalCall(messages, requests, steps, opts);
  }

  /** After the last iteration: the notice, and one call without tools. */
  method FinalCall(messages0: seq<Message>, requests0: seq<Request>, steps0: seq<LoopStep>, opts: LoopOptions)
    returns (outcome: Result<string, string>, requests: seq<Request>, steps: seq<LoopStep>)
    ensures Run(outcome, requests, steps) == Leave(State(messages0, MAX_ITERATIONS, requests0, steps0), opts)
  {
    var messages := messages0 + [SystemMsg(MAX_ITERATIONS_NOTICE)];
    var request := Request(opts.model, messages, false, None);
    requests := requests0 + [request];
    steps := steps0;
    var reply := opts.chat(request);
    if reply.Err? {
      outcome := Err(reply.error);
      return;
    }
    var finalContent := if reply.value.content.Some? then reply.value.content.value else "";
    steps := Emit(steps, opts, LoopStep(RESPONSE, content := finalContent));
    outcome := Ok(finalContent);
  }

  /** The tool calls of one reply, in order, each dispatched through
      `_execute_tool` and answered by a tool message. */
  method RunToolCalls(calls: seq<ToolCall>, messages0: seq<Message>, steps0: seq<LoopStep>, opts: LoopOptions)
    returns (messages: seq<Message>, steps: seq<LoopStep>)
    ensures Buffer(messages, steps) == ToolRound(opts, ToolDispatch(opts))(calls, Buffer(messages0, steps0))
  {
    messages, steps := messages0, steps0;
    for i := 0 to |calls|
      invariant Buffer(messages, steps) == ToolTurns(calls[..i], Buffer(messages0, steps0), opts, ToolDispatch(opts))
    {
      var call := calls[i];
      var arguments := ParseArguments(call.arguments);
      steps := Emit(steps, opts, LoopStep(TOOL_CALL, name := call.name, arguments := Some(arguments)));
      var result := ExecuteTool(call.name, arguments, opts.world(messages));
      assert result == ToolDispatch(opts)(call, messages);
      var content := JsonSerializable(result);
      steps := Emit(steps, opts, LoopStep(TOOL_RESULT, name := call.name, result := result));
      messages := messages + [ToolMsg(call.id, content)];
      assert calls[..i + 1][..i] == calls[..i];
    }
    assert calls[..|calls|] == calls;
  }

  // ----- properties -----

  /** The tool messages of one round: the k-th answers the k-th call, by
      id, with a JSON value. */
  predicate Answers(toolMessages: seq<Message>, calls: seq<ToolCall>)
  {
    && |toolMessages| == |calls|
    && forall k :: 0 <= k < |calls| ==>
         toolMessages[k].ToolMsg? && toolMessages[k].toolCallId == calls[k].id && IsJson(toolMessages[k].output)
  }

  /** One round appends one tool message per call, and two steps per call
      with a callback, none without. */
  lemma {:induction false} ToolTurnsLength(calls: seq<ToolCall>, b: Buffer, opts: LoopOptions, dispatch: Dispatcher)
    ensures var t := ToolTurns(calls, b, opts, dispatch);
      && |t.messages| == |b.messages| + |calls|
      && |t.steps| == |b.steps| + (if opts.hasOnStep then 2 * |calls| else 0)
    decreases |calls|
  {
    if calls != [] {
      ToolTurnsLength(calls[..|calls| - 1], b, opts, dispatch);
    }
  }

  /** The messages left by the first `k` calls of a round are a prefix of
      the ones left by all of them. */
  lemma {:induction false} ToolTurnsMessagesPrefix(calls: seq<ToolCall>, b: Buffer, opts: LoopOptions,
                                                   dispatch: Dispatcher, k: nat)
    requires k <= |calls|
    ensures var t := ToolTurns(calls, b, opts, dispatch).messages;
      var p := ToolTurns(calls[..k], b, opts, dispatch).messages;
      |p| <= |t| && t[..|p|] == p
    decreases |calls|
  {
    if k == |calls| {
      assert calls[..k] == calls;
    } else {
      var init := calls[..|calls| - 1];
      ToolTurnsMessagesPrefix(init, b, opts, dispatch, k);
      assert init[..k] == calls[..k];
      var prev := ToolTurns(init, b, opts, dispatch).messages;
      var t := ToolTurns(calls, b, opts, dispatch).messages;
      var p := ToolTurns(calls[..k], b, opts, dispatch).messages;
      assert t[..|prev|] == prev;
      assert t[..|p|] == t[..|prev|][..|p|];
    }
  }

  /** The steps emitted for the first `k` calls of a round are a prefix of
      the ones emitted for all of them. */
  lemma {:induction false} ToolTurnsStepsPrefix(calls: seq<ToolCall>, b: Buffer, opts: LoopOptions,
                                                dispatch: Dispatcher, k: nat)
    requires k <= |calls|
    ensures var t := ToolTurns(calls, b, opts, dispatch).steps;
      var p := ToolTurns(calls[..k], b, opts, dispatch).steps;
      |p| <= |t| && t[..|p|] == p
    decreases |calls|
  {
    if k == |calls| {
      assert calls[..k] == calls;
    } else {
      var init := calls[..|calls| - 1];
      ToolTurnsStepsPrefix(init, b, opts, dispatch, k);
      assert init[..k] == calls[..k];
      var prev := ToolTurns(init, b, opts, dispatch).steps;
      var t := ToolTurns(calls, b, opts, dispatch).steps;
      var p := ToolTurns(calls[..k], b, opts, dispatch).steps;
      assert t[..|prev|] == prev;
      assert t[..|p|] == t[..|prev|][..|p|];
    }
  }

  /** The `k`-th call of a round is answered by the `k`-th new message,
      and with a callback reported by the `2k`-th and `2k+1`-th new steps,
      all from dispatching it against the buffer the calls before it left. */
  lemma ToolTurnAt(calls: seq<ToolCall>, b: Buffer, opts: LoopOptions, dispatch: Dispatcher, k: nat)
    requires k < |calls|
    ensures var t := ToolTurns(calls, b, opts, dispatch);
      var result := dispatch(calls[k], ToolTurns(calls[..k], b, opts, dispatch).messages);
      && |b.messages| + k < |t.messages|
      && t.messages[|b.messages| + k] == ToolMsg(calls[k].id, JsonSerializable(result))
      && (opts.hasOnStep ==>
            && |b.steps| + 2 * k + 1 < |t.steps|
            && t.steps[|b.steps| + 2 * k] == CallStep(calls[k])
            && t.steps[|b.steps| + 2 * k + 1] == ResultStep(calls[k], result))
  {
    var t := ToolTurns(calls, b, opts, dispatch);
    var p := ToolTurns(calls[..k], b, opts, dispatch);
    var q := ToolTurns(calls[..k + 1], b, opts, dispatch);
    ToolTurnsMessagesPrefix(calls, b, opts, dispatch, k + 1);
    ToolTurnsStepsPrefix(calls, b, opts, dispatch, k + 1);
    ToolTurnsLength(calls[..k], b, opts, dispatch);
    assert calls[..k + 1][..k] == calls[..k];
    assert q == ToolTurn(calls[k], p, opts, dispatch);
    assert t.messages[|b.messages| + k] == t.messages[..|q.messages|][|b.messages| + k];
    if opts.hasOnStep {
      assert t.steps[|b.steps| + 2 * k] == t.steps[..|q.steps|][|b.steps| + 2 * k];
      assert t.steps[|b.steps| + 2 * k + 1] == t.steps[..|q.steps|][|b.steps| + 2 * k + 1];
    }
  }

  /** One round's buffer: the old one, then one tool message per call, in
      call order, answering the call by its id with the serialised result
      of dispatching it against the buffer left by the calls before it. */
  lemma ToolTurnsMessages(calls: seq<ToolCall>, b: Buffer, opts: LoopOptions, dispatch: Dispatcher)
    ensures var m := ToolTurns(calls, b, opts, dispatch).messages;
      && |m| == |b.messages| + |calls| && m[..|b.messages|] == b.messages
      && forall k :: 0 <= k < |calls| ==>
           m[|b.messages| + k] ==
           ToolMsg(calls[k].id, JsonSerializable(dispatch(calls[k], ToolTurns(calls[..k], b, opts, dispatch).messages)))
  {
    ToolTurnsLength(calls, b, opts, dispatch);
    ToolTurnsMessagesPrefix(calls, b, opts, dispatch, 0);
    assert calls[..0] == [];
    forall k | 0 <= k < |calls| {
      ToolTurnAt(calls, b, opts, dispatch, k);
    }
  }

  /** One round appends one tool message per call, answering the calls in
      order by id with JSON values. */
  lemma ToolTurnsAnswers(calls: seq<ToolCall>, b: Buffer, opts: LoopOptions, dispatch: Dispatcher)
    ensures var m := ToolTurns(calls, b, opts, dispatch).messages;
      |m| == |b.messages| + |calls| && m[..|b.messages|] == b.messages && Answers(m[|b.messages|..], calls)
  {
    ToolTurnsLength(calls, b, opts, dispatch);
    ToolTurnsMessagesPrefix(calls, b, opts, dispatch, 0);
    assert calls[..0] == [];
    var m := ToolTurns(calls, b, opts, dispatch).messages;
    forall k | 0 <= k < |calls|
      ensures m[|b.messages|..][k].ToolMsg? && m[|b.messages|..][k].toolCallId == calls[k].id
      ensures IsJson(m[|b.messages|..][k].output)
    {
      ToolTurnAt(calls, b, opts, dispatch, k);
    }
  }

  /** With a callback set, one round emits a `tool_call` step and then a
      `tool_result` step per call, in call order, the result step
      reporting the value whose serialisation the tool message carries. */
  lemma ToolTurnsSteps(calls: seq<ToolCall>, b: Buffer, opts: LoopOptions, dispatch: Dispatcher)
    requires opts.hasOnStep
    ensures var s := ToolTurns(calls, b, opts, dispatch).steps;
      && |s| == |b.steps| + 2 * |calls| && s[..|b.steps|] == b.steps
      && forall k :: 0 <= k < |calls| ==>
           && s[|b.steps| + 2 * k] == CallStep(calls[k])
           && s[|b.steps| + 2 * k + 1] ==
              ResultStep(calls[k], dispatch(calls[k], ToolTurns(calls[..k], b, opts, dispatch).messages))
  {
    ToolTurnsLength(calls, b, opts, dispatch);
    ToolTurnsStepsPrefix(calls, b, opts, dispatch, 0);
    assert calls[..0] == [];
    forall k | 0 <= k < |calls| {
      ToolTurnAt(calls, b, opts, dispatch, k);
    }
  }

  /** The number of `response` steps. */
  function ResponseCount(steps: seq<LoopStep>): nat
    decreases |steps|
  {
    if steps == [] then 0
    else ResponseCount(steps[..|steps| - 1]) + (if steps[|steps| - 1].stepType == RESPONSE then 1 else 0)
  }

  lemma {:induction false} ResponseCountAppend(a: seq<LoopStep>, b: seq<LoopStep>)
    ensures ResponseCount(a + b) == ResponseCount(a) + ResponseCount(b)
    decreases |b|
  {
    if b == [] {
      assert a + b == a;
    } else {
      var init := b[..|b| - 1];
      assert (a + b)[..|a + b| - 1] == a + init;
      assert (a + b)[|a + b| - 1] == b[|b| - 1];
      ResponseCountAppend(a, init);
    }
  }

  /** A round only appends steps, none of them a `response` step, and
      without a callback it emits nothing. */
  lemma {:induction false} ToolTurnsQuiet(calls: seq<ToolCall>, b: Buffer, opts: LoopOptions, dispatch: Dispatcher)
    ensures var s := ToolTurns(calls, b, opts, dispatch).steps;
      && |b.steps| <= |s| && s[..|b.steps|] == b.steps
      && ResponseCount(s) == ResponseCount(b.steps)
      && (!opts.hasOnStep ==> s == b.steps)
    decreases |calls|
  {
    if calls != [] {
      var n := |calls| - 1;
      ToolTurnsQuiet(calls[..n], b, opts, dispatch);
      var prev := ToolTurns(calls[..n], b, opts, dispatch);
      var s := ToolTurns(calls, b, opts, dispatch).steps;
      if opts.hasOnStep {
        var added := [CallStep(calls[n]), ResultStep(calls[n], dispatch(calls[n], prev.messages))];
        assert s == prev.steps + added;
        ResponseCountAppend(prev.steps, added);
        assert added[..1][..0] == [];
        assert s[..|b.steps|] == prev.steps[..|b.steps|];
      }
    }
  }

  /** The inner loop's promise about the buffer: one message appended per
      call, answering the calls in order by id with JSON values. */
  ghost predicate AnswersEveryCall(round: Round)
  {
    forall calls: seq<ToolCall>, b: Buffer ::
      var m := round(calls, b).messages;
      |m| == |b.messages| + |calls| && m[..|b.messages|] == b.messages && Answers(m[|b.messages|..], calls)
  }

  /** The inner loop's promise about the steps: it only appends, never a
      `response` step, and nothing without a callback. */
  ghost predicate QuietRound(round: Round, opts: LoopOptions)
  {
    forall calls: seq<ToolCall>, b: Buffer ::
      var s := round(calls, b).steps;
      |b.steps| <= |s| && s[..|b.steps|] == b.steps && ResponseCount(s) == ResponseCount(b.steps) &&
      (!opts.hasOnStep ==> s == b.steps)
  }

  /** The program's round keeps both promises. */
  lemma ToolRoundAnswers(opts: LoopOptions, dispatch: Dispatcher)
    ensures AnswersEveryCall(ToolRound(opts, dispatch))
  {
    forall calls: seq<ToolCall>, b: Buffer {
      ToolTurnsAnswers(calls, b, opts, dispatch);
    }
  }

  lemma ToolRoundQuiet(opts: LoopOptions, dispatch: Dispatcher)
    ensures QuietRound(ToolRound(opts, dispatch), opts)
  {
    forall calls: seq<ToolCall>, b: Buffer {
      ToolTurnsQuiet(calls, b, opts, dispatch);
    }
  }

  /** The reply to a request asked for tools, and the next request's buffer
      is this one's, then the assistant message, then one tool message per
      call, then the notice when the next is the final call. */
  predicate Continues(opts: LoopOptions, request: Request, next: Request)
  {
    var reply := opts.chat(request);
    && reply.Ok? && reply.value.toolCalls != []
    && var calls := reply.value.toolCalls;
       var base := |request.messages| + 1;
       && |next.messages| == base + |calls| + (if next.offersTools then 0 else 1)
       && next.messages[..base] == request.messages + [AssistantMsg(reply.value.content)]
       && Answers(next.messages[base..base + |calls|], calls)
       && (!next.offersTools ==> next.messages[base + |calls|] == SystemMsg(MAX_ITERATIONS_NOTICE))
  }

  /** A round that asked for tools continues into the request built on the
      buffer the round left. */
  lemma RoundContinues(opts: LoopOptions, request: Request, m: seq<Message>, next: Request)
    requires opts.chat(request).Ok? && opts.chat(request).value.toolCalls != []
    requires var reply := opts.chat(request).value;
      var withReply := request.messages + [AssistantMsg(reply.content)];
      && |m| == |withReply| + |reply.toolCalls| && m[..|withReply|] == withReply
      && Answers(m[|withReply|..], reply.toolCalls)
    requires next.messages == (if next.offersTools then m else m + [SystemMsg(MAX_ITERATIONS_NOTICE)])
    ensures Continues(opts, request, next)
  {
    var reply := opts.chat(request).value;
    var withReply := request.messages + [AssistantMsg(reply.content)];
    assert next.messages[..|withReply|] == m[..|withReply|];
    assert next.messages[|withReply|..|withReply| + |reply.toolCalls|] == m[|withReply|..];
  }

  /** From a state with iterations left, the loop stops within the
      remaining iterations, after one request per iteration that went on. */
  lemma {:induction false} IterateCount(s: State, opts: LoopOptions, round: Round)
    requires s.iteration <= MAX_ITERATIONS
    ensures var e := Iterate(s, opts, round);
      && Stops(e, opts)
      && s.iteration <= e.iteration <= MAX_ITERATIONS
      && |e.requests| == |s.requests| + (e.iteration - s.iteration)
    decreases MAX_ITERATIONS - s.iteration
  {
    if !Stops(s, opts) {
      IterateCount(Advance(s, opts, round), opts, round);
    }
  }

  /** The requests of a run from a state extend the ones before it, and
      the first new one is the state's own. */
  lemma {:induction false} IterateFirst(s: State, opts: LoopOptions, round: Round)
    requires s.iteration <= MAX_ITERATIONS
    ensures var e := Iterate(s, opts, round);
      && |s.requests| <= |e.requests| && e.requests[..|s.requests|] == s.requests
      && (e.requests + [NextRequest(e, opts)])[|s.requests|] == NextRequest(s, opts)
    decreases MAX_ITERATIONS - s.iteration
  {
    if !Stops(s, opts) {
      var n := Advance(s, opts, round);
      IterateFirst(n, opts, round);
      var e := Iterate(n, opts, round);
      assert e.requests[..|s.requests|] == e.requests[..|n.requests|][..|s.requests|];
      assert e.requests[|s.requests|] == e.requests[..|n.requests|][|s.requests|];
    }
  }

  /** Every request of a run from a state but the last was tool-enabled
      and answered with tool calls, and the next request continues its
      buffer. */
  lemma {:induction false} IterateContinues(s: State, opts: LoopOptions, round: Round)
    requires s.iteration <= MAX_ITERATIONS
    requires AnswersEveryCall(round)
    ensures var e := Iterate(s, opts, round);
      var all := e.requests + [NextRequest(e, opts)];
      forall i :: |s.requests| <= i < |e.requests| ==>
        all[i] == ToolRequest(opts, all[i].messages) && Continues(opts, all[i], all[i + 1])
    decreases MAX_ITERATIONS - s.iteration
  {
    if !Stops(s, opts) {
      var n := Advance(s, opts, round);
      IterateContinues(n, opts, round);
      IterateFirst(s, opts, round);
      IterateFirst(n, opts, round);
      var request := ToolRequest(opts, s.messages);
      RoundContinues(opts, request, n.messages, NextRequest(n, opts));
    }
  }

  /** The steps of a run from a state extend the ones before it, none of
      the new ones a `response` step, and without a callback there are no
      new ones. */
  lemma {:induction false} IterateSteps(s: State, opts: LoopOptions, round: Round)
    requires QuietRound(round, opts)
    ensures var e := Iterate(s, opts, round);
      && |s.steps| <= |e.steps| && e.steps[..|s.steps|] == s.steps
      && ResponseCount(e.steps) == ResponseCount(s.steps)
      && (!opts.hasOnStep ==> e.steps == s.steps)
    decreases MAX_ITERATIONS - s.iteration
  {
    if !Stops(s, opts) {
      var n := Advance(s, opts, round);
      IterateSteps(n, opts, round);
      var e := Iterate(n, opts, round);
      assert e.steps[..|s.steps|] == e.steps[..|n.steps|][..|s.steps|];
    }
  }

  /** A whole run makes between one and `MAX_ITERATIONS + 1` requests, the
      first offering the tools on the initial buffer: the system prompt,
      the history, the user message. */
  lemma RunRequests(userMessage: string, history: seq<Message>, opts: LoopOptions, round: Round)
    ensures var start := State(Initial(opts.systemPrompt, history, userMessage), 0, [], []);
      var r := Leave(Iterate(start, opts, round), opts);
      && 1 <= |r.requests| <= MAX_ITERATIONS + 1
      && r.requests[0] == ToolRequest(opts, [SystemMsg(opts.systemPrompt)] + history + [UserMsg(userMessage)])
  {
    var start := State(Initial(opts.systemPrompt, history, userMessage), 0, [], []);
    IterateCount(start, opts, round);
    IterateFirst(start, opts, round);
  }

  /** The last request of a whole run is the final call without tools,
      after the notice, exactly when all `MAX_ITERATIONS` replies asked for
      tools. */
  lemma RunForcedFinal(userMessage: string, history: seq<Message>, opts: LoopOptions, round: Round)
    ensures var start := State(Initial(opts.systemPrompt, history, userMessage), 0, [], []);
      var r := Leave(Iterate(start, opts, round), opts);
      var last := r.requests[|r.requests| - 1];
      && (!last.offersTools <==> |r.requests| == MAX_ITERATIONS + 1)
      && (!last.offersTools ==>
            last == FinalRequest(opts, last.messages) && |last.messages| > 0 &&
            last.messages[|last.messages| - 1] == SystemMsg(MAX_ITERATIONS_NOTICE))
  {
    IterateCount(State(Initial(opts.systemPrompt, history, userMessage), 0, [], []), opts, round);
  }

  /** A run that ends on a tool-enabled request ends there because that
      call raised or its reply had no tool calls: the loop stops at the
      first such reply. */
  lemma RunStopsEarly(userMessage: string, history: seq<Message>, opts: LoopOptions, round: Round)
    ensures var start := State(Initial(opts.systemPrompt, history, userMessage), 0, [], []);
      var r := Leave(Iterate(start, opts, round), opts);
      var last := r.requests[|r.requests| - 1];
      last.offersTools ==>
        last == ToolRequest(opts, last.messages) && (opts.chat(last).Err? || opts.chat(last).value.toolCalls == [])
  {
    IterateCount(State(Initial(opts.systemPrompt, history, userMessage), 0, [], []), opts, round);
  }

  /** The answer is the last reply's text, or `""`, or what that call
      raised. */
  lemma RunOutcome(userMessage: string, history: seq<Message>, opts: LoopOptions, round: Round)
    ensures var start := State(Initial(opts.systemPrompt, history, userMessage), 0, [], []);
      var r := Leave(Iterate(start, opts, round), opts);
      var last := r.requests[|r.requests| - 1];
      && (opts.chat(last).Err? ==> r.outcome == Err(opts.chat(last).error))
      && (opts.chat(last).Ok? ==> r.outcome == Ok(FinalContent(opts.chat(last).value)))
  {
  }

  /** Every request of a run but the last offered the tools, got tool
      calls back, and is continued by the next. */
  lemma RunContinues(userMessage: string, history: seq<Message>, opts: LoopOptions, dispatch: Dispatcher)
    ensures var start := State(Initial(opts.systemPrompt, history, userMessage), 0, [], []);
      var r := Leave(Iterate(start, opts, ToolRound(opts, dispatch)), opts);
      forall i :: 0 <= i < |r.requests| - 1 ==>
        r.requests[i] == ToolRequest(opts, r.requests[i].messages) && Continues(opts, r.requests[i], r.requests[i + 1])
  {
    ToolRoundAnswers(opts, dispatch);
    IterateContinues(State(Initial(opts.systemPrompt, history, userMessage), 0, [], []), opts, ToolRound(opts, dispatch));
  }

  /** A run emits at most one `response` step: exactly one, at the end,
      when it returns with a callback set. */
  lemma ResponseStepOnce(userMessage: string, history: seq<Message>, opts: LoopOptions, dispatch: Dispatcher)
    ensures var start := State(Initial(opts.systemPrompt, history, userMessage), 0, [], []);
      var r := Leave(Iterate(start, opts, ToolRound(opts, dispatch)), opts);
      && ResponseCount(r.steps) == (if r.outcome.Ok? && opts.hasOnStep then 1 else 0)
      && (r.outcome.Ok? && opts.hasOnStep ==> r.steps[|r.steps| - 1] == LoopStep(RESPONSE, content := r.outcome.value))
  {
    var start := State(Initial(opts.systemPrompt, history, userMessage), 0, [], []);
    ToolRoundQuiet(opts, dispatch);
    IterateSteps(start, opts, ToolRound(opts, dispatch));
    var e := Iterate(start, opts, ToolRound(opts, dispatch));
    var reply := opts.chat(NextRequest(e, opts));
    if reply.Ok? && opts.hasOnStep {
      var last := LoopStep(RESPONSE, content := FinalContent(reply.value));
      ResponseCountAppend(e.steps, [last]);
      assert [last][..0] == [];
    }
  }

  /** A first reply without tool calls ends the run at once: one request,
      the reply's text (or `""`) as the answer. */
  lemma PlainReplyStops(userMessage: string, history: seq<Message>, opts: LoopOptions, dispatch: Dispatcher)
    requires var first := ToolRequest(opts, Initial(opts.systemPrompt, history, userMessage));
             opts.chat(first).Ok? && opts.chat(first).value.toolCalls == []
    ensures var start := State(Initial(opts.systemPrompt, history, userMessage), 0, [], []);
      var r := Leave(Iterate(start, opts, ToolRound(opts, dispatch)), opts);
      var first := ToolRequest(opts, Initial(opts.systemPrompt, history, userMessage));
      && r.requests == [first]
      && r.outcome == Ok(FinalContent(opts.chat(first).value))
      && (opts.hasOnStep ==> r.steps == [LoopStep(RESPONSE, content := FinalContent(opts.chat(first).value))])
  {
  }
}
