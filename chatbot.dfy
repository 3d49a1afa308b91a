/**
 * The `Chatbot` class: `handle_tool_calls`, which answers one batch of tool
 * calls, and `chat`, the loop that calls the model backend until it stops
 * asking for tools. The two methods are specified against the pure
 * functions `ToolMessages`/`Trace` and `Run` below; the lemmas state what
 * those functions guarantee.
 */
module Chat {
  import opened Wrappers
  import opened Json
  import opened Messages
  import opened Tools
  import opened Backend

  /** Why a `chat` call fails instead of returning a reply. */
  datatype ChatError =
    | MalformedArguments(callId: string)   // json.loads raised on the call's arguments
    | ArgumentsNotObject(callId: string)   // `tool(**arguments)` on arguments that are not an object
    | ToolRaised(callId: string)           // the tool itself raised
    | ToolCallsMissing                     // finish reason "tool_calls" without a tool-call list
    | BackendExhausted                        // the scripted backend has no response left

  /** The reply of `chat`: the final message's content, which may be absent. */
  type Reply = Result<Option<string>, ChatError>

  // ---------------------------------------------------------------------
  // The working sequence
  // ---------------------------------------------------------------------

  /** `[system] + (history or []) + [user]`, the list the first request carries. */
  function Build(systemPrompt: string, history: Option<seq<Message>>, message: string): (ms: seq<Message>)
    ensures |ms| == |OrEmpty(history)| + 2
    ensures ms[0] == System(systemPrompt)
    ensures ms[1..|ms| - 1] == OrEmpty(history)
    ensures ms[|ms| - 1] == User(message)
  {
    [System(systemPrompt)] + OrEmpty(history) + [User(message)]
  }

  /** A missing history and an empty one give the same working sequence: the system message, then the user's. */
  lemma HistoryOrEmpty(systemPrompt: string, message: string)
    ensures Build(systemPrompt, None, message) == Build(systemPrompt, Some([]), message)
    ensures Build(systemPrompt, None, message) == [System(systemPrompt), User(message)]
  {
  }

  // ---------------------------------------------------------------------
  // One batch of tool calls (handle_tool_calls)
  // ---------------------------------------------------------------------

  /** The result of one call: decode the arguments, resolve the tool, invoke it or use `{}`. */
  function CallResult(tools: map<string, ToolFn>, call: ToolCall): (r: Result<Value, ChatError>)
    ensures r.Err? ==> r.error in {MalformedArguments(call.id), ArgumentsNotObject(call.id), ToolRaised(call.id)}
    ensures call.name !in tools ==> r.Ok? == Decode(call.arguments).Some?
  {
    match Decode(call.arguments)
    case None => Err(MalformedArguments(call.id))
    case Some(args) =>
      if call.name !in tools then Ok(Obj([]))
      else if !args.Obj? then Err(ArgumentsNotObject(call.id))
      else
        match tools[call.name](args.members)
        case None => Err(ToolRaised(call.id))
        case Some(v) => Ok(v)
  }

  /** The invocation one call makes: one when the tool is known and the arguments are an object. */
  function Invoked(tools: map<string, ToolFn>, call: ToolCall): (r: seq<Invocation>)
    ensures |r| <= 1
    ensures r != [] ==> call.name in tools && r[0].name == call.name
  {
    match Decode(call.arguments)
    case Some(Obj(members)) => if call.name in tools then [Invocation(call.name, members)] else []
    case _ => []
  }

  /** The `tool` messages of a batch, or the error of its first failing call. */
  function ToolMessages(tools: map<string, ToolFn>, calls: seq<ToolCall>): (r: Result<seq<Message>, ChatError>)
    ensures r.Ok? ==> |r.value| == |calls|
    ensures r.Err? ==> r.error.MalformedArguments? || r.error.ArgumentsNotObject? || r.error.ToolRaised?
    decreases |calls|
  {
    if calls == [] then Ok([])
    else
      match CallResult(tools, calls[0])
      case Err(e) => Err(e)
      case Ok(v) =>
        match ToolMessages(tools, calls[1..])
        case Err(e) => Err(e)
        case Ok(more) => Ok([Tool(Encode(v), calls[0].id)] + more)
  }

  /** The invocations a batch makes, up to and including its first failing call. */
  function Trace(tools: map<string, ToolFn>, calls: seq<ToolCall>): (r: seq<Invocation>)
    ensures |r| <= |calls|
    decreases |calls|
  {
    if calls == [] then []
    else Invoked(tools, calls[0]) + (if CallResult(tools, calls[0]).Ok? then Trace(tools, calls[1..]) else [])
  }

  /** The calls of a batch whose tool is in the registry, in order: a reference for `Trace`. */
  function Known(tools: map<string, ToolFn>, calls: seq<ToolCall>): seq<ToolCall>
    decreases |calls|
  {
    if calls == [] then []
    else (if calls[0].name in tools then [calls[0]] else []) + Known(tools, calls[1..])
  }

  /** `ToolMessages` with `done` already answered in front. */
  function AfterDone(done: seq<Message>, r: Result<seq<Message>, ChatError>): Result<seq<Message>, ChatError> {
    match r
    case Err(e) => Err(e)
    case Ok(more) => Ok(done + more)
  }

  // ---------------------------------------------------------------------
  // The loop (chat)
  // ---------------------------------------------------------------------

  /** What one `chat` call does: its reply, the requests it sends, the tools it invokes, the script it leaves. */
  datatype Outcome = Outcome(
    reply: Reply,
    requests: seq<seq<Message>>,
    invocations: seq<Invocation>,
    remaining: seq<Response>)

  /** The loop run on `messages` against the scripted backend `script`. */
  function Run(tools: map<string, ToolFn>, script: seq<Response>, messages: seq<Message>): Outcome
    decreases |script|
  {
    if script == [] then Outcome(Err(BackendExhausted), [messages], [], [])
    else
      var response := script[0];
      if response.finishReason != ToolCallsReason then
        Outcome(Ok(response.message.content), [messages], [], script[1..])
      else
        match response.message.toolCalls
        case None => Outcome(Err(ToolCallsMissing), [messages], [], script[1..])
        case Some(calls) =>
          match ToolMessages(tools, calls)
          case Err(e) => Outcome(Err(e), [messages], Trace(tools, calls), script[1..])
          case Ok(results) =>
            Then([messages], Trace(tools, calls),
                 Run(tools, script[1..], messages + [Assistant(response.message)] + results))
  }

  /** An outcome preceded by the requests sent and the invocations made before it. */
  function Then(sent: seq<seq<Message>>, invoked: seq<Invocation>, o: Outcome): Outcome {
    o.(requests := sent + o.requests, invocations := invoked + o.invocations)
  }

  /** A tool round that the loop gets through: a tool-call list whose calls all succeed. */
  predicate RoundSucceeds(tools: map<string, ToolFn>, r: Response) {
    && r.finishReason == ToolCallsReason
    && r.message.toolCalls.Some?
    && ToolMessages(tools, r.message.toolCalls.value).Ok?
  }

  lemma AfterNothing(r: Result<seq<Message>, ChatError>)
    ensures AfterDone([], r) == r
  {
    if r.Ok? {
      assert [] + r.value == r.value;
    }
  }

  /** How the first call of a batch decides the batch's messages and invocations. */
  lemma BatchStep(tools: map<string, ToolFn>, calls: seq<ToolCall>)
    requires calls != []
    ensures CallResult(tools, calls[0]).Err? ==>
      && ToolMessages(tools, calls) == Err(CallResult(tools, calls[0]).error)
      && Trace(tools, calls) == Invoked(tools, calls[0])
    ensures CallResult(tools, calls[0]).Ok? ==>
      && ToolMessages(tools, calls)
         == AfterDone([Tool(Encode(CallResult(tools, calls[0]).value), calls[0].id)], ToolMessages(tools, calls[1..]))
      && Trace(tools, calls) == Invoked(tools, calls[0]) + Trace(tools, calls[1..])
  {
    if CallResult(tools, calls[0]).Err? {
      assert Invoked(tools, calls[0]) + [] == Invoked(tools, calls[0]);
    }
  }

  /** `CallResult` and `Invoked` read off the decoded arguments, the registry and the tool's answer. */
  lemma CallCases(tools: map<string, ToolFn>, call: ToolCall, arguments: Option<Value>)
    requires arguments == Decode(call.arguments)
    ensures arguments.None? ==> CallResult(tools, call) == Err(MalformedArguments(call.id)) && Invoked(tools, call) == []
    ensures arguments.Some? && call.name !in tools ==> CallResult(tools, call) == Ok(Obj([])) && Invoked(tools, call) == []
    ensures arguments.Some? && call.name in tools && !arguments.value.Obj? ==>
      CallResult(tools, call) == Err(ArgumentsNotObject(call.id)) && Invoked(tools, call) == []
    ensures arguments.Some? && call.name in tools && arguments.value.Obj? ==>
      && Invoked(tools, call) == [Invocation(call.name, arguments.value.members)]
      && CallResult(tools, call)
         == (match tools[call.name](arguments.value.members)
             case None => Err(ToolRaised(call.id))
             case Some(v) => Ok(v))
  {
  }

  lemma AfterAfter(done: seq<Message>, m: Message, r: Result<seq<Message>, ChatError>)
    ensures AfterDone(done, AfterDone([m], r)) == AfterDone(done + [m], r)
  {
    if r.Ok? {
      assert done + ([m] + r.value) == done + [m] + r.value;
    }
  }

  /** One step of the loop: what the first scripted response makes of `Run`. */
  lemma RunCases(tools: map<string, ToolFn>, script: seq<Response>, messages: seq<Message>)
    ensures script == [] ==> Run(tools, script, messages) == Outcome(Err(BackendExhausted), [messages], [], [])
    ensures script != [] && script[0].finishReason != ToolCallsReason ==>
      Run(tools, script, messages) == Outcome(Ok(script[0].message.content), [messages], [], script[1..])
    ensures script != [] && script[0].finishReason == ToolCallsReason && script[0].message.toolCalls.None? ==>
      Run(tools, script, messages) == Outcome(Err(ToolCallsMissing), [messages], [], script[1..])
    ensures script != [] && script[0].finishReason == ToolCallsReason && script[0].message.toolCalls.Some? ==>
      var calls := script[0].message.toolCalls.value;
      var answered := ToolMessages(tools, calls);
      && (answered.Err? ==>
            Run(tools, script, messages) == Outcome(Err(answered.error), [messages], Trace(tools, calls), script[1..]))
      && (answered.Ok? ==>
            Run(tools, script, messages)
            == Then([messages], Trace(tools, calls),
                    Run(tools, script[1..], messages + [Assistant(script[0].message)] + answered.value)))
  {
  }

  lemma ThenNothing(o: Outcome)
    ensures Then([], [], o) == o
  {
    assert [] + o.requests == o.requests;
    assert [] + o.invocations == o.invocations;
  }

  lemma ThenThen(s1: seq<seq<Message>>, i1: seq<Invocation>, s2: seq<seq<Message>>, i2: seq<Invocation>, o: Outcome)
    ensures Then(s1, i1, Then(s2, i2, o)) == Then(s1 + s2, i1 + i2, o)
  {
    assert s1 + (s2 + o.requests) == s1 + s2 + o.requests;
    assert i1 + (i2 + o.invocations) == i1 + i2 + o.invocations;
  }

  // ---------------------------------------------------------------------
  // The class
  // ---------------------------------------------------------------------

  class Chatbot {
    const backend: Client
    const registry: Registry
    const systemPrompt: string

    constructor (backend: Client, registry: Registry, systemPrompt: string)
      ensures this.backend == backend && this.registry == registry && this.systemPrompt == systemPrompt
    {
      this.backend := backend;
      this.registry := registry;
      this.systemPrompt := systemPrompt;
    }

    /** One call of a batch: parse its arguments, look its tool up, and invoke the tool or use `{}`. */
    method CallTool(call: ToolCall) returns (result: Result<Value, ChatError>)
      modifies registry
      ensures result == CallResult(registry.tools, call)
      ensures registry.invocations == old(registry.invocations) + Invoked(registry.tools, call)
    {
      var arguments := Decode(call.arguments);
      CallCases(registry.tools, call, arguments);
      if arguments.None? {
        return Err(MalformedArguments(call.id));
      }
      if call.name !in registry.tools {
        assert registry.invocations == old(registry.invocations) + [];
        return Ok(Obj([]));
      }
      if !arguments.value.Obj? {
        assert registry.invocations == old(registry.invocations) + [];
        return Err(ArgumentsNotObject(call.id));
      }
      var r := registry.Invoke(call.name, arguments.value.members);
      if r.None? {
        return Err(ToolRaised(call.id));
      }
      result := Ok(r.value);
    }

    /** One `tool` message per call, in order; stops at the first call that raises. */
    method HandleToolCalls(toolCalls: seq<ToolCall>) returns (results: Result<seq<Message>, ChatError>)
      modifies registry
      ensures results == ToolMessages(registry.tools, toolCalls)
      ensures registry.invocations == old(registry.invocations) + Trace(registry.tools, toolCalls)
    {
      var done: seq<Message> := [];
      ghost var invoked: seq<Invocation> := [];
      assert toolCalls[0..] == toolCalls;
      AfterNothing(ToolMessages(registry.tools, toolCalls));
      for i := 0 to |toolCalls|
        invariant ToolMessages(registry.tools, toolCalls) == AfterDone(done, ToolMessages(registry.tools, toolCalls[i..]))
        invariant Trace(registry.tools, toolCalls) == invoked + Trace(registry.tools, toolCalls[i..])
        invariant registry.invocations == old(registry.invocations) + invoked
      {
        var call := toolCalls[i];
        ghost var invokedBefore := invoked;
        assert toolCalls[i..][0] == call && toolCalls[i..][1..] == toolCalls[i + 1..];
        BatchStep(registry.tools, toolCalls[i..]);
        var result := CallTool(call);
        invoked := invoked + Invoked(registry.tools, call);
        Assoc(old(registry.invocations), invokedBefore, Invoked(registry.tools, call));
        if result.Err? {
          return Err(result.error);
        }
        ghost var rest := toolCalls[i + 1..];
        Assoc(invokedBefore, Invoked(registry.tools, call), Trace(registry.tools, rest));
        AfterAfter(done, Tool(Encode(result.value), call.id), ToolMessages(registry.tools, rest));
        done := done + [Tool(Encode(result.value), call.id)];
      }
      assert toolCalls[|toolCalls|..] == [];
      assert done + [] == done;
      results := Ok(done);
    }

    /** Calls the backend until it answers without asking for tools, and returns that answer. */
    method Chat(message: string, history: Option<seq<Message>>) returns (reply: Reply)
      modifies backend, registry
      ensures var o := Run(registry.tools, old(backend.script), Build(systemPrompt, history, message));
        && reply == o.reply
        && backend.requests == old(backend.requests) + o.requests
        && backend.script == o.remaining
        && registry.invocations == old(registry.invocations) + o.invocations
    {
      var messages := Build(systemPrompt, history, message);
      ghost var outcome := Run(registry.tools, backend.script, messages);
      ghost var sent: seq<seq<Message>> := [];
      ghost var invoked: seq<Invocation> := [];
      ThenNothing(outcome);
      var done := false;
      var content: Option<string> := None;
      while !done
        invariant backend.requests == old(backend.requests) + sent
        invariant registry.invocations == old(registry.invocations) + invoked
        invariant !done ==> outcome == Then(sent, invoked, Run(registry.tools, backend.script, messages))
        invariant done ==> outcome == Outcome(Ok(content), sent, invoked, backend.script)
        decreases if done then 0 else |backend.script| + 1
      {
        ghost var script := backend.script;
        ghost var before := messages;
        ghost var sentBefore := sent;
        ghost var invokedBefore := invoked;
        RunCases(registry.tools, script, messages);
        var response := backend.Create(messages);
        sent := sent + [messages];
        Assoc(old(backend.requests), sentBefore, [before]);
        if response.None? {
          Assoc(old(registry.invocations), invokedBefore, []);
          return Err(BackendExhausted);
        }
        var r := response.value;
        if r.finishReason == ToolCallsReason {
          if r.message.toolCalls.None? {
            Assoc(old(registry.invocations), invokedBefore, []);
            return Err(ToolCallsMissing);
          }
          var calls := r.message.toolCalls.value;
          var results := HandleToolCalls(calls);
          invoked := invoked + Trace(registry.tools, calls);
          Assoc(old(registry.invocations), invokedBefore, Trace(registry.tools, calls));
          if results.Err? {
            return Err(results.error);
          }
          messages := messages + [Assistant(r.message)];
          messages := messages + results.value;
          ThenThen(sentBefore, invokedBefore, [before], Trace(registry.tools, calls), Run(registry.tools, backend.script, messages));
        } else {
          Assoc(old(registry.invocations), invokedBefore, []);
          content := r.message.content;
          done := true;
        }
      }
      reply := Ok(content);
    }
  }

  // ---------------------------------------------------------------------
  // Properties of one batch
  // ---------------------------------------------------------------------

  /** A batch is answered exactly when every one of its calls succeeds. */
  lemma {:induction false} ToolMessagesOk(tools: map<string, ToolFn>, calls: seq<ToolCall>)
    ensures ToolMessages(tools, calls).Ok? <==> forall i :: 0 <= i < |calls| ==> CallResult(tools, calls[i]).Ok?
    decreases |calls|
  {
    if calls != [] {
      ToolMessagesOk(tools, calls[1..]);
      assert forall i :: 1 <= i < |calls| ==> calls[i] == calls[1..][i - 1];
    }
  }

  /** An answered batch has one `tool` message per call, in call order, carrying that call's id and result. */
  lemma {:induction false} ToolMessagesContent(tools: map<string, ToolFn>, calls: seq<ToolCall>)
    requires ToolMessages(tools, calls).Ok?
    ensures var ms := ToolMessages(tools, calls).value;
      && |ms| == |calls|
      && forall i :: 0 <= i < |calls| ==>
           && CallResult(tools, calls[i]).Ok?
           && ms[i] == Tool(Encode(CallResult(tools, calls[i]).value), calls[i].id)
    decreases |calls|
  {
    if calls != [] {
      ToolMessagesContent(tools, calls[1..]);
      assert forall i :: 1 <= i < |calls| ==> calls[i] == calls[1..][i - 1];
    }
  }

  /** A batch fails with the error of its first failing call, after invoking the tools of the calls before it. */
  lemma {:induction false} ToolMessagesFirstError(tools: map<string, ToolFn>, calls: seq<ToolCall>, k: nat)
    requires k < |calls| && CallResult(tools, calls[k]).Err?
    requires forall j :: 0 <= j < k ==> CallResult(tools, calls[j]).Ok?
    ensures ToolMessages(tools, calls) == Err(CallResult(tools, calls[k]).error)
    ensures Trace(tools, calls) == Trace(tools, calls[..k]) + Invoked(tools, calls[k])
    decreases k
  {
    if k == 0 {
      assert calls[..0] == [];
      assert Invoked(tools, calls[0]) + [] == Invoked(tools, calls[0]);
    } else {
      assert forall j :: 0 <= j < k - 1 ==> calls[1..][j] == calls[j + 1];
      ToolMessagesFirstError(tools, calls[1..], k - 1);
      assert calls[..k][0] == calls[0] && calls[..k][1..] == calls[1..][..k - 1];
      Assoc(Invoked(tools, calls[0]), Trace(tools, calls[1..][..k - 1]), Invoked(tools, calls[k]));
    }
  }

  /** A call to a tool the registry does not have answers `{}` and invokes nothing. */
  lemma UnknownTool(tools: map<string, ToolFn>, call: ToolCall)
    requires Decode(call.arguments).Some? && call.name !in tools
    ensures CallResult(tools, call) == Ok(Obj([]))
    ensures Encode(CallResult(tools, call).value) == "{}"
    ensures Invoked(tools, call) == []
  {
    EncodeEmptyObject();
  }

  /** Arguments that are not JSON fail the call, whether or not the tool exists, and invoke nothing. */
  lemma MalformedArgumentsFail(tools: map<string, ToolFn>, call: ToolCall)
    requires Decode(call.arguments).None?
    ensures CallResult(tools, call) == Err(MalformedArguments(call.id))
    ensures Invoked(tools, call) == []
  {
  }

  /** The decoded object's members, for a call whose arguments decode to an object. */
  function Arguments(call: ToolCall): Args
    requires Decode(call.arguments).Some? && Decode(call.arguments).value.Obj?
  {
    Decode(call.arguments).value.members
  }

  /** `trace` invokes the tools of `known`, one each, in order, with their decoded arguments. */
  predicate InvokesEach(trace: seq<Invocation>, known: seq<ToolCall>) {
    && |trace| == |known|
    && forall i :: 0 <= i < |known| ==>
         && Decode(known[i].arguments).Some? && Decode(known[i].arguments).value.Obj?
         && trace[i] == Invocation(known[i].name, Arguments(known[i]))
  }

  lemma InvokesEachCons(c: ToolCall, trace: seq<Invocation>, known: seq<ToolCall>)
    requires InvokesEach(trace, known)
    requires Decode(c.arguments).Some? && Decode(c.arguments).value.Obj?
    ensures InvokesEach([Invocation(c.name, Arguments(c))] + trace, [c] + known)
  {
    var t := [Invocation(c.name, Arguments(c))] + trace;
    var k := [c] + known;
    assert forall i :: 1 <= i < |k| ==> k[i] == known[i - 1] && t[i] == trace[i - 1];
  }

  /**
   * In an answered batch each call to a known tool invokes it exactly once, with its
   * decoded arguments, in call order; calls to unknown tools invoke nothing.
   */
  lemma {:induction false} TraceKnown(tools: map<string, ToolFn>, calls: seq<ToolCall>)
    requires ToolMessages(tools, calls).Ok?
    ensures InvokesEach(Trace(tools, calls), Known(tools, calls))
    decreases |calls|
  {
    if calls != [] {
      var c := calls[0];
      BatchStep(tools, calls);
      CallCases(tools, c, Decode(c.arguments));
      TraceKnown(tools, calls[1..]);
      if c.name in tools {
        InvokesEachCons(c, Trace(tools, calls[1..]), Known(tools, calls[1..]));
      } else {
        assert Trace(tools, calls) == Trace(tools, calls[1..]);
        assert Known(tools, calls) == Known(tools, calls[1..]);
      }
    }
  }

  // ---------------------------------------------------------------------
  // Properties of the loop
  // ---------------------------------------------------------------------

  /**
   * The first request carries the working sequence; each later request is the one before
   * it plus the assistant message of a successful tool round and then that round's N
   * results, so it is 1 + N longer. There is at most one request per scripted response,
   * plus one that finds the script empty.
   */
  lemma {:induction false} RunRounds(tools: map<string, ToolFn>, script: seq<Response>, messages: seq<Message>)
    ensures var o := Run(tools, script, messages);
      && 1 <= |o.requests| <= |script| + 1
      && o.requests[0] == messages
      && forall k :: 0 <= k < |o.requests| - 1 ==>
           && RoundSucceeds(tools, script[k])
           && o.requests[k + 1]
              == o.requests[k] + [Assistant(script[k].message)]
                 + ToolMessages(tools, script[k].message.toolCalls.value).value
    decreases |script|
  {
    if script != [] && RoundSucceeds(tools, script[0]) {
      var calls := script[0].message.toolCalls.value;
      var next := messages + [Assistant(script[0].message)] + ToolMessages(tools, calls).value;
      RunRounds(tools, script[1..], next);
      var o' := Run(tools, script[1..], next);
      assert Run(tools, script, messages).requests == [messages] + o'.requests;
      assert forall k :: 1 <= k < |o'.requests| ==> script[k] == script[1..][k - 1];
    }
  }

  /** `prefix` is where `ms` starts. */
  predicate StartsWith(ms: seq<Message>, prefix: seq<Message>) {
    |prefix| <= |ms| && ms[..|prefix|] == prefix
  }

  /** A request never loses what the one before it carried: every request extends the working sequence. */
  lemma {:induction false} RunKeepsPrefix(tools: map<string, ToolFn>, script: seq<Response>, messages: seq<Message>)
    ensures var o := Run(tools, script, messages);
      forall k :: 0 <= k < |o.requests| ==> StartsWith(o.requests[k], messages)
    decreases |script|
  {
    if script != [] && RoundSucceeds(tools, script[0]) {
      var calls := script[0].message.toolCalls.value;
      var next := messages + [Assistant(script[0].message)] + ToolMessages(tools, calls).value;
      RunKeepsPrefix(tools, script[1..], next);
      assert forall k :: 0 <= k < |Run(tools, script[1..], next).requests| ==>
        StartsWith(Run(tools, script[1..], next).requests[k], next);
      var later := Run(tools, script[1..], next).requests;
      assert Run(tools, script, messages).requests == [messages] + later;
      forall k | 0 <= k < |later|
        ensures StartsWith(later[k], messages)
      {
        assert later[k][..|messages|] == next[..|next|][..|messages|];
      }
    }
  }

  /**
   * A reply is the content of the first scripted response whose finish reason is not
   * "tool_calls"; it is the n-th response, where n is the number of requests sent.
   */
  lemma {:induction false} RunAnswer(tools: map<string, ToolFn>, script: seq<Response>, messages: seq<Message>)
    ensures var o := Run(tools, script, messages);
      var n := |o.requests|;
      o.reply.Ok? ==>
        && n <= |script|
        && (forall k :: 0 <= k < n - 1 ==> RoundSucceeds(tools, script[k]))
        && script[n - 1].finishReason != ToolCallsReason
        && o.reply.value == script[n - 1].message.content
        && o.remaining == script[n..]
    decreases |script|
  {
    RunRounds(tools, script, messages);
    if script != [] && RoundSucceeds(tools, script[0]) {
      var calls := script[0].message.toolCalls.value;
      var next := messages + [Assistant(script[0].message)] + ToolMessages(tools, calls).value;
      RunAnswer(tools, script[1..], next);
      var o' := Run(tools, script[1..], next);
      assert |Run(tools, script, messages).requests| == |o'.requests| + 1;
      assert |o'.requests| <= |script[1..]| ==> script[1..][|o'.requests|..] == script[|o'.requests| + 1..];
    }
  }

  /**
   * Conversely, when the first n responses are successful tool rounds and the next one is
   * not a tool round, the reply is that response's content after n + 1 requests.
   */
  lemma {:induction false} RunReachesAnswer(tools: map<string, ToolFn>, script: seq<Response>, messages: seq<Message>, n: nat)
    requires n < |script|
    requires forall k :: 0 <= k < n ==> RoundSucceeds(tools, script[k])
    requires script[n].finishReason != ToolCallsReason
    ensures var o := Run(tools, script, messages);
      && o.reply == Ok(script[n].message.content)
      && |o.requests| == n + 1
      && o.remaining == script[n + 1..]
    decreases n
  {
    if n > 0 {
      var calls := script[0].message.toolCalls.value;
      var next := messages + [Assistant(script[0].message)] + ToolMessages(tools, calls).value;
      assert forall k :: 0 <= k < n - 1 ==> script[1..][k] == script[k + 1];
      RunReachesAnswer(tools, script[1..], next, n - 1);
      assert script[1..][n - 1 + 1..] == script[n + 1..];
    }
  }

  /** A script that runs out before an answer fails the call, after one request per response and one more. */
  lemma {:induction false} RunExhausted(tools: map<string, ToolFn>, script: seq<Response>, messages: seq<Message>)
    ensures var o := Run(tools, script, messages);
      o.reply == Err(BackendExhausted) <==> |o.requests| == |script| + 1
    decreases |script|
  {
    RunRounds(tools, script, messages);
    if script != [] && RoundSucceeds(tools, script[0]) {
      var calls := script[0].message.toolCalls.value;
      var next := messages + [Assistant(script[0].message)] + ToolMessages(tools, calls).value;
      RunExhausted(tools, script[1..], next);
    }
  }

  /** A script of nothing but successful tool rounds runs out: the call fails after one request per response and one more. */
  lemma {:induction false} AllRoundsExhaust(tools: map<string, ToolFn>, script: seq<Response>, messages: seq<Message>)
    requires forall i :: 0 <= i < |script| ==> RoundSucceeds(tools, script[i])
    ensures Run(tools, script, messages).reply == Err(BackendExhausted)
    ensures |Run(tools, script, messages).requests| == |script| + 1
    decreases |script|
  {
    if script != [] {
      var calls := script[0].message.toolCalls.value;
      var next := messages + [Assistant(script[0].message)] + ToolMessages(tools, calls).value;
      RunAfterRound(tools, script, messages);
      assert forall i :: 0 <= i < |script[1..]| ==> script[1..][i] == script[i + 1];
      AllRoundsExhaust(tools, script[1..], next);
    }
  }

  /**
   * Arguments that are not JSON in a call of the first response fail the whole `chat` call
   * in that round: no further request is sent, and the tools invoked are exactly those of
   * the batch up to its first failing call.
   */
  lemma RunMalformedFails(tools: map<string, ToolFn>, script: seq<Response>, messages: seq<Message>, k: nat)
    requires script != [] && script[0].finishReason == ToolCallsReason && script[0].message.toolCalls.Some?
    requires k < |script[0].message.toolCalls.value|
    requires Decode(script[0].message.toolCalls.value[k].arguments).None?
    ensures var o := Run(tools, script, messages);
      && o.reply.Err?
      && o.requests == [messages]
      && o.invocations == Trace(tools, script[0].message.toolCalls.value)
      && o.remaining == script[1..]
  {
    var calls := script[0].message.toolCalls.value;
    ToolMessagesOk(tools, calls);
    MalformedArgumentsFail(tools, calls[k]);
  }

  /**
   * `o` failed after `n` requests, leaving `rest` of the script, and its last invocations
   * are `t`.
   */
  predicate FailedAfter(o: Outcome, n: nat, rest: seq<Response>, t: seq<Invocation>) {
    && o.reply.Err?
    && |o.requests| == n
    && o.remaining == rest
    && |t| <= |o.invocations| && o.invocations[|o.invocations| - |t|..] == t
  }

  /**
   * The same in any round: after k successful tool rounds, arguments that are not JSON in
   * a call of response k fail the `chat` call with request k + 1 as the last one sent, and
   * the last invocations made are that batch's, up to its first failing call.
   */
  lemma {:induction false} RunMalformedFailsInRound(
    tools: map<string, ToolFn>, script: seq<Response>, messages: seq<Message>, k: nat, j: nat)
    requires k < |script|
    requires forall i :: 0 <= i < k ==> RoundSucceeds(tools, script[i])
    requires script[k].finishReason == ToolCallsReason && script[k].message.toolCalls.Some?
    requires j < |script[k].message.toolCalls.value|
    requires Decode(script[k].message.toolCalls.value[j].arguments).None?
    ensures FailedAfter(Run(tools, script, messages), k + 1, script[k + 1..],
                        Trace(tools, script[k].message.toolCalls.value))
    decreases k
  {
    if k == 0 {
      RunMalformedFails(tools, script, messages, j);
      WholeSuffix(Run(tools, script, messages).invocations);
    } else {
      var calls := script[0].message.toolCalls.value;
      var next := messages + [Assistant(script[0].message)] + ToolMessages(tools, calls).value;
      var tail := script[1..];
      RoundsShift(tools, script, k);
      RunAfterRound(tools, script, messages);
      RunMalformedFailsInRound(tools, tail, next, k - 1, j);
      assert tail[k - 1 + 1..] == script[k + 1..];
      ThenKeepsFailure([messages], Trace(tools, calls), Run(tools, tail, next), k,
                       script[k + 1..], Trace(tools, script[k].message.toolCalls.value));
    }
  }

  /** Dropping the first of k successful rounds leaves k - 1 successful rounds, with response k next. */
  lemma RoundsShift(tools: map<string, ToolFn>, script: seq<Response>, k: nat)
    requires 0 < k < |script|
    requires forall i :: 0 <= i < k ==> RoundSucceeds(tools, script[i])
    ensures RoundSucceeds(tools, script[0])
    ensures forall i :: 0 <= i < k - 1 ==> RoundSucceeds(tools, script[1..][i])
    ensures script[1..][k - 1] == script[k]
  {
    assert forall i :: 0 <= i < k - 1 ==> script[1..][i] == script[i + 1];
  }

  /** After a successful first tool round, the loop goes on with the grown working sequence. */
  lemma RunAfterRound(tools: map<string, ToolFn>, script: seq<Response>, messages: seq<Message>)
    requires script != [] && RoundSucceeds(tools, script[0])
    ensures var calls := script[0].message.toolCalls.value;
      Run(tools, script, messages)
      == Then([messages], Trace(tools, calls),
              Run(tools, script[1..], messages + [Assistant(script[0].message)] + ToolMessages(tools, calls).value))
  {
  }

  lemma WholeSuffix<T>(a: seq<T>)
    ensures a[|a| - |a|..] == a
  {
  }

  /** Requests and invocations put in front of a failed outcome keep it failed and keep its last invocations. */
  lemma ThenKeepsFailure(sent: seq<seq<Message>>, invoked: seq<Invocation>, o: Outcome,
                         n: nat, rest: seq<Response>, t: seq<Invocation>)
    requires FailedAfter(o, n, rest, t)
    ensures FailedAfter(Then(sent, invoked, o), |sent| + n, rest, t)
  {
    var p := Then(sent, invoked, o);
    assert p.invocations[|p.invocations| - |t|..] == o.invocations[|o.invocations| - |t|..];
  }
}
