/**
 * The bounded tool-calling loop shared by the foreground turn (nanobot/agent/loop.py, written
 * out twice there, for ordinary and for system messages) and by each subagent
 * (nanobot/agent/subagent.py). `ToolLoop` is its specification; `RunToolLoop` is the loop.
 */
module Turns {
  import opened Wrappers
  import opened Llm
  import opened Tools

  /**
   * What one loop is run with. `blankContent` is the subagent's way of recording an assistant
   * turn (`response.content or ""`); the foreground loop records `response.content` as it is.
   */
  datatype LoopConfig = LoopConfig(
    respond: (nat, ChatRequest) -> ChatOutcome,
    registry: ToolRegistry,
    impl: (string, Args) -> string,
    model: string,
    blankContent: bool)

  /** How a loop ended: a response without tool calls, the bound, or a raised provider error. */
  datatype Ending = Answered(content: Option<string>) | Exhausted | Crashed(error: string)

  /** The ending, every provider outcome received (in order), and the final message sequence. */
  datatype LoopEnd = LoopEnd(ending: Ending, trace: seq<ChatOutcome>, messages: seq<ChatMessage>) {

    /** `final_content` after the loop: the answer's content, or None (then the caller falls back). */
    function Final(): Option<string> {
      if ending.Answered? then ending.content else None
    }
  }

  predicate IsToolReply(o: ChatOutcome) {
    o.Reply? && o.response.HasToolCalls()
  }

  function Request(cfg: LoopConfig, messages: seq<ChatMessage>): ChatRequest {
    ChatRequest(messages, cfg.registry.Definitions(), cfg.model)
  }

  /** One tool-result message per call, in the order of the calls. */
  function Results(cfg: LoopConfig, calls: seq<ToolCallRequest>): seq<ChatMessage> {
    if |calls| == 0 then []
    else
      var c := calls[|calls| - 1];
      Results(cfg, calls[..|calls| - 1]) + [Tool(c.id, c.name, cfg.registry.Execute(cfg.impl, c.name, c.arguments))]
  }

  /** What a tool-bearing response adds to the message sequence: its assistant turn, then the results. */
  function Round(cfg: LoopConfig, r: LLMResponse): seq<ChatMessage> {
    var content := if cfg.blankContent then Some(r.content.GetOr("")) else r.content;
    [Assistant(content, r.toolCalls)] + Results(cfg, r.toolCalls)
  }

  /** The messages added by the tool-bearing outcomes of a trace; other outcomes add nothing. */
  function Rounds(cfg: LoopConfig, trace: seq<ChatOutcome>): seq<ChatMessage> {
    if |trace| == 0 then []
    else
      var o := trace[|trace| - 1];
      Rounds(cfg, trace[..|trace| - 1]) + (if IsToolReply(o) then Round(cfg, o.response) else [])
  }

  /**
   * The loop from the point where `trace` has been received and the message sequence is
   * `messages`: call the provider while fewer than `max` calls were made; a tool-bearing answer
   * extends the messages and loops, any other answer ends the loop.
   */
  function ToolLoop(cfg: LoopConfig, start: nat, messages: seq<ChatMessage>, max: int,
                    trace: seq<ChatOutcome>): LoopEnd
    decreases max - |trace|
  {
    if |trace| >= max then LoopEnd(Exhausted, trace, messages)
    else
      var o := cfg.respond(start + |trace|, Request(cfg, messages));
      match o
      case Raise(e) => LoopEnd(Crashed(e), trace + [o], messages)
      case Reply(r) =>
        if r.HasToolCalls() then ToolLoop(cfg, start, messages + Round(cfg, r), max, trace + [o])
        else LoopEnd(Answered(r.content), trace + [o], messages)
  }

  /**
   * Each outcome of `trace` is the provider's answer to its call: the n-th call (counted from
   * `start`) was made on `init` followed by the rounds of the outcomes before it.
   */
  ghost predicate Follows(cfg: LoopConfig, start: nat, init: seq<ChatMessage>, trace: seq<ChatOutcome>) {
    |trace| > 0 ==>
      var n := |trace| - 1;
      && Follows(cfg, start, init, trace[..n])
      && trace[n] == cfg.respond(start + n, Request(cfg, init + Rounds(cfg, trace[..n])))
  }

  function Bound(max: int): nat {
    if max < 0 then 0 else max
  }

  /** Each tool call gets exactly one result, in call order, keyed by the call's id. */
  lemma {:induction false} ResultsShape(cfg: LoopConfig, calls: seq<ToolCallRequest>)
    ensures |Results(cfg, calls)| == |calls|
    ensures forall i :: 0 <= i < |calls| ==>
      Results(cfg, calls)[i] == Tool(calls[i].id, calls[i].name, cfg.registry.Execute(cfg.impl, calls[i].name, calls[i].arguments))
  {
    if |calls| > 0 {
      ResultsShape(cfg, calls[..|calls| - 1]);
    }
  }

  /** A tool-bearing response adds one assistant message carrying all its calls, then one result per call. */
  lemma RoundShape(cfg: LoopConfig, r: LLMResponse)
    ensures |Round(cfg, r)| == 1 + |r.toolCalls|
    ensures Round(cfg, r)[0].Assistant? && Round(cfg, r)[0].toolCalls == r.toolCalls
    ensures Round(cfg, r)[0].reply == if cfg.blankContent then Some(r.content.GetOr("")) else r.content
    ensures forall i :: 0 <= i < |r.toolCalls| ==>
      Round(cfg, r)[1 + i] == Tool(r.toolCalls[i].id, r.toolCalls[i].name, cfg.registry.Execute(cfg.impl, r.toolCalls[i].name, r.toolCalls[i].arguments))
  {
    var results := Results(cfg, r.toolCalls);
    ResultsShape(cfg, r.toolCalls);
    var round := Round(cfg, r);
    assert round == [round[0]] + results;
    forall i | 0 <= i < |r.toolCalls|
      ensures round[1 + i] == Tool(r.toolCalls[i].id, r.toolCalls[i].name, cfg.registry.Execute(cfg.impl, r.toolCalls[i].name, r.toolCalls[i].arguments))
    {
      assert round[1 + i] == results[i];
    }
  }

  /** How every loop end looks: the properties ToolLoopOutcome states about the trace and the ending. */
  ghost predicate Ended(max: int, e: LoopEnd) {
    && |e.trace| <= Bound(max)
    && (forall j :: 0 <= j < |e.trace| - 1 ==> IsToolReply(e.trace[j]))
    && (e.ending.Exhausted? ==> |e.trace| == Bound(max) && forall j :: 0 <= j < |e.trace| ==> IsToolReply(e.trace[j]))
    && (e.ending.Answered? ==>
          |e.trace| > 0 && e.trace[|e.trace| - 1].Reply? &&
          !e.trace[|e.trace| - 1].response.HasToolCalls() &&
          e.ending.content == e.trace[|e.trace| - 1].response.content)
    && (e.ending.Crashed? ==> |e.trace| > 0 && e.trace[|e.trace| - 1] == Raise(e.ending.error))
  }

  /** The shape of the loop's end, carried from any intermediate point. */
  lemma {:induction false} EndedInvariant(cfg: LoopConfig, start: nat, max: int,
                                         messages: seq<ChatMessage>, trace: seq<ChatOutcome>)
    requires |trace| == 0 || |trace| <= max
    requires forall j :: 0 <= j < |trace| ==> IsToolReply(trace[j])
    ensures Ended(max, ToolLoop(cfg, start, messages, max, trace))
    decreases max - |trace|
  {
    var e := ToolLoop(cfg, start, messages, max, trace);
    if |trace| < max {
      var o := cfg.respond(start + |trace|, Request(cfg, messages));
      var t := trace + [o];
      if IsToolReply(o) {
        assert e == ToolLoop(cfg, start, messages + Round(cfg, o.response), max, t);
        EndedInvariant(cfg, start, max, messages + Round(cfg, o.response), t);
      } else if o.Raise? {
        assert e == LoopEnd(Crashed(o.error), t, messages);
      } else {
        assert e == LoopEnd(Answered(o.response.content), t, messages);
      }
    }
  }

  lemma RoundsStep(cfg: LoopConfig, trace: seq<ChatOutcome>, o: ChatOutcome)
    ensures Rounds(cfg, trace + [o]) == Rounds(cfg, trace) + (if IsToolReply(o) then Round(cfg, o.response) else [])
  {
    assert (trace + [o])[..|trace|] == trace;
  }

  /** The final messages are the initial ones followed by the round of each tool-bearing outcome. */
  lemma {:induction false} MessagesInvariant(cfg: LoopConfig, start: nat, init: seq<ChatMessage>, max: int,
                                            messages: seq<ChatMessage>, trace: seq<ChatOutcome>)
    requires messages == init + Rounds(cfg, trace)
    ensures ToolLoop(cfg, start, messages, max, trace).messages == init + Rounds(cfg, ToolLoop(cfg, start, messages, max, trace).trace)
    decreases max - |trace|
  {
    var e := ToolLoop(cfg, start, messages, max, trace);
    if |trace| < max {
      var o := cfg.respond(start + |trace|, Request(cfg, messages));
      var t := trace + [o];
      RoundsStep(cfg, trace, o);
      if IsToolReply(o) {
        assert e == ToolLoop(cfg, start, messages + Round(cfg, o.response), max, t);
        MessagesInvariant(cfg, start, init, max, messages + Round(cfg, o.response), t);
      } else if o.Raise? {
        assert e == LoopEnd(Crashed(o.error), t, messages);
      } else {
        assert e == LoopEnd(Answered(o.response.content), t, messages);
      }
    }
  }

  /** Every outcome in the trace is the provider's answer to the messages the earlier outcomes produced. */
  lemma {:induction false} FollowsInvariant(cfg: LoopConfig, start: nat, init: seq<ChatMessage>, max: int,
                                           messages: seq<ChatMessage>, trace: seq<ChatOutcome>)
    requires Follows(cfg, start, init, trace)
    requires messages == init + Rounds(cfg, trace)
    ensures Follows(cfg, start, init, ToolLoop(cfg, start, messages, max, trace).trace)
    decreases max - |trace|
  {
    var e := ToolLoop(cfg, start, messages, max, trace);
    if |trace| < max {
      var o := cfg.respond(start + |trace|, Request(cfg, messages));
      var t := trace + [o];
      assert t[..|trace|] == trace;
      RoundsStep(cfg, trace, o);
      if IsToolReply(o) {
        assert e == ToolLoop(cfg, start, messages + Round(cfg, o.response), max, t);
        FollowsInvariant(cfg, start, init, max, messages + Round(cfg, o.response), t);
      } else if o.Raise? {
        assert e == LoopEnd(Crashed(o.error), t, messages);
      } else {
        assert e == LoopEnd(Answered(o.response.content), t, messages);
      }
    }
  }

  /**
   * The loop started from `init` calls the provider at most `max` times; every outcome but the
   * last was a tool-bearing answer; the loop ends at the first answer without tool calls (whose
   * content is returned), at a raised error, or after exactly `max` tool-bearing answers; the
   * n-th outcome is the provider's answer to the messages built so far; and the final messages
   * are `init` followed by one round per tool-bearing answer.
   */
  lemma ToolLoopOutcome(cfg: LoopConfig, start: nat, init: seq<ChatMessage>, max: int)
    ensures Ended(max, ToolLoop(cfg, start, init, max, []))
    ensures Follows(cfg, start, init, ToolLoop(cfg, start, init, max, []).trace)
    ensures ToolLoop(cfg, start, init, max, []).messages == init + Rounds(cfg, ToolLoop(cfg, start, init, max, []).trace)
  {
    assert init + Rounds(cfg, []) == init;
    EndedInvariant(cfg, start, max, init, []);
    MessagesInvariant(cfg, start, init, max, init, []);
    FollowsInvariant(cfg, start, init, max, init, []);
  }

  /** A provider that never stops asking for tools is cut off at exactly `max` calls, with no final content. */
  lemma {:induction false} RunawayToolsHitTheBound(cfg: LoopConfig, start: nat, init: seq<ChatMessage>, max: int)
    requires forall n, q :: IsToolReply(cfg.respond(n, q))
    ensures ToolLoop(cfg, start, init, max, []).ending == Exhausted
    ensures |ToolLoop(cfg, start, init, max, []).trace| == Bound(max)
    ensures ToolLoop(cfg, start, init, max, []).Final() == None
  {
    AlwaysToolsExhausts(cfg, start, init, max, []);
  }

  lemma {:induction false} AlwaysToolsExhausts(cfg: LoopConfig, start: nat, messages: seq<ChatMessage>, max: int,
                                              trace: seq<ChatOutcome>)
    requires forall n, q :: IsToolReply(cfg.respond(n, q))
    requires |trace| == 0 || |trace| <= max
    ensures ToolLoop(cfg, start, messages, max, trace).ending == Exhausted
    ensures |ToolLoop(cfg, start, messages, max, trace).trace| == if |trace| >= max then |trace| else max
    decreases max - |trace|
  {
    if |trace| < max {
      var o := cfg.respond(start + |trace|, Request(cfg, messages));
      assert IsToolReply(o);
      AlwaysToolsExhausts(cfg, start, messages + Round(cfg, o.response), max, trace + [o]);
    }
  }

  /**
   * The tool-bearing branch of one pass: the assistant turn carrying the calls, then each call
   * executed in order with its result appended.
   */
  method RecordRound(cfg: LoopConfig, before: seq<ChatMessage>, r: LLMResponse) returns (messages: seq<ChatMessage>)
    ensures messages == before + Round(cfg, r)
  {
    var content := if cfg.blankContent then Some(r.content.GetOr("")) else r.content;
    messages := before + [Assistant(content, r.toolCalls)];
    var i := 0;
    while i < |r.toolCalls|
      invariant 0 <= i <= |r.toolCalls|
      invariant messages == before + [Assistant(content, r.toolCalls)] + Results(cfg, r.toolCalls[..i])
    {
      var call := r.toolCalls[i];
      var result := cfg.registry.Execute(cfg.impl, call.name, call.arguments);
      messages := messages + [Tool(call.id, call.name, result)];
      assert r.toolCalls[..i + 1][..i] == r.toolCalls[..i];
      i := i + 1;
    }
    assert r.toolCalls[..i] == r.toolCalls;
  }

  /**
   * `while iteration < max_iterations`: each pass calls the provider once, and a tool-bearing
   * answer appends its assistant turn and then, for each call in order, the registry's result.
   */
  method RunToolLoop(provider: Provider, cfg: LoopConfig, init: seq<ChatMessage>, max: int) returns (e: LoopEnd)
    requires cfg.respond == provider.respond
    modifies provider
    ensures e == ToolLoop(cfg, old(provider.calls), init, max, [])
    ensures provider.calls == old(provider.calls) + |e.trace|
  {
    ghost var start := provider.calls;
    var messages := init;
    var trace: seq<ChatOutcome> := [];
    var iteration := 0;
    while iteration < max
      invariant iteration == |trace|
      invariant provider.calls == start + iteration
      invariant ToolLoop(cfg, start, init, max, []) == ToolLoop(cfg, start, messages, max, trace)
      decreases max - iteration
    {
      iteration := iteration + 1;
      var o := provider.Chat(ChatRequest(messages, cfg.registry.Definitions(), cfg.model));
      if o.Raise? {
        e := LoopEnd(Crashed(o.error), trace + [o], messages);
        return;
      }
      var r := o.response;
      if !r.HasToolCalls() {
        e := LoopEnd(Answered(r.content), trace + [o], messages);
        return;
      }
      ghost var before := messages;
      messages := RecordRound(cfg, messages, r);
      assert ToolLoop(cfg, start, before, max, trace) == ToolLoop(cfg, start, messages, max, trace + [o]);
      trace := trace + [o];
    }
    e := LoopEnd(Exhausted, trace, messages);
  }
}
