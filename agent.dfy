/**
 * The agent loop (nanobot/agent/loop.py): the single consumer of inbound messages. A turn
 * resolves where to reply, points the message and spawn tools at that place, runs the bounded
 * tool loop, appends exactly two session entries and produces one outbound message.
 *
 * The session manager is the map `sessions` from session key to entries; the context builder's
 * `build_messages` is the uninterpreted function `build`.
 */
module Agent {
  import opened Wrappers
  import opened Strings
  import opened Events
  import opened Bus
  import opened Llm
  import opened Tools
  import opened Turns
  import opened Subagents
  import opened SpawnTools

  /** A session entry: `session.add_message(role, content)`. */
  datatype Entry = Entry(role: string, content: string)

  /** The result of handling one inbound message: a reply, or the message of the exception raised. */
  datatype TurnOutcome = Replied(response: OutboundMessage) | Raised(error: string)

  /** What `run` leaves after handling some messages: what it published, the sessions and the provider's call count. */
  datatype Handled = Handled(out: seq<OutboundMessage>, sessions: map<string, seq<Entry>>, calls: nat)

  const DefaultMaxIterations: nat := 20
  const OrdinaryFallback: string := "处理完成，但没有生成响应。"
  const SystemFallback: string := "后台任务已完成。"
  const ApologyPrefix: string := "抱歉，发生了错误: "

  /**
   * The origin a system message's chat id encodes: split at the first ':', or the CLI channel
   * with the whole chat id when there is no ':'.
   */
  function ParseOrigin(chatId: string): (r: (string, string))
    ensures ':' in chatId ==> chatId == JoinKey(r.0, r.1) && ':' !in r.0
    ensures ':' !in chatId ==> r == ("cli", chatId)
  {
    if ':' in chatId then SplitFirst(chatId, ':') else ("cli", chatId)
  }

  /** Where a turn replies and which session it uses: the parsed origin for system messages, else the message's own chat. */
  function ReplyTarget(msg: InboundMessage): (r: (string, string))
    ensures msg.channel != "system" ==> r == (msg.channel, msg.chatId)
    ensures msg.channel == "system" && ':' in msg.chatId ==> JoinKey(r.0, r.1) == msg.chatId && ':' !in r.0
    ensures msg.channel == "system" && ':' !in msg.chatId ==> r == ("cli", msg.chatId)
  {
    if msg.channel == "system" then ParseOrigin(msg.chatId) else (msg.channel, msg.chatId)
  }

  /** The user entry a turn persists; system turns carry a marker naming the sender. */
  function UserText(msg: InboundMessage): (r: string)
    ensures msg.channel != "system" ==> r == msg.content
    ensures msg.channel == "system" ==> StartsWith(r, "[系统: " + msg.senderId + "] ") && EndsWith(r, msg.content)
  {
    StartsWithPrepend("[系统: " + msg.senderId + "] ", msg.content);
    EndsWithPrepend("[系统: " + msg.senderId + "] ", msg.content);
    if msg.channel == "system" then "[系统: " + msg.senderId + "] " + msg.content else msg.content
  }

  /** The reply used when the loop produced no content. */
  function Fallback(msg: InboundMessage): (r: string)
    ensures r != ""
    ensures r == SystemFallback <==> msg.channel == "system"
  {
    if msg.channel == "system" then SystemFallback else OrdinaryFallback
  }

  /** `get_or_create(key).get_history()`: a session not seen before has no entries. */
  function History(sessions: map<string, seq<Entry>>, key: string): seq<Entry> {
    if key in sessions then sessions[key] else []
  }

  /** The error reply of `run`, addressed to the raw channel and chat id of the message. */
  function Apology(msg: InboundMessage, error: string): (o: OutboundMessage)
    ensures o.channel == msg.channel && o.chatId == msg.chatId
    ensures StartsWith(o.content, ApologyPrefix) && EndsWith(o.content, error)
  {
    StartsWithPrepend(ApologyPrefix, error);
    EndsWithPrepend(ApologyPrefix, error);
    NewOutbound(msg.channel, msg.chatId, ApologyPrefix + error)
  }

  /** `o` is what `run` publishes for `m`: a reply to its target, or an apology to its raw address. */
  predicate Answers(m: InboundMessage, o: OutboundMessage) {
    (o.channel, o.chatId) == ReplyTarget(m)
    || (o.channel == m.channel && o.chatId == m.chatId && StartsWith(o.content, ApologyPrefix))
  }

  /** Each message of `msgs` is answered by the outbound message at the same position of `outs`. */
  predicate Served(msgs: seq<InboundMessage>, outs: seq<OutboundMessage>) {
    |msgs| == |outs| && forall j :: 0 <= j < |msgs| ==> Answers(msgs[j], outs[j])
  }

  lemma ServedSnoc(msgs: seq<InboundMessage>, outs: seq<OutboundMessage>, m: InboundMessage, o: OutboundMessage)
    requires Served(msgs, outs) && Answers(m, o)
    ensures Served(msgs + [m], outs + [o])
  {
  }

  /**
   * A system message's chat id yields the origin it encodes exactly when that origin's channel
   * has no ':'; a ':' in the origin's chat id is kept.
   */
  lemma {:induction false} ParseOriginJoin(channel: string, chatId: string)
    ensures ParseOrigin(JoinKey(channel, chatId)) == (channel, chatId) <==> ':' !in channel
  {
    SplitFirstJoin(channel, ':', chatId);
  }

  /**
   * The announcement a subagent publishes is routed by the agent loop back to the origin given
   * at spawn time, if and only if the origin channel has no ':'.
   */
  lemma AnnouncementRoutesBack(taskLabel: string, task: string, result: string, origin: Origin,
                               status: string, now: Timestamp)
    ensures var a := Announcement(taskLabel, task, result, origin, status, now);
      a.channel == "system" && (ReplyTarget(a) == (origin.channel, origin.chatId) <==> ':' !in origin.channel)
  {
    ParseOriginJoin(origin.channel, origin.chatId);
  }

  /**
   * A subagent spawned during a turn on an ordinary message reports back into that same
   * session: the announcement's turn uses the original message's session key.
   */
  lemma AnnouncementResumesSession(m: InboundMessage, taskLabel: string, task: string, result: string,
                                   status: string, now: Timestamp)
    requires m.channel != "system" && ':' !in m.channel
    ensures var a := Announcement(taskLabel, task, result, Origin(m.channel, m.chatId), status, now);
      JoinKey(ReplyTarget(a).0, ReplyTarget(a).1) == m.SessionKey()
  {
    ParseOriginJoin(m.channel, m.chatId);
  }

  class AgentLoop {
    const bus: MessageBus
    const provider: Provider
    const subagents: SubagentManager
    const spawnTool: SpawnTool
    const model: string
    const maxIterations: int
    /** What the foreground registry's tools return for a call. */
    const toolImpl: (string, Args) -> string
    /** `ContextBuilder.build_messages(history, current_message, media)` */
    const build: (seq<Entry>, string, seq<string>) -> seq<ChatMessage>
    var sessions: map<string, seq<Entry>>
    /** The (channel, chat_id) the message tool sends to. */
    var messageContext: (string, string)
    var running: bool

    constructor (bus: MessageBus, provider: Provider, workspace: string, model: Option<string>, maxIterations: Option<int>,
                 toolImpl: (string, Args) -> string, subagentToolImpl: (string, Args) -> string,
                 build: (seq<Entry>, string, seq<string>) -> seq<ChatMessage>, uuids: nat -> string)
      ensures this.bus == bus && this.provider == provider && this.maxIterations == maxIterations.GetOr(DefaultMaxIterations)
      ensures this.model == if model.Some? && model.value != "" then model.value else provider.defaultModel
      ensures this.toolImpl == toolImpl && this.build == build
      ensures fresh(subagents) && fresh(spawnTool)
      ensures subagents.bus == bus && subagents.provider == provider && subagents.model == this.model
      ensures subagents.runningTasks == map[] && spawnTool.manager == subagents
      ensures spawnTool.originChannel == "cli" && spawnTool.originChatId == "direct"
      ensures sessions == map[] && !running
    {
      this.bus := bus;
      this.provider := provider;
      var m := if model.Some? && model.value != "" then model.value else provider.defaultModel;
      this.model := m;
      this.maxIterations := maxIterations.GetOr(DefaultMaxIterations);
      this.toolImpl := toolImpl;
      this.build := build;
      var manager := new SubagentManager(provider, workspace, bus, Some(m), subagentToolImpl, uuids);
      this.subagents := manager;
      this.spawnTool := new SpawnTool(manager);
      sessions := map[];
      messageContext := ("cli", "direct");
      running := false;
    }

    /** The foreground loop: the full registry, the loop's model, assistant content recorded as returned. */
    function Config(): LoopConfig {
      LoopConfig(provider.respond, MainTools, toolImpl, model, false)
    }

    /** The messages a turn starts from; system turns pass no media. */
    function InitialMessages(sessions: map<string, seq<Entry>>, msg: InboundMessage): seq<ChatMessage> {
      var target := ReplyTarget(msg);
      build(History(sessions, JoinKey(target.0, target.1)), msg.content,
            if msg.channel == "system" then [] else msg.media)
    }

    /** The loop a turn on `msg` runs when the provider has answered `start` calls and the sessions are `sessions`. */
    function TurnLoop(sessions: map<string, seq<Entry>>, start: nat, msg: InboundMessage): LoopEnd {
      ToolLoop(Config(), start, InitialMessages(sessions, msg), maxIterations, [])
    }

    /**
     * `_process_message` (and, for channel "system", `_process_system_message`): both tools
     * point at the reply target before the loop runs; a completed loop appends the user entry and
     * the assistant entry to the target's session and replies to the target with the loop's
     * content or the fallback; a raised provider error leaves the sessions as they were.
     */
    method ProcessMessage(msg: InboundMessage) returns (out: TurnOutcome)
      modifies this`sessions, this`messageContext, provider, spawnTool
      ensures var target := ReplyTarget(msg);
        var key := JoinKey(target.0, target.1);
        var e := TurnLoop(old(sessions), old(provider.calls), msg);
        var reply := e.Final().GetOr(Fallback(msg));
        && messageContext == target
        && spawnTool.originChannel == target.0 && spawnTool.originChatId == target.1
        && provider.calls == old(provider.calls) + |e.trace|
        && (e.ending.Crashed? ==> out == Raised(e.ending.error) && sessions == old(sessions))
        && (!e.ending.Crashed? ==>
              && out == Replied(NewOutbound(target.0, target.1, reply))
              && sessions == old(sessions)[key := History(old(sessions), key) + [Entry("user", UserText(msg)), Entry("assistant", reply)]])
    {
      if msg.channel == "system" {
        out := ProcessSystemMessage(msg);
        return;
      }
      out := Turn(msg, (msg.channel, msg.chatId), msg.media);
    }

    /** `_process_system_message`: the same turn, addressed to the origin parsed from the chat id. */
    method ProcessSystemMessage(msg: InboundMessage) returns (out: TurnOutcome)
      requires msg.channel == "system"
      modifies this`sessions, this`messageContext, provider, spawnTool
      ensures var target := ParseOrigin(msg.chatId);
        var key := JoinKey(target.0, target.1);
        var e := TurnLoop(old(sessions), old(provider.calls), msg);
        var reply := e.Final().GetOr(SystemFallback);
        && messageContext == target
        && spawnTool.originChannel == target.0 && spawnTool.originChatId == target.1
        && provider.calls == old(provider.calls) + |e.trace|
        && (e.ending.Crashed? ==> out == Raised(e.ending.error) && sessions == old(sessions))
        && (!e.ending.Crashed? ==>
              && out == Replied(NewOutbound(target.0, target.1, reply))
              && sessions == old(sessions)[key := History(old(sessions), key) + [Entry("user", UserText(msg)), Entry("assistant", reply)]])
    {
      var origin := if ':' in msg.chatId then SplitFirst(msg.chatId, ':') else ("cli", msg.chatId);
      out := Turn(msg, origin, []);
    }

    /** The steps both kinds of turn share, once the target and the media are known. */
    method Turn(msg: InboundMessage, target: (string, string), media: seq<string>) returns (out: TurnOutcome)
      requires target == ReplyTarget(msg)
      requires media == if msg.channel == "system" then [] else msg.media
      modifies this`sessions, this`messageContext, provider, spawnTool
      ensures var key := JoinKey(target.0, target.1);
        var e := TurnLoop(old(sessions), old(provider.calls), msg);
        var reply := e.Final().GetOr(Fallback(msg));
        && messageContext == target
        && spawnTool.originChannel == target.0 && spawnTool.originChatId == target.1
        && provider.calls == old(provider.calls) + |e.trace|
        && (e.ending.Crashed? ==> out == Raised(e.ending.error) && sessions == old(sessions))
        && (!e.ending.Crashed? ==>
              && out == Replied(NewOutbound(target.0, target.1, reply))
              && sessions == old(sessions)[key := History(old(sessions), key) + [Entry("user", UserText(msg)), Entry("assistant", reply)]])
    {
      var key := JoinKey(target.0, target.1);
      var history := History(sessions, key);
      messageContext := target;
      spawnTool.SetContext(target.0, target.1);
      var messages := build(history, msg.content, media);
      var e := RunToolLoop(provider, Config(), messages, maxIterations);
      if e.ending.Crashed? {
        out := Raised(e.ending.error);
        return;
      }
      var reply := e.Final().GetOr(Fallback(msg));
      sessions := sessions[key := history + [Entry("user", UserText(msg)), Entry("assistant", reply)]];
      out := Replied(NewOutbound(target.0, target.1, reply));
    }

    /**
     * What `run` does with one message when the sessions are `sessions` and the provider has
     * answered `start` calls: the outbound message it publishes (the reply, or the apology when
     * the turn raised), and the sessions and call count after it.
     */
    function Handle(sessions: map<string, seq<Entry>>, start: nat, m: InboundMessage): (h: Handled)
      ensures |h.out| == 1 && h.calls >= start
    {
      var e := TurnLoop(sessions, start, m);
      var target := ReplyTarget(m);
      var key := JoinKey(target.0, target.1);
      var reply := e.Final().GetOr(Fallback(m));
      if e.ending.Crashed? then Handled([Apology(m, e.ending.error)], sessions, start + |e.trace|)
      else Handled([NewOutbound(target.0, target.1, reply)],
                   sessions[key := History(sessions, key) + [Entry("user", UserText(m)), Entry("assistant", reply)]],
                   start + |e.trace|)
    }

    /**
     * Handling a message publishes one outbound message, which answers it: a reply to its
     * target or an apology to its raw address; the call count grows by the calls of its turn.
     * A raised turn leaves the sessions as they were; a completed one extends the target's
     * session by two entries and leaves every other session as it was.
     */
    lemma HandleAnswers(sessions: map<string, seq<Entry>>, start: nat, m: InboundMessage)
      ensures var h := Handle(sessions, start, m);
        var e := TurnLoop(sessions, start, m);
        var key := JoinKey(ReplyTarget(m).0, ReplyTarget(m).1);
        && |h.out| == 1 && Answers(m, h.out[0])
        && h.calls == start + |e.trace|
        && (e.ending.Crashed? ==> h.sessions == sessions)
        && (!e.ending.Crashed? ==>
              && key in h.sessions && |h.sessions[key]| == |History(sessions, key)| + 2
              && h.sessions[key][..|History(sessions, key)|] == History(sessions, key)
              && forall k :: k in sessions && k != key ==> k in h.sessions && h.sessions[k] == sessions[k])
    {
    }

    /** `done` followed by the handling of `m`, from the sessions and call count `done` left. */
    function Extend(done: Handled, m: InboundMessage): Handled {
      var h := Handle(done.sessions, done.calls, m);
      Handled(done.out + h.out, h.sessions, h.calls)
    }

    /** `Handle` applied to the messages of `msgs` in order, each seeing the state the one before left. */
    function HandleAll(sessions: map<string, seq<Entry>>, start: nat, msgs: seq<InboundMessage>): (r: Handled)
      ensures |r.out| == |msgs| && r.calls >= start
      decreases |msgs|
    {
      if |msgs| == 0 then Handled([], sessions, start)
      else Extend(HandleAll(sessions, start, msgs[..|msgs| - 1]), msgs[|msgs| - 1])
    }

    /** Every message handled in a run is answered by the outbound message at its position, and calls never decrease. */
    lemma {:induction false} HandleAllServed(sessions: map<string, seq<Entry>>, start: nat, msgs: seq<InboundMessage>)
      ensures Served(msgs, HandleAll(sessions, start, msgs).out)
      decreases |msgs|
    {
      hide Handle;
      if |msgs| > 0 {
        var init := msgs[..|msgs| - 1];
        HandleAllServed(sessions, start, init);
        var before := HandleAll(sessions, start, init);
        var h := Handle(before.sessions, before.calls, msgs[|msgs| - 1]);
        HandleAnswers(before.sessions, before.calls, msgs[|msgs| - 1]);
        assert HandleAll(sessions, start, msgs).out == before.out + [h.out[0]];
        ServedSnoc(init, before.out, msgs[|msgs| - 1], h.out[0]);
        assert init + [msgs[|msgs| - 1]] == msgs;
      }
    }

    /** Handling one more message of `msgs` extends the run by that message's `Handle`. */
    lemma HandleAllSnoc(sessions: map<string, seq<Entry>>, start: nat, msgs: seq<InboundMessage>, i: nat)
      requires i < |msgs|
      ensures HandleAll(sessions, start, msgs[..i + 1]) == Extend(HandleAll(sessions, start, msgs[..i]), msgs[i])
    {
      assert msgs[..i + 1][..i] == msgs[..i];
    }

    /**
     * `run`: sets `running`, then polls the inbound queue while `running` holds. The messages
     * taken are handled in order, each turn seeing the sessions and the call count the previous
     * one left, and each yields exactly one outbound message: its reply, or an apology when its
     * turn raised. `polls` bounds the number of polls and `stopAfter` injects an external
     * `stop()` once that many are done; an empty queue makes a poll time out and change nothing.
     */
    method Run(polls: nat, stopAfter: Option<nat>)
      modifies this`running, this`sessions, this`messageContext, provider, spawnTool, bus`inbound, bus`outbound
      ensures var k := Min(PollsRun(polls, stopAfter), |old(bus.inbound)|);
        var h := HandleAll(old(sessions), old(provider.calls), old(bus.inbound)[..k]);
        && bus.inbound == old(bus.inbound)[k..]
        && bus.outbound == old(bus.outbound) + h.out
        && sessions == h.sessions
        && provider.calls == h.calls
      ensures running <==> !(stopAfter.Some? && stopAfter.value < polls)
    {
      hide Handle;
      running := true;
      var i := 0;
      ghost var queued, sent, sessions0, calls0 := bus.inbound, bus.outbound, sessions, provider.calls;
      ghost var taken := 0;
      ghost var done := Handled([], sessions, provider.calls);
      assert done == HandleAll(sessions0, calls0, queued[..taken]);
      hide HandleAll;
      while running && i < polls
        invariant 0 <= i <= polls
        invariant stopAfter.None? || stopAfter.value >= i
        invariant !running ==> stopAfter == Some(i) && i < polls
        invariant taken <= i && taken <= |queued| && (taken == i || taken == |queued|)
        invariant done == HandleAll(sessions0, calls0, queued[..taken])
        invariant RunProgress(queued, sent, taken, done)
      {
        if stopAfter == Some(i) {
          Stop();
        } else {
          var handled;
          handled, done := PollInbound(queued, sent, sessions0, calls0, taken, done);
          if handled {
            taken := taken + 1;
          }
          i := i + 1;
        }
      }
    }

    /**
     * The run loop's progress: the first `taken` messages of `queued` have left the inbound
     * queue, and the outbound queue, the sessions and the call count are what handling them
     * left (`done`), the outbound messages following `sent`.
     */
    ghost predicate RunProgress(queued: seq<InboundMessage>, sent: seq<OutboundMessage>, taken: nat, done: Handled)
      reads this`sessions, bus`inbound, bus`outbound, provider`calls
    {
      && taken <= |queued|
      && bus.inbound == queued[taken..]
      && bus.outbound == sent + done.out
      && sessions == done.sessions
      && provider.calls == done.calls
    }

    /** One poll of the run loop, stated as progress through the queue it started from. */
    method PollInbound(ghost queued: seq<InboundMessage>, ghost sent: seq<OutboundMessage>,
                       ghost sessions0: map<string, seq<Entry>>, ghost calls0: nat,
                       ghost taken: nat, ghost done: Handled)
      returns (handled: bool, ghost next: Handled)
      requires RunProgress(queued, sent, taken, done)
      requires done == HandleAll(sessions0, calls0, queued[..taken])
      modifies this`sessions, this`messageContext, provider, spawnTool, bus`inbound, bus`outbound
      ensures handled <==> taken < |queued|
      ensures next == HandleAll(sessions0, calls0, queued[..if handled then taken + 1 else taken])
      ensures RunProgress(queued, sent, if handled then taken + 1 else taken, next)
    {
      hide Handle, TurnLoop, HandleAll;
      next := done;
      var m := bus.ConsumeInbound();
      handled := m.Some?;
      if handled {
        assert m.value == queued[taken];
        assert queued[taken..][1..] == queued[taken + 1..];
        var response := Serve(m.value);
        next := Extend(done, m.value);
        assert next.out == done.out + [response];
        assert bus.outbound == sent + next.out;
        HandleAllSnoc(sessions0, calls0, queued, taken);
      }
    }

    /**
     * The handling of one message taken by `run`: when the turn completes, its reply is
     * published and the sessions record it; when the turn raised, an apology to the message's
     * own channel and chat is published and the sessions are as they were.
     */
    method Serve(m: InboundMessage) returns (response: OutboundMessage)
      modifies this`sessions, this`messageContext, provider, spawnTool, bus`outbound
      ensures var e := TurnLoop(old(sessions), old(provider.calls), m);
        var target := ReplyTarget(m);
        var key := JoinKey(target.0, target.1);
        var reply := e.Final().GetOr(Fallback(m));
        && provider.calls == old(provider.calls) + |e.trace|
        && messageContext == target
        && (e.ending.Crashed? ==> response == Apology(m, e.ending.error) && sessions == old(sessions))
        && (!e.ending.Crashed? ==>
              && response == NewOutbound(target.0, target.1, reply)
              && sessions == old(sessions)[key := History(old(sessions), key) + [Entry("user", UserText(m)), Entry("assistant", reply)]])
      ensures var h := Handle(old(sessions), old(provider.calls), m);
        response == h.out[0] && sessions == h.sessions && provider.calls == h.calls
      ensures bus.outbound == old(bus.outbound) + [response]
      ensures bus.inbound == old(bus.inbound)
    {
      var out := ProcessMessage(m);
      response := if out.Replied? then out.response else Apology(m, out.error);
      bus.PublishOutbound(response);
    }

    /** Clears `running`: the run loop leaves at its next check. */
    method Stop()
      modifies this`running
      ensures !running
    {
      running := false;
    }

    /**
     * `process_direct`: a turn on a CLI message from "user" in chat "direct", whatever
     * `sessionKey` says; it returns the reply's content, and a raised error propagates.
     */
    method ProcessDirect(content: string, sessionKey: string, now: Timestamp) returns (r: Result<string, string>)
      modifies this`sessions, this`messageContext, provider, spawnTool
      ensures var msg := NewInbound("cli", "user", "direct", content, now, None, None);
        var e := TurnLoop(old(sessions), old(provider.calls), msg);
        && messageContext == ("cli", "direct")
        && spawnTool.originChannel == "cli" && spawnTool.originChatId == "direct"
        && provider.calls == old(provider.calls) + |e.trace|
        && (e.ending.Crashed? ==> r == Failure(e.ending.error) && sessions == old(sessions))
        && (!e.ending.Crashed? ==>
              && r == Success(e.Final().GetOr(OrdinaryFallback))
              && sessions == old(sessions)["cli:direct" := History(old(sessions), "cli:direct")
                   + [Entry("user", content), Entry("assistant", e.Final().GetOr(OrdinaryFallback))]])
    {
      var msg := NewInbound("cli", "user", "direct", content, now, None, None);
      assert JoinKey("cli", "direct") == "cli:direct";
      var out := ProcessMessage(msg);
      match out
      case Replied(o) => r := Success(o.content);
      case Raised(e) => r := Failure(e);
    }
  }

  /**
   * A turn calls the provider at most `max_iterations` times and, when it completes, its reply
   * is the first tool-free answer's content, or the fallback when there is none (the bound was
   * reached or that answer had no content).
   */
  lemma TurnBounded(agent: AgentLoop, sessions: map<string, seq<Entry>>, start: nat, msg: InboundMessage)
    ensures var e := agent.TurnLoop(sessions, start, msg);
      && |e.trace| <= Bound(agent.maxIterations)
      && (e.ending.Exhausted? ==> e.Final().GetOr(Fallback(msg)) == Fallback(msg) && |e.trace| == Bound(agent.maxIterations))
      && (e.ending.Answered? && e.ending.content.Some? ==>
            && |e.trace| > 0 && e.trace[|e.trace| - 1].Reply?
            && !e.trace[|e.trace| - 1].response.HasToolCalls()
            && e.trace[|e.trace| - 1].response.content.Some?
            && e.Final().GetOr(Fallback(msg)) == e.trace[|e.trace| - 1].response.content.value)
  {
    ToolLoopOutcome(agent.Config(), start, agent.InitialMessages(sessions, msg), agent.maxIterations);
  }
}
