/**
 * Background subagents (nanobot/agent/subagent.py). `spawn` records a task under a short id and
 * returns at once; the background run is the explicitly invoked `RunBackground`, and the
 * asyncio done-callback is the explicit removal step `OnTaskDone`.
 */
module Subagents {
  import opened Wrappers
  import opened Strings
  import opened Events
  import opened Bus
  import opened Llm
  import opened Tools
  import opened Turns

  /** Where results are delivered: the channel and chat the spawn request came from. */
  datatype Origin = Origin(channel: string, chatId: string)

  /** What the active-task map records about a running task. */
  datatype SubagentTask = SubagentTask(task: string, taskLabel: string, origin: Origin)

  /** The iteration bound of a subagent's tool loop. */
  const SubagentMaxIterations: nat := 15

  const SubagentFallback: string := "任务已完成，但未生成最终响应。"

  /** Width of a task id: the first 8 characters of a uuid4 string. */
  const TaskIdWidth: nat := 8

  /** `str(uuid.uuid4())[:8]` for the uuid string `u`. */
  function TaskId(u: string): (id: string)
    ensures |id| <= TaskIdWidth && StartsWith(u, id)
    ensures |u| >= TaskIdWidth ==> |id| == TaskIdWidth
  {
    Take(u, TaskIdWidth)
  }

  /** `label or task[:30] + ("..." if len(task) > 30 else "")`; an empty label counts as none. */
  function DisplayLabel(task: string, taskLabel: Option<string>): (d: string)
    ensures taskLabel.Some? && taskLabel.value != "" ==> d == taskLabel.value
    ensures taskLabel.None? || taskLabel.value == "" ==>
      && (|task| <= 30 ==> d == task)
      && (|task| > 30 ==> d == task[..30] + "...")
      && |d| <= 33
  {
    if taskLabel.Some? && taskLabel.value != "" then taskLabel.value
    else Take(task, 30) + (if |task| > 30 then "..." else "")
  }

  /** The acknowledgement `spawn` returns to the model. */
  function SpawnAck(taskLabel: string, taskId: string): (r: string)
    ensures StartsWith(r, "子代理 [") && EndsWith(r, ")。完成后我会通知你。")
  {
    var head := "子代理 [";
    var tail := ")。完成后我会通知你。";
    var middle := taskLabel + "] 已启动 (ID: " + taskId;
    StartsWithPrepend(head, middle + tail);
    EndsWithPrepend(head + middle, tail);
    assert head + taskLabel + "] 已启动 (ID: " + taskId + tail == head + (middle + tail) == head + middle + tail;
    head + taskLabel + "] 已启动 (ID: " + taskId + tail
  }

  /** The acknowledgement names the task's display label and its id. */
  lemma SpawnAckMentions(taskLabel: string, taskId: string)
    ensures Contains(SpawnAck(taskLabel, taskId), taskLabel)
    ensures Contains(SpawnAck(taskLabel, taskId), taskId)
  {
    var ack := SpawnAck(taskLabel, taskId);
    var p := "子代理 [";
    var q := p + taskLabel + "] 已启动 (ID: ";
    assert ack == p + taskLabel + ("] 已启动 (ID: " + taskId + ")。完成后我会通知你。");
    assert ack[|p|..|p| + |taskLabel|] == taskLabel;
    assert OccursAt(ack, taskLabel, |p|);
    assert ack == q + taskId + ")。完成后我会通知你。";
    assert ack[|q|..|q| + |taskId|] == taskId;
    assert OccursAt(ack, taskId, |q|);
  }

  /** `_build_subagent_prompt`: the fixed prose (abbreviated here) around the task and the workspace path. */
  function SubagentPrompt(task: string, workspace: string): (r: string)
    ensures StartsWith(r, "# 子代理") && Contains(r, task) && Contains(r, workspace)
  {
    var p := "# 子代理\n\n## 你的任务\n";
    var q := p + task + "\n\n## 工作区\n";
    var r := q + workspace;
    assert r == p + (task + "\n\n## 工作区\n" + workspace);
    assert r[..|"# 子代理"|] == "# 子代理";
    assert r[|p|..|p| + |task|] == task;
    assert OccursAt(r, task, |p|);
    assert r[|q|..|q| + |workspace|] == workspace;
    assert OccursAt(r, workspace, |q|);
    r
  }

  /** The header word of an announcement. */
  function StatusText(status: string): (t: string)
    ensures t == "成功完成" <==> status == "ok"
  {
    if status == "ok" then "成功完成" else "失败"
  }

  const SummaryRequest: string := "请用自然语言向用户总结这个结果。保持简洁（1-2句话），不要提及\"子代理\"或任务ID等技术细节。"

  /** The announcement text: header with label and status, the task, the result, and the request for a summary. */
  function AnnounceContent(taskLabel: string, task: string, result: string, status: string): (r: string)
    ensures StartsWith(r, AnnounceHeader(taskLabel, status))
    ensures Contains(r, task) && Contains(r, result)
    ensures EndsWith(r, "\n\n" + SummaryRequest)
  {
    var h := AnnounceHeader(taskLabel, status);
    var closing := "\n\n" + SummaryRequest;
    Framed(h, "\n\n任务: ", task, "\n\n结果:\n", result, closing);
    h + "\n\n任务: " + task + "\n\n结果:\n" + result + closing
  }

  /** The first line of an announcement: the task's label and the status word. */
  function AnnounceHeader(taskLabel: string, status: string): (h: string)
    ensures Contains(h, taskLabel) && Contains(h, StatusText(status))
  {
    var p := "[子代理 '";
    var q := p + taskLabel + "' ";
    var t := StatusText(status);
    var h := q + t + "]";
    assert h == p + (taskLabel + "' " + t + "]");
    assert h[|p|..|p| + |taskLabel|] == taskLabel;
    assert OccursAt(h, taskLabel, |p|);
    assert h[|q|..|q| + |t|] == t;
    assert OccursAt(h, t, |q|);
    h
  }

  /** `_announce_result`'s message: a `"system"` inbound whose chat id encodes the origin. */
  function Announcement(taskLabel: string, task: string, result: string, origin: Origin, status: string,
                        now: Timestamp): (m: InboundMessage)
    ensures m.channel == "system" && m.senderId == "subagent"
    ensures m.chatId == JoinKey(origin.channel, origin.chatId)
    ensures m.content == AnnounceContent(taskLabel, task, result, status)
    ensures StartsWith(m.content, AnnounceHeader(taskLabel, status))
    ensures Contains(m.content, task) && Contains(m.content, result)
    ensures m.media == [] && m.metadata == map[]
  {
    var content := AnnounceContent(taskLabel, task, result, status);
    StartsWithPrepend(AnnounceHeader(taskLabel, status), content[|AnnounceHeader(taskLabel, status)|..]);
    assert content == AnnounceHeader(taskLabel, status) + content[|AnnounceHeader(taskLabel, status)|..];
    NewInbound("system", "subagent", JoinKey(origin.channel, origin.chatId), content, now, None, None)
  }

  /**
   * The result text and status a finished loop is announced with: a raised error becomes
   * `"错误: " + message` with status "error"; otherwise the final content, or the fallback, with "ok".
   */
  function Report(e: LoopEnd): (r: (string, string))
    ensures r.1 == "ok" <==> !e.ending.Crashed?
    ensures e.ending.Crashed? ==> r.0 == "错误: " + e.ending.error
    ensures e.ending.Answered? && e.ending.content.Some? ==> r.0 == e.ending.content.value
    ensures e.Final().None? && !e.ending.Crashed? ==> r.0 == SubagentFallback
  {
    if e.ending.Crashed? then ("错误: " + e.ending.error, "error")
    else (e.Final().GetOr(SubagentFallback), "ok")
  }

  class SubagentManager {
    const provider: Provider
    const bus: MessageBus
    const workspace: string
    const model: string
    /** What the subagent's file, shell and web tools return for a call. */
    const toolImpl: (string, Args) -> string
    /** The successive strings `str(uuid.uuid4())` would produce. */
    const uuids: nat -> string
    var spawned: nat
    var runningTasks: map<string, SubagentTask>

    constructor (provider: Provider, workspace: string, bus: MessageBus, model: Option<string>,
                 toolImpl: (string, Args) -> string, uuids: nat -> string)
      ensures this.provider == provider && this.bus == bus && this.workspace == workspace
      ensures this.model == if model.Some? && model.value != "" then model.value else provider.defaultModel
      ensures this.toolImpl == toolImpl && this.uuids == uuids
      ensures spawned == 0 && runningTasks == map[]
    {
      this.provider := provider;
      this.bus := bus;
      this.workspace := workspace;
      this.model := if model.Some? && model.value != "" then model.value else provider.defaultModel;
      this.toolImpl := toolImpl;
      this.uuids := uuids;
      spawned := 0;
      runningTasks := map[];
    }

    /** The loop a subagent runs: its own registry, the manager's model, `content or ""` for assistant turns. */
    function Config(): LoopConfig {
      LoopConfig(provider.respond, SubagentTools, toolImpl, model, true)
    }

    /** The seed of a subagent's loop: exactly the system prompt and the task as the user message. */
    function Seed(task: string): (s: seq<ChatMessage>)
      ensures |s| == 2 && s[0] == System(SubagentPrompt(task, workspace)) && s[1] == User(task, [])
    {
      [System(SubagentPrompt(task, workspace)), User(task, [])]
    }

    /**
     * Records the task under a fresh 8-character id and returns the acknowledgement at once.
     * A new id makes the running count grow by one; an id that collides with an active one
     * overwrites that entry, as the dictionary assignment does.
     */
    method Spawn(task: string, taskLabel: Option<string>, originChannel: string, originChatId: string)
      returns (ack: string)
      modifies this`spawned, this`runningTasks
      ensures var id := TaskId(uuids(old(spawned)));
        && runningTasks == old(runningTasks)[id := SubagentTask(task, DisplayLabel(task, taskLabel), Origin(originChannel, originChatId))]
        && ack == SpawnAck(DisplayLabel(task, taskLabel), id)
        && |runningTasks| == |old(runningTasks)| + (if id in old(runningTasks) then 0 else 1)
      ensures spawned == old(spawned) + 1
    {
      var id := TaskId(uuids(spawned));
      spawned := spawned + 1;
      var displayLabel := DisplayLabel(task, taskLabel);
      runningTasks := runningTasks[id := SubagentTask(task, displayLabel, Origin(originChannel, originChatId))];
      ack := SpawnAck(displayLabel, id);
    }

    /** The done-callback: `_running_tasks.pop(task_id, None)` removes that id only, and is a no-op when it is absent. */
    method OnTaskDone(taskId: string)
      modifies this`runningTasks
      ensures runningTasks == old(runningTasks) - {taskId}
      ensures taskId !in old(runningTasks) ==> runningTasks == old(runningTasks)
    {
      runningTasks := runningTasks - {taskId};
    }

    /**
     * `_run_subagent`: at most 15 provider calls on a fresh message sequence, then one
     * announcement published on the inbound queue. A raised provider error is announced with
     * status "error" instead of propagating.
     */
    method RunSubagent(taskId: string, task: string, taskLabel: string, origin: Origin, now: Timestamp)
      modifies provider, bus`inbound
      ensures var e := ToolLoop(Config(), old(provider.calls), Seed(task), SubagentMaxIterations, []);
        && provider.calls == old(provider.calls) + |e.trace|
        && bus.inbound == old(bus.inbound) + [Announcement(taskLabel, task, Report(e).0, origin, Report(e).1, now)]
    {
      var e := RunToolLoop(provider, Config(), Seed(task), SubagentMaxIterations);
      var report := Report(e);
      bus.PublishInbound(Announcement(taskLabel, task, report.0, origin, report.1, now));
    }

    /** The background task recorded under `taskId` runs to completion, then its done-callback removes it. */
    method RunBackground(taskId: string, now: Timestamp)
      modifies this`runningTasks, provider, bus`inbound
      ensures runningTasks == old(runningTasks) - {taskId}
      ensures taskId !in old(runningTasks) ==> bus.inbound == old(bus.inbound) && provider.calls == old(provider.calls)
      ensures taskId in old(runningTasks) ==>
        var t := old(runningTasks)[taskId];
        var e := ToolLoop(Config(), old(provider.calls), Seed(t.task), SubagentMaxIterations, []);
        && provider.calls == old(provider.calls) + |e.trace|
        && bus.inbound == old(bus.inbound) + [Announcement(t.taskLabel, t.task, Report(e).0, t.origin, Report(e).1, now)]
    {
      if taskId in runningTasks {
        var t := runningTasks[taskId];
        RunSubagent(taskId, t.task, t.taskLabel, t.origin, now);
        OnTaskDone(taskId);
      }
    }

    /** `get_running_count()` */
    function RunningCount(): (n: nat)
      reads this
      ensures n == |runningTasks|
    {
      |runningTasks|
    }
  }

  /** A subagent never calls the provider more than 15 times, and ends at its first answer without tool calls. */
  lemma SubagentBounded(cfg: LoopConfig, start: nat, seed: seq<ChatMessage>)
    ensures |ToolLoop(cfg, start, seed, SubagentMaxIterations, []).trace| <= 15
    ensures Ended(SubagentMaxIterations, ToolLoop(cfg, start, seed, SubagentMaxIterations, []))
  {
    ToolLoopOutcome(cfg, start, seed, SubagentMaxIterations);
  }
}
