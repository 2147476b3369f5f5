# nanobot orchestration core in Dafny

This project models the message-orchestration core of nanobot, a small personal AI agent:

- the inbound and outbound message records and their session key;
- the message bus, with two FIFO queues and per-channel outbound subscribers;
- the agent loop, which takes one inbound message at a time, runs a bounded tool-calling
  loop against a language model, records two session entries and replies;
- background subagents, which run their own bounded loop and report back by publishing a
  `"system"` inbound message whose chat id encodes where the result should go;
- the spawn tool that starts them;
- the LiteLLM provider's provider detection, API-key environment slot, model-name prefix
  chain and response parsing.

Each file is one module:

| file | module | models |
|---|---|---|
| `wrappers.dfy` | `Wrappers` | `Option` and `Result` |
| `strings.dfy` | `Strings` | the `str` operations used (`startswith`, `in`, slicing, ASCII `lower`, `split(":", 1)`) |
| `events.dfy` | `Events` | `nanobot/bus/events.py` |
| `bus.dfy` | `Bus` | `nanobot/bus/queue.py` |
| `llm.dfy` | `Llm` | the provider interface: responses, tool calls, the chat messages |
| `tools.dfy` | `Tools` | the two tool registries, as sets of names over an opaque tool implementation |
| `turns.dfy` | `Turns` | the bounded tool loop written out in `loop.py` (twice) and in `subagent.py` |
| `subagent.dfy` | `Subagents` | `nanobot/agent/subagent.py` |
| `spawn.dfy` | `SpawnTools` | `nanobot/agent/tools/spawn.py` |
| `agent.dfy` | `Agent` | `nanobot/agent/loop.py` |
| `litellm.dfy` | `LiteLLM` | `nanobot/providers/litellm_provider.py` |

The asynchronous parts are flattened into sequential steps:

- The language model is an oracle `respond(n, request)` that answers the n-th call. A `Provider`
  object counts its calls, so the agent loop and every subagent share one numbering.
- `acompletion`, `json.loads` and `uuid.uuid4()` are oracles too (`complete`, `decode`, `uuids`).
- The two polling loops (`run`, `dispatch_outbound`) take a number of polls and an optional poll
  index at which an external `stop()` arrives. A poll on an empty queue is the one-second timeout
  and changes nothing.
- A spawned subagent does not run by itself. `RunBackground(taskId)` runs the task recorded under
  that id and then applies the done-callback.

The tool loop is specified by the function `Turns.ToolLoop`. `Turns.RunToolLoop` is the loop that
the agent and the subagents run; it is proved to compute exactly `ToolLoop`, and the lemmas about
`ToolLoop` state what the source promises: the call bound, the first tool-free answer ends the
loop, one assistant message and one result per call, in order.

Two behaviours of the code that a reader of its docstrings and comments might not expect:

- A system message whose chat id has no `':'` is routed to channel `"cli"` with the whole chat id
  as its chat (`loop.py:288-291`), not to a fixed direct session.
- The LiteLLM provider never raises on a failed completion; it answers with an error text. A turn
  driven by it therefore never takes the apology path: the error text is the turn's reply and is
  saved in the session (`LiteLLM.LiteLLMTurns`).

## Model

| member | source | states |
|---|---|---|
| Strings.SplitFirstJoin | nanobot/agent/loop.py:284-287 | splitting `a + ":" + b` at its first `':'` gives `(a, b)` exactly when `a` has no `':'` |
| Events.InboundMessage.SessionKey | nanobot/bus/events.py:37-45 | the key is the channel, one `':'`, then the chat id |
| Events.NewInbound | nanobot/bus/events.py:29-35 | the fields are as given; media and metadata are empty unless supplied; the timestamp is the clock reading |
| Events.NewOutbound | nanobot/bus/events.py:62-67 | no reply target, no media, no metadata by default |
| Events.SessionKeySplit | nanobot/bus/events.py:45 | splitting a session key at its first `':'` recovers `(channel, chat_id)` if and only if the channel has no `':'` |
| Bus.DeliverEach | nanobot/bus/queue.py:81-88 | a message reaches each callback in the list, in order; one that raises does not stop the rest |
| Bus.DeliverAllAppend | nanobot/bus/queue.py:76-88 | the callbacks for earlier messages all run before those for later messages |
| Bus.DeliverAllRouted | nanobot/bus/queue.py:81-84 | every invocation goes to a callback registered under the channel of the message it receives |
| Bus.UnsubscribedDropsSilently | nanobot/bus/queue.py:81 | a message for a channel with no subscribers invokes nothing |
| Bus.MessageBus.constructor | nanobot/bus/queue.py:29-36 | both queues are empty, there are no subscribers, and the bus is not running |
| Bus.MessageBus.PublishInbound | nanobot/bus/queue.py:38-40 | the message joins the back of the inbound queue; the outbound queue is untouched |
| Bus.MessageBus.ConsumeInbound | nanobot/bus/queue.py:42-44 | returns and removes the oldest inbound message; an empty queue is a timed-out poll that changes nothing |
| Bus.MessageBus.PublishOutbound | nanobot/bus/queue.py:46-48 | the message joins the back of the outbound queue; the inbound queue is untouched |
| Bus.MessageBus.ConsumeOutbound | nanobot/bus/queue.py:50-52 | returns and removes the oldest outbound message; the inbound queue is untouched |
| Bus.MessageBus.SubscribeOutbound | nanobot/bus/queue.py:54-68 | the callback is appended to its channel's list, created if absent; every other channel keeps its list |
| Bus.MessageBus.DispatchOne | nanobot/bus/queue.py:80-86 | handling one message invokes the callbacks of its channel, in registration order |
| Bus.MessageBus.DispatchNext | nanobot/bus/queue.py:78-88 | one poll: a non-empty queue loses its oldest message, which is offered to the callbacks of its channel in order; an empty queue is a timeout that changes nothing |
| Bus.MessageBus.DispatchOutbound | nanobot/bus/queue.py:70-88 | the oldest k messages are handled in publication order, where k is the number of polls before the stop (capped by the queue length); the others stay queued; the bus is left not running exactly when the stop arrived |
| Bus.MessageBus.Stop | nanobot/bus/queue.py:90-92 | clears the running flag only |
| Bus.MessageBus.InboundSize | nanobot/bus/queue.py:94-97 | the number of inbound messages waiting |
| Bus.MessageBus.OutboundSize | nanobot/bus/queue.py:99-102 | the number of outbound messages waiting |
| Llm.Provider.Chat | nanobot/agent/loop.py:215-219 | a call is answered by the oracle for its call number, which then advances by one |
| Tools.SubagentToolsIsolated | nanobot/agent/subagent.py:134-140 | the subagent registry is part of the foreground one and lacks `message` and `spawn`; calling either gives the not-found text |
| Turns.ResultsShape | nanobot/agent/loop.py:240-247 | one tool result per call, in call order, carrying the call's id and name |
| Tools.MainToolsRegistered | nanobot/agent/loop.py:101-122 | the foreground registry holds nine distinct tools, including `message` and `spawn`, and every registered name reaches its implementation |
| Turns.RoundShape | nanobot/agent/loop.py:222-247 | a tool-bearing response adds one assistant message with all its calls, then one result per call |
| Turns.ToolLoop | nanobot/agent/loop.py:211-254 | the loop as a function of the call number it starts at, the messages so far and the responses so far; its properties are the `ToolLoopOutcome` lemmas below |
| Turns.RecordRound | nanobot/agent/loop.py:222-247 | the loop appends exactly the specified round (assistant message, then one result per call) to the conversation |
| Turns.ToolLoopOutcome | nanobot/agent/loop.py:211-254 | at most `max_iterations` calls; every call but the last returned tool calls; an answer is the last response and has no tool calls; an exhausted loop made exactly `max_iterations` calls; each call saw the initial messages plus the rounds before it |
| Turns.RunawayToolsHitTheBound | nanobot/agent/loop.py:211-254 | a model that always asks for tools makes the loop stop after `max_iterations` calls without content |
| Turns.AlwaysToolsExhausts | nanobot/agent/loop.py:211-254 | from any point, an always-tool-calling model drives the loop to the bound |
| Turns.RunToolLoop | nanobot/agent/loop.py:207-251 | the imperative loop computes exactly the specified loop and advances the provider's call count by the calls made |
| Agent.ParseOrigin | nanobot/agent/loop.py:284-291 | with a `':'`, channel and chat id rejoin to the input and the channel has no `':'`; without one, the origin is `("cli", chat_id)` |
| Agent.ReplyTarget | nanobot/agent/loop.py:187-198 | an ordinary message is answered in its own chat; a system message at the origin its chat id encodes, or at `("cli", chat_id)` when it has no `':'` |
| Agent.UserText | nanobot/agent/loop.py:356 | an ordinary message is recorded as sent; a system message gets a prefix naming its sender before its content |
| Agent.Fallback | nanobot/agent/loop.py:253-254 | the fallback reply is never empty, and it is the system one exactly for system messages |
| Agent.Apology | nanobot/agent/loop.py:149-153 | the apology goes to the raw channel and chat id, starts with the apology prefix and ends with the error text |
| Agent.ParseOriginJoin | nanobot/agent/loop.py:284-287 | parsing `channel:chat_id` gives back `(channel, chat_id)` if and only if the channel has no `':'` |
| Agent.AnnouncementRoutesBack | nanobot/agent/subagent.py:242-247 | an announcement is a system message whose reply target is its spawn origin if and only if the origin channel has no `':'` |
| Agent.AnnouncementResumesSession | nanobot/agent/loop.py:293-295 | an announcement for a task spawned from an ordinary chat continues that chat's session |
| Agent.AgentLoop.constructor | nanobot/agent/loop.py:56-99 | the model is the given one or the provider's default; the subagent manager shares bus, provider and model; the spawn tool starts at `("cli", "direct")`; nothing is running |
| Agent.AgentLoop.ProcessMessage | nanobot/agent/loop.py:162-266 | both tool contexts are set to the reply target; a completed loop appends the user entry and the assistant entry to the target's session and replies to the target with the content or the ordinary fallback; a raised error leaves the sessions unchanged |
| Agent.AgentLoop.ProcessSystemMessage | nanobot/agent/loop.py:268-365 | the same turn, addressed to the origin parsed from the chat id, with the marked user entry and the system fallback |
| Agent.AgentLoop.Turn | nanobot/agent/loop.py:187-266 | the steps both turn kinds share, for a given target and media |
| Agent.AgentLoop.Serve | nanobot/agent/loop.py:142-153 | a raised turn publishes `Apology(m, error)` and leaves the sessions unchanged; a completed turn publishes the reply to its target and records the two entries; the call count grows by the turn's calls; response, sessions and call count are those of `Handle`; the inbound queue is untouched |
| Agent.AgentLoop.Run | nanobot/agent/loop.py:124-155 | the oldest k inbound messages are taken in order, k being the polls before the stop capped by the queue length; each is handled as `Handle` says, from the sessions and call count the previous one left; the outbound queue gains exactly their answers in order; the loop is left not running exactly when the stop arrived |
| Agent.AgentLoop.Handle | nanobot/agent/loop.py:142-153 | handling one message yields exactly one outbound message and never lowers the call count |
| Agent.AgentLoop.HandleAnswers | nanobot/agent/loop.py:142-153 | the one outbound message answers the message (a reply to its target or an apology to its raw address); the call count grows by the turn's calls; a raised turn leaves the sessions as they were; a completed turn extends the target's session by two entries, keeping its history as a prefix, and leaves every other session as it was |
| Agent.AgentLoop.HandleAll | nanobot/agent/loop.py:133-153 | handling messages in sequence yields one outbound message per message and never lowers the call count |
| Agent.AgentLoop.HandleAllServed | nanobot/agent/loop.py:133-153 | handling messages in sequence answers each with the outbound message at its position |
| Agent.AgentLoop.Stop | nanobot/agent/loop.py:157-160 | clears the running flag |
| Agent.AgentLoop.ProcessDirect | nanobot/agent/loop.py:367-389 | a turn on a CLI message in chat `"direct"` whatever the session key argument; it returns the reply text and records it in session `"cli:direct"`; both tool contexts point at `("cli", "direct")` and the call count grows by the turn's calls |
| Agent.TurnBounded | nanobot/agent/loop.py:211-254 | a turn makes at most `max_iterations` calls; an exhausted turn replies with the fallback; a turn ending on an answer with content replies with that last response's content |
| Subagents.TaskId | nanobot/agent/subagent.py:87 | the id is a prefix of the uuid string, at most 8 characters long and exactly 8 for a uuid string (36 characters) |
| Subagents.DisplayLabel | nanobot/agent/subagent.py:88 | a non-empty label is used as given; otherwise the task, truncated to 30 characters plus `"..."` when longer, so at most 33 characters |
| Subagents.SpawnAck | nanobot/agent/subagent.py:106 | the acknowledgement opens with `"子代理 ["` and closes with the promise to report back |
| Subagents.SpawnAckMentions | nanobot/agent/subagent.py:106 | the acknowledgement contains the display label and the task id |
| Subagents.StatusText | nanobot/agent/subagent.py:229 | the header says "成功完成" if and only if the status is `"ok"` |
| Subagents.AnnounceHeader | nanobot/agent/subagent.py:232 | the header line contains the task label and the status word |
| Subagents.AnnounceContent | nanobot/agent/subagent.py:232-239 | the announcement starts with the header, contains the task and the result, and ends with the request for a summary |
| Subagents.Announcement | nanobot/agent/subagent.py:229-249 | a `"system"` inbound message from `"subagent"` whose chat id is `origin_channel:origin_chat_id` and whose content is `AnnounceContent`: it starts with the label and status header and contains the task and the result |
| Subagents.Report | nanobot/agent/subagent.py:196-205 | status is `"ok"` exactly when no error was raised; an error gives `"错误: " + message`; otherwise the answer or the subagent fallback |
| Subagents.SubagentManager.constructor | nanobot/agent/subagent.py:61-66 | the model is the given one or the provider's default; no task is running |
| Subagents.SubagentManager.Seed | nanobot/agent/subagent.py:143-147 | exactly two messages: the system prompt built from the task and the workspace, then the task as the user message |
| Subagents.SubagentPrompt | nanobot/agent/subagent.py:252-289 | the system prompt starts with its heading and contains the task and the workspace path |
| Subagents.SubagentManager.Spawn | nanobot/agent/subagent.py:68-106 | records the task under the id taken from the next uuid (its first 8 characters, so at most 8 long), with its display label and origin; returns the acknowledgement; the running count grows by one unless that id is already active, in which case the entry is overwritten |
| Subagents.SubagentManager.OnTaskDone | nanobot/agent/subagent.py:103 | removes only that id; removing an absent id changes nothing |
| Subagents.SubagentManager.RunSubagent | nanobot/agent/subagent.py:108-205 | runs the 15-call loop from the seed and publishes exactly one announcement on the inbound queue, with status `"error"` when the provider raised |
| Subagents.SubagentManager.RunBackground | nanobot/agent/subagent.py:97-103 | a recorded task runs, is announced, and is then removed from the active tasks |
| Subagents.SubagentManager.RunningCount | nanobot/agent/subagent.py:291-293 | the number of active tasks |
| Subagents.SubagentBounded | nanobot/agent/subagent.py:150-197 | a subagent makes at most 15 provider calls and ends at its first tool-free answer |
| SpawnTools.SpawnTool.constructor | nanobot/agent/tools/spawn.py:31-34 | a fresh tool has origin `("cli", "direct")` |
| SpawnTools.SpawnTool.SetContext | nanobot/agent/tools/spawn.py:36-45 | both origin fields are overwritten, so the last call wins |
| SpawnTools.SpawnTool.Name | nanobot/agent/tools/spawn.py:47-50 | the tool is called `"spawn"` |
| SpawnTools.SpawnTool.Execute | nanobot/agent/tools/spawn.py:84-101 | the task, label and current origin go to the manager's spawn, whose text is returned unchanged; extra arguments are ignored |
| SpawnTools.SpawnSchema | nanobot/agent/tools/spawn.py:61-82 | `task` and `label` are string parameters and only `task` is required |
| LiteLLM.ProviderKinds | nanobot/providers/litellm_provider.py:50-56 | OpenRouter and vLLM are never both detected; a non-empty base URL always selects one of them |
| LiteLLM.IsOpenRouter | nanobot/providers/litellm_provider.py:50-53 | OpenRouter is detected by an `sk-or-` key or a base URL mentioning `openrouter`; its relation to vLLM is proved in `ProviderKinds` |
| LiteLLM.IsVllm | nanobot/providers/litellm_provider.py:56 | vLLM is any non-empty base URL when OpenRouter is not detected; see `ProviderKinds` |
| LiteLLM.FirstMatchIsFirst | nanobot/providers/litellm_provider.py:64-75 | the first-match search over an ordered rule list finds nothing exactly when no rule matches, and otherwise returns the variable of a matching rule with no matching rule before it |
| LiteLLM.VendorTests | nanobot/providers/litellm_provider.py:64-75 | each of the five vendor rules matches exactly when the corresponding `in` test holds, with only the Gemini test on the lower-cased name |
| LiteLLM.OnlyGeminiCaseless | nanobot/providers/litellm_provider.py:64-75 | of the vendor rules, exactly the Gemini one ignores case |
| LiteLLM.EnvSlot | nanobot/providers/litellm_provider.py:59-75 | no key writes nothing; OpenRouter writes `OPENROUTER_API_KEY`, overwriting; otherwise vLLM writes `OPENAI_API_KEY`, overwriting; otherwise the first vendor rule of `VendorRules` that matches the default model selects its variable, written only when absent, and no match writes nothing |
| LiteLLM.ConfigureEnv | nanobot/providers/litellm_provider.py:59-75 | at most the chosen variable changes; an overwriting slot gets the key; any other slot keeps an existing value |
| LiteLLM.UpperCaseVendorIgnored | nanobot/providers/litellm_provider.py:66-75 | vendor names are matched case-sensitively, so an upper-case Anthropic model chooses no slot |
| LiteLLM.GeminiMatchedAnyCase | nanobot/providers/litellm_provider.py:64-71 | any model whose lower-cased name contains `gemini` and that names neither Anthropic, OpenAI nor GPT selects `GEMINI_API_KEY`, whatever its case |
| LiteLLM.FirstVendorWins | nanobot/providers/litellm_provider.py:64-67 | `anthropic/gpt-x` matches both the Anthropic and the OpenAI rule and selects `ANTHROPIC_API_KEY`, the earlier one |
| LiteLLM.OpenRouterStep | nanobot/providers/litellm_provider.py:108-109 | `"openrouter/"` is prepended if and only if the provider is OpenRouter and the name lacks that prefix |
| LiteLLM.ZhipuStep | nanobot/providers/litellm_provider.py:112-117 | `"zhipu/"` is prepended if and only if the name mentions glm or zhipu in any case and has none of the three exempt prefixes |
| LiteLLM.VllmStep | nanobot/providers/litellm_provider.py:120-121 | under vLLM `"hosted_vllm/"` is prepended unconditionally |
| LiteLLM.GeminiStep | nanobot/providers/litellm_provider.py:124-125 | `"gemini/"` is prepended if and only if the name mentions gemini in any case and lacks that prefix |
| LiteLLM.NormaliseModel | nanobot/providers/litellm_provider.py:105-125 | the chain only prepends: the requested name is a suffix of the result; under vLLM the result is at least 12 characters longer |
| LiteLLM.VllmNotIdempotent | nanobot/providers/litellm_provider.py:120-121 | under vLLM, normalising a normalised name changes it again |
| LiteLLM.OpenRouterChain | nanobot/providers/litellm_provider.py:105-125 | under OpenRouter the result is the OpenRouter name, possibly wrapped in `"gemini/"`; no zhipu or vLLM prefix is added |
| LiteLLM.GeminiWrapsOpenRouter | nanobot/providers/litellm_provider.py:124-125 | the gemini rule runs last: `google/gemini-pro` under OpenRouter becomes `gemini/openrouter/google/gemini-pro` |
| LiteLLM.PlainNameUnchanged | nanobot/providers/litellm_provider.py:105-125 | without OpenRouter or vLLM, a name that mentions no glm, zhipu or gemini is sent unchanged |
| LiteLLM.ParseToolCall | nanobot/providers/litellm_provider.py:169-183 | id and name are kept; already decoded arguments are kept; argument text that decodes gives the decoded object; text that is not JSON becomes `{"raw": text}` |
| LiteLLM.ParseToolCalls | nanobot/providers/litellm_provider.py:167-183 | one request per raw call, in order |
| LiteLLM.UsageMap | nanobot/providers/litellm_provider.py:186-192 | no usage gives an empty map; otherwise exactly the keys `prompt_tokens`, `completion_tokens` and `total_tokens`, each with the corresponding count |
| LiteLLM.Parsed | nanobot/providers/litellm_provider.py:153-199 | no choices is the index error; otherwise the first choice's content, its parsed tool calls in order, its finish reason when present and non-empty and `"stop"` otherwise, and the usage map |
| LiteLLM.ParseResponse | nanobot/providers/litellm_provider.py:153-199 | the imperative parse computes `Parsed` |
| LiteLLM.FailureResponse | nanobot/providers/litellm_provider.py:146-151 | the error response has no tool calls, finish reason `"error"`, and content starting with the failure prefix |
| LiteLLM.Environment.constructor | nanobot/providers/litellm_provider.py:59-82 | the process environment starts with the given variables, no LiteLLM base URL and debug output on |
| LiteLLM.LiteLLMProvider.constructor | nanobot/providers/litellm_provider.py:32-82 | the detections are as defined; the environment is configured as `ConfigureEnv` says; the base URL is set only when given; debug output is suppressed |
| LiteLLM.LiteLLMProvider.Request | nanobot/providers/litellm_provider.py:105-141 | the name sent is `NormaliseModel` of the caller's model, or the default, and so ends with it; messages and the token limit pass through; a non-empty tool list is sent with `tool_choice` `"auto"`, an empty one sends neither; the base URL is sent exactly when set |
| LiteLLM.LiteLLMProvider.Oracle | nanobot/providers/litellm_provider.py:84-151 | the agent loop's view of the provider: every call is answered, never raised |
| LiteLLM.LiteLLMProvider.Respond | nanobot/providers/litellm_provider.py:143-151 | a failed completion, and a response with no choices, give the error response with that error; otherwise the parsed response |
| LiteLLM.LiteLLMProvider.Chat | nanobot/providers/litellm_provider.py:84-151 | one completion call whose failure, or failed parse, is returned as the error response |
| LiteLLM.FailuresReported | nanobot/providers/litellm_provider.py:143-151 | a failed call, or a response with no choices, yields content `"调用 LLM 失败: ..."` and finish reason `"error"` |
| LiteLLM.NeverCrashes | nanobot/agent/loop.py:211-251 | with a provider that never raises, the tool loop never ends in a raised error |
| LiteLLM.LiteLLMTurns | nanobot/providers/litellm_provider.py:143-151 | a turn on the LiteLLM provider never raises; if its first completion fails, the turn's answer is the error text |

## Left out

- The context builder (`build_messages`), the session manager, the tool registry and the message tool are not part of this model. Message building is an uninterpreted function, sessions are a map from session key to entries, and a registry is its list of tool names over an opaque implementation. `Tools.NotFound` stands in for the registry's not-found text.
- `get_or_create` caching and `sessions.save` persistence are not modelled; a session not seen before just has no entries.
- Agent.AgentLoop.Turn: tool calls made during a foreground turn go to the opaque tool implementation. A `spawn` or `message` call inside a turn therefore does not reach `SpawnTool.Execute`; that path is modelled on its own.
- Agent.AgentLoop.ProcessMessage: the only raised error modelled is a provider error. Errors raised by the context builder, the session manager or the tools are not modelled.
- Agent.AgentLoop.Run: `if response:` always holds, because the turn returns a message. The `""` branch of `process_direct` is therefore unreachable and not modelled.
- `json.dumps` of tool arguments is not modelled. Tool calls keep their arguments as values.
- Agent.AgentLoop.Run: because foreground tool calls go to the opaque implementation, the `message` tool never publishes on the outbound queue during a turn and `spawn` never records a subagent task. In the source both can happen, so a turn can add more than one outbound message and can change the subagent manager. The model's "exactly one outbound message per inbound message" holds only for turns that make neither call.
- Subagents.SubagentManager.Spawn: on an id collision the source still runs the overwritten task, which announces its result, and its done-callback then pops the newer task's entry. The model can only run the task stored under an id, so the overwritten task's run and that early removal are not modelled.
- LiteLLM.ParseToolCall: a JSON text that decodes to something other than an object is not modelled. The decoder returns an argument map or nothing.
- `temperature`, which is a float, and logging are left out. `max_tokens` is passed through.
- Message `metadata`, a `dict[str, Any]`, is a `map<string, string>`; the values are never inspected by the core.
- `datetime.now()` is a timestamp supplied by the caller.
- `uuid4()` is an oracle. Nothing in the model guarantees unique task ids. `Spawn` states what a collision does: the entry is overwritten and the count stays put.
- Strings.Lower lower-cases ASCII letters only, not Unicode.
- The subagent prompt's prose is abbreviated around the task and the workspace path. The announcement's prose is kept.
- Concurrency is not modelled: the asyncio tasks, blocking waits and the one-second timeouts are reduced to a bounded number of polls. A callback that publishes back onto the bus while it is being dispatched is not modelled. `dispatch_outbound` iterates the live subscriber list, so a callback that subscribes to the same channel during dispatch would also be invoked for that message; the model reads the list once per message and callbacks cannot subscribe.
- `max_iterations` is an `int`; a negative bound behaves like 0, as the `while` condition does.
- `nanobot/cli/commands.py`, which wires these parts together, is not part of this model.
