/** The spawn tool (nanobot/agent/tools/spawn.py): forwards a task and the current origin to the manager. */
module SpawnTools {
  import opened Wrappers
  import opened Llm
  import opened Subagents

  /** A property of a tool's parameter schema: its name and JSON type. */
  datatype Property = Property(name: string, jsonType: string)

  /** An object schema: its properties and the names of the required ones. */
  datatype Schema = Schema(properties: seq<Property>, required: seq<string>)

  class SpawnTool {
    const manager: SubagentManager
    var originChannel: string
    var originChatId: string

    /** A fresh tool routes results to the direct CLI session until told otherwise. */
    constructor (manager: SubagentManager)
      ensures this.manager == manager
      ensures originChannel == "cli" && originChatId == "direct"
    {
      this.manager := manager;
      originChannel := "cli";
      originChatId := "direct";
    }

    /** Overwrites both origin fields: the last call wins. */
    method SetContext(channel: string, chatId: string)
      modifies this
      ensures originChannel == channel && originChatId == chatId
    {
      originChannel := channel;
      originChatId := chatId;
    }

    function Name(): (n: string)
      ensures n == "spawn"
    {
      "spawn"
    }

    function Parameters(): Schema {
      Schema([Property("task", "string"), Property("label", "string")], ["task"])
    }

    /**
     * Forwards `task`, `label` and the current origin to `manager.spawn` and returns its text
     * unchanged. `extra` stands for `**kwargs` and is ignored.
     */
    method Execute(task: string, taskLabel: Option<string>, extra: Args) returns (r: string)
      modifies manager`spawned, manager`runningTasks
      ensures var id := TaskId(manager.uuids(old(manager.spawned)));
        var d := DisplayLabel(task, taskLabel);
        && manager.runningTasks == old(manager.runningTasks)[id := SubagentTask(task, d, Origin(originChannel, originChatId))]
        && r == SpawnAck(d, id)
      ensures manager.spawned == old(manager.spawned) + 1
    {
      r := manager.Spawn(task, taskLabel, originChannel, originChatId);
    }
  }

  /** The schema takes `task` and `label` as strings and requires only `task`. */
  lemma SpawnSchema(tool: SpawnTool)
    ensures tool.Parameters().required == ["task"]
    ensures Property("task", "string") in tool.Parameters().properties
    ensures Property("label", "string") in tool.Parameters().properties
    ensures "label" !in tool.Parameters().required
  {
  }
}
