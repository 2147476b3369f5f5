/**
 * The tool registry contract. The registry itself (nanobot/agent/tools/registry.py) and the
 * file, shell, web and message tools are not part of this model: a registry is the list of
 * names it holds, and running a registered tool is the uninterpreted function `impl`.
 */
module Tools {
  import opened Llm

  datatype ToolRegistry = ToolRegistry(names: seq<string>) {

    /** `get_definitions()`: what is advertised to the model (here, the tool names). */
    function Definitions(): seq<string> {
      names
    }

    /** `execute(name, arguments)`; an unknown name yields an error text instead of raising. */
    function Execute(impl: (string, Args) -> string, name: string, args: Args): string {
      if name in names then impl(name, args) else NotFound(name)
    }
  }

  /** Stand-in for the registry's not-found error text. */
  function NotFound(name: string): string {
    "Error: Tool '" + name + "' not found"
  }

  /** The foreground registry built by `AgentLoop._register_default_tools`. */
  const MainTools: ToolRegistry := ToolRegistry(
    ["read_file", "write_file", "edit_file", "list_dir", "exec", "web_search", "web_fetch", "message", "spawn"])

  /**
   * The foreground registry holds nine distinct tools, among them `message` and `spawn`, and
   * every call to a registered name reaches its implementation.
   */
  lemma MainToolsRegistered(impl: (string, Args) -> string, args: Args)
    ensures |MainTools.names| == 9
    ensures forall i, j | 0 <= i < j < |MainTools.names| :: MainTools.names[i] != MainTools.names[j]
    ensures "message" in MainTools.names && "spawn" in MainTools.names
    ensures MainTools.Definitions() == MainTools.names
    ensures forall n | n in MainTools.names :: MainTools.Execute(impl, n, args) == impl(n, args)
  {
  }

  /** The registry built afresh for each subagent: no message tool and no spawn tool. */
  const SubagentTools: ToolRegistry := ToolRegistry(
    ["read_file", "write_file", "list_dir", "exec", "web_search", "web_fetch"])

  /**
   * A subagent's registry is the foreground one without `edit_file`, `message` and `spawn`;
   * asking it for `message` or `spawn` never reaches a tool, whatever the implementation.
   */
  lemma SubagentToolsIsolated(impl: (string, Args) -> string, args: Args)
    ensures forall n :: n in SubagentTools.names ==> n in MainTools.names
    ensures "message" !in SubagentTools.names && "spawn" !in SubagentTools.names
    ensures SubagentTools.Execute(impl, "spawn", args) == NotFound("spawn")
    ensures SubagentTools.Execute(impl, "message", args) == NotFound("message")
  {
  }
}
