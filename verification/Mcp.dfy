/** The tool descriptor a tool registry's listTools reports, shared by the
    server-side tool-spec conversion and the client-side toolkit. */
module Mcp {
  import opened Json

  datatype McpTool = McpTool(name: string, description: Option<string>, inputSchema: Option<Json>)

  /** `tool.description || "Execute " + tool.name`: a tool is never offered with an empty description. */
  function DescriptionOf(t: McpTool): (d: string)
    ensures d != ""
    ensures t.description.Some? && t.description.value != "" ==> d == t.description.value
    ensures t.description.None? || t.description.value == "" ==> d == "Execute " + t.name
  {
    StringOr(t.description, "Execute " + t.name)
  }
}
