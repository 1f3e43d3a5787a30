/** The content list of a `ToolResult`, as the tool classes build it. */
module ToolResult {
  import opened PyValue

  /** One content item: a text item, or the JSON object `{"tool_name", "title"}`
      kept as a record rather than as its serialised text. */
  datatype Content =
    | Text(text: string)
    | ToolEntry(toolName: Value, title: Value)
}
