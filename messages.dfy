/** The message records of the agent's log and the display steps derived from them.

    A log entry is either a dictionary or a message object; both are read field by
    field with a default for a missing field, so one record type covers both. */
module Messages {

  datatype Option<+T> = None | Some(value: T)

  /** The `function` part of one entry of an assistant message's `tool_calls`. */
  datatype FunctionInfo = FunctionInfo(name: Option<string>, arguments: Option<string>)

  /** One entry of `tool_calls`; its `function` key (`func` here) may be missing. */
  datatype ToolCallEntry = ToolCallEntry(func: Option<FunctionInfo>)

  /** One log entry. A missing `tool_calls` and an empty one read the same (both falsy),
      and so do a missing `reasoning_content` and an empty one. */
  datatype Msg = Msg(
    role: Option<string>,
    content: Option<string>,
    reasoningContent: string,
    toolCalls: seq<ToolCallEntry>,
    name: Option<string>)

  /** One intermediate step of a turn, tagged by kind; the text is what the step displays. */
  datatype Step =
    | ReasoningStep(text: string)
    | ToolCallStep(text: string)
    | ToolResponseStep(text: string)

  predicate IsUser(m: Msg) { m.role == Some("user") }
  predicate IsAssistant(m: Msg) { m.role == Some("assistant") }
  predicate IsTool(m: Msg) { m.role == Some("tool") }

  /** Python truthiness of an optional string: present and non-empty. */
  predicate Truthy(s: Option<string>) { s.Some? && s.value != "" }

  /** `d.get(key, default)` on an optional string field. */
  function GetOr(s: Option<string>, default: string): string {
    match s
    case Some(v) => v
    case None => default
  }

  /** The text of a tool-call step: `name(arguments)`, with `unknown` and `{}` for missing keys. */
  function CallText(tc: ToolCallEntry): string {
    var f := GetOr(if tc.func.Some? then tc.func.value.name else None, "unknown");
    var a := GetOr(if tc.func.Some? then tc.func.value.arguments else None, "{}");
    f + "(" + a + ")"
  }

  /** The text of a tool-response step: the tool's name in bold and its output fenced. */
  function ResponseText(m: Msg): string {
    "**" + GetOr(m.name, "unknown") + ":**\n```\n" + GetOr(m.content, "") + "\n```"
  }
}
