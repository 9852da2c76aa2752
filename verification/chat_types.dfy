/** The record and message shapes exchanged between the chat service, the
    stream decoder and the conversation history (src/types/chat.ts). */
module ChatTypes {

  datatype Option<+T> = None | Some(value: T)

  /** Whatever a tool reports as its result. The client stores and forwards
      it but never looks inside, so it stays uninterpreted. */
  type ResultValue(!new)

  datatype ToolStatus = Pending | Running | Completed | Failed

  datatype Tool = Tool(name: string, id: string, status: ToolStatus, result: ResultValue)

  /** The `type` tag of a stream record. The wire format names five tags;
      a decoded line may carry any other string, kept as `Other`. */
  datatype RecordKind = Text | ToolCall | ToolResult | Error | Done | Other(tag: string)

  /** One decoded line of the chat stream. */
  datatype StreamResponse = StreamResponse(
    kind: RecordKind,
    content: string,
    tool: Option<Tool>,
    timestamp: string)

  datatype Role = User | Assistant

  /** One turn of the visible conversation; `tools` is absent on user
      messages and present (possibly empty) on assistant messages. */
  datatype Message = Message(
    id: string,
    role: Role,
    content: string,
    timestamp: string,
    tools: Option<seq<Tool>>)
}
