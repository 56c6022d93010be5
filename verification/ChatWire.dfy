/** Data exchanged by the Chat Completions bridge: Responses items and events in, chat chunks out. */
module ChatWire {
  import opened Basics

  /** A call item in any of its three spellings, with the fields each spelling may use. */
  datatype Call = Call(callId: string, id: string, name: string, toolName: string, fnName: string,
                       arguments: string, input: string, fnArguments: string, parameters: string)

  datatype Part = Part(textual: bool, text: string)

  datatype Item = Message(parts: seq<Part>) | CallItem(call: Call) | OtherItem

  datatype Response = Response(incomplete: bool, outputText: string, output: seq<Item>)

  datatype Event =
    | Created
    | TextDelta(delta: string)
    | ItemAdded(item: Item, index: int)
    | ArgumentsDelta(callId: string, itemId: string, delta: string, arguments: string, index: int)
    | ArgumentsDone
    | ItemDone(item: Item, index: int)
    | Completed
    | Incomplete
    | Failed(message: string)
    | OtherEvent

  datatype Chunk =
    | RoleChunk
    | ContentChunk(text: string)
    | EmptyChunk
    | ToolStart(index: nat, id: string, name: string)
    | ToolArguments(index: nat, arguments: string)
    | FinishChunk(reason: string)
    | DoneFrame
    | ErrorFrame(message: string, code: string)

  function CallId(c: Call): string
  {
    if Trim(c.callId) != "" then Trim(c.callId)
    else if HasPrefix(c.id, "call") || HasPrefix(c.id, "fc_") then c.id
    else ""
  }

  function CallName(c: Call): string
  {
    var name := FirstNonEmpty(c.name, c.toolName);
    if name != "" then name else c.fnName
  }

  function CallArguments(c: Call): string
  {
    if c.arguments != "" then c.arguments else if c.input != "" then c.input else c.fnArguments
  }
}
