/**
 Data exchanged by the Anthropic bridge: the upstream Responses items and stream
 events that go in, and the Anthropic Messages stream events that come out.
 Absent string fields read as "", as they do in the code.
 */
module AnthropicWire {
  import opened Basics

  /** One part of a message; parts of foreign types carry no text for the client. */
  datatype Part = Part(textual: bool, text: string)

  /** A reasoning summary is one string or a list of parts. */
  datatype Summary = Plain(text: string) | Parts(texts: seq<string>)

  /** The nested Chat Completions shape of a call, empty when absent. */
  datatype Fn = Fn(name: string, arguments: string)

  datatype Item =
    | Message(id: string, parts: seq<Part>)
    | FunctionCall(id: string, callId: string, name: string, arguments: string, fn: Fn)
    | ToolCall(id: string, callId: string, name: string, arguments: string, fn: Fn)
    | Reasoning(id: string, summary: Summary, signature: string)
    | OtherItem

  datatype Usage = Usage(inputTokens: Option<int>, promptTokens: Option<int>,
                         outputTokens: Option<int>, completionTokens: Option<int>)

  datatype Response = Response(id: string, model: string, incomplete: bool, usage: Option<Usage>,
                               output: seq<Item>, outputText: string)

  /** Where an event belongs: its item id, output index and content index. */
  datatype At = At(itemId: string, outputIndex: string, contentIndex: string)

  datatype Event =
    | Created(id: string, model: string, inputTokens: int)
    | TextDelta(at: At, delta: string)
    | ReasoningPartAdded(at: At)
    | ReasoningDelta(at: At, delta: string)
    | ReasoningPartDone
    | ItemAdded(item: Item, at: At)
    | ArgumentsDelta(at: At, callId: string, name: string, delta: string)
    | ArgumentsDone(at: At, callId: string, name: string, arguments: string)
    | ItemDone(item: Item, at: At)
    | Completed(incomplete: bool, response: Option<Response>)
    | Failed(message: string)
    | OtherEvent
    | Malformed

  datatype Kind = Text | Tool | Thinking

  datatype Body = TextBody | ThinkingBody | ToolBody(id: string, name: string)

  datatype Delta =
    | TextPiece(text: string)
    | JsonPiece(json: string)
    | ThinkingPiece(thinking: string)
    | SignaturePiece(signature: string)

  datatype Out =
    | MessageStart(id: string, model: string, inputTokens: int)
    | BlockStart(index: nat, body: Body)
    | BlockDelta(index: nat, delta: Delta)
    | BlockStop(index: nat)
    | MessageDelta(stopReason: string, inputTokens: int, outputTokens: int)
    | MessageStop
    | ErrorFrame(message: string)

  function BodyKind(body: Body): Kind
  {
    match body
    case TextBody => Text
    case ThinkingBody => Thinking
    case ToolBody(_, _) => Tool
  }

  function DeltaKind(delta: Delta): Kind
  {
    match delta
    case TextPiece(_) => Text
    case JsonPiece(_) => Tool
    case ThinkingPiece(_) => Thinking
    case SignaturePiece(_) => Thinking
  }

  function FirstCount(a: Option<int>, b: Option<int>): int
  {
    if a.Some? then a.value else if b.Some? then b.value else 0
  }

  function InputCount(u: Usage): int
  {
    FirstCount(u.inputTokens, u.promptTokens)
  }

  function OutputCount(u: Usage): int
  {
    FirstCount(u.outputTokens, u.completionTokens)
  }

  /** The non-empty texts of a message, in order. */
  function Texts(parts: seq<Part>): (texts: seq<string>)
  {
    if parts == [] then []
    else if parts[0].textual && parts[0].text != "" then [parts[0].text] + Texts(parts[1..])
    else Texts(parts[1..])
  }

  function TrimmedTexts(texts: seq<string>): seq<string>
  {
    if texts == [] then []
    else if Trim(texts[0]) != "" then [Trim(texts[0])] + TrimmedTexts(texts[1..])
    else TrimmedTexts(texts[1..])
  }

  function SummaryText(summary: Summary): string
  {
    match summary
    case Plain(text) => text
    case Parts(texts) => Join(TrimmedTexts(texts), "\n")
  }

  /** The client-facing message id of an upstream response id. */
  function MessageId(id: string): string
  {
    if HasPrefix(id, "resp_") then "msg_" + id[5..] else id
  }

  /** The id a client sees for a response: its own with `resp_` turned into `msg_`, or one made up. */
  ghost predicate ClientId(id: string, random: string, shown: string)
  {
    && (id == "" ==> shown == "msg_" + random)
    && (id != "" && !("resp_" <= id) ==> shown == id)
    && (forall rest :: id == "resp_" + rest ==> shown == "msg_" + rest)
  }

  lemma ShownId(id: string, random: string)
    ensures ClientId(id, random, MessageId(if id == "" then "msg_" + random else id))
  {
    var made := "msg_" + random;
    assert made[0] == 'm' && "resp_"[0] == 'r';
  }
}
