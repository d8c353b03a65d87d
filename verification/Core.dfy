/** The vocabulary shared by the models: messages, usage, durable events and errors. */
module Core {
  type Byte = b: nat | b < 256

  datatype Option<+T> = None | Some(value: T)

  datatype Result<+T, +E> = Ok(value: T) | Err(error: E)

  type CallId = string

  datatype Role = System | User | Assistant | Tool

  datatype Content =
    | Text(text: string)
    | Image(sha256: string, mime: string)
    | ToolCall(id: CallId, name: string, argsJson: string)
    | ToolResult(id: CallId, content: seq<Content>, isError: bool)
    | Thinking(text: string)

  /** The random message id and the display-only `silent` flag carry no behaviour here. */
  datatype Message = Message(role: Role, content: seq<Content>)

  datatype StopReason = Stop | ToolUse | Length | Aborted | Refusal

  datatype ModelRef = ModelRef(provider: string, id: string)

  /** Token counters are 32-bit in the source. */
  type Counter = n: int | 0 <= n < 0x1_0000_0000

  datatype Tokens = Tokens(input: Counter, output: Counter, cacheRead: Counter, cacheWrite: Counter)

  const NO_TOKENS := Tokens(0, 0, 0, 0)

  datatype Usage = Usage(tokens: Tokens, model: ModelRef)

  datatype ProvErr = ContextOverflow | Truncated | Failed(reason: string)

  /** The tool calls of a message, in emission order. */
  function CallIds(content: seq<Content>): seq<CallId> {
    if content == [] then []
    else (if content[0].ToolCall? then [content[0].id] else []) + CallIds(content[1..])
  }

  /** The ids a message answers, in order. */
  function ResultIds(content: seq<Content>): seq<CallId> {
    if content == [] then []
    else (if content[0].ToolResult? then [content[0].id] else []) + ResultIds(content[1..])
  }

  predicate Distinct<T(==)>(s: seq<T>) {
    forall i, j :: 0 <= i < j < |s| ==> s[i] != s[j]
  }

  lemma Regroup<T>(a: seq<T>, b: seq<T>, c: seq<T>)
    ensures a + (b + c) == (a + b) + c
  {
  }
}
