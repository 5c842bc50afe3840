/** The messages of a conversation: what the user sent, what the language
    model answered (possibly asking for tool calls), and what each tool call
    returned. */
module Messages {
  import opened Errors
  import opened Catalog
  import opened ItemLookup

  /** One part of a multi-part content array; `text` is present on text
      parts. */
  datatype Part = Part(text: Option<string>)

  /** The `content` of a message, by its JavaScript shape:
      - `Scalar(s)`: a string, number, boolean or undefined, with `s` the
        result of `String(value)`;
      - `Parts(ps)`: an array of content parts;
      - `Record(results, message)`: a non-null object, with its `results`
        array and its `message` string when they are present;
      - `Null`: the value `null` (whose `typeof` is also "object"). */
  datatype Content =
    | Scalar(s: string)
    | Parts(parts: seq<Part>)
    | Record(results: Option<seq<Item>>, message: Option<string>)
    | Null

  /** A tool invocation requested by the model: its id, the tool's name and
      the `{ query, n }` arguments of `item_lookup`. */
  datatype ToolCall = ToolCall(id: string, name: string, query: string, n: Option<int>)

  /** What running one tool call produced. */
  datatype ToolOutput = LookupOutput(result: LookupResult) | ToolNotFound(name: string)

  /** The language model's answer: its content and the tool calls it asks
      for (`tool_calls`, empty when it asks for none). */
  datatype Reply = Reply(content: Content, toolCalls: seq<ToolCall>)

  datatype Message =
    | Human(content: Content)
    | Ai(content: Content, toolCalls: seq<ToolCall>)
    | ToolMessage(output: ToolOutput, toolCallId: string)
}
