/** Provider-neutral messages, and what makes a transcript replayable: every call answered, right away, in order. */
module ChatSchemas {
  import opened JsonText

  datatype Role = User | Assistant | Tool

  datatype Block =
    | TextBlock(text: string)
    | ToolUseBlock(id: string, name: string, input: Json)
    | ToolResultBlock(toolUseId: string, content: string, isError: bool)
    | ThinkingBlock(raw: string)

  datatype ChatMessage = ChatMessage(role: Role, content: seq<Block>)

  datatype ToolCall = ToolCall(id: string, name: string, arguments: Json)

  datatype LLMResponse = LLMResponse(content: seq<Block>, text: string, toolCalls: seq<ToolCall>, stopReason: string)

  function TextMessage(role: Role, text: string): ChatMessage {
    ChatMessage(role, [TextBlock(text)])
  }

  /** Python's `not s.strip()`. */
  predicate Blank(s: string) {
    forall c :: c in s ==> c in {'\t', '\n', '\r', ' '} || c as int in {11, 12, 28, 29, 30, 31, 0x85, 0xa0, 0x1680, 0x2028,
                                 0x2029, 0x202f, 0x205f, 0x3000} || 0x2000 <= c as int <= 0x200a
  }

  /** The calls made in a message, in order. */
  function CallsIn(content: seq<Block>): seq<ToolCall> {
    if content == [] then []
    else
      var last := content[|content| - 1];
      CallsIn(content[..|content| - 1]) +
      if last.ToolUseBlock? then [ToolCall(last.id, last.name, last.input)] else []
  }

  /** The calls answered in a message, in order. */
  function AnswersIn(content: seq<Block>): seq<string> {
    if content == [] then []
    else
      var last := content[|content| - 1];
      AnswersIn(content[..|content| - 1]) + if last.ToolResultBlock? then [last.toolUseId] else []
  }

  function TextIn(content: seq<Block>): string {
    if content == [] then ""
    else
      var last := content[|content| - 1];
      TextIn(content[..|content| - 1]) + if last.TextBlock? then last.text else ""
  }

  function IdsOf(calls: seq<ToolCall>): seq<string> {
    if calls == [] then [] else IdsOf(calls[..|calls| - 1]) + [calls[|calls| - 1].id]
  }

  /** A response whose summary fields agree with its content: what both adapters produce. */
  predicate Consistent(r: LLMResponse) {
    r.toolCalls == CallsIn(r.content) && r.text == TextIn(r.content) && AnswersIn(r.content) == []
  }

  predicate IsCalling(m: ChatMessage) {
    m.role == Assistant && CallsIn(m.content) != []
  }

  /** `answer` answers exactly the calls of `call`, in order. */
  predicate Answers(call: ChatMessage, answer: ChatMessage) {
    answer.role == Tool && AnswersIn(answer.content) == IdsOf(CallsIn(call.content)) && CallsIn(answer.content) == []
  }

  /** What the messages around position `i` owe each other. */
  predicate PairedAt(messages: seq<ChatMessage>, i: nat)
    requires i < |messages|
  {
    && (IsCalling(messages[i]) ==> i + 1 < |messages| && Answers(messages[i], messages[i + 1]))
    && (messages[i].role == Tool ==> i > 0 && IsCalling(messages[i - 1]))
    && (messages[i].role != Tool ==> AnswersIn(messages[i].content) == [])
    && (messages[i].role == User ==> CallsIn(messages[i].content) == [])
  }

  /** Every message with calls is immediately followed by their answers, and answers come nowhere else. */
  predicate Paired(messages: seq<ChatMessage>) {
    forall i :: 0 <= i < |messages| ==> PairedAt(messages, i)
  }

  lemma PairedConcat(a: seq<ChatMessage>, b: seq<ChatMessage>)
    requires Paired(a) && Paired(b)
    ensures Paired(a + b)
  {
    forall i | 0 <= i < |a + b|
      ensures PairedAt(a + b, i)
    {
      if i < |a| {
        assert PairedAt(a, i);
      } else {
        assert PairedAt(b, i - |a|);
      }
    }
  }
}
