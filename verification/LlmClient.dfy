/** The Messages API adapter: the second wire translation, and requests either provider accepts. */
module LlmClient {
  import opened Wrappers
  import opened JsonText
  import opened ChatSchemas
  import OpenAiClient

  // ----- messages out -----

  /** A wire message; its blocks carry the same fields as ours, thinking verbatim. */
  datatype Param = Param(role: Role, content: seq<Block>)

  /** The blocks that go on the wire: the provider rejects empty text. */
  function Kept(content: seq<Block>): seq<Block> {
    if content == [] then []
    else
      var last := content[|content| - 1];
      Kept(content[..|content| - 1]) + if last.TextBlock? && Blank(last.text) then [] else [last]
  }

  function WireRole(role: Role): Role {
    if role == Tool then User else role
  }

  function ParamOf(m: ChatMessage): seq<Param> {
    if Kept(m.content) == [] then [] else [Param(WireRole(m.role), Kept(m.content))]
  }

  function ParamsOf(messages: seq<ChatMessage>): seq<Param> {
    if messages == [] then [] else ParamsOf(messages[..|messages| - 1]) + ParamOf(messages[|messages| - 1])
  }

  lemma Nothing()
    ensures Kept([]) == [] && ParamsOf([]) == []
  {
  }

  lemma KeptPush(content: seq<Block>, j: nat)
    requires j < |content|
    ensures var block := content[j];
            Kept(content[..j + 1]) == Kept(content[..j]) + if block.TextBlock? && Blank(block.text) then [] else [block]
  {
    assert content[..j + 1][..j] == content[..j];
  }

  lemma ParamsPush(messages: seq<ChatMessage>, i: nat)
    requires i < |messages|
    ensures ParamsOf(messages[..i + 1]) == ParamsOf(messages[..i]) + ParamOf(messages[i])
  {
    hide ParamOf;
    assert messages[..i + 1][..i] == messages[..i];
  }

  method ToParams(messages: seq<ChatMessage>) returns (params: seq<Param>)
    ensures params == ParamsOf(messages)
  {
    hide Kept, ParamsOf;
    Nothing();
    params := [];
    for i := 0 to |messages|
      invariant params == ParamsOf(messages[..i])
    {
      ParamsPush(messages, i);
      var message := messages[i];
      var blocks: seq<Block> := [];
      for j := 0 to |message.content|
        invariant blocks == Kept(message.content[..j])
      {
        KeptPush(message.content, j);
        match message.content[j]
        case TextBlock(text) =>
          if !Blank(text) {
            blocks := blocks + [TextBlock(text)];
          }
        case ToolUseBlock(id, name, input) => blocks := blocks + [ToolUseBlock(id, name, input)];
        case ToolResultBlock(id, content, isError) => blocks := blocks + [ToolResultBlock(id, content, isError)];
        case ThinkingBlock(raw) => blocks := blocks + [ThinkingBlock(raw)];
      }
      assert message.content[..|message.content|] == message.content;
      if blocks == [] {
        continue;
      }
      var role := if message.role == Tool then User else message.role;
      params := params + [Param(role, blocks)];
    }
    assert messages[..|messages|] == messages;
  }

  // ----- what the provider demands of a request -----

  predicate ParamAnswers(call: Param, answer: Param) {
    && call.role == Assistant && answer.role == User && CallsIn(answer.content) == []
    && AnswersIn(answer.content) == IdsOf(CallsIn(call.content))
  }

  /** An assistant message with calls is immediately followed by a user message answering exactly those, in order, and
      answers come nowhere else; no message is empty. */
  predicate Accepted(params: seq<Param>) {
    if params == [] then true
    else
      && params[0].content != [] && AnswersIn(params[0].content) == []
      && if CallsIn(params[0].content) == [] then Accepted(params[1..])
         else |params| >= 2 && ParamAnswers(params[0], params[1]) && Accepted(params[2..])
  }

  /** Dropping blank text touches neither calls nor answers. */
  lemma {:induction false} KeptKeeps(content: seq<Block>)
    ensures CallsIn(Kept(content)) == CallsIn(content)
    ensures AnswersIn(Kept(content)) == AnswersIn(content)
  {
    hide CallsIn, AnswersIn, Kept;
    KeptStep(content);
    if content != [] {
      var init, last := content[..|content| - 1], content[|content| - 1];
      KeptKeeps(init);
      OneBlock(Kept(init), last);
      OneBlock(init, last);
      assert content == init + [last];
    }
  }

  lemma KeptStep(content: seq<Block>)
    ensures content == [] ==> Kept(content) == []
    ensures content != [] ==>
            var init, last := content[..|content| - 1], content[|content| - 1];
            Kept(content) == if last.TextBlock? && Blank(last.text) then Kept(init) else Kept(init) + [last]
    ensures CallsIn([]) == [] && AnswersIn([]) == []
  {
  }

  /** No blank text goes out, and nothing that was not there. */
  lemma {:induction false} NothingBlankIsSent(content: seq<Block>)
    ensures forall b :: b in Kept(content) <==> b in content && !(b.TextBlock? && Blank(b.text))
  {
    hide Blank;
    if content != [] {
      NothingBlankIsSent(content[..|content| - 1]);
      assert content == content[..|content| - 1] + [content[|content| - 1]];
    }
  }

  predicate IsBlankText(b: Block) {
    b.TextBlock? && Blank(b.text)
  }

  /** Otherwise a message's blocks go out as they are, in order; blank texts leave no trace. */
  lemma {:induction false} BlocksAreSent(content: seq<Block>)
    requires forall b :: b in content ==> !IsBlankText(b)
    ensures Kept(content) == content
  {
    hide Blank;
    if content != [] {
      var init, last := content[..|content| - 1], content[|content| - 1];
      assert content == init + [last] && last in content;
      BlocksAreSent(init);
    }
  }

  lemma {:induction false} BlankLeavesNoTrace(a: seq<Block>, blank: Block, c: seq<Block>)
    requires IsBlankText(blank)
    ensures Kept(a + [blank] + c) == Kept(a + c)
  {
    hide Blank;
    if c == [] {
      assert a + [blank] + c == a + [blank] && a + c == a && (a + [blank])[..|a|] == a;
      assert Kept(a) + [] == Kept(a);
    } else {
      assert (a + [blank] + c)[..|a + [blank] + c| - 1] == a + [blank] + c[..|c| - 1];
      assert (a + c)[..|a + c| - 1] == a + c[..|c| - 1];
      BlankLeavesNoTrace(a, blank, c[..|c| - 1]);
    }
  }

  /** The user's role for tool messages, else the message's own. */
  predicate SameSide(p: Param, m: ChatMessage) {
    if m.role == Assistant then p.role == Assistant else p.role == User
  }

  /** The messages with more than blank text. */
  function Speaking(messages: seq<ChatMessage>): seq<ChatMessage> {
    if messages == [] then []
    else
      var last := messages[|messages| - 1];
      Speaking(messages[..|messages| - 1]) +
      if exists i :: 0 <= i < |last.content| && !IsBlankText(last.content[i]) then [last] else []
  }

  /** The request is these messages, in order, each on its side and with its blocks. */
  lemma {:induction false} ParamsSpeak(messages: seq<ChatMessage>)
    ensures var params, speaking := ParamsOf(messages), Speaking(messages);
            |params| == |speaking| &&
            forall i :: 0 <= i < |params| ==>
              SameSide(params[i], speaking[i]) && params[i].content == Kept(speaking[i].content)
  {
    if messages != [] {
      hide Kept, IsBlankText;
      var init, last := messages[..|messages| - 1], messages[|messages| - 1];
      ParamsSpeak(init);
      SpeaksIffKept(last.content);
    }
  }

  lemma SpeaksIffKept(content: seq<Block>)
    ensures Kept(content) != [] <==> exists i :: 0 <= i < |content| && !IsBlankText(content[i])
  {
    hide Kept, Blank;
    NothingBlankIsSent(content);
    assert Kept(content) != [] ==> Kept(content)[0] in Kept(content);
    assert forall i :: 0 <= i < |content| ==> content[i] in content;
  }

  lemma OneBlock(blocks: seq<Block>, b: Block)
    ensures CallsIn(blocks + [b]) ==
            if b.ToolUseBlock? then CallsIn(blocks) + [ToolCall(b.id, b.name, b.input)] else CallsIn(blocks)
    ensures AnswersIn(blocks + [b]) ==
            if b.ToolResultBlock? then AnswersIn(blocks) + [b.toolUseId] else AnswersIn(blocks)
    ensures TextIn(blocks + [b]) == if b.TextBlock? then TextIn(blocks) + b.text else TextIn(blocks)
  {
    assert (blocks + [b])[..|blocks|] == blocks;
    assert TextIn(blocks) + "" == TextIn(blocks);
  }

  lemma {:induction false} ParamsFront(m: ChatMessage, rest: seq<ChatMessage>)
    ensures ParamsOf([m] + rest) == ParamOf(m) + ParamsOf(rest)
  {
    hide ParamOf;
    if rest == [] {
      assert [m] + rest == [m] && [m][..0] == [];
    } else {
      assert ([m] + rest)[..|rest|] == [m] + rest[..|rest| - 1];
      ParamsFront(m, rest[..|rest| - 1]);
    }
  }

  lemma AcceptedPlain(m: ChatMessage, rest: seq<Param>)
    requires CallsIn(m.content) == [] && AnswersIn(m.content) == [] && Accepted(rest)
    ensures Accepted(ParamOf(m) + rest)
  {
    KeptKeeps(m.content);
    var params := ParamOf(m) + rest;
    if ParamOf(m) == [] {
      assert params == rest;
    } else {
      assert params[1..] == rest;
    }
  }

  lemma AcceptedPair(call: ChatMessage, answer: ChatMessage, rest: seq<Param>)
    requires IsCalling(call) && AnswersIn(call.content) == [] && Answers(call, answer) && Accepted(rest)
    ensures Accepted(ParamOf(call) + (ParamOf(answer) + rest))
  {
    hide CallsIn, AnswersIn, Kept, IdsOf, Accepted;
    KeptKeeps(call.content);
    KeptKeeps(answer.content);
    OpenAiClient.IdsAre(CallsIn(call.content));
    KeptStep([]);
    AcceptedIfPair(Param(Assistant, Kept(call.content)), Param(User, Kept(answer.content)), rest);
    assert ParamOf(call) + (ParamOf(answer) + rest)
        == [Param(Assistant, Kept(call.content)), Param(User, Kept(answer.content))] + rest;
  }

  lemma AcceptedIfPair(call: Param, answer: Param, rest: seq<Param>)
    requires CallsIn(call.content) != [] && AnswersIn(call.content) == []
    requires ParamAnswers(call, answer) && Accepted(rest)
    ensures Accepted([call, answer] + rest)
  {
    hide CallsIn, AnswersIn, IdsOf;
    KeptStep([]);
    assert ([call, answer] + rest)[2..] == rest;
  }

  /** The translation keeps the adjacency of calls and answers. */
  lemma {:induction false} ParamsAreAccepted(messages: seq<ChatMessage>)
    requires Paired(messages)
    ensures Accepted(ParamsOf(messages))
    decreases |messages|
  {
    hide ParamOf, ParamsOf, Accepted, IsCalling, Answers, Paired;
    if messages == [] {
      NothingIsAccepted();
    } else {
      HeadIsPlain(messages);
      OpenAiClient.PairedHead(messages);
      if IsCalling(messages[0]) {
        var rest := messages[2..];
        ParamsAreAccepted(rest);
        ParamsFront(messages[1], rest);
        ParamsFront(messages[0], [messages[1]] + rest);
        assert messages == [messages[0]] + ([messages[1]] + rest);
        AcceptedPair(messages[0], messages[1], ParamsOf(rest));
      } else {
        ParamsAreAccepted(messages[1..]);
        ParamsFront(messages[0], messages[1..]);
        assert messages == [messages[0]] + messages[1..];
        AcceptedPlain(messages[0], ParamsOf(messages[1..]));
      }
    }
  }

  lemma NothingIsAccepted()
    ensures Accepted(ParamsOf([]))
  {
  }

  lemma HeadIsPlain(messages: seq<ChatMessage>)
    requires Paired(messages) && messages != []
    ensures AnswersIn(messages[0].content) == []
  {
    assert PairedAt(messages, 0);
  }

  function AllCalls(messages: seq<ChatMessage>): seq<ToolCall> {
    if messages == [] then []
    else AllCalls(messages[..|messages| - 1]) + CallsIn(messages[|messages| - 1].content)
  }

  function AllAnswers(messages: seq<ChatMessage>): seq<string> {
    if messages == [] then []
    else AllAnswers(messages[..|messages| - 1]) + AnswersIn(messages[|messages| - 1].content)
  }

  function CallsOnWire(params: seq<Param>): seq<ToolCall> {
    if params == [] then [] else CallsOnWire(params[..|params| - 1]) + CallsIn(params[|params| - 1].content)
  }

  function AnswersOnWire(params: seq<Param>): seq<string> {
    if params == [] then [] else AnswersOnWire(params[..|params| - 1]) + AnswersIn(params[|params| - 1].content)
  }

  /** No call and no answer is dropped, duplicated or reordered, in any list of messages. */
  lemma {:induction false} ParamsKeepEverything(messages: seq<ChatMessage>)
    ensures CallsOnWire(ParamsOf(messages)) == AllCalls(messages)
    ensures AnswersOnWire(ParamsOf(messages)) == AllAnswers(messages)
  {
    hide CallsIn, AnswersIn, Kept;
    if messages != [] {
      var init, last := messages[..|messages| - 1], messages[|messages| - 1];
      ParamsKeepEverything(init);
      KeptKeeps(last.content);
      KeptStep([]);
      if ParamOf(last) == [] {
        assert ParamsOf(init) + [] == ParamsOf(init);
        assert AllCalls(init) + [] == AllCalls(init) && AllAnswers(init) + [] == AllAnswers(init);
      } else {
        OneMoreParam(ParamsOf(init), ParamOf(last)[0]);
      }
    }
  }

  lemma OneMoreParam(params: seq<Param>, p: Param)
    ensures CallsOnWire(params + [p]) == CallsOnWire(params) + CallsIn(p.content)
    ensures AnswersOnWire(params + [p]) == AnswersOnWire(params) + AnswersIn(p.content)
  {
    assert (params + [p])[..|params|] == params;
  }

  // ----- whole responses in -----

  datatype ReplyBlock =
    | TextReply(text: string)
    | ToolUseReply(id: string, name: string, input: Json)
    | ThinkingReply(raw: string)
    | OtherReply

  /** The blocks the agent understands, in order. */
  function Understood(reply: seq<ReplyBlock>): seq<Block> {
    if reply == [] then []
    else
      Understood(reply[..|reply| - 1]) +
      match reply[|reply| - 1]
      case TextReply(text) => [TextBlock(text)]
      case ToolUseReply(id, name, input) => [ToolUseBlock(id, name, input)]
      case ThinkingReply(raw) => [ThinkingBlock(raw)]
      case OtherReply => []
  }

  method ToResponse(reply: seq<ReplyBlock>, stopReason: Option<string>) returns (r: LLMResponse)
    ensures Consistent(r) && r.content == Understood(reply)
    ensures r.stopReason == if stopReason.GetOr("") == "" then "end_turn" else stopReason.value
  {
    var content: seq<Block>, text: string, toolCalls: seq<ToolCall> := [], "", [];
    for i := 0 to |reply|
      invariant content == Understood(reply[..i])
      invariant toolCalls == CallsIn(content) && text == TextIn(content) && AnswersIn(content) == []
    {
      hide *;
      OneMoreReply(reply, i);
      match reply[i] {
        case TextReply(said) =>
          OneBlock(content, TextBlock(said));
          content, text := content + [TextBlock(said)], text + said;
        case ToolUseReply(id, name, input) =>
          OneBlock(content, ToolUseBlock(id, name, input));
          content, toolCalls := content + [ToolUseBlock(id, name, input)], toolCalls + [ToolCall(id, name, input)];
        case ThinkingReply(raw) =>
          OneBlock(content, ThinkingBlock(raw));
          content := content + [ThinkingBlock(raw)];
        case OtherReply =>
      }
    }
    assert reply[..|reply|] == reply;
    r := LLMResponse(content, text, toolCalls,
                     if stopReason.GetOr("") == "" then "end_turn" else stopReason.value);
  }

  /** Blocks other than the four kinds leave no trace; the others become the block they are. */
  lemma {:induction false} OthersAreIgnored(a: seq<ReplyBlock>, c: seq<ReplyBlock>)
    ensures Understood(a + [OtherReply] + c) == Understood(a + c)
  {
    if c == [] {
      assert a + [OtherReply] + c == a + [OtherReply] && a + c == a && (a + [OtherReply])[..|a|] == a;
      assert Understood(a) + [] == Understood(a);
    } else {
      assert (a + [OtherReply] + c)[..|a + [OtherReply] + c| - 1] == a + [OtherReply] + c[..|c| - 1];
      assert (a + c)[..|a + c| - 1] == a + c[..|c| - 1];
      OthersAreIgnored(a, c[..|c| - 1]);
    }
  }

  predicate IsBlock(reply: ReplyBlock, b: Block) {
    || (reply.TextReply? && b == TextBlock(reply.text))
    || (reply.ToolUseReply? && b == ToolUseBlock(reply.id, reply.name, reply.input))
    || (reply.ThinkingReply? && b == ThinkingBlock(reply.raw))
  }

  lemma {:induction false} RepliesAreUnderstood(reply: seq<ReplyBlock>, i: nat)
    requires i < |reply| && forall r :: r in reply ==> !r.OtherReply?
    ensures |Understood(reply)| == |reply| && IsBlock(reply[i], Understood(reply)[i])
  {
    var n := |reply| - 1;
    assert reply[n] in reply;
    if n > 0 {
      RepliesAreUnderstood(reply[..n], if i < n then i else 0);
    } else {
      assert reply[..0] == [];
    }
  }

  lemma OneMoreReply(reply: seq<ReplyBlock>, i: nat)
    requires i < |reply|
    ensures Understood(reply[..i + 1]) ==
            Understood(reply[..i]) +
            match reply[i]
            case TextReply(text) => [TextBlock(text)]
            case ToolUseReply(id, name, input) => [ToolUseBlock(id, name, input)]
            case ThinkingReply(raw) => [ThinkingBlock(raw)]
            case OtherReply => []
  {
    assert reply[..i + 1][..i] == reply[..i];
  }
}
