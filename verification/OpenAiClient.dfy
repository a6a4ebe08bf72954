/** The Chat Completions adapter: messages out, whole responses in, and streams of fragments in. */
module OpenAiClient {
  import opened Wrappers
  import opened JsonText
  import opened ChatSchemas

  // ----- messages out -----

  datatype WireCall = WireCall(id: string, name: string, arguments: string)

  datatype WireMessage =
    | SystemWire(content: string)
    | ToolWire(toolCallId: string, content: string)
    | Entry(role: Role, text: Option<string>, toolCalls: seq<WireCall>)

  function WireResults(content: seq<Block>): seq<WireMessage> {
    if content == [] then []
    else
      var last := content[|content| - 1];
      WireResults(content[..|content| - 1]) +
      if last.ToolResultBlock? then [ToolWire(last.toolUseId, if last.isError then "Error: " + last.content else last.content)]
      else []
  }

  function ToWireCall(call: ToolCall): WireCall {
    WireCall(call.id, call.name, Dumps(call.arguments))
  }

  function WireCalls(content: seq<Block>): seq<WireCall> {
    if content == [] then []
    else
      var last := content[|content| - 1];
      WireCalls(content[..|content| - 1]) +
      if last.ToolUseBlock? then [ToWireCall(ToolCall(last.id, last.name, last.input))] else []
  }

  function TextParts(content: seq<Block>): seq<string> {
    if content == [] then []
    else
      var last := content[|content| - 1];
      TextParts(content[..|content| - 1]) + if last.TextBlock? && !Blank(last.text) then [last.text] else []
  }

  function JoinLines(parts: seq<string>): string {
    if parts == [] then "" else if |parts| == 1 then parts[0] else parts[0] + "\n" + JoinLines(parts[1..])
  }

  /** The wire messages of one message: a message with neither text nor calls is dropped. */
  function WireOf(m: ChatMessage): seq<WireMessage> {
    if m.role == Tool then WireResults(m.content)
    else
      var text, calls := JoinLines(TextParts(m.content)), WireCalls(m.content);
      if text == "" && calls == [] then []
      else [Entry(m.role, if text == "" then None else Some(text), calls)]
  }

  function WireAll(messages: seq<ChatMessage>): seq<WireMessage> {
    if messages == [] then [] else WireAll(messages[..|messages| - 1]) + WireOf(messages[|messages| - 1])
  }

  method ToWireMessages(system: string, messages: seq<ChatMessage>) returns (wire: seq<WireMessage>)
    ensures wire == [SystemWire(system)] + WireAll(messages)
  {
    hide WireOf;
    wire := [SystemWire(system)];
    for i := 0 to |messages|
      invariant wire == [SystemWire(system)] + WireAll(messages[..i])
    {
      assert messages[..i + 1][..i] == messages[..i];
      var entries := Translate(messages[i]);
      wire := wire + entries;
    }
    assert messages[..|messages|] == messages;
  }

  method Translate(message: ChatMessage) returns (wire: seq<WireMessage>)
    ensures wire == WireOf(message)
  {
    if message.role == Tool {
      wire := ResultMessages(message.content);
      return;
    }
    var textParts, toolCalls := SplitBlocks(message.content);
    var text := JoinLines(textParts);
    if text == "" && toolCalls == [] {
      return [];
    }
    wire := [Entry(message.role, if text == "" then None else Some(text), toolCalls)];
  }

  /** One wire message per tool result. */
  method ResultMessages(content: seq<Block>) returns (wire: seq<WireMessage>)
    ensures wire == WireResults(content)
  {
    wire := [];
    for i := 0 to |content|
      invariant wire == WireResults(content[..i])
    {
      assert content[..i + 1][..i] == content[..i];
      var block := content[i];
      if block.ToolResultBlock? {
        var text := block.content;
        if block.isError {
          text := "Error: " + text;
        }
        wire := wire + [ToolWire(block.toolUseId, text)];
      }
    }
    assert content[..|content|] == content;
  }

  /** Thinking blocks have no equivalent here and are dropped. */
  method SplitBlocks(content: seq<Block>) returns (textParts: seq<string>, toolCalls: seq<WireCall>)
    ensures textParts == TextParts(content) && toolCalls == WireCalls(content)
  {
    textParts, toolCalls := [], [];
    for i := 0 to |content|
      invariant textParts == TextParts(content[..i]) && toolCalls == WireCalls(content[..i])
    {
      assert content[..i + 1][..i] == content[..i];
      match content[i]
      case TextBlock(text) =>
        if !Blank(text) {
          textParts := textParts + [text];
        }
      case ToolUseBlock(id, name, input) => toolCalls := toolCalls + [ToWireCall(ToolCall(id, name, input))];
      case _ =>
    }
    assert content[..|content|] == content;
  }

  // ----- what the provider demands of a request -----

  /** The wire messages that answer the calls, one each, in order. */
  predicate AnswersWire(calls: seq<WireCall>, answers: seq<WireMessage>) {
    |answers| == |calls| &&
    forall i :: 0 <= i < |calls| ==> answers[i].ToolWire? && answers[i].toolCallId == calls[i].id
  }

  /** Every entry with calls is the assistant's and is immediately followed by one tool message per call, in order, and
      tool messages come nowhere else. */
  predicate Accepted(wire: seq<WireMessage>)
    decreases |wire|
  {
    if wire == [] then true
    else if wire[0].ToolWire? then false
    else if wire[0].SystemWire? || wire[0].toolCalls == [] then Accepted(wire[1..])
    else
      var n := |wire[0].toolCalls|;
      wire[0].role == Assistant && |wire| > n && AnswersWire(wire[0].toolCalls, wire[1..n + 1]) && Accepted(wire[n + 1..])
  }

  lemma {:induction false} WireCallsAre(content: seq<Block>)
    ensures |WireCalls(content)| == |CallsIn(content)|
    ensures forall i :: 0 <= i < |CallsIn(content)| ==> WireCalls(content)[i] == ToWireCall(CallsIn(content)[i])
  {
    if content != [] {
      WireCallsAre(content[..|content| - 1]);
    }
  }

  lemma {:induction false} WireResultsAre(content: seq<Block>)
    ensures |WireResults(content)| == |AnswersIn(content)|
    ensures forall i :: 0 <= i < |AnswersIn(content)| ==>
              WireResults(content)[i].ToolWire? && WireResults(content)[i].toolCallId == AnswersIn(content)[i]
  {
    if content != [] {
      WireResultsAre(content[..|content| - 1]);
    }
  }

  lemma {:induction false} IdsAre(calls: seq<ToolCall>)
    ensures |IdsOf(calls)| == |calls| && forall i :: 0 <= i < |calls| ==> IdsOf(calls)[i] == calls[i].id
  {
    if calls != [] {
      IdsAre(calls[..|calls| - 1]);
    }
  }

  /** A message with calls and its answers become exactly the block the provider accepts. */
  lemma CallAndAnswers(call: ChatMessage, answer: ChatMessage)
    requires IsCalling(call) && Answers(call, answer)
    ensures |WireOf(call)| == 1 && WireOf(call)[0].Entry? && WireOf(call)[0].toolCalls != []
    ensures WireOf(call)[0].role == Assistant
    ensures AnswersWire(WireOf(call)[0].toolCalls, WireOf(answer))
  {
    WireCallsAre(call.content);
    WireResultsAre(answer.content);
    IdsAre(CallsIn(call.content));
  }

  lemma {:induction false} WireFront(m: ChatMessage, rest: seq<ChatMessage>)
    ensures WireAll([m] + rest) == WireOf(m) + WireAll(rest)
  {
    hide WireOf;
    if rest == [] {
      assert [m] + rest == [m] && [m][..0] == [];
    } else {
      assert ([m] + rest)[..|rest|] == [m] + rest[..|rest| - 1];
      WireFront(m, rest[..|rest| - 1]);
    }
  }

  lemma PairedTail(messages: seq<ChatMessage>, n: nat)
    requires Paired(messages) && n <= |messages|
    requires n < |messages| ==> messages[n].role != Tool
    ensures Paired(messages[n..])
  {
    forall i | 0 <= i < |messages| - n
      ensures PairedAt(messages[n..], i)
    {
      assert PairedAt(messages, n + i);
    }
  }

  lemma AcceptedPlain(m: ChatMessage, rest: seq<WireMessage>)
    requires m.role != Tool && CallsIn(m.content) == [] && Accepted(rest)
    ensures Accepted(WireOf(m) + rest)
  {
    WireCallsAre(m.content);
    var wire := WireOf(m) + rest;
    if WireOf(m) == [] {
      assert wire == rest;
    } else {
      assert wire[1..] == rest;
    }
  }

  lemma AcceptedPair(call: ChatMessage, answer: ChatMessage, rest: seq<WireMessage>)
    requires IsCalling(call) && Answers(call, answer) && Accepted(rest)
    ensures Accepted(WireOf(call) + (WireOf(answer) + rest))
  {
    CallAndAnswers(call, answer);
    var wire := WireOf(call) + (WireOf(answer) + rest);
    var n := |WireOf(call)[0].toolCalls|;
    assert wire[1..n + 1] == WireOf(answer) && wire[n + 1..] == rest;
  }

  lemma PairedHead(messages: seq<ChatMessage>)
    requires Paired(messages) && messages != []
    ensures IsCalling(messages[0]) ==>
            |messages| >= 2 && Answers(messages[0], messages[1]) && Paired(messages[2..])
    ensures !IsCalling(messages[0]) ==>
            messages[0].role != Tool && CallsIn(messages[0].content) == [] && Paired(messages[1..])
  {
    assert PairedAt(messages, 0);
    if IsCalling(messages[0]) {
      if |messages| > 2 {
        assert PairedAt(messages, 2);
      }
      PairedTail(messages, 2);
    } else {
      if |messages| > 1 {
        assert PairedAt(messages, 1);
      }
      PairedTail(messages, 1);
    }
  }

  /** The translation keeps the adjacency of calls and results the provider insists on. */
  lemma {:induction false} WireIsAccepted(messages: seq<ChatMessage>)
    requires Paired(messages)
    ensures Accepted(WireAll(messages))
    decreases |messages|
  {
    if messages != [] {
      hide WireOf, WireAll, Accepted, IsCalling, Answers, Paired;
      PairedHead(messages);
      if IsCalling(messages[0]) {
        var rest := messages[2..];
        WireIsAccepted(rest);
        WireFront(messages[1], rest);
        WireFront(messages[0], [messages[1]] + rest);
        assert messages == [messages[0]] + ([messages[1]] + rest);
        AcceptedPair(messages[0], messages[1], WireAll(rest));
      } else {
        WireIsAccepted(messages[1..]);
        WireFront(messages[0], messages[1..]);
        assert messages == [messages[0]] + messages[1..];
        AcceptedPlain(messages[0], WireAll(messages[1..]));
      }
    }
  }

  /** The calls and answers of a request, in order. */
  function CallsOnWire(wire: seq<WireMessage>): seq<WireCall> {
    if wire == [] then []
    else CallsOnWire(wire[..|wire| - 1]) + if wire[|wire| - 1].Entry? then wire[|wire| - 1].toolCalls else []
  }

  function AllWireCalls(messages: seq<ChatMessage>): seq<WireCall> {
    if messages == [] then []
    else AllWireCalls(messages[..|messages| - 1]) + WireCalls(messages[|messages| - 1].content)
  }

  function AllResults(messages: seq<ChatMessage>): seq<WireMessage> {
    if messages == [] then []
    else AllResults(messages[..|messages| - 1]) + WireResults(messages[|messages| - 1].content)
  }

  function ResultsOnWire(wire: seq<WireMessage>): seq<WireMessage> {
    if wire == [] then []
    else ResultsOnWire(wire[..|wire| - 1]) + if wire[|wire| - 1].ToolWire? then [wire[|wire| - 1]] else []
  }

  lemma {:induction false} OnWireConcat(a: seq<WireMessage>, b: seq<WireMessage>)
    ensures CallsOnWire(a + b) == CallsOnWire(a) + CallsOnWire(b)
    ensures ResultsOnWire(a + b) == ResultsOnWire(a) + ResultsOnWire(b)
  {
    if b == [] {
      assert a + b == a;
    } else {
      assert (a + b)[..|a + b| - 1] == a + b[..|b| - 1];
      OnWireConcat(a, b[..|b| - 1]);
    }
  }

  lemma {:induction false} ResultsAreResults(content: seq<Block>)
    ensures ResultsOnWire(WireResults(content)) == WireResults(content) && CallsOnWire(WireResults(content)) == []
  {
    if content != [] {
      var init, last := content[..|content| - 1], content[|content| - 1];
      ResultsAreResults(init);
      if last.ToolResultBlock? {
        var answer := ToolWire(last.toolUseId, if last.isError then "Error: " + last.content else last.content);
        assert WireResults(content) == WireResults(init) + [answer];
        OneResult(answer);
        OnWireConcat(WireResults(init), [answer]);
      } else {
        assert WireResults(content) == WireResults(init);
      }
    }
  }

  lemma OneResult(answer: WireMessage)
    requires answer.ToolWire?
    ensures ResultsOnWire([answer]) == [answer] && CallsOnWire([answer]) == []
  {
    assert [answer][..0] == [];
  }

  lemma OneMessageOnWire(m: ChatMessage)
    requires m.role == Tool ==> CallsIn(m.content) == []
    requires m.role != Tool ==> AnswersIn(m.content) == []
    ensures CallsOnWire(WireOf(m)) == WireCalls(m.content)
    ensures ResultsOnWire(WireOf(m)) == WireResults(m.content)
  {
    WireCallsAre(m.content);
    WireResultsAre(m.content);
    if m.role == Tool {
      ResultsAreResults(m.content);
    } else if WireOf(m) != [] {
      assert WireOf(m)[..0] == [];
    }
  }

  /** No call and no result is dropped, duplicated or reordered. */
  lemma {:induction false} WireKeepsEverything(messages: seq<ChatMessage>)
    requires forall i :: 0 <= i < |messages| ==>
               if messages[i].role == Tool then CallsIn(messages[i].content) == []
               else AnswersIn(messages[i].content) == []
    ensures CallsOnWire(WireAll(messages)) == AllWireCalls(messages)
    ensures ResultsOnWire(WireAll(messages)) == AllResults(messages)
  {
    if messages != [] {
      var init, last := messages[..|messages| - 1], messages[|messages| - 1];
      WireKeepsEverything(init);
      OneMessageOnWire(last);
      OnWireConcat(WireAll(init), WireOf(last));
    }
  }

  lemma {:induction false} TextPartsAre(content: seq<Block>)
    ensures forall part :: part in TextParts(content) <==>
                             exists b :: b in content && b.TextBlock? && b.text == part && !Blank(part)
  {
    hide Blank;
    if content != [] {
      TextPartsAre(content[..|content| - 1]);
      assert content == content[..|content| - 1] + [content[|content| - 1]];
    }
  }

  /** A message is dropped if and only if it makes no call and all its text is blank. */
  lemma DroppedIffNothingToSay(m: ChatMessage)
    requires m.role != Tool
    ensures WireOf(m) == [] <==> CallsIn(m.content) == [] && forall b :: b in m.content && b.TextBlock? ==> Blank(b.text)
  {
    hide TextParts, WireCalls;
    TextPartsAre(m.content);
    WireCallsAre(m.content);
    var parts := TextParts(m.content);
    if parts == [] {
      forall b | b in m.content && b.TextBlock?
        ensures Blank(b.text)
      {
        var text := b.text;
        assert text in parts || Blank(text);
      }
    } else {
      assert parts[0] in parts;
      assert !Blank(parts[0]) && parts[0] != "";
    }
  }

  // ----- who speaks, and what is said -----

  /** Something to say: a call, or a text that is not blank. */
  predicate Speaks(m: ChatMessage) {
    || (exists i :: 0 <= i < |m.content| && m.content[i].ToolUseBlock?)
    || exists i :: 0 <= i < |m.content| && m.content[i].TextBlock? && !Blank(m.content[i].text)
  }

  /** The roles of the messages with something to say. */
  function Speakers(messages: seq<ChatMessage>): seq<Role> {
    if messages == [] then []
    else
      var last := messages[|messages| - 1];
      Speakers(messages[..|messages| - 1]) + if last.role != Tool && Speaks(last) then [last.role] else []
  }

  function RolesOnWire(wire: seq<WireMessage>): seq<Role> {
    if wire == [] then []
    else RolesOnWire(wire[..|wire| - 1]) + if wire[|wire| - 1].Entry? then [wire[|wire| - 1].role] else []
  }

  lemma {:induction false} RolesConcat(a: seq<WireMessage>, b: seq<WireMessage>)
    ensures RolesOnWire(a + b) == RolesOnWire(a) + RolesOnWire(b)
  {
    if b == [] {
      assert a + b == a;
    } else {
      assert (a + b)[..|a + b| - 1] == a + b[..|b| - 1];
      RolesConcat(a, b[..|b| - 1]);
    }
  }

  lemma {:induction false} ResultsHaveNoRole(content: seq<Block>)
    ensures RolesOnWire(WireResults(content)) == []
  {
    if content != [] {
      var init, last := content[..|content| - 1], content[|content| - 1];
      ResultsHaveNoRole(init);
      if last.ToolResultBlock? {
        RolesConcat(WireResults(init), [ToolWire(last.toolUseId, if last.isError then "Error: " + last.content else last.content)]);
        NoRole(ToolWire(last.toolUseId, if last.isError then "Error: " + last.content else last.content));
      } else {
        assert WireResults(content) == WireResults(init);
      }
    }
  }

  lemma NoRole(answer: WireMessage)
    requires answer.ToolWire?
    ensures RolesOnWire([answer]) == []
  {
    assert [answer][..0] == [];
  }

  lemma {:induction false} CallsMeanUse(content: seq<Block>)
    ensures CallsIn(content) != [] <==> exists i :: 0 <= i < |content| && content[i].ToolUseBlock?
  {
    if content != [] {
      CallsMeanUse(content[..|content| - 1]);
    }
  }

  lemma DroppedIffSilent(m: ChatMessage)
    requires m.role != Tool
    ensures WireOf(m) == [] <==> !Speaks(m)
  {
    hide WireOf, Blank;
    DroppedIffNothingToSay(m);
    CallsMeanUse(m.content);
    assert forall i :: 0 <= i < |m.content| ==> m.content[i] in m.content;
  }

  /** The entries of the wire are the messages with something to say, in order, each in its own role. */
  lemma {:induction false} WireSpeaks(messages: seq<ChatMessage>)
    ensures RolesOnWire(WireAll(messages)) == Speakers(messages)
  {
    if messages != [] {
      hide Speaks, WireResults, TextParts, WireCalls, JoinLines;
      var init, last := messages[..|messages| - 1], messages[|messages| - 1];
      WireSpeaks(init);
      RolesConcat(WireAll(init), WireOf(last));
      if last.role == Tool {
        ResultsHaveNoRole(last.content);
      } else {
        DroppedIffSilent(last);
        if WireOf(last) != [] {
          assert WireOf(last)[..0] == [];
        }
      }
    }
  }

  lemma {:induction false} PartsConcat(a: seq<Block>, b: seq<Block>)
    ensures TextParts(a + b) == TextParts(a) + TextParts(b)
  {
    if b == [] {
      assert a + b == a;
    } else {
      assert (a + b)[..|a + b| - 1] == a + b[..|b| - 1];
      PartsConcat(a, b[..|b| - 1]);
    }
  }

  predicate Silent(content: seq<Block>) {
    forall b :: b in content && b.TextBlock? ==> Blank(b.text)
  }

  lemma SilentHasNoParts(content: seq<Block>)
    requires Silent(content)
    ensures TextParts(content) == []
  {
    hide TextParts, Blank;
    TextPartsAre(content);
    assert TextParts(content) != [] ==> TextParts(content)[0] in TextParts(content);
  }

  lemma OnePart(text: string)
    requires !Blank(text)
    ensures TextParts([TextBlock(text)]) == [text] && text != ""
  {
    assert [TextBlock(text)][..0] == [];
  }

  /** A message's texts go out as they are, blank ones left out, each on lines of its own. */
  lemma TextsAreSent(m: ChatMessage, a: seq<Block>, first: string, b: seq<Block>, second: string, c: seq<Block>)
    requires m.role != Tool && Silent(a) && Silent(b) && Silent(c) && !Blank(first) && !Blank(second)
    ensures m.content == a + [TextBlock(first)] + b ==>
            |WireOf(m)| == 1 && WireOf(m)[0].Entry? && WireOf(m)[0].role == m.role && WireOf(m)[0].text == Some(first)
    ensures m.content == a + [TextBlock(first)] + b + [TextBlock(second)] + c ==>
            |WireOf(m)| == 1 && WireOf(m)[0].Entry? && WireOf(m)[0].text == Some(first + "\n" + second)
  {
    hide TextParts, WireCalls, Silent, Blank, JoinLines;
    SilentHasNoParts(a);
    SilentHasNoParts(b);
    SilentHasNoParts(c);
    OnePart(first);
    OnePart(second);
    PartsConcat(a, [TextBlock(first)]);
    PartsConcat(a + [TextBlock(first)], b);
    PartsConcat(a + [TextBlock(first)] + b, [TextBlock(second)]);
    PartsConcat(a + [TextBlock(first)] + b + [TextBlock(second)], c);
    assert [] + [first] + [] == [first] && [] + [first] + [] + [second] + [] == [first, second];
    OneAndTwoLines(first, second);
  }

  lemma OneAndTwoLines(first: string, second: string)
    ensures JoinLines([first]) == first && JoinLines([first, second]) == first + "\n" + second
  {
    assert [first, second][1..] == [second];
  }

  /** And without any, there is no text. */
  lemma NoTextIsSent(m: ChatMessage)
    requires m.role != Tool && Silent(m.content) && CallsIn(m.content) != []
    ensures |WireOf(m)| == 1 && WireOf(m)[0].Entry? && WireOf(m)[0].role == m.role && WireOf(m)[0].text == None
  {
    hide TextParts, Silent, Blank;
    SilentHasNoParts(m.content);
    WireCallsAre(m.content);
  }

  /** The results that the tool messages hold, in order. */
  function ResultsIn(messages: seq<ChatMessage>): seq<Block> {
    if messages == [] then []
    else
      var last := messages[|messages| - 1];
      ResultsIn(messages[..|messages| - 1]) + if last.role == Tool then ResultBlocksIn(last.content) else []
  }

  function ResultBlocksIn(content: seq<Block>): (r: seq<Block>)
    ensures forall b :: b in r ==> b.ToolResultBlock?
  {
    if content == [] then []
    else
      var last := content[|content| - 1];
      ResultBlocksIn(content[..|content| - 1]) + if last.ToolResultBlock? then [last] else []
  }

  /** The wire message says what the result says, marked if it is an error. */
  predicate Tells(wire: WireMessage, result: Block) {
    && wire.ToolWire? && result.ToolResultBlock? && wire.toolCallId == result.toolUseId
    && (result.isError ==> wire.content == "Error: " + result.content)
    && (!result.isError ==> wire.content == result.content)
  }

  predicate TellAll(wire: seq<WireMessage>, results: seq<Block>) {
    |wire| == |results| && forall i :: 0 <= i < |wire| ==> Tells(wire[i], results[i])
  }

  lemma {:induction false} ContentIsTold(content: seq<Block>)
    ensures TellAll(WireResults(content), ResultBlocksIn(content))
  {
    if content != [] {
      ContentIsTold(content[..|content| - 1]);
    }
  }

  /** The tool messages of the wire tell the results, all of them, in order. */
  lemma {:induction false} ResultsAreTold(messages: seq<ChatMessage>)
    ensures TellAll(ResultsOnWire(WireAll(messages)), ResultsIn(messages))
  {
    if messages != [] {
      hide WireOf, WireAll, ResultsOnWire, Tells, ResultBlocksIn;
      var init, last := messages[..|messages| - 1], messages[|messages| - 1];
      ResultsAreTold(init);
      LastOnWire(messages);
      OneMessageTells(last);
    } else {
      assert ResultsOnWire(WireAll(messages)) == [];
    }
  }

  lemma LastOnWire(messages: seq<ChatMessage>)
    requires messages != []
    ensures var init, last := messages[..|messages| - 1], messages[|messages| - 1];
            && ResultsOnWire(WireAll(messages)) == ResultsOnWire(WireAll(init)) + ResultsOnWire(WireOf(last))
            && CallsOnWire(WireAll(messages)) == CallsOnWire(WireAll(init)) + CallsOnWire(WireOf(last))
  {
    hide WireOf, ResultsOnWire, CallsOnWire;
    OnWireConcat(WireAll(messages[..|messages| - 1]), WireOf(messages[|messages| - 1]));
  }

  lemma OneMessageTells(m: ChatMessage)
    ensures TellAll(ResultsOnWire(WireOf(m)), if m.role == Tool then ResultBlocksIn(m.content) else [])
  {
    hide Tells, TextParts, WireCalls, JoinLines, WireResults;
    if m.role == Tool {
      ResultsAreResults(m.content);
      ContentIsTold(m.content);
    } else if WireOf(m) != [] {
      assert WireOf(m)[..0] == [];
      assert ResultsOnWire([]) == [];
    }
  }

  /** The calls the messages make, in order. */
  function CallsMadeIn(messages: seq<ChatMessage>): seq<ToolCall> {
    if messages == [] then []
    else
      var last := messages[|messages| - 1];
      CallsMadeIn(messages[..|messages| - 1]) + if last.role != Tool then CallsIn(last.content) else []
  }

  predicate TellCalls(wire: seq<WireCall>, calls: seq<ToolCall>) {
    |wire| == |calls| &&
    forall i :: 0 <= i < |calls| ==>
      wire[i].id == calls[i].id && wire[i].name == calls[i].name && wire[i].arguments == Dumps(calls[i].arguments)
  }

  lemma TellMore(a: seq<WireCall>, b: seq<WireCall>, x: seq<ToolCall>, y: seq<ToolCall>)
    requires TellCalls(a, x) && TellCalls(b, y)
    ensures TellCalls(a + b, x + y)
  {
    hide Dumps;
  }

  /** The calls on the wire are those, each with its arguments as JSON text. */
  lemma {:induction false} CallsAreTold(messages: seq<ChatMessage>)
    ensures TellCalls(CallsOnWire(WireAll(messages)), CallsMadeIn(messages))
  {
    if messages != [] {
      hide WireOf, WireAll, CallsOnWire, CallsIn, TellCalls;
      var init, last := messages[..|messages| - 1], messages[|messages| - 1];
      CallsAreTold(init);
      LastOnWire(messages);
      OneMessageCalls(last);
      TellMore(CallsOnWire(WireAll(init)), CallsOnWire(WireOf(last)), CallsMadeIn(init),
               if last.role != Tool then CallsIn(last.content) else []);
    } else {
      assert CallsOnWire(WireAll(messages)) == [];
    }
  }

  lemma OneMessageCalls(m: ChatMessage)
    ensures TellCalls(CallsOnWire(WireOf(m)), if m.role != Tool then CallsIn(m.content) else [])
  {
    hide Dumps, TextParts, JoinLines, WireCalls, WireResults, CallsIn;
    if m.role == Tool {
      ResultsAreResults(m.content);
    } else {
      WireCallsAre(m.content);
      if WireOf(m) != [] {
        assert WireOf(m)[..0] == [];
        assert CallsOnWire([]) == [];
      }
    }
  }

  // ----- whole responses in -----

  /** A call in a completed message; `isFunction` is `type == "function"`. */
  datatype RawCall = RawCall(isFunction: bool, id: string, name: string, arguments: string)

  datatype RawMessage = RawMessage(content: Option<string>, toolCalls: seq<RawCall>)

  /** `loads` is json.loads: None for malformed text.  Anything but an object becomes {}. */
  function ParseArguments(loads: string -> Option<Json>, raw: string): Json {
    var parsed := loads(if raw == "" then "{}" else raw);
    if parsed.Some? && parsed.value.JObject? then parsed.value else JObject([])
  }

  function StopReason(finish: Option<string>): string {
    match finish.GetOr("stop")
    case "tool_calls" => "tool_use"
    case "length" => "max_tokens"
    case "content_filter" => "refusal"
    case _ => "end_turn"
  }

  function ToCall(loads: string -> Option<Json>, call: RawCall): ToolCall {
    ToolCall(call.id, call.name, ParseArguments(loads, call.arguments))
  }

  function FunctionCalls(loads: string -> Option<Json>, calls: seq<RawCall>): seq<ToolCall> {
    if calls == [] then []
    else FunctionCalls(loads, calls[..|calls| - 1]) +
         if calls[|calls| - 1].isFunction then [ToCall(loads, calls[|calls| - 1])] else []
  }

  /** Arguments are the object they spell; malformed text, and anything but an object, is no arguments; so is no text. */
  lemma ArgumentsAreRead(loads: string -> Option<Json>, raw: string)
    requires loads("{}") == Some(JObject([]))
    ensures var arguments := ParseArguments(loads, raw);
            && arguments.JObject?
            && (raw == "" || loads(raw) == None || (loads(raw).Some? && !loads(raw).value.JObject?) ==>
                  arguments == JObject([]))
            && (raw != "" && loads(raw).Some? && loads(raw).value.JObject? ==> Some(arguments) == loads(raw))
  {
  }

  /** The reasons a response ends, in the words of both providers; refused content is a refusal. */
  lemma ReasonsAreTranslated(finish: Option<string>)
    ensures StopReason(finish) == "tool_use" <==> finish == Some("tool_calls")
    ensures StopReason(finish) == "max_tokens" <==> finish == Some("length")
    ensures StopReason(finish) == "refusal" <==> finish == Some("content_filter")
    ensures StopReason(finish) == "end_turn" <==> finish !in {Some("tool_calls"), Some("length"), Some("content_filter")}
  {
  }

  function RawCalls(calls: seq<WireCall>): seq<RawCall> {
    if calls == [] then []
    else RawCalls(calls[..|calls| - 1]) + [RawCall(true, calls[|calls| - 1].id, calls[|calls| - 1].name,
                                                   calls[|calls| - 1].arguments)]
  }

  /** A call that is sent reads back as the call it was: name, id and arguments. */
  lemma {:induction false} CallsComeBack(loads: string -> Option<Json>, content: seq<Block>)
    requires forall call :: call in CallsIn(content) ==>
               call.arguments.JObject? && loads(Dumps(call.arguments)) == Some(call.arguments)
    ensures FunctionCalls(loads, RawCalls(WireCalls(content))) == CallsIn(content)
  {
    hide Dumps;
    if content != [] {
      var init, last := content[..|content| - 1], content[|content| - 1];
      CallsComeBack(loads, init);
      if last.ToolUseBlock? {
        var call := ToolCall(last.id, last.name, last.input);
        assert call in CallsIn(content);
        DumpedIsText(call.arguments);
        var raw := RawCalls(WireCalls(content));
        assert WireCalls(content)[..|WireCalls(content)| - 1] == WireCalls(init);
        assert raw[..|raw| - 1] == RawCalls(WireCalls(init));
      } else {
        assert WireCalls(content) == WireCalls(init) && CallsIn(content) == CallsIn(init);
      }
    }
  }

  lemma DumpedIsText(j: Json)
    requires j.JObject?
    ensures Dumps(j) != ""
  {
  }

  function UseBlocks(calls: seq<ToolCall>): seq<Block> {
    if calls == [] then []
    else
      var last := calls[|calls| - 1];
      UseBlocks(calls[..|calls| - 1]) + [ToolUseBlock(last.id, last.name, last.arguments)]
  }

  function Respond(text: string, calls: seq<ToolCall>, finish: Option<string>): LLMResponse {
    LLMResponse((if text == "" then [] else [TextBlock(text)]) + UseBlocks(calls), text, calls, StopReason(finish))
  }

  method ToResponse(loads: string -> Option<Json>, message: RawMessage, finish: Option<string>)
    returns (r: LLMResponse)
    ensures r == Respond(message.content.GetOr(""), FunctionCalls(loads, message.toolCalls), finish)
    ensures Consistent(r)
  {
    hide UseBlocks, ParseArguments, StopReason;
    var content: seq<Block>, toolCalls: seq<ToolCall> := [], [];
    var text := message.content.GetOr("");
    if text != "" {
      content := content + [TextBlock(text)];
    }
    ghost var head := content;
    NoUseBlocks();
    for i := 0 to |message.toolCalls|
      invariant toolCalls == FunctionCalls(loads, message.toolCalls[..i])
      invariant content == head + UseBlocks(toolCalls)
    {
      assert message.toolCalls[..i + 1][..i] == message.toolCalls[..i];
      var call := message.toolCalls[i];
      if !call.isFunction {
        continue;
      }
      var arguments := ParseArguments(loads, call.arguments);
      OneMoreUseBlock(toolCalls, ToolCall(call.id, call.name, arguments));
      content := content + [ToolUseBlock(call.id, call.name, arguments)];
      toolCalls := toolCalls + [ToolCall(call.id, call.name, arguments)];
    }
    assert message.toolCalls[..|message.toolCalls|] == message.toolCalls;
    r := LLMResponse(content, text, toolCalls, StopReason(finish));
    RespondIsConsistent(text, toolCalls, finish);
  }

  lemma NoUseBlocks()
    ensures UseBlocks([]) == []
  {
  }

  lemma OneMoreUseBlock(calls: seq<ToolCall>, call: ToolCall)
    ensures UseBlocks(calls + [call]) == UseBlocks(calls) + [ToolUseBlock(call.id, call.name, call.arguments)]
  {
    assert (calls + [call])[..|calls|] == calls;
  }

  lemma {:induction false} BlocksConcat(a: seq<Block>, b: seq<Block>)
    ensures CallsIn(a + b) == CallsIn(a) + CallsIn(b)
    ensures AnswersIn(a + b) == AnswersIn(a) + AnswersIn(b)
    ensures TextIn(a + b) == TextIn(a) + TextIn(b)
  {
    if b == [] {
      assert a + b == a;
    } else {
      assert (a + b)[..|a + b| - 1] == a + b[..|b| - 1];
      BlocksConcat(a, b[..|b| - 1]);
    }
  }

  lemma {:induction false} UseBlocksAre(calls: seq<ToolCall>)
    ensures CallsIn(UseBlocks(calls)) == calls && TextIn(UseBlocks(calls)) == "" && AnswersIn(UseBlocks(calls)) == []
  {
    if calls != [] {
      var init, last := calls[..|calls| - 1], calls[|calls| - 1];
      UseBlocksAre(init);
      var block := ToolUseBlock(last.id, last.name, last.arguments);
      BlocksConcat(UseBlocks(init), [block]);
      assert [block][..0] == [];
      assert CallsIn([block]) == [last] && TextIn([block]) == "" && AnswersIn([block]) == [];
    }
  }

  lemma RespondIsConsistent(text: string, calls: seq<ToolCall>, finish: Option<string>)
    ensures Consistent(Respond(text, calls, finish))
  {
    var head := if text == "" then [] else [TextBlock(text)];
    UseBlocksAre(calls);
    BlocksConcat(head, UseBlocks(calls));
    if text != "" {
      assert head[..0] == [];
    }
  }
}
