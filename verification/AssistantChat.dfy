/** The chat page's state: one reducer, fed by the stream and by two guarded commands. */
module AssistantChat {
  import opened Wrappers
  import opened FinanceAgent

  /** `user-msg-...-n` and `msg-...-n`: the counter alone keeps them apart. */
  datatype MessageId = UserId(n: nat) | AssistantId(n: nat)

  datatype Status = Streaming | Done | Error

  /** Every part is text so far. */
  datatype Message = Message(id: MessageId, parts: seq<string>, tools: seq<ToolEvent>, status: Status,
                             errorDetail: Option<string>)

  datatype ChatState = ChatState(messages: seq<Message>, conversationId: Option<string>, lastSent: Option<string>)

  /** What can happen to one assistant bubble. */
  datatype Change =
    | TokenArrived(text: string)
    | ToolArrived(tool: ToolEvent)
    | DoneArrived(conversationId: string, message: string, tools: seq<ToolEvent>)
    | ErrorArrived(detail: string)
    | RetryStarted
    | Settled

  datatype Action = ExchangeStarted(userText: string, n: nat) | Changed(n: nat, change: Change)

  function AppendText(parts: seq<string>, text: string): seq<string> {
    if parts == [] then [text] else parts[..|parts| - 1] + [parts[|parts| - 1] + text]
  }

  /** Array.prototype.findLast, as a position. */
  function FindLast(tools: seq<ToolEvent>, name: string): (found: Option<nat>)
    ensures found.Some? ==> found.value < |tools|
  {
    if tools == [] then None
    else if tools[|tools| - 1].name == name then Some(|tools| - 1)
    else FindLast(tools[..|tools| - 1], name)
  }

  function RecordTool(tools: seq<ToolEvent>, tool: ToolEvent): seq<ToolEvent> {
    var existing := FindLast(tools, tool.name);
    if existing.Some? && tools[existing.value].status == Running then tools[existing.value := tool] else tools + [tool]
  }

  function Update(m: Message, change: Change): Message {
    match change
    case TokenArrived(text) => m.(parts := AppendText(m.parts, text))
    case ToolArrived(tool) => m.(tools := RecordTool(m.tools, tool))
    case DoneArrived(_, message, tools) => m.(parts := [message], tools := tools, status := Done)
    case ErrorArrived(detail) => m.(status := Error, errorDetail := Some(detail))
    case RetryStarted => m.(parts := [], tools := [], status := Streaming, errorDetail := None)
    case Settled =>
      if m.status != Streaming then m
      else if m.parts != [] then m.(status := Done)
      else m.(status := Error, errorDetail := Some("Response stopped."))
  }

  function UpdateMessage(messages: seq<Message>, id: MessageId, change: Change): (r: seq<Message>)
    ensures |r| == |messages|
    ensures forall i :: 0 <= i < |r| ==> r[i] == if messages[i].id == id then Update(messages[i], change) else messages[i]
  {
    if messages == [] then []
    else
      var last := messages[|messages| - 1];
      UpdateMessage(messages[..|messages| - 1], id, change) + [if last.id == id then Update(last, change) else last]
  }

  function Reduce(state: ChatState, action: Action): ChatState {
    match action
    case ExchangeStarted(text, n) =>
      state.(lastSent := Some(text),
             messages := state.messages + [Message(UserId(n), [text], [], Done, None),
                                           Message(AssistantId(n), [], [], Streaming, None)])
    case Changed(n, change) =>
      var updated := state.(messages := UpdateMessage(state.messages, AssistantId(n), change));
      if change.DoneArrived? then updated.(conversationId := Some(change.conversationId)) else updated
  }

  // ----- the hook: two commands, both guarded by "nothing is streaming" -----

  predicate IsStreaming(state: ChatState) {
    exists i :: 0 <= i < |state.messages| && state.messages[i].status == Streaming
  }

  function FailedId(messages: seq<Message>): Option<nat> {
    if messages == [] then None
    else
      var last := messages[|messages| - 1];
      if last.id.AssistantId? && last.status == Error then Some(last.id.n) else FailedId(messages[..|messages| - 1])
  }

  datatype Request = Request(conversationId: Option<string>, message: string)

  /** What a command dispatches and asks the server. */
  datatype Command = Command(action: Action, request: Request)

  /** `message` is the trimmed text. */
  function SendCommand(state: ChatState, message: string, id: nat): Option<Command> {
    if message == "" || IsStreaming(state) then None
    else Some(Command(ExchangeStarted(message, id), Request(state.conversationId, message)))
  }

  function RetryCommand(state: ChatState): Option<Command> {
    var failed := FailedId(state.messages);
    if failed.None? || state.lastSent.GetOr("") == "" || IsStreaming(state) then None
    else Some(Command(Changed(failed.value, RetryStarted), Request(state.conversationId, state.lastSent.value)))
  }

  // ----- every run -----

  /** One thing that happens to the page: a command, or something arriving for any exchange at any time (a retry's
      predecessor may still be winding down). */
  datatype Happening = UserSends(text: string) | UserRetries | Arrives(n: nat, change: Change)

  datatype Page = Page(state: ChatState, nextId: nat)

  function Live(page: Page, h: Happening): Page {
    match h
    case UserSends(text) =>
      var c := SendCommand(page.state, text, page.nextId + 1);
      if c.Some? then Page(Reduce(page.state, c.value.action), page.nextId + 1) else page
    case UserRetries =>
      var c := RetryCommand(page.state);
      if c.Some? then page.(state := Reduce(page.state, c.value.action)) else page
    case Arrives(n, change) => if change.RetryStarted? then page else page.(state := Reduce(page.state, Changed(n, change)))
  }

  function LiveAll(run: seq<Happening>): Page {
    if run == [] then Page(ChatState([], None, None), 0) else Live(LiveAll(run[..|run| - 1]), run[|run| - 1])
  }

  /** Exchanges in order, each a question and its bubble, numbered upwards; questions never stream. */
  ghost predicate WellFormed(page: Page) {
    var ms := page.state.messages;
    && |ms| % 2 == 0
    && (forall i :: 0 <= i < |ms| && i % 2 == 0 ==> ms[i].id.UserId? && ms[i].status == Done && |ms[i].parts| == 1)
    && (forall i :: 0 <= i < |ms| && i % 2 == 1 ==> ms[i].id.AssistantId? && ms[i].id.n == ms[i - 1].id.n)
    && (forall i, j :: 0 <= i < j < |ms| && i % 2 == j % 2 ==> ms[i].id.n < ms[j].id.n)
    && (forall i :: 0 <= i < |ms| ==> ms[i].id.n <= page.nextId)
  }

  ghost predicate AtMostOneStreaming(ms: seq<Message>) {
    forall i, j :: 0 <= i < j < |ms| ==> !(ms[i].status == Streaming && ms[j].status == Streaming)
  }

  /** The text a retry would resend is the last question's. */
  ghost predicate RemembersLast(state: ChatState) {
    if |state.messages| < 2 then state.lastSent.None?
    else state.messages[|state.messages| - 2].parts == [state.lastSent.GetOr("")]
  }

  ghost predicate PageOk(page: Page) {
    WellFormed(page) && AtMostOneStreaming(page.state.messages) && RemembersLast(page.state)
  }

  lemma UniqueIds(page: Page, i: nat, j: nat)
    requires WellFormed(page) && i < j < |page.state.messages|
    ensures page.state.messages[i].id != page.state.messages[j].id
  {
  }

  /** Whatever arrives, a bubble only starts streaming when a retry starts it. */
  lemma OnlyRetryStreams(m: Message, change: Change)
    ensures Update(m, change).id == m.id
    ensures Update(m, change).status == Streaming ==> change.RetryStarted? || m.status == Streaming
  {
  }

  lemma ChangeKeepsPage(page: Page, n: nat, change: Change)
    requires PageOk(page)
    requires change.RetryStarted? ==> !IsStreaming(page.state)
    ensures PageOk(page.(state := Reduce(page.state, Changed(n, change))))
  {
    hide Update;
    var ms := page.state.messages;
    var after := UpdateMessage(ms, AssistantId(n), change);
    forall i | 0 <= i < |ms|
      ensures after[i].id == ms[i].id
      ensures ms[i].id.UserId? ==> after[i] == ms[i]
      ensures after[i].status == Streaming ==>
              ms[i].status == Streaming || (change.RetryStarted? && ms[i].id == AssistantId(n))
    {
      OnlyRetryStreams(ms[i], change);
    }
    forall i, j | 0 <= i < j < |after|
      ensures !(after[i].status == Streaming && after[j].status == Streaming)
    {
      UniqueIds(page, i, j);
    }
  }

  lemma SendKeepsPage(page: Page, text: string)
    requires PageOk(page) && !IsStreaming(page.state)
    ensures PageOk(Page(Reduce(page.state, ExchangeStarted(text, page.nextId + 1)), page.nextId + 1))
  {
    hide WellFormed, UpdateMessage;
    SendKeepsForm(page, text);
  }

  lemma SendKeepsForm(page: Page, text: string)
    requires WellFormed(page)
    ensures WellFormed(Page(Reduce(page.state, ExchangeStarted(text, page.nextId + 1)), page.nextId + 1))
  {
    hide UpdateMessage;
    var ms, id := page.state.messages, page.nextId + 1;
    var after := Reduce(page.state, ExchangeStarted(text, id)).messages;
    assert forall i :: 0 <= i < |ms| ==> after[i] == ms[i];
    assert after[|ms|] == Message(UserId(id), [text], [], Done, None);
    assert after[|ms| + 1] == Message(AssistantId(id), [], [], Streaming, None);
  }

  /** Over every run of sends, retries and arrivals in any order, at most one bubble is streaming, ids are unique and a
      retry resends the last question. */
  lemma {:induction false} RunKeepsPage(run: seq<Happening>)
    ensures PageOk(LiveAll(run))
  {
    if run != [] {
      hide PageOk, Reduce;
      var page := LiveAll(run[..|run| - 1]);
      RunKeepsPage(run[..|run| - 1]);
      match run[|run| - 1]
      case UserSends(text) =>
        if SendCommand(page.state, text, page.nextId + 1).Some? {
          SendKeepsPage(page, text);
        }
      case UserRetries =>
        if RetryCommand(page.state).Some? {
          ChangeKeepsPage(page, FailedId(page.state.messages).value, RetryStarted);
        }
      case Arrives(n, change) =>
        if !change.RetryStarted? {
          ChangeKeepsPage(page, n, change);
        }
    } else {
      EmptyPageOk();
    }
  }

  lemma EmptyPageOk()
    ensures PageOk(Page(ChatState([], None, None), 0))
  {
  }

  /** The last failed bubble. */
  lemma {:induction false} FailedIdIs(messages: seq<Message>)
    ensures FailedId(messages).None? ==>
            forall i :: 0 <= i < |messages| ==> !(messages[i].id.AssistantId? && messages[i].status == Error)
    ensures FailedId(messages).Some? ==>
            exists k :: 0 <= k < |messages| && messages[k].id == AssistantId(FailedId(messages).value)
                        && messages[k].status == Error
                        && forall i :: k < i < |messages| ==> !(messages[i].id.AssistantId? && messages[i].status == Error)
  {
    if messages != [] {
      var init, last := messages[..|messages| - 1], messages[|messages| - 1];
      if last.id.AssistantId? && last.status == Error {
        assert messages[|messages| - 1] == last;
      } else {
        FailedIdIs(init);
        if FailedId(init).Some? {
          var k :| 0 <= k < |init| && init[k].id == AssistantId(FailedId(init).value) && init[k].status == Error
                   && forall i :: k < i < |init| ==> !(init[i].id.AssistantId? && init[i].status == Error);
          assert messages[k] == init[k];
          forall i | k < i < |messages|
            ensures !(messages[i].id.AssistantId? && messages[i].status == Error)
          {
            assert i < |init| ==> messages[i] == init[i];
          }
        }
      }
    }
  }

  /** A retry reuses the bubble of exchange `k` and asks the question of the last exchange: the two agree if and only if
      the questions do, so certainly when the failed exchange is the last one. */
  lemma RetryAsksOwnQuestionIff(page: Page, k: nat)
    requires PageOk(page) && RetryCommand(page.state).Some?
    requires k < |page.state.messages| && page.state.messages[k].id == RetriedId(page.state)
    ensures k % 2 == 1
    ensures var ms := page.state.messages;
            RetryCommand(page.state).value.request.message == ms[k - 1].parts[0]
            <==> ms[|ms| - 2].parts[0] == ms[k - 1].parts[0]
    ensures k == |page.state.messages| - 1 ==>
            RetryCommand(page.state).value.request.message == page.state.messages[k - 1].parts[0]
  {
  }

  function RetriedId(state: ChatState): MessageId {
    AssistantId(FailedId(state.messages).GetOr(0))
  }

  lemma {:induction false} UpdateNone(messages: seq<Message>, id: MessageId, change: Change)
    requires forall m :: m in messages ==> m.id != id
    ensures UpdateMessage(messages, id, change) == messages
  {
    if messages != [] {
      UpdateNone(messages[..|messages| - 1], id, change);
    }
  }

  predicate Ends(change: Change) {
    change.ErrorArrived? || change.DoneArrived?
  }

  /** One whole exchange: a question, then what ends it. */
  function Exchanged(page: Page, text: string, change: Change): Page {
    Live(Live(page, UserSends(text)), Arrives(page.nextId + 1, change))
  }

  lemma Exchange(page: Page, text: string, change: Change)
    requires PageOk(page) && !IsStreaming(page.state) && text != "" && Ends(change)
    ensures var n, after := page.nextId + 1, Exchanged(page, text, change);
            && PageOk(after) && !IsStreaming(after.state) && after.nextId == n
            && after.state.lastSent == Some(text)
            && after.state.conversationId == (if change.DoneArrived? then Some(change.conversationId)
                                              else page.state.conversationId)
            && after.state.messages == page.state.messages +
                                       [Message(UserId(n), [text], [], Done, None),
                                        Update(Message(AssistantId(n), [], [], Streaming, None), change)]
  {
    hide UpdateMessage, WellFormed, AtMostOneStreaming, RemembersLast;
    var n, ms := page.nextId + 1, page.state.messages;
    var question, bubble := Message(UserId(n), [text], [], Done, None), Message(AssistantId(n), [], [], Streaming, None);
    SendKeepsPage(page, text);
    ChangeKeepsPage(Live(page, UserSends(text)), n, change);
    NewIdIsNew(page);
    UpdateLast(ms, question, bubble, change);
  }

  lemma NewIdIsNew(page: Page)
    requires WellFormed(page)
    ensures forall m :: m in page.state.messages ==> m.id != AssistantId(page.nextId + 1)
  {
  }

  lemma UpdateLast(messages: seq<Message>, question: Message, bubble: Message, change: Change)
    requires forall m :: m in messages + [question] ==> m.id != bubble.id
    ensures UpdateMessage(messages + [question, bubble], bubble.id, change) == messages + [question, Update(bubble, change)]
  {
    hide Update;
    UpdateNone(messages + [question], bubble.id, change);
    assert (messages + [question, bubble])[..|messages| + 1] == messages + [question];
  }

  lemma FailedIdSkips(messages: seq<Message>, m: Message)
    ensures FailedId(messages + [m])
         == if m.id.AssistantId? && m.status == Error then Some(m.id.n) else FailedId(messages)
  {
    assert (messages + [m])[..|messages|] == messages;
  }

  /** Not always: after a failed exchange and an answered one, a retry asks the second question in the first bubble. */
  lemma RetryMayAskAnotherQuestion(page: Page, first: string, detail: string, second: string, done: Change)
    requires PageOk(page) && !IsStreaming(page.state) && first != "" && second != "" && done.DoneArrived?
    ensures var after := Exchanged(Exchanged(page, first, ErrorArrived(detail)), second, done);
            RetryCommand(after.state)
            == Some(Command(Changed(page.nextId + 1, RetryStarted), Request(Some(done.conversationId), second)))
  {
    hide PageOk, Exchanged, IsStreaming, FailedId;
    Exchange(page, first, ErrorArrived(detail));
    var failed := Exchanged(page, first, ErrorArrived(detail));
    Exchange(failed, second, done);
    var ms := failed.state.messages;
    var question := Message(UserId(page.nextId + 2), [second], [], Done, None);
    var bubble := Update(Message(AssistantId(page.nextId + 2), [], [], Streaming, None), done);
    assert ms + [question, bubble] == (ms + [question]) + [bubble];
    FailedIdSkips(ms + [question], bubble);
    FailedIdSkips(ms, question);
    assert ms[..|ms| - 1] + [ms[|ms| - 1]] == ms;
    FailedIdSkips(ms[..|ms| - 1], ms[|ms| - 1]);
  }

  // ----- the hook itself -----

  class ChatHook {
    var state: ChatState
    var nextId: nat
    var requests: seq<Request>

    ghost predicate Valid()
      reads this
    {
      PageOk(Page(state, nextId))
    }

    constructor ()
      ensures Valid() && state == ChatState([], None, None) && nextId == 0 && requests == []
    {
      state, nextId, requests := ChatState([], None, None), 0, [];
    }

    /** A stream's callback, or its winding down. */
    method Dispatch(n: nat, change: Change)
      requires Valid() && !change.RetryStarted?
      modifies this`state
      ensures Valid() && Page(state, nextId) == Live(old(Page(state, nextId)), Arrives(n, change))
    {
      ChangeKeepsPage(Page(state, nextId), n, change);
      state := Reduce(state, Changed(n, change));
    }

    method Send(message: string)
      requires Valid()
      modifies this
      ensures Valid() && Page(state, nextId) == Live(old(Page(state, nextId)), UserSends(message))
      ensures var c := SendCommand(old(state), message, old(nextId) + 1);
              requests == old(requests) + if c.Some? then [c.value.request] else []
    {
      hide PageOk, Reduce;
      if message == "" || IsStreaming(state) {
        return;
      }
      SendKeepsPage(Page(state, nextId), message);
      requests := requests + [Request(state.conversationId, message)];
      nextId := nextId + 1;
      state := Reduce(state, ExchangeStarted(message, nextId));
    }

    method Retry()
      requires Valid()
      modifies this
      ensures Valid() && Page(state, nextId) == Live(old(Page(state, nextId)), UserRetries)
      ensures var c := RetryCommand(old(state));
              requests == old(requests) + if c.Some? then [c.value.request] else []
    {
      hide PageOk, Reduce;
      var failed := FailedId(state.messages);
      if failed.None? || state.lastSent.GetOr("") == "" || IsStreaming(state) {
        return;
      }
      ChangeKeepsPage(Page(state, nextId), failed.value, RetryStarted);
      requests := requests + [Request(state.conversationId, state.lastSent.value)];
      state := Reduce(state, Changed(failed.value, RetryStarted));
    }
  }
}
