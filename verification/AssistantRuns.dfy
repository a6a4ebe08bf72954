/** From the agent to the page: what an exchange's bubble shows once the server's events have been printed, cut into
    chunks, parsed and reduced. */
module AssistantRuns {
  import opened Wrappers
  import opened JsonText
  import opened FinanceAgent
  import opened AgentTranscripts
  import opened AssistantChat
  import opened AssistantBubbles
  import opened ChatService
  import JsonParse
  import Sse = AssistantStream

  // ----- the server's events -----

  function StatusName(status: ToolStatus): string {
    match status
    case Running => "running"
    case Completed => "completed"
    case Failed => "failed"
  }

  function ToolFields(tool: ToolEvent): seq<Member> {
    [Member("name", JString(tool.name)), Member("status", JString(StatusName(tool.status)))]
  }

  function ToolObjects(tools: seq<ToolEvent>): (r: seq<Json>)
    ensures |r| == |tools|
    ensures forall i :: 0 <= i < |r| ==> r[i] == JObject(ToolFields(tools[i]))
  {
    if tools == [] then [] else ToolObjects(tools[..|tools| - 1]) + [JObject(ToolFields(tools[|tools| - 1]))]
  }

  function EventOf(item: StreamItem, conversation: string): Sse.ServerEvent {
    match item
    case TokenItem(text) => Sse.ServerEvent(Sse.Token, [Member("text", JString(text))])
    case ToolItem(tool) => Sse.ServerEvent(Sse.Tool, ToolFields(tool))
    case ResultItem(result) =>
      Sse.ServerEvent(Sse.Done, [Member("conversation_id", JString(conversation)), Member("message", JString(result.text)),
                                 Member("tool_calls", JArray(ToolObjects(result.toolEvents)))])
  }

  function EventsOf(items: seq<StreamItem>, conversation: string): seq<Sse.ServerEvent> {
    if items == [] then [] else [EventOf(items[0], conversation)] + EventsOf(items[1..], conversation)
  }

  function ErrorEvent(detail: string): Sse.ServerEvent {
    Sse.ServerEvent(Sse.Error, [Member("detail", JString(detail))])
  }

  function Detail(error: ChatError, bound: nat): string {
    match error
    case AgentFailed(LLMError(detail)) => detail
    case AgentFailed(AgentLoopError) => "no final answer after " + Digits(bound) + " tool iterations"
    case NotStored => "internal error"
  }

  function BeforeResult(items: seq<StreamItem>): seq<StreamItem> {
    if items != [] && items[|items| - 1].ResultItem? then items[..|items| - 1] else items
  }

  /** Everything the server sends for one exchange: what the agent yields, its result only once it has been stored; an
      error after the stream opened is the last event. */
  function ServerEvents(user: string, script: Script, bound: nat, stores: bool, conversation: string): seq<Sse.ServerEvent> {
    var items, r := Yielded(user, script, bound, true), Replied(user, script, bound, stores);
    if r.Ok? then EventsOf(items, conversation)
    else EventsOf(BeforeResult(items), conversation) + [ErrorEvent(Detail(r.error, bound))]
  }

  // ----- the client's callbacks -----

  function FieldOf(fields: seq<Member>, key: string): Json {
    if fields == [] then JNull else if fields[0].key == key then fields[0].value else FieldOf(fields[1..], key)
  }

  /** A field of a body; a body without it, or no object at all, has none. */
  function Get(body: Json, key: string): Json {
    if body.JObject? then FieldOf(body.fields, key) else JNull
  }

  function Text(j: Json, default: string): string {
    if j.JString? then j.s else default
  }

  function ReadTool(body: Json): ToolEvent {
    var status := Text(Get(body, "status"), "");
    ToolEvent(Text(Get(body, "name"), ""),
              if status == "running" then Running else if status == "completed" then Completed else Failed)
  }

  function ReadTools(items: seq<Json>): seq<ToolEvent> {
    if items == [] then [] else ReadTools(items[..|items| - 1]) + [ReadTool(items[|items| - 1])]
  }

  /** What each callback dispatches for its bubble. */
  function Dispatched(c: Sse.Callback): Change {
    match c
    case OnStreamError(detail) => ErrorArrived(detail)
    case OnEvent(name, body) =>
      match name
      case Token => TokenArrived(Text(Get(body, "text"), ""))
      case Tool => ToolArrived(ReadTool(body))
      case Done =>
        var calls := Get(body, "tool_calls");
        DoneArrived(Text(Get(body, "conversation_id"), ""), Text(Get(body, "message"), ""),
                    ReadTools(if calls.JArray? then calls.items else []))
      case Error => ErrorArrived(Text(Get(body, "detail"), "Something went wrong."))
  }

  function DispatchedAll(callbacks: seq<Sse.Callback>): seq<Change> {
    if callbacks == [] then [] else [Dispatched(callbacks[0])] + DispatchedAll(callbacks[1..])
  }

  /** What goes over the wire, to the letter. */
  lemma EventsOnTheWire(text: string, name: string, conversation: string)
    ensures EventOf(TokenItem(text), conversation) == Sse.ServerEvent(Sse.Token, [Member("text", JString(text))])
    ensures EventOf(ToolItem(ToolEvent(name, Failed)), conversation)
         == Sse.ServerEvent(Sse.Tool, [Member("name", JString(name)), Member("status", JString("failed"))])
    ensures EventOf(ToolItem(ToolEvent(name, Running)), conversation)
         == Sse.ServerEvent(Sse.Tool, [Member("name", JString(name)), Member("status", JString("running"))])
    ensures EventOf(ResultItem(AgentRunResult(text, [], [ToolEvent(name, Completed)])), conversation)
         == Sse.ServerEvent(Sse.Done, [Member("conversation_id", JString(conversation)), Member("message", JString(text)),
                                       Member("tool_calls", JArray([JObject([Member("name", JString(name)),
                                                                             Member("status", JString("completed"))])]))])
    ensures Detail(AgentFailed(LLMError(text)), 8) == text && Detail(NotStored, 8) == "internal error"
    ensures Detail(AgentFailed(AgentLoopError), 8) == "no final answer after 8 tool iterations"
  {
    var tools := [ToolEvent(name, Completed)];
    assert tools[..0] == [];
    assert ToolObjects([]) == [];
    assert ToolObjects(tools) == [JObject(ToolFields(tools[0]))];
  }

  // ----- reading back what was sent -----

  /** What the client makes of an item of the agent's stream; the last one becomes the `done` event. */
  function ChangeOf(item: StreamItem, conversation: string): Change {
    match item
    case TokenItem(text) => TokenArrived(text)
    case ToolItem(event) => ToolArrived(event)
    case ResultItem(result) => DoneArrived(conversation, result.text, result.toolEvents)
  }

  function ChangesOf(items: seq<StreamItem>, conversation: string): (r: seq<Change>)
    ensures |r| == |items|
  {
    if items == [] then []
    else ChangesOf(items[..|items| - 1], conversation) + [ChangeOf(items[|items| - 1], conversation)]
  }

  lemma {:induction false} ToolsReadBack(tools: seq<ToolEvent>)
    ensures ReadTools(ToolObjects(tools)) == tools
  {
    if tools != [] {
      var init, last := tools[..|tools| - 1], tools[|tools| - 1];
      ToolsReadBack(init);
      assert ToolObjects(tools)[..|tools| - 1] == ToolObjects(init);
      ToolReadsBack(last);
    }
  }

  lemma ToolReadsBack(tool: ToolEvent)
    ensures ReadTool(JObject(ToolFields(tool))) == tool
  {
    var fields := ToolFields(tool);
    assert FieldOf(fields[1..], "status") == JString(StatusName(tool.status));
    assert "name"[0] != "status"[0];
  }

  lemma ItemReadsBack(item: StreamItem, conversation: string)
    ensures var e := EventOf(item, conversation);
            Dispatched(Sse.OnEvent(e.name, JObject(e.fields))) == ChangeOf(item, conversation)
  {
    match item
    case TokenItem(text) =>
    case ToolItem(tool) => ToolReadsBack(tool);
    case ResultItem(result) =>
      ToolsReadBack(result.toolEvents);
      var id, message := Member("conversation_id", JString(conversation)), Member("message", JString(result.text));
      var calls := Member("tool_calls", JArray(ToolObjects(result.toolEvents)));
      ThreeFields(id, message, calls);
  }

  lemma ThreeFields(a: Member, b: Member, c: Member)
    requires a.key != b.key && a.key != c.key && b.key != c.key
    ensures FieldOf([a, b, c], a.key) == a.value && FieldOf([a, b, c], b.key) == b.value
    ensures FieldOf([a, b, c], c.key) == c.value
  {
    assert [a, b, c][1..] == [b, c] && [b, c][1..] == [c];
    assert FieldOf([c], c.key) == c.value && FieldOf([b, c], c.key) == c.value;
  }

  /** What is made of events whose fields are missing. */
  lemma MissingFields()
    ensures Dispatched(Sse.OnEvent(Sse.Token, JObject([]))) == TokenArrived("")
    ensures Dispatched(Sse.OnEvent(Sse.Error, JObject([]))) == ErrorArrived("Something went wrong.")
  {
  }

  lemma {:induction false} ChangesFront(item: StreamItem, rest: seq<StreamItem>, conversation: string)
    ensures ChangesOf([item] + rest, conversation) == [ChangeOf(item, conversation)] + ChangesOf(rest, conversation)
  {
    if rest == [] {
      assert [item] + rest == [item] && [item][..0] == [];
    } else {
      assert ([item] + rest)[..|rest|] == [item] + rest[..|rest| - 1];
      ChangesFront(item, rest[..|rest| - 1], conversation);
    }
  }

  lemma {:induction false} StreamReadsBack(items: seq<StreamItem>, conversation: string, tail: seq<Sse.ServerEvent>)
    ensures DispatchedAll(Sse.CallbacksOf(EventsOf(items, conversation) + tail))
         == ChangesOf(items, conversation) + DispatchedAll(Sse.CallbacksOf(tail))
  {
    hide Dispatched, EventOf, ChangeOf, DispatchedAll, ChangesOf, EventsOf, Sse.CallbacksOf;
    NothingSent(conversation);
    if items == [] {
      assert [] + tail == tail;
      assert [] + DispatchedAll(Sse.CallbacksOf(tail)) == DispatchedAll(Sse.CallbacksOf(tail));
    } else {
      var rest := EventsOf(items[1..], conversation) + tail;
      EventsFront(items, conversation, tail);
      StreamReadsBack(items[1..], conversation, tail);
      ItemReadsBack(items[0], conversation);
      FrontDispatched(EventOf(items[0], conversation), rest);
      assert [items[0]] + items[1..] == items;
      ChangesFront(items[0], items[1..], conversation);
    }
  }

  lemma NothingSent(conversation: string)
    ensures EventsOf([], conversation) == [] && ChangesOf([], conversation) == []
  {
  }

  lemma EventsFront(items: seq<StreamItem>, conversation: string, tail: seq<Sse.ServerEvent>)
    requires items != []
    ensures EventsOf(items, conversation) + tail
         == [EventOf(items[0], conversation)] + (EventsOf(items[1..], conversation) + tail)
  {
    hide EventOf;
  }

  lemma FrontDispatched(e: Sse.ServerEvent, rest: seq<Sse.ServerEvent>)
    ensures DispatchedAll(Sse.CallbacksOf([e] + rest))
         == [Dispatched(Sse.OnEvent(e.name, JObject(e.fields)))] + DispatchedAll(Sse.CallbacksOf(rest))
  {
    hide Dispatched;
    var callback := Sse.OnEvent(e.name, JObject(e.fields));
    assert ([e] + rest)[1..] == rest;
    assert ([callback] + Sse.CallbacksOf(rest))[1..] == Sse.CallbacksOf(rest);
  }

  // ----- one exchange, as a list of changes -----

  /** The items before the run's result. */
  function Progress(script: Script, bound: nat): seq<StreamItem> {
    var n := Stop(script, 0, bound);
    Streamed(script, n) + if n < bound then Tokens(TurnAt(script, n).deltas) else []
  }

  lemma ProgressIsProper(script: Script, bound: nat)
    ensures var n := Stop(script, 0, bound);
            && Proper(Progress(script, bound)) && OpenCall(Progress(script, bound)).None?
            && FinishedIn(Progress(script, bound)) == EventsUpTo(script, n)
  {
    hide Proper, OpenCall, Streamed, Tokens, FinishedIn, EventsUpTo;
    var n := Stop(script, 0, bound);
    StreamsAreProper(script, n);
    StreamShowsAuditTrail(script, n);
    if n < bound {
      var deltas := TurnAt(script, n).deltas;
      TokensAreProper(deltas);
      ProperConcat(Streamed(script, n), Tokens(deltas));
      FinishedConcat(Streamed(script, n), Tokens(deltas));
      TokensFinishNothing(deltas);
      assert EventsUpTo(script, n) + [] == EventsUpTo(script, n);
    } else {
      assert Streamed(script, n) + [] == Streamed(script, n);
    }
  }

  lemma ProperPart(items: seq<StreamItem>, k: nat)
    requires Proper(items) && k <= |items|
    ensures Proper(items[..k]) && FinishedIn(items[..k]) <= FinishedIn(items)
  {
    hide Proper, FinishedIn;
    assert items[..k] + items[k..] == items;
    ProperStart(items[..k], items[k..]);
    FinishedConcat(items[..k], items[k..]);
  }

  lemma {:induction false} NoResultYet(items: seq<StreamItem>)
    requires Proper(items)
    ensures forall item :: item in items ==> !item.ResultItem?
  {
    if items != [] {
      hide OpenCall;
      NoResultYet(items[..|items| - 1]);
      assert items == items[..|items| - 1] + [items[|items| - 1]];
    }
  }

  /** Items without a result become changes that carry just them. */
  lemma {:induction false} ChangesCarryItems(items: seq<StreamItem>, conversation: string)
    requires forall item :: item in items ==> !item.ResultItem?
    ensures ItemsIn(ChangesOf(items, conversation)) == items
    ensures forall c :: c in ChangesOf(items, conversation) ==> IsProgress(c)
  {
    if items != [] {
      hide ItemsIn, ChangesOf;
      var init, last := items[..|items| - 1], items[|items| - 1];
      assert items == init + [last] && last in items;
      ChangesCarryItems(init, conversation);
      ChangesBack(init, last, conversation);
      OneMoreIn(ChangesOf(init, conversation), ChangeOf(last, conversation));
    }
  }

  lemma ChangesBack(items: seq<StreamItem>, last: StreamItem, conversation: string)
    ensures ChangesOf(items + [last], conversation) == ChangesOf(items, conversation) + [ChangeOf(last, conversation)]
  {
    hide ChangeOf;
    assert (items + [last])[..|items|] == items;
  }

  /** The last thing the server says. */
  function Conclusion(user: string, script: Script, bound: nat, stores: bool, conversation: string): Change {
    match Replied(user, script, bound, stores)
    case Ok(result) => DoneArrived(conversation, result.text, result.toolEvents)
    case Err(error) => ErrorArrived(Detail(error, bound))
  }

  function LastEvent(user: string, script: Script, bound: nat, stores: bool, conversation: string): Sse.ServerEvent {
    match Replied(user, script, bound, stores)
    case Ok(result) => EventOf(ResultItem(result), conversation)
    case Err(error) => ErrorEvent(Detail(error, bound))
  }

  lemma {:induction false} EventsAt(items: seq<StreamItem>, conversation: string)
    ensures |EventsOf(items, conversation)| == |items|
    ensures forall i :: 0 <= i < |items| ==> EventsOf(items, conversation)[i] == EventOf(items[i], conversation)
  {
    hide EventOf;
    if items != [] {
      EventsAt(items[1..], conversation);
      assert forall i :: 0 < i < |items| ==> items[i] == items[1..][i - 1];
    }
  }

  lemma EventsPart(items: seq<StreamItem>, k: nat, conversation: string)
    requires k <= |items|
    ensures |EventsOf(items, conversation)| == |items|
    ensures EventsOf(items, conversation)[..k] == EventsOf(items[..k], conversation)
  {
    hide EventOf, EventsOf;
    EventsAt(items, conversation);
    EventsAt(items[..k], conversation);
  }

  lemma {:induction false} EventsEnd(items: seq<StreamItem>, last: StreamItem, conversation: string)
    ensures EventsOf(items + [last], conversation) == EventsOf(items, conversation) + [EventOf(last, conversation)]
  {
    hide EventOf, EventsOf;
    EventsAt(items, conversation);
    EventsAt(items + [last], conversation);
  }

  /** The server's events are the run's progress and one more. */
  lemma ServerSays(user: string, script: Script, bound: nat, stores: bool, conversation: string)
    ensures ServerEvents(user, script, bound, stores, conversation)
         == EventsOf(Progress(script, bound), conversation) + [LastEvent(user, script, bound, stores, conversation)]
  {
    hide Progress, EventsOf, Outcome, EventOf, Proper;
    YieldedIs(user, script, bound);
    if Replied(user, script, bound, stores).Ok? {
      EventsEnd(Progress(script, bound), ResultItem(Outcome(user, script, bound).value), conversation);
    }
  }

  lemma YieldedIs(user: string, script: Script, bound: nat)
    ensures var r := Outcome(user, script, bound);
            Yielded(user, script, bound, true)
            == if r.Ok? then Progress(script, bound) + [ResultItem(r.value)] else Progress(script, bound)
    ensures BeforeResult(Yielded(user, script, bound, true)) == Progress(script, bound)
  {
    hide Outcome, Streamed, Tokens, Proper;
    assert Progress(script, bound) + [] == Progress(script, bound);
    ProgressIsProper(script, bound);
    NoResultYet(Progress(script, bound));
  }

  lemma ServerConcludes(user: string, script: Script, bound: nat, stores: bool, conversation: string)
    ensures Sse.EndsItself(ServerEvents(user, script, bound, stores, conversation))
  {
    hide Progress, EventsOf, ServerEvents, Proper, EventOf, LastEvent, Sse.Conclusive;
    var progress := Progress(script, bound);
    ServerSays(user, script, bound, stores, conversation);
    ProgressIsProper(script, bound);
    NoResultYet(progress);
    EventsAt(progress, conversation);
    forall i | 0 <= i < |progress|
      ensures !Sse.Conclusive(EventOf(progress[i], conversation))
    {
      OnlyResultsConclude(progress[i], conversation);
    }
    LastConcludes(user, script, bound, stores, conversation);
  }

  lemma OnlyResultsConclude(item: StreamItem, conversation: string)
    ensures Sse.Conclusive(EventOf(item, conversation)) <==> item.ResultItem?
  {
  }

  lemma LastConcludes(user: string, script: Script, bound: nat, stores: bool, conversation: string)
    ensures Sse.Conclusive(LastEvent(user, script, bound, stores, conversation))
  {
    hide Replied, Detail;
  }

  /** What is dispatched for the first `k` of the server's events. */
  lemma PartReadsBack(user: string, script: Script, bound: nat, stores: bool, conversation: string, k: nat)
    requires k <= |ServerEvents(user, script, bound, stores, conversation)|
    ensures |ServerEvents(user, script, bound, stores, conversation)| == |Progress(script, bound)| + 1
    ensures DispatchedAll(Sse.CallbacksOf(ServerEvents(user, script, bound, stores, conversation)[..k]))
         == if k <= |Progress(script, bound)| then ChangesOf(Progress(script, bound)[..k], conversation)
            else ChangesOf(Progress(script, bound), conversation) + [Conclusion(user, script, bound, stores, conversation)]
  {
    hide Progress, EventsOf, ChangesOf, ServerEvents, Sse.CallbacksOf, DispatchedAll, Replied;
    var progress, events := Progress(script, bound), ServerEvents(user, script, bound, stores, conversation);
    ServerSays(user, script, bound, stores, conversation);
    EmptyStream();
    if k <= |progress| {
      EventsPart(progress, k, conversation);
      assert events[..k] == EventsOf(progress, conversation)[..k] == EventsOf(progress[..k], conversation) + [];
      StreamReadsBack(progress[..k], conversation, []);
      assert ChangesOf(progress[..k], conversation) + [] == ChangesOf(progress[..k], conversation);
    } else {
      EventsPart(progress, 0, conversation);
      assert events[..k] == events;
      StreamReadsBack(progress, conversation, [LastEvent(user, script, bound, stores, conversation)]);
      LastReadsBack(user, script, bound, stores, conversation);
    }
  }

  lemma EmptyStream()
    ensures DispatchedAll(Sse.CallbacksOf([])) == []
  {
  }

  lemma LastReadsBack(user: string, script: Script, bound: nat, stores: bool, conversation: string)
    ensures DispatchedAll(Sse.CallbacksOf([LastEvent(user, script, bound, stores, conversation)]))
         == [Conclusion(user, script, bound, stores, conversation)]
  {
    hide Outcome, Detail, EventOf, Dispatched;
    var r := Replied(user, script, bound, stores);
    if r.Ok? {
      OneReadsBack(EventOf(ResultItem(r.value), conversation));
      ItemReadsBack(ResultItem(r.value), conversation);
      ResultChanges(r.value, conversation);
    } else {
      OneReadsBack(ErrorEvent(Detail(r.error, bound)));
      ErrorReadsBack(Detail(r.error, bound));
    }
  }

  lemma ResultChanges(result: AgentRunResult, conversation: string)
    ensures ChangeOf(ResultItem(result), conversation) == DoneArrived(conversation, result.text, result.toolEvents)
  {
  }

  lemma OneReadsBack(e: Sse.ServerEvent)
    ensures DispatchedAll(Sse.CallbacksOf([e])) == [Dispatched(Sse.OnEvent(e.name, JObject(e.fields)))]
  {
    hide Dispatched;
    EmptyStream();
    FrontDispatched(e, []);
    assert [e] + [] == [e];
  }

  lemma ErrorReadsBack(detail: string)
    ensures var e := ErrorEvent(detail); Dispatched(Sse.OnEvent(e.name, JObject(e.fields))) == ErrorArrived(detail)
  {
  }

  // ----- the bubble of one exchange, end to end -----

  /** The bubble shows these items: the calls finished, in order, a part of the whole trail; at most one more running; the
      tokens so far. */
  ghost predicate ShowsItems(m: Message, items: seq<StreamItem>, trail: seq<ToolEvent>) {
    m.tools == ToolsOf(items) && FinishedIn(items) <= trail && m.parts == TextOf(items)
  }

  /** The status and the error a bubble has when its stream has ended early. */
  function CutOff(ending: Sse.Ending): (Status, Option<string>) {
    match ending
    case Aborted => (Streaming, None)
    case Closed => (Error, Some("The response ended unexpectedly."))
    case Interrupted => (Error, Some("The connection was interrupted."))
  }

  /** The bubble after the first `got` of the server's events and the end of the stream.  Before the last event it shows
      the run's progress so far; then, stored, the answer with the tools unchanged, or what was shown so far and the
      error. */
  ghost predicate ShowsTheRun(m: Message, user: string, script: Script, bound: nat, stores: bool, got: nat,
                              ending: Sse.Ending) {
    var progress, trail := Progress(script, bound), EventsUpTo(script, Stop(script, 0, bound));
    && (got >= |progress| ==> m.tools == trail)
    && if got <= |progress| then
         ShowsItems(m, progress[..got], trail) && (m.status, m.errorDetail) == CutOff(ending)
       else
         match Replied(user, script, bound, stores)
         case Ok(result) => result.toolEvents == trail && m.parts == [result.text] && m.status == Done
         case Err(error) =>
           ShowsItems(m, progress, trail) && m.status == Error && m.errorDetail == Some(Detail(error, bound))
  }

  lemma ProgressShows(n: nat, script: Script, bound: nat, conversation: string, k: nat)
    requires k <= |Progress(script, bound)|
    ensures var items, trail := Progress(script, bound)[..k], EventsUpTo(script, Stop(script, 0, bound));
            var m := Fed(FreshBubble(n), ChangesOf(items, conversation));
            && ShowsItems(m, items, trail) && m.status == Streaming && m.errorDetail == None
            && (k == |Progress(script, bound)| ==> m.tools == trail)
  {
    hide Progress, EventsUpTo, ChangesOf, Fed, ItemsIn, Proper, TextOf, FinishedIn, OpenCall;
    var progress := Progress(script, bound);
    var changes := ChangesOf(progress[..k], conversation);
    ProgressIsProper(script, bound);
    ProperPart(progress, k);
    NoResultYet(progress[..k]);
    assert k == |progress| ==> progress[..k] == progress;
    ChangesCarryItems(progress[..k], conversation);
    ToolsAreTheTrail(FreshBubble(n), changes);
    TextIsTheTokens(FreshBubble(n), changes);
    StreamsWhileProgress(FreshBubble(n), changes);
    NoErrorYet(FreshBubble(n), changes);
    assert EventsUpTo(script, Stop(script, 0, bound)) + [] == EventsUpTo(script, Stop(script, 0, bound));
  }

  lemma {:induction false} NoErrorYet(m: Message, changes: seq<Change>)
    requires forall c :: c in changes ==> IsProgress(c)
    ensures Fed(m, changes).errorDetail == m.errorDetail
  {
    if changes != [] {
      hide RecordTool, AppendText;
      assert changes[|changes| - 1] in changes;
      NoErrorYet(m, changes[..|changes| - 1]);
    }
  }

  /** What is dispatched for a stream of which the first `got` events have arrived. */
  function Heard(user: string, script: Script, bound: nat, stores: bool, conversation: string, got: nat,
                 ending: Sse.Ending): seq<Change> {
    var progress := Progress(script, bound);
    if got <= |progress| then
      ChangesOf(progress[..got], conversation) +
      if ending.Aborted? then [] else [ErrorArrived(Sse.StreamError(ending).detail)]
    else ChangesOf(progress, conversation) + [Conclusion(user, script, bound, stores, conversation)]
  }

  lemma HeardShows(n: nat, user: string, script: Script, bound: nat, stores: bool, conversation: string, got: nat,
                   ending: Sse.Ending)
    ensures ShowsTheRun(Fed(FreshBubble(n), Heard(user, script, bound, stores, conversation, got, ending)),
                        user, script, bound, stores, got, ending)
  {
    hide Progress, EventsUpTo, ChangesOf, TextOf, ToolsOf, FinishedIn, Fed, RecordTool, Detail, Stop;
    var progress := Progress(script, bound);
    if got <= |progress| {
      var changes := ChangesOf(progress[..got], conversation);
      ProgressShows(n, script, bound, conversation, got);
      FedOnce(n, changes, ErrorArrived(Sse.StreamError(ending).detail));
      assert changes + [] == changes;
    } else {
      assert progress[..|progress|] == progress;
      ProgressShows(n, script, bound, conversation, |progress|);
      FedOnce(n, ChangesOf(progress, conversation), Conclusion(user, script, bound, stores, conversation));
    }
  }

  /** End to end, however the printed stream is cut, wherever it breaks off and however it ends: what is called back is the
      events that have arrived, then the error of the stream if it broke off and was not stopped; and the bubble shows
      just that much of the run. */
  lemma BubbleShowsTheRun(parse: string -> Option<Json>, user: string, script: Script, bound: nat, stores: bool,
                          conversation: string, chunks: seq<string>, missing: string, ending: Sse.Ending, n: nat)
    requires Sse.Concat(chunks) + missing == Sse.PrintAll(ServerEvents(user, script, bound, stores, conversation))
    requires forall e :: e in ServerEvents(user, script, bound, stores, conversation) ==>
               parse(Dumps(JObject(e.fields))) == Some(JObject(e.fields))
    ensures var events := ServerEvents(user, script, bound, stores, conversation);
            var got := Sse.Arrived(events, |Sse.Concat(chunks)|);
            && (got == |events| <==> missing == "")
            && Sse.Callbacks(parse, chunks, ending)
               == Sse.CallbacksOf(events[..got]) + (if missing == "" || ending.Aborted? then [] else [Sse.StreamError(ending)])
            && ShowsTheRun(Fed(FreshBubble(n), DispatchedAll(Sse.Callbacks(parse, chunks, ending))), user, script, bound,
                           stores, got, ending)
  {
    hide *;
    var events := ServerEvents(user, script, bound, stores, conversation);
    var got := Sse.Arrived(events, |Sse.Concat(chunks)|);
    ServerConcludes(user, script, bound, stores, conversation);
    Sse.ChunkingIsInvisible(parse, events, chunks, missing, ending);
    CallbacksHeard(user, script, bound, stores, conversation, got, missing == "", ending);
    HeardShows(n, user, script, bound, stores, conversation, got, ending);
  }

  lemma CallbacksHeard(user: string, script: Script, bound: nat, stores: bool, conversation: string, got: nat, all: bool,
                       ending: Sse.Ending)
    requires got <= |ServerEvents(user, script, bound, stores, conversation)|
    requires all <==> got == |ServerEvents(user, script, bound, stores, conversation)|
    ensures DispatchedAll(Sse.CallbacksOf(ServerEvents(user, script, bound, stores, conversation)[..got])
                          + if all || ending.Aborted? then [] else [Sse.StreamError(ending)])
         == Heard(user, script, bound, stores, conversation, got, ending)
  {
    hide ServerEvents, Progress, ChangesOf, Conclusion, Sse.CallbacksOf, DispatchedAll;
    var calls := Sse.CallbacksOf(ServerEvents(user, script, bound, stores, conversation)[..got]);
    PartReadsBack(user, script, bound, stores, conversation, got);
    assert calls + [] == calls;
    assert DispatchedAll(calls) + [] == DispatchedAll(calls);
    OneMoreDispatched(calls, Sse.StreamError(ending));
  }

  lemma {:induction false} OneMoreDispatched(callbacks: seq<Sse.Callback>, last: Sse.Callback)
    ensures DispatchedAll(callbacks + [last]) == DispatchedAll(callbacks) + [Dispatched(last)]
  {
    hide Dispatched;
    if callbacks == [] {
      assert [] + [last] == [last] && [last][1..] == [];
    } else {
      assert (callbacks + [last])[1..] == callbacks[1..] + [last];
      OneMoreDispatched(callbacks[1..], last);
    }
  }

  // ----- the bubble on its page -----

  /** All that an exchange dispatches for its bubble: its callbacks, then the settling once its stream is over. */
  function Exchange(chunks: seq<string>, ending: Sse.Ending, settled: bool): seq<Change> {
    DispatchedAll(Sse.Callbacks(JsonParse.Parse, chunks, ending)) + if settled then [Settled] else []
  }

  /** The bubble of an exchange `got` of whose events have arrived: what it shows is the run, and settling only says how a
      stopped stream has ended. */
  ghost predicate ShowsTheExchange(m: Message, user: string, script: Script, bound: nat, stores: bool, got: nat,
                                   ending: Sse.Ending, settled: bool) {
    exists shown: Message ::
      && ShowsTheRun(shown, user, script, bound, stores, got, ending)
      && m.id == shown.id && m.parts == shown.parts && m.tools == shown.tools
      && if settled && shown.status == Streaming then
           if m.parts != [] then m.status == Done else m.status == Error && m.errorDetail == Some("Response stopped.")
         else m.status == shown.status && m.errorDetail == shown.errorDetail
  }

  /** In every run, whatever other exchanges do meanwhile: while what has arrived for a bubble since it was last started is
      what an exchange dispatches for a part of its printed stream, with the reader of JSON texts, the bubble shows just
      that part of the agent's run; and once settled it no longer streams. */
  lemma PageShowsTheRun(run: seq<Happening>, n: nat, user: string, script: Script, bound: nat, stores: bool,
                        conversation: string, chunks: seq<string>, missing: string, ending: Sse.Ending, settled: bool)
    requires 0 < n <= LiveAll(run).nextId
    requires Sse.Concat(chunks) + missing == Sse.PrintAll(ServerEvents(user, script, bound, stores, conversation))
    requires SinceStart(run, n) == Exchange(chunks, ending, settled)
    ensures var got := Sse.Arrived(ServerEvents(user, script, bound, stores, conversation), |Sse.Concat(chunks)|);
            && (got == |ServerEvents(user, script, bound, stores, conversation)| <==> missing == "")
            && ShowsTheExchange(BubbleAt(run, n), user, script, bound, stores, got, ending, settled)
    ensures settled ==> BubbleAt(run, n).status != Streaming
  {
    hide LiveAll, SinceStart, BubbleAt, Fed, DispatchedAll, ShowsTheRun, ServerEvents, Sse.Callbacks, Sse.Concat,
      Sse.PrintAll, Sse.Arrived, JsonParse.Parse, RecordTool, AppendText, Dumps;
    var events := ServerEvents(user, script, bound, stores, conversation);
    forall e | e in events
      ensures JsonParse.Parse(Dumps(JObject(e.fields))) == Some(JObject(e.fields))
    {
      JsonParse.ParseUndoesDumps(JObject(e.fields));
    }
    BubbleShowsTheRun(JsonParse.Parse, user, script, bound, stores, conversation, chunks, missing, ending, n);
    var changes := DispatchedAll(Sse.Callbacks(JsonParse.Parse, chunks, ending));
    BubbleIsFed(run, n);
    FedOnce(n, changes, Settled);
    assert changes + [] == changes;
  }

  lemma {:induction false} DispatchesNoRetry(callbacks: seq<Sse.Callback>)
    ensures forall c :: c in DispatchedAll(callbacks) ==> !c.RetryStarted?
  {
    if callbacks != [] {
      DispatchesNoRetry(callbacks[1..]);
    }
  }

  /** The whole way, from a run to the page: an exchange is started, by a question or by a retry; its stream arrives in any
      chunks and breaks off anywhere; it settles.  Its bubble then shows the run as far as it has arrived, and every other
      bubble is as it was. */
  lemma ExchangeShowsTheRun(run: seq<Happening>, h: Happening, n: nat, user: string, script: Script, bound: nat,
                            stores: bool, conversation: string, chunks: seq<string>, missing: string, ending: Sse.Ending,
                            other: nat)
    requires Starts(LiveAll(run), h, n)
    requires Sse.Concat(chunks) + missing == Sse.PrintAll(ServerEvents(user, script, bound, stores, conversation))
    ensures var after := run + [h] + Arrivals(n, Exchange(chunks, ending, true));
            && 0 < n <= LiveAll(after).nextId == LiveAll(run + [h]).nextId
            && ShowsTheExchange(BubbleAt(after, n), user, script, bound, stores,
                                Sse.Arrived(ServerEvents(user, script, bound, stores, conversation), |Sse.Concat(chunks)|),
                                ending, true)
            && BubbleAt(after, n).status != Streaming
            && (0 < other <= LiveAll(run).nextId && other != n ==>
                  other <= LiveAll(after).nextId && BubbleAt(after, other) == BubbleAt(run, other))
  {
    hide *;
    var changes := Exchange(chunks, ending, true);
    var after := run + [h] + Arrivals(n, changes);
    ExchangeRetriesNothing(chunks, ending, true);
    StartedIsThere(run, h, n);
    StartedNow(run, h, n, other);
    ArrivalsArrive(run + [h], n, changes, other);
    assert [] + changes == changes;
    PageShowsTheRun(after, n, user, script, bound, stores, conversation, chunks, missing, ending, true);
    if 0 < other <= LiveAll(run).nextId && other != n {
      BubbleIsFed(run, other);
      BubbleIsFed(after, other);
    }
  }

  lemma ExchangeRetriesNothing(chunks: seq<string>, ending: Sse.Ending, settled: bool)
    ensures forall c :: c in Exchange(chunks, ending, settled) ==> !c.RetryStarted?
  {
    hide Sse.Callbacks, DispatchedAll;
    DispatchesNoRetry(Sse.Callbacks(JsonParse.Parse, chunks, ending));
  }

  lemma StartedNow(run: seq<Happening>, h: Happening, n: nat, other: nat)
    requires Starts(LiveAll(run), h, n)
    ensures SinceStart(run + [h], n) == []
    ensures other != n ==> SinceStart(run + [h], other) == SinceStart(run, other)
    ensures LiveAll(run).nextId <= LiveAll(run + [h]).nextId
  {
    hide LiveAll, SinceStart, Reduce, IsStreaming, FailedId;
    SinceStep(run, h, n);
    SinceStep(run, h, other);
    LivesOn(run, h);
  }

  lemma StartedIsThere(run: seq<Happening>, h: Happening, n: nat)
    requires Starts(LiveAll(run), h, n)
    ensures 0 < n <= LiveAll(run + [h]).nextId
  {
    hide LiveAll, Reduce, IsStreaming, FailedId, PageOk;
    LivesOn(run, h);
    if h.UserRetries? {
      var ms := LiveAll(run).state.messages;
      FailedIdIs(ms);
      var k :| 0 <= k < |ms| && ms[k].id == AssistantId(FailedId(ms).value);
      PageIsWhatArrived(run);
      ToldIds(run, LiveAll(run).nextId, k);
    }
  }

  lemma {:induction false} ToldIds(run: seq<Happening>, n: nat, k: nat)
    requires k < |Told(run, n)|
    ensures 0 < Told(run, n)[k].id.n <= n
  {
    hide SinceStart, Asked, Fed;
    ToldCount(run, n);
    if n > 0 {
      ToldCount(run, n - 1);
      BubbleId(run, n);
      if k < |Told(run, n - 1)| {
        ToldIds(run, n - 1, k);
      }
    }
  }
}
