/** What the page shows after any run of sends, retries and arrivals: every bubble is what has arrived for it since it was
    last started. */
module AssistantBubbles {
  import opened Wrappers
  import opened ChatSchemas
  import opened FinanceAgent
  import opened AgentTranscripts
  import opened AssistantChat

  // ----- what arrives for one bubble -----

  function FreshBubble(n: nat): Message {
    Message(AssistantId(n), [], [], Streaming, None)
  }

  /** Everything that arrives for one bubble. */
  function Fed(m: Message, changes: seq<Change>): Message {
    if changes == [] then m else Update(Fed(m, changes[..|changes| - 1]), changes[|changes| - 1])
  }

  /** What the changes carry of the agent's stream before its result. */
  function Carried(change: Change): seq<StreamItem> {
    match change
    case TokenArrived(text) => [TokenItem(text)]
    case ToolArrived(tool) => [ToolItem(tool)]
    case _ => []
  }

  function ItemsIn(changes: seq<Change>): seq<StreamItem> {
    if changes == [] then [] else ItemsIn(changes[..|changes| - 1]) + Carried(changes[|changes| - 1])
  }

  /** Neither started anew nor replaced by the final answer. */
  predicate Unbroken(changes: seq<Change>) {
    forall c :: c in changes ==> !c.RetryStarted? && !c.DoneArrived?
  }

  /** The call announced and not yet reported. */
  function OpenCall(items: seq<StreamItem>): Option<string> {
    if items == [] then None
    else
      var last := items[|items| - 1];
      if !last.ToolItem? then OpenCall(items[..|items| - 1])
      else if last.event.status == Running then Some(last.event.name) else None
  }

  /** Calls are announced one at a time and each is reported before the next; no result yet. */
  predicate Proper(items: seq<StreamItem>) {
    if items == [] then true
    else
      var init, last := items[..|items| - 1], items[|items| - 1];
      && Proper(init) && !last.ResultItem?
      && (last.ToolItem? ==> OpenCall(init) == if last.event.status == Running then None else Some(last.event.name))
  }

  function TokenText(items: seq<StreamItem>): string {
    if items == [] then ""
    else TokenText(items[..|items| - 1]) + if items[|items| - 1].TokenItem? then items[|items| - 1].text else ""
  }

  predicate HasToken(items: seq<StreamItem>) {
    items != [] && (items[|items| - 1].TokenItem? || HasToken(items[..|items| - 1]))
  }

  function OpenEntry(items: seq<StreamItem>): seq<ToolEvent> {
    if OpenCall(items).Some? then [ToolEvent(OpenCall(items).value, Running)] else []
  }

  lemma {:induction false} FinishedAreNotRunning(items: seq<StreamItem>)
    ensures forall e :: e in FinishedIn(items) ==> e.status != Running
  {
    if items != [] {
      FinishedAreNotRunning(items[..|items| - 1]);
    }
  }

  lemma RecordsAnnouncement(trail: seq<ToolEvent>, name: string)
    requires forall e :: e in trail ==> e.status != Running
    ensures RecordTool(trail, ToolEvent(name, Running)) == trail + [ToolEvent(name, Running)]
  {
  }

  lemma RecordsReport(trail: seq<ToolEvent>, report: ToolEvent)
    ensures RecordTool(trail + [ToolEvent(report.name, Running)], report) == trail + [report]
  {
  }

  /** The calls finished so far, in order, and at most one running. */
  function ToolsOf(items: seq<StreamItem>): seq<ToolEvent> {
    FinishedIn(items) + OpenEntry(items)
  }

  lemma OneMoreIn(init: seq<Change>, last: Change)
    ensures ItemsIn(init + [last]) == ItemsIn(init) + Carried(last)
  {
    hide Carried;
    assert (init + [last])[..|init|] == init;
  }

  lemma OneMoreShown(items: seq<StreamItem>, last: StreamItem)
    ensures var report := if last.ToolItem? && last.event.status != Running then [last.event] else [];
            FinishedIn(items + [last]) == FinishedIn(items) + report
    ensures OpenCall(items + [last]) == if !last.ToolItem? then OpenCall(items)
                                        else if last.event.status == Running then Some(last.event.name) else None
    ensures TokenText(items + [last]) == TokenText(items) + if last.TokenItem? then last.text else ""
    ensures HasToken(items + [last]) <==> last.TokenItem? || HasToken(items)
    ensures Proper(items + [last]) <==>
            && Proper(items) && !last.ResultItem?
            && (last.ToolItem? ==> OpenCall(items) == if last.event.status == Running then None else Some(last.event.name))
  {
    assert (items + [last])[..|items|] == items;
  }

  lemma OneMoreTool(items: seq<StreamItem>, tool: ToolEvent)
    requires Proper(items + [ToolItem(tool)])
    ensures Proper(items) && RecordTool(ToolsOf(items), tool) == ToolsOf(items + [ToolItem(tool)])
  {
    hide RecordTool, FinishedIn, OpenCall, Proper;
    var trail := FinishedIn(items);
    OneMoreShown(items, ToolItem(tool));
    if tool.status == Running {
      FinishedAreNotRunning(items);
      assert ToolsOf(items) == trail + [] == trail;
      RecordsAnnouncement(trail, tool.name);
      assert trail + [] == trail;
    } else {
      RecordsReport(trail, tool);
      assert ToolsOf(items + [ToolItem(tool)]) == trail + [tool] + [] == trail + [tool];
    }
  }

  lemma OneMoreChange(m: Message, items: seq<StreamItem>, change: Change)
    requires m.tools == ToolsOf(items) && !change.RetryStarted? && !change.DoneArrived?
    requires Proper(items + Carried(change))
    ensures Proper(items) && Update(m, change).tools == ToolsOf(items + Carried(change))
  {
    hide RecordTool, AppendText, FinishedIn, OpenCall, Proper;
    match change
    case TokenArrived(text) =>
      OneMoreShown(items, TokenItem(text));
      assert FinishedIn(items) + [] == FinishedIn(items);
    case ToolArrived(tool) => OneMoreTool(items, tool);
    case ErrorArrived(_) => assert items + [] == items;
    case Settled => assert items + [] == items;
  }

  lemma {:induction false} ProperStart(items: seq<StreamItem>, more: seq<StreamItem>)
    requires Proper(items + more)
    ensures Proper(items)
  {
    if more == [] {
      assert items + more == items;
    } else {
      assert (items + more)[..|items + more| - 1] == items + more[..|more| - 1];
      ProperStart(items, more[..|more| - 1]);
    }
  }

  /** Whatever else happens to it meanwhile, a bubble's tools are the calls finished so far, in order, and at most one
      running entry, however often a name repeats. */
  lemma {:induction false} ToolsAreTheTrail(m: Message, changes: seq<Change>)
    requires m.tools == [] && Unbroken(changes) && Proper(ItemsIn(changes))
    ensures Fed(m, changes).tools == ToolsOf(ItemsIn(changes))
  {
    if changes != [] {
      hide Update, Proper, ToolsOf, Carried;
      var init, last := changes[..|changes| - 1], changes[|changes| - 1];
      assert last in changes;
      ProperStart(ItemsIn(init), Carried(last));
      ToolsAreTheTrail(m, init);
      OneMoreChange(Fed(m, init), ItemsIn(init), last);
    }
  }

  /** The tokens so far, in one part once there is any. */
  function TextOf(items: seq<StreamItem>): seq<string> {
    if HasToken(items) then [TokenText(items)] else []
  }

  lemma {:induction false} NoTokenNoText(items: seq<StreamItem>)
    requires !HasToken(items)
    ensures TokenText(items) == ""
  {
    if items != [] {
      NoTokenNoText(items[..|items| - 1]);
    }
  }

  lemma OneMoreText(m: Message, items: seq<StreamItem>, change: Change)
    requires m.parts == TextOf(items) && !change.RetryStarted? && !change.DoneArrived?
    ensures Update(m, change).parts == TextOf(items + Carried(change))
  {
    hide RecordTool, FinishedIn, OpenCall, Proper, HasToken, TokenText;
    match change
    case TokenArrived(text) =>
      OneMoreShown(items, TokenItem(text));
      if !HasToken(items) {
        NoTokenNoText(items);
        assert "" + text == text;
      }
    case ToolArrived(tool) =>
      OneMoreShown(items, ToolItem(tool));
      assert TokenText(items) + "" == TokenText(items);
    case ErrorArrived(_) => assert items + [] == items;
    case Settled => assert items + [] == items;
  }

  /** Until the final answer the bubble's text is the tokens so far. */
  lemma {:induction false} TextIsTheTokens(m: Message, changes: seq<Change>)
    requires m.parts == [] && Unbroken(changes)
    ensures Fed(m, changes).parts == TextOf(ItemsIn(changes))
  {
    if changes != [] {
      hide Update, TextOf, Carried;
      var init, last := changes[..|changes| - 1], changes[|changes| - 1];
      assert last in changes;
      TextIsTheTokens(m, init);
      OneMoreText(Fed(m, init), ItemsIn(init), last);
    } else {
      assert !HasToken([]);
    }
  }

  predicate IsProgress(c: Change) {
    c.TokenArrived? || c.ToolArrived?
  }

  /** It streams as long as nothing but tokens and tools has arrived. */
  lemma {:induction false} StreamsWhileProgress(m: Message, changes: seq<Change>)
    requires m.status == Streaming && forall c :: c in changes ==> !c.RetryStarted?
    ensures Fed(m, changes).status == Streaming <==> forall c :: c in changes ==> IsProgress(c)
    ensures Fed(m, changes).id == m.id
  {
    if changes != [] {
      hide RecordTool, AppendText;
      var init, last := changes[..|changes| - 1], changes[|changes| - 1];
      assert changes == init + [last] && last in changes;
      StreamsWhileProgress(m, init);
    }
  }

  /** After the final answer nothing but settling happens: the bubble keeps the answer's text and calls. */
  lemma {:induction false} AnswerStays(m: Message, before: seq<Change>, done: Change, after: seq<Change>)
    requires done.DoneArrived? && forall c :: c in after ==> c.Settled?
    ensures var shown := Fed(m, before + [done] + after);
            shown.parts == [done.message] && shown.tools == done.tools && shown.status == Done
  {
    var all := before + [done] + after;
    if after == [] {
      assert all[..|all| - 1] == before;
    } else {
      assert all[..|all| - 1] == before + [done] + after[..|after| - 1];
      assert after[|after| - 1] in after;
      AnswerStays(m, before, done, after[..|after| - 1]);
    }
  }

  // ----- every run -----

  /** The command that a step gives, if it gives one. */
  function CommandOf(page: Page, h: Happening): Option<Command> {
    match h
    case UserSends(text) => SendCommand(page.state, text, page.nextId + 1)
    case UserRetries => RetryCommand(page.state)
    case Arrives(_, _) => None
  }

  /** The step starts bubble `n`: its question is sent, or a retry takes it. */
  predicate Starts(page: Page, h: Happening, n: nat) {
    CommandOf(page, h).Some? && CommandOf(page, h).value.action.n == n
  }

  /** What has arrived for bubble `n` since it was last started, in order, whatever else happened in between. */
  function SinceStart(run: seq<Happening>, n: nat): seq<Change> {
    if run == [] then []
    else
      var init, h := run[..|run| - 1], run[|run| - 1];
      if Starts(LiveAll(init), h, n) then []
      else SinceStart(init, n) + if h.Arrives? && h.n == n && !h.change.RetryStarted? then [h.change] else []
  }

  /** The `n`-th question that was sent. */
  function Asked(run: seq<Happening>, n: nat): string {
    if run == [] then ""
    else
      var init, h := run[..|run| - 1], run[|run| - 1];
      if h.UserSends? && Starts(LiveAll(init), h, n) then h.text else Asked(init, n)
  }

  /** The first `n` exchanges as the run has made them. */
  function Told(run: seq<Happening>, n: nat): seq<Message> {
    if n == 0 then []
    else Told(run, n - 1) + [Message(UserId(n), [Asked(run, n)], [], Done, None), Fed(FreshBubble(n), SinceStart(run, n))]
  }

  lemma {:induction false} ToldAt(run: seq<Happening>, n: nat, k: nat)
    requires 0 < k <= n
    ensures |Told(run, n)| == 2 * n && Told(run, n)[2 * k - 1] == Fed(FreshBubble(k), SinceStart(run, k))
    ensures Told(run, n)[2 * k - 2] == Message(UserId(k), [Asked(run, k)], [], Done, None)
  {
    ToldCount(run, n - 1);
    if k < n {
      ToldAt(run, n - 1, k);
    }
  }

  lemma {:induction false} ToldCount(run: seq<Happening>, n: nat)
    ensures |Told(run, n)| == 2 * n
  {
    if n > 0 {
      ToldCount(run, n - 1);
    }
  }

  lemma {:induction false} NoRetriesSince(run: seq<Happening>, n: nat)
    ensures forall c :: c in SinceStart(run, n) ==> !c.RetryStarted?
  {
    if run != [] {
      NoRetriesSince(run[..|run| - 1], n);
    }
  }

  lemma BubbleId(run: seq<Happening>, n: nat)
    ensures Fed(FreshBubble(n), SinceStart(run, n)).id == AssistantId(n)
  {
    hide Update;
    NoRetriesSince(run, n);
    StreamsWhileProgress(FreshBubble(n), SinceStart(run, n));
  }

  /** The bubble after the step is the one before it, changed if the change is for it, and its question is the same. */
  predicate ChangesOne(run: seq<Happening>, h: Happening, id: nat, change: Change, n: nat) {
    && Asked(run + [h], n) == Asked(run, n)
    && var before := Fed(FreshBubble(n), SinceStart(run, n));
       Fed(FreshBubble(n), SinceStart(run + [h], n)) == if n == id then Update(before, change) else before
  }

  /** A change of one bubble, on the whole transcript. */
  lemma {:induction false} ToldChanges(run: seq<Happening>, h: Happening, n: nat, id: nat, change: Change)
    requires forall k :: 0 < k <= n ==> ChangesOne(run, h, id, change, k)
    ensures UpdateMessage(Told(run, n), AssistantId(id), change) == Told(run + [h], n)
  {
    hide ChangesOne, Told, UpdateMessage;
    if n == 0 {
      NothingTold(run, h, AssistantId(id), change);
    } else {
      ToldChanges(run, h, n - 1, id, change);
      ToldChangesOnce(run, h, n, id, change);
    }
  }

  lemma NothingTold(run: seq<Happening>, h: Happening, id: MessageId, change: Change)
    ensures UpdateMessage(Told(run, 0), id, change) == Told(run + [h], 0)
  {
  }

  lemma ToldChangesOnce(run: seq<Happening>, h: Happening, n: nat, id: nat, change: Change)
    requires n > 0 && ChangesOne(run, h, id, change, n)
    requires UpdateMessage(Told(run, n - 1), AssistantId(id), change) == Told(run + [h], n - 1)
    ensures UpdateMessage(Told(run, n), AssistantId(id), change) == Told(run + [h], n)
  {
    hide Update, SinceStart, Asked, Fed, Told, UpdateMessage, FreshBubble;
    var question, bubble := Message(UserId(n), [Asked(run, n)], [], Done, None), Fed(FreshBubble(n), SinceStart(run, n));
    BubbleId(run, n);
    UpdateLastTwo(Told(run, n - 1), question, bubble, AssistantId(id), change);
    ToldOneMore(run, n);
    ToldOneMore(run + [h], n);
  }

  lemma UpdateLastTwo(messages: seq<Message>, question: Message, bubble: Message, id: MessageId, change: Change)
    requires question.id != id
    ensures UpdateMessage(messages + [question, bubble], id, change)
         == UpdateMessage(messages, id, change) + [question, if bubble.id == id then Update(bubble, change) else bubble]
  {
    hide Update;
    var all := messages + [question, bubble];
    assert all[..|all| - 1] == messages + [question];
    assert (messages + [question])[..|messages|] == messages;
  }

  lemma ToldOneMore(run: seq<Happening>, n: nat)
    requires n > 0
    ensures Told(run, n) == Told(run, n - 1) + [Message(UserId(n), [Asked(run, n)], [], Done, None),
                                                Fed(FreshBubble(n), SinceStart(run, n))]
  {
    hide SinceStart, Asked, Fed, FreshBubble;
  }

  lemma {:induction false} ToldStays(run: seq<Happening>, h: Happening, n: nat)
    requires forall k :: 0 < k <= n ==> SinceStart(run + [h], k) == SinceStart(run, k) && Asked(run + [h], k) == Asked(run, k)
    ensures Told(run + [h], n) == Told(run, n)
  {
    if n > 0 {
      hide SinceStart, Asked, Fed;
      ToldStays(run, h, n - 1);
    }
  }

  lemma SinceStep(run: seq<Happening>, h: Happening, n: nat)
    ensures SinceStart(run + [h], n) == if Starts(LiveAll(run), h, n) then []
                                        else if h.Arrives? && h.n == n && !h.change.RetryStarted?
                                        then SinceStart(run, n) + [h.change]
                                        else SinceStart(run, n)
    ensures Asked(run + [h], n) == if h.UserSends? && Starts(LiveAll(run), h, n) then h.text else Asked(run, n)
  {
    hide Starts, LiveAll;
    assert (run + [h])[..|run|] == run;
  }

  lemma StartedAnew(n: nat, m: Message)
    requires m.id == AssistantId(n)
    ensures Update(m, RetryStarted) == FreshBubble(n)
  {
  }

  lemma FedOnce(n: nat, changes: seq<Change>, change: Change)
    ensures Fed(FreshBubble(n), changes + [change]) == Update(Fed(FreshBubble(n), changes), change)
    ensures Fed(FreshBubble(n), []) == FreshBubble(n)
  {
    hide Update;
    assert (changes + [change])[..|changes|] == changes;
  }

  /** After every run, with exchanges interleaved in any way, the page is exactly its questions in order, each followed by
      a bubble that has been fed what has arrived for it since it was last started, and by nothing else. */
  lemma {:induction false} PageIsWhatArrived(run: seq<Happening>)
    ensures LiveAll(run).state.messages == Told(run, LiveAll(run).nextId)
  {
    if run != [] {
      hide SinceStart, Asked, Told, Reduce, SendCommand, RetryCommand;
      var init, h := run[..|run| - 1], run[|run| - 1];
      assert init + [h] == run;
      PageIsWhatArrived(init);
      match h
      case UserSends(text) => AfterSend(init, text);
      case UserRetries => AfterRetry(init);
      case Arrives(n, change) => AfterArrival(init, n, change);
    }
  }

  lemma LivesOn(run: seq<Happening>, h: Happening)
    ensures LiveAll(run + [h]) == Live(LiveAll(run), h)
  {
    hide Live;
    assert (run + [h])[..|run|] == run;
  }

  lemma AfterSend(run: seq<Happening>, text: string)
    requires LiveAll(run).state.messages == Told(run, LiveAll(run).nextId)
    ensures LiveAll(run + [UserSends(text)]).state.messages
         == Told(run + [UserSends(text)], LiveAll(run + [UserSends(text)]).nextId)
  {
    hide SinceStart, Asked, LiveAll, Fed, IsStreaming;
    var h, page := UserSends(text), LiveAll(run);
    var n := page.nextId;
    LivesOn(run, h);
    forall k | 0 < k <= n
      ensures SinceStart(run + [h], k) == SinceStart(run, k) && Asked(run + [h], k) == Asked(run, k)
    {
      SinceStep(run, h, k);
    }
    ToldStays(run, h, n);
    SinceStep(run, h, n + 1);
    FedOnce(n + 1, [], Settled);
  }

  lemma AfterRetry(run: seq<Happening>)
    requires LiveAll(run).state.messages == Told(run, LiveAll(run).nextId)
    ensures LiveAll(run + [UserRetries]).state.messages == Told(run + [UserRetries], LiveAll(run + [UserRetries]).nextId)
  {
    hide SinceStart, Asked, LiveAll, Fed, IsStreaming, FailedId, Told, Update, FreshBubble, UpdateMessage;
    var h, page := UserRetries, LiveAll(run);
    LivesOn(run, h);
    if RetryCommand(page.state).Some? {
      var id := FailedId(page.state.messages).value;
      forall k | 0 < k <= page.nextId
        ensures ChangesOne(run, h, id, RetryStarted, k)
      {
        SinceStep(run, h, k);
        BubbleId(run, k);
        StartedAnew(k, Fed(FreshBubble(k), SinceStart(run, k)));
        FedOnce(k, [], Settled);
      }
      ToldChanges(run, h, page.nextId, id, RetryStarted);
    } else {
      forall k | 0 < k <= page.nextId
        ensures SinceStart(run + [h], k) == SinceStart(run, k) && Asked(run + [h], k) == Asked(run, k)
      {
        SinceStep(run, h, k);
      }
      ToldStays(run, h, page.nextId);
    }
  }

  lemma AfterArrival(run: seq<Happening>, n: nat, change: Change)
    requires LiveAll(run).state.messages == Told(run, LiveAll(run).nextId)
    ensures LiveAll(run + [Arrives(n, change)]).state.messages
         == Told(run + [Arrives(n, change)], LiveAll(run + [Arrives(n, change)]).nextId)
  {
    hide SinceStart, Asked, LiveAll, Fed, Told, Update, FreshBubble, UpdateMessage;
    var h, page := Arrives(n, change), LiveAll(run);
    LivesOn(run, h);
    if change.RetryStarted? {
      forall k | 0 < k <= page.nextId
        ensures SinceStart(run + [h], k) == SinceStart(run, k) && Asked(run + [h], k) == Asked(run, k)
      {
        SinceStep(run, h, k);
      }
      ToldStays(run, h, page.nextId);
    } else {
      forall k | 0 < k <= page.nextId
        ensures ChangesOne(run, h, n, change, k)
      {
        SinceStep(run, h, k);
        FedOnce(k, SinceStart(run, k), change);
      }
      ToldChanges(run, h, page.nextId, n, change);
    }
  }

  /** The bubble of exchange `n` after a run. */
  function BubbleAt(run: seq<Happening>, n: nat): Message
    requires 0 < n <= LiveAll(run).nextId
  {
    PageIsWhatArrived(run);
    ToldAt(run, LiveAll(run).nextId, n);
    LiveAll(run).state.messages[2 * n - 1]
  }

  lemma BubbleIsFed(run: seq<Happening>, n: nat)
    requires 0 < n <= LiveAll(run).nextId
    ensures BubbleAt(run, n) == Fed(FreshBubble(n), SinceStart(run, n)) && BubbleAt(run, n).id == AssistantId(n)
    ensures forall c :: c in SinceStart(run, n) ==> !c.RetryStarted?
  {
    hide Told, Fed, SinceStart, LiveAll;
    PageIsWhatArrived(run);
    ToldAt(run, LiveAll(run).nextId, n);
    BubbleId(run, n);
    NoRetriesSince(run, n);
  }

  /** In every run, whatever is interleaved: until its final answer arrives a bubble's text is its tokens since it was last
      started, and its tools the calls they report finished with at most one running; it streams as long as neither an
      answer, an error nor the settling has arrived. */
  lemma BubbleShowsItsArrivals(run: seq<Happening>, n: nat)
    requires 0 < n <= LiveAll(run).nextId
    ensures var bubble, since := BubbleAt(run, n), SinceStart(run, n);
            var items := ItemsIn(since);
            && (bubble.status == Streaming <==> forall c :: c in since ==> IsProgress(c))
            && (Unbroken(since) ==>
                  && bubble.parts == TextOf(items)
                  && (Proper(items) ==> bubble.tools == ToolsOf(items)))
  {
    hide Fed, SinceStart, LiveAll, ItemsIn, Proper, TextOf, ToolsOf, BubbleAt;
    BubbleIsFed(run, n);
    var since := SinceStart(run, n);
    StreamsWhileProgress(FreshBubble(n), since);
    if Unbroken(since) {
      TextIsTheTokens(FreshBubble(n), since);
      if Proper(ItemsIn(since)) {
        ToolsAreTheTrail(FreshBubble(n), since);
      }
    }
  }

  /** Once the final answer has arrived, they are the answer's. */
  lemma BubbleShowsItsAnswer(run: seq<Happening>, n: nat, before: seq<Change>, done: Change, after: seq<Change>)
    requires 0 < n <= LiveAll(run).nextId && SinceStart(run, n) == before + [done] + after
    requires done.DoneArrived? && forall c :: c in after ==> c.Settled?
    ensures var bubble := BubbleAt(run, n);
            bubble.parts == [done.message] && bubble.tools == done.tools && bubble.status == Done
  {
    hide Fed, SinceStart, LiveAll, BubbleAt;
    BubbleIsFed(run, n);
    AnswerStays(FreshBubble(n), before, done, after);
  }

  // ----- what a command asks -----

  /** The conversation of the latest answer, whichever bubble it was for. */
  function LastConversation(run: seq<Happening>): Option<string> {
    if run == [] then None
    else
      var h := run[|run| - 1];
      if h.Arrives? && h.change.DoneArrived? then Some(h.change.conversationId) else LastConversation(run[..|run| - 1])
  }

  lemma {:induction false} ConversationIsTheLast(run: seq<Happening>)
    ensures LiveAll(run).state.conversationId == LastConversation(run)
  {
    if run != [] {
      hide IsStreaming, FailedId, UpdateMessage;
      ConversationIsTheLast(run[..|run| - 1]);
    }
  }

  ghost predicate Quiet(ms: seq<Message>) {
    forall m :: m in ms ==> m.status != Streaming
  }

  ghost predicate HasFailed(ms: seq<Message>) {
    exists m :: m in ms && m.id.AssistantId? && m.status == Error
  }

  /** A command is accepted when nothing streams: a question if there is a text, a retry if some bubble has failed and a
      question has been sent. */
  lemma CommandsAreGuarded(page: Page, h: Happening)
    ensures h.UserSends? ==> (CommandOf(page, h).Some? <==> Quiet(page.state.messages) && h.text != "")
    ensures h.UserRetries? ==>
              (CommandOf(page, h).Some? <==>
               Quiet(page.state.messages) && HasFailed(page.state.messages) && page.state.lastSent.GetOr("") != "")
    ensures h.Arrives? ==> CommandOf(page, h).None?
  {
    hide FailedId;
    var ms := page.state.messages;
    FailedIdIs(ms);
    if FailedId(ms).Some? {
      var k :| 0 <= k < |ms| && ms[k].id == AssistantId(FailedId(ms).value) && ms[k].status == Error;
      assert ms[k] in ms;
    }
  }

  /** In every run it continues the conversation of the latest answer, a question with its text, a retry with that of the
      last question. */
  lemma CommandsAsk(run: seq<Happening>, h: Happening)
    requires CommandOf(LiveAll(run), h).Some?
    ensures var request := CommandOf(LiveAll(run), h).value.request;
            && request.conversationId == LastConversation(run)
            && (h.UserSends? ==> request.message == h.text)
            && (h.UserRetries? ==> LiveAll(run).nextId > 0 && request.message == Asked(run, LiveAll(run).nextId))
  {
    hide LiveAll, IsStreaming, FailedId;
    ConversationIsTheLast(run);
    if h.UserRetries? {
      LastQuestionIsRemembered(run);
    }
  }

  lemma {:induction false} LastQuestionIsRemembered(run: seq<Happening>)
    ensures LiveAll(run).state.lastSent
         == if LiveAll(run).nextId == 0 then None else Some(Asked(run, LiveAll(run).nextId))
  {
    if run != [] {
      hide IsStreaming, FailedId, UpdateMessage;
      LastQuestionIsRemembered(run[..|run| - 1]);
    }
  }

  // ----- arrivals for one exchange -----

  function Arrivals(n: nat, changes: seq<Change>): seq<Happening> {
    if changes == [] then [] else Arrivals(n, changes[..|changes| - 1]) + [Arrives(n, changes[|changes| - 1])]
  }

  /** Changes arriving in a row are what has arrived since, and touch no other bubble. */
  lemma {:induction false} ArrivalsArrive(run: seq<Happening>, n: nat, changes: seq<Change>, other: nat)
    requires forall c :: c in changes ==> !c.RetryStarted?
    ensures LiveAll(run + Arrivals(n, changes)).nextId == LiveAll(run).nextId
    ensures SinceStart(run + Arrivals(n, changes), n) == SinceStart(run, n) + changes
    ensures other != n ==> SinceStart(run + Arrivals(n, changes), other) == SinceStart(run, other)
  {
    hide SinceStart, LiveAll, Reduce;
    if changes == [] {
      assert run + [] == run && SinceStart(run, n) + [] == SinceStart(run, n);
    } else {
      var init, last := changes[..|changes| - 1], changes[|changes| - 1];
      assert last in changes;
      ArrivalsArrive(run, n, init, other);
      var before := run + Arrivals(n, init);
      assert run + Arrivals(n, changes) == before + [Arrives(n, last)];
      SinceStep(before, Arrives(n, last), n);
      SinceStep(before, Arrives(n, last), other);
      LivesOn(before, Arrives(n, last));
      assert SinceStart(run, n) + init + [last] == SinceStart(run, n) + changes;
    }
  }

  // ----- the agent's streams are proper -----

  lemma {:induction false} ProperConcat(a: seq<StreamItem>, b: seq<StreamItem>)
    requires Proper(a) && OpenCall(a).None? && Proper(b)
    ensures Proper(a + b) && OpenCall(a + b) == OpenCall(b)
  {
    if b == [] {
      assert a + b == a;
    } else {
      assert (a + b)[..|a + b| - 1] == a + b[..|b| - 1];
      ProperConcat(a, b[..|b| - 1]);
    }
  }

  lemma {:induction false} TokensAreProper(deltas: seq<string>)
    ensures Proper(Tokens(deltas)) && OpenCall(Tokens(deltas)).None?
  {
    if deltas != [] {
      var init, last := deltas[..|deltas| - 1], deltas[|deltas| - 1];
      TokensAreProper(init);
      if last == "" {
        assert Tokens(init) + [] == Tokens(init);
      } else {
        assert (Tokens(init) + [TokenItem(last)])[..|Tokens(init)|] == Tokens(init);
      }
    }
  }

  function Said(deltas: seq<string>): string {
    if deltas == [] then "" else Said(deltas[..|deltas| - 1]) + deltas[|deltas| - 1]
  }

  /** The tokens of a turn say its deltas, and none is empty. */
  lemma {:induction false} TokensSayTheDeltas(deltas: seq<string>)
    ensures TokenText(Tokens(deltas)) == Said(deltas)
    ensures forall item :: item in Tokens(deltas) ==> item.TokenItem? && item.text != ""
  {
    if deltas != [] {
      var init, last := deltas[..|deltas| - 1], deltas[|deltas| - 1];
      TokensSayTheDeltas(init);
      if last == "" {
        assert Tokens(init) + [] == Tokens(init) && Said(init) + "" == Said(init);
      } else {
        OneMoreShown(Tokens(init), TokenItem(last));
      }
    }
  }

  /** In a turn the model speaks before its calls are made, and the turns follow one another. */
  lemma TurnsInOrder(script: Script, n: nat, i: nat, j: nat)
    requires i < j < |TurnItems(TurnAt(script, n))|
    ensures TurnItems(TurnAt(script, n))[i].ToolItem? ==> TurnItems(TurnAt(script, n))[j].ToolItem?
    ensures Streamed(script, n) <= Streamed(script, n + 1)
    ensures Streamed(script, n + 1)[|Streamed(script, n)|..] == TurnItems(TurnAt(script, n))
  {
    hide Tokens, ToolItems, CallsOf, ExecutionsOf;
    var turn := TurnAt(script, n);
    TokensSayTheDeltas(turn.deltas);
    CallsAreTools(CallsOf(turn), ExecutionsOf(turn));
    assert forall k :: 0 <= k < |Tokens(turn.deltas)| ==> Tokens(turn.deltas)[k] in Tokens(turn.deltas);
    assert forall k :: 0 <= k < |ToolItems(CallsOf(turn), ExecutionsOf(turn))| ==>
        ToolItems(CallsOf(turn), ExecutionsOf(turn))[k] in ToolItems(CallsOf(turn), ExecutionsOf(turn));
  }

  lemma {:induction false} CallsAreTools(calls: seq<ToolCall>, executions: seq<Execution>)
    ensures forall item :: item in ToolItems(calls, executions) ==> item.ToolItem?
  {
    if calls != [] {
      CallsAreTools(calls[..|calls| - 1], executions);
    }
  }

  lemma OneMoreItem(items: seq<StreamItem>, event: ToolEvent)
    requires Proper(items)
    requires OpenCall(items) == if event.status == Running then None else Some(event.name)
    ensures Proper(items + [ToolItem(event)])
    ensures OpenCall(items + [ToolItem(event)]) == if event.status == Running then Some(event.name) else None
  {
    assert (items + [ToolItem(event)])[..|items|] == items;
  }

  lemma PairIsProper(items: seq<StreamItem>, report: ToolEvent)
    requires Proper(items) && OpenCall(items).None? && report.status != Running
    ensures var more := items + [ToolItem(ToolEvent(report.name, Running)), ToolItem(report)];
            Proper(more) && OpenCall(more).None?
  {
    hide Proper, OpenCall;
    var start := ToolEvent(report.name, Running);
    OneMoreItem(items, start);
    OneMoreItem(items + [ToolItem(start)], report);
    assert items + [ToolItem(start)] + [ToolItem(report)] == items + [ToolItem(start), ToolItem(report)];
  }

  lemma {:induction false} ToolItemsAreProper(calls: seq<ToolCall>, executions: seq<Execution>)
    ensures Proper(ToolItems(calls, executions)) && OpenCall(ToolItems(calls, executions)).None?
  {
    if calls != [] {
      var last := |calls| - 1;
      ToolItemsAreProper(calls[..last], executions);
      PairIsProper(ToolItems(calls[..last], executions), Finish(calls[last], ExecutionAt(executions, last)));
    }
  }

  lemma {:induction false} StreamsAreProper(script: Script, n: nat)
    ensures Proper(Streamed(script, n)) && OpenCall(Streamed(script, n)).None?
  {
    hide *;
    if n == 0 {
      EmptyStreamIsProper(script);
    } else {
      StreamsAreProper(script, n - 1);
      OneMoreTurn(script, n);
      var turn := TurnAt(script, n - 1);
      TurnIsProper(turn);
      ProperConcat(Streamed(script, n - 1), TurnItems(turn));
    }
  }

  lemma EmptyStreamIsProper(script: Script)
    ensures Proper(Streamed(script, 0)) && OpenCall(Streamed(script, 0)).None?
  {
  }

  lemma TurnIsProper(turn: Turn)
    ensures Proper(TurnItems(turn)) && OpenCall(TurnItems(turn)).None?
  {
    hide Proper, OpenCall, Tokens, ToolItems;
    TokensAreProper(turn.deltas);
    ToolItemsAreProper(CallsOf(turn), ExecutionsOf(turn));
    ProperConcat(Tokens(turn.deltas), ToolItems(CallsOf(turn), ExecutionsOf(turn)));
  }
}
