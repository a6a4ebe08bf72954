/** Which exchanges are still running while the page allows another: the guard of send and retry looks at the bubbles, and
    an exchange that is over may still settle its bubble. */
module AssistantExchanges {
  import opened Wrappers
  import opened AssistantChat
  import opened AssistantBubbles

  /** One call of the mutation, from its command until it settles; `over` once its stream has said done or error. */
  datatype Flight = Flight(n: nat, over: bool)

  datatype Desk = Desk(page: Page, flights: seq<Flight>)

  /** A command, or something that the `i`-th exchange in flight dispatches. */
  datatype Event = Commands(h: Happening) | Dispatches(i: nat, change: Change)

  /** An exchange that is over has nothing more to say, it only settles. */
  predicate Possible(d: Desk, e: Event) {
    match e
    case Commands(h) => !h.Arrives?
    case Dispatches(i, change) => i < |d.flights| && !change.RetryStarted? && (d.flights[i].over ==> change.Settled?)
  }

  function Next(d: Desk, e: Event): Desk {
    if !Possible(d, e) then d
    else
      match e
      case Commands(h) =>
        var c := CommandOf(d.page, h);
        Desk(Live(d.page, h), if c.Some? then d.flights + [Flight(c.value.action.n, false)] else d.flights)
      case Dispatches(i, change) =>
        var flight := d.flights[i];
        Desk(Live(d.page, Arrives(flight.n, change)),
             if change.Settled? then d.flights[..i] + d.flights[i + 1..]
             else d.flights[i := flight.(over := flight.over || Ends(change))])
  }

  predicate AtMostOneRunning(flights: seq<Flight>) {
    forall i, j :: 0 <= i < j < |flights| ==> flights[i].over || flights[j].over
  }

  predicate StreamsIn(ms: seq<Message>, n: nat) {
    exists k :: 0 <= k < |ms| && ms[k].id == AssistantId(n) && ms[k].status == Streaming
  }

  /** At most one exchange is running, and the page shows that it is. */
  ghost predicate InStep(d: Desk) {
    && PageOk(d.page) && AtMostOneRunning(d.flights)
    && forall i :: 0 <= i < |d.flights| && !d.flights[i].over ==> StreamsIn(d.page.state.messages, d.flights[i].n)
  }

  /** An exchange that is over settles a bubble that a retry has taken in the meantime and is still streaming into. */
  predicate SettlesLate(d: Desk, e: Event) {
    && e.Dispatches? && Possible(d, e) && d.flights[e.i].over
    && exists j :: 0 <= j < |d.flights| && !d.flights[j].over && d.flights[j].n == d.flights[e.i].n
  }

  // ----- one step -----

  lemma StreamsAfter(page: Page, n: nat, change: Change, m: nat)
    requires PageOk(page) && StreamsIn(page.state.messages, m) && !change.RetryStarted?
    requires n == m ==> IsProgress(change)
    ensures StreamsIn(Live(page, Arrives(n, change)).state.messages, m)
  {
    hide PageOk, RecordTool, AppendText;
    var ms := page.state.messages;
    var k :| 0 <= k < |ms| && ms[k].id == AssistantId(m) && ms[k].status == Streaming;
    var after := Live(page, Arrives(n, change)).state.messages;
    assert after[k].id == AssistantId(m) && after[k].status == Streaming;
  }

  lemma SettledStreamsNot(page: Page, n: nat)
    requires PageOk(page)
    ensures !StreamsIn(Live(page, Arrives(n, Settled)).state.messages, n)
  {
    hide PageOk;
  }

  lemma CommandStreams(page: Page, h: Happening)
    requires PageOk(page) && CommandOf(page, h).Some?
    ensures !IsStreaming(page.state) && PageOk(Live(page, h))
    ensures StreamsIn(Live(page, h).state.messages, CommandOf(page, h).value.action.n)
  {
    hide PageOk, IsStreaming;
    var ms, after := page.state.messages, Live(page, h).state.messages;
    match h
    case UserSends(text) =>
      SendKeepsPage(page, text);
      assert after[|ms| + 1].id == AssistantId(page.nextId + 1) && after[|ms| + 1].status == Streaming;
    case UserRetries =>
      var n := FailedId(ms).value;
      ChangeKeepsPage(page, n, RetryStarted);
      FailedIdIs(ms);
      var k :| 0 <= k < |ms| && ms[k].id == AssistantId(n);
      assert after[k].id == AssistantId(n) && after[k].status == Streaming;
    case Arrives(_, _) =>
  }

  lemma CommandKeepsStep(d: Desk, h: Happening)
    requires InStep(d) && !h.Arrives?
    ensures InStep(Next(d, Commands(h)))
  {
    hide PageOk, SendCommand, RetryCommand;
    if CommandOf(d.page, h).Some? {
      CommandStreams(d.page, h);
      assert forall i :: 0 <= i < |d.flights| ==> d.flights[i].over by {
        hide Live;
      }
    } else {
      CommandRefused(d.page, h);
    }
  }

  lemma CommandRefused(page: Page, h: Happening)
    requires !h.Arrives? && CommandOf(page, h).None?
    ensures Live(page, h) == page
  {
    hide IsStreaming, FailedId;
  }

  lemma DispatchKeepsPage(d: Desk, i: nat, change: Change)
    requires PageOk(d.page) && Possible(d, Dispatches(i, change))
    ensures PageOk(Live(d.page, Arrives(d.flights[i].n, change)))
  {
    hide PageOk;
    ChangeKeepsPage(d.page, d.flights[i].n, change);
  }

  lemma SettlingIff(d: Desk, i: nat)
    requires InStep(d) && i < |d.flights|
    ensures InStep(Next(d, Dispatches(i, Settled))) <==> !SettlesLate(d, Dispatches(i, Settled))
  {
    hide PageOk, Live, StreamsIn;
    var e, flight := Dispatches(i, Settled), d.flights[i];
    var d' := Next(d, e);
    DispatchKeepsPage(d, i, Settled);
    SettledStreamsNot(d.page, flight.n);
    assert d'.flights == d.flights[..i] + d.flights[i + 1..];
    assert forall j :: 0 <= j < i ==> d'.flights[j] == d.flights[j];
    assert forall j :: i <= j < |d'.flights| ==> d'.flights[j] == d.flights[j + 1];
    assert forall j :: i < j < |d.flights| ==> d.flights[j] == d'.flights[j - 1];
    forall j | 0 <= j < |d.flights| && j != i && !d.flights[j].over && d.flights[j].n != flight.n
      ensures StreamsIn(d'.page.state.messages, d.flights[j].n)
    {
      StreamsAfter(d.page, flight.n, Settled, d.flights[j].n);
    }
    if SettlesLate(d, e) {
      var j :| 0 <= j < |d.flights| && !d.flights[j].over && d.flights[j].n == flight.n;
      assert d'.flights[if j < i then j else j - 1] == d.flights[j];
    }
  }

  lemma SayingKeepsStep(d: Desk, i: nat, change: Change)
    requires InStep(d) && Possible(d, Dispatches(i, change)) && !change.Settled?
    ensures InStep(Next(d, Dispatches(i, change)))
  {
    hide PageOk, Live, StreamsIn;
    var flight := d.flights[i];
    DispatchKeepsPage(d, i, change);
    if IsProgress(change) {
      StreamsAfter(d.page, flight.n, change, flight.n);
    }
  }

  /** From a desk in step, a step keeps it so if and only if it is not a late settling. */
  lemma StepKeepsIff(d: Desk, e: Event)
    requires InStep(d)
    ensures InStep(Next(d, e)) <==> !SettlesLate(d, e)
  {
    hide InStep, Next;
    if !Possible(d, e) {
      NothingHappens(d, e);
    } else if e.Commands? {
      CommandKeepsStep(d, e.h);
    } else if e.change.Settled? {
      SettlingIff(d, e.i);
    } else {
      SayingKeepsStep(d, e.i, e.change);
    }
  }

  lemma NothingHappens(d: Desk, e: Event)
    requires !Possible(d, e)
    ensures Next(d, e) == d
  {
  }

  // ----- every run -----

  function After(run: seq<Event>): Desk {
    if run == [] then Desk(LiveAll([]), []) else Next(After(run[..|run| - 1]), run[|run| - 1])
  }

  function HappeningOf(d: Desk, e: Event): seq<Happening> {
    if !Possible(d, e) then [] else if e.Commands? then [e.h] else [Arrives(d.flights[e.i].n, e.change)]
  }

  function Happenings(run: seq<Event>): seq<Happening> {
    if run == [] then [] else Happenings(run[..|run| - 1]) + HappeningOf(After(run[..|run| - 1]), run[|run| - 1])
  }

  /** The page is one of a run of happenings, so its bubbles show what has arrived for them. */
  lemma {:induction false} DeskIsAPage(run: seq<Event>)
    ensures After(run).page == LiveAll(Happenings(run))
  {
    if run != [] {
      hide Live, CommandOf;
      var init, e := run[..|run| - 1], run[|run| - 1];
      DeskIsAPage(init);
      if Possible(After(init), e) {
        LivesOn(Happenings(init), HappeningOf(After(init), e)[0]);
      } else {
        assert Happenings(init) + [] == Happenings(init);
      }
    }
  }

  ghost predicate AlwaysInStep(run: seq<Event>) {
    InStep(After(run)) && (run != [] ==> AlwaysInStep(run[..|run| - 1]))
  }

  predicate NeverSettlesLate(run: seq<Event>) {
    run == [] || (NeverSettlesLate(run[..|run| - 1]) && !SettlesLate(After(run[..|run| - 1]), run[|run| - 1]))
  }

  /** At every moment at most one exchange is running and its bubble is the one that streams, so that the guard of the two
      commands sees it, for exactly the runs in which no exchange settles a bubble that a later one is streaming into. */
  lemma {:induction false} RunKeepsIff(run: seq<Event>)
    ensures AlwaysInStep(run) <==> NeverSettlesLate(run)
  {
    if run != [] {
      hide InStep, SettlesLate, Next;
      var init := run[..|run| - 1];
      RunKeepsIff(init);
      if AlwaysInStep(init) {
        StepKeepsIff(After(init), run[|run| - 1]);
      }
    } else {
      EmptyPageOk();
    }
  }

  /** A retry that waits until the failed exchange has settled. */
  predicate Waits(d: Desk, e: Event) {
    e.Commands? && e.h.UserRetries? && CommandOf(d.page, e.h).Some? ==>
      forall i :: 0 <= i < |d.flights| ==> d.flights[i].n != CommandOf(d.page, e.h).value.action.n
  }

  /** Every bubble has at most one exchange in flight, and none that is yet to be sent has one. */
  ghost predicate OneEach(d: Desk) {
    && (forall i, j :: 0 <= i < j < |d.flights| ==> d.flights[i].n != d.flights[j].n)
    && forall i :: 0 <= i < |d.flights| ==> d.flights[i].n <= d.page.nextId
  }

  lemma WaitingKeepsOneEach(d: Desk, e: Event)
    requires PageOk(d.page) && OneEach(d) && Waits(d, e)
    ensures OneEach(Next(d, e)) && !SettlesLate(d, e)
  {
    hide PageOk, Reduce, IsStreaming, FailedId;
    if e.Commands? && CommandOf(d.page, e.h).Some? && e.h.UserRetries? {
      RetriedIsThere(d.page);
    }
  }

  lemma RetriedIsThere(page: Page)
    requires PageOk(page) && RetryCommand(page.state).Some?
    ensures CommandOf(page, UserRetries).value.action.n <= page.nextId
  {
    FailedIdIs(page.state.messages);
  }

  ghost predicate AllWait(run: seq<Event>) {
    run == [] || (AllWait(run[..|run| - 1]) && Waits(After(run[..|run| - 1]), run[|run| - 1]))
  }

  /** So it is enough that retries wait for the settling of what they retry. */
  lemma {:induction false} WaitingKeepsStep(run: seq<Event>)
    requires AllWait(run)
    ensures NeverSettlesLate(run) && OneEach(After(run)) && InStep(After(run))
  {
    if run != [] {
      hide InStep, OneEach, SettlesLate, Next, Waits;
      var init := run[..|run| - 1];
      WaitingKeepsStep(init);
      InStepHasPage(After(init));
      WaitingKeepsOneEach(After(init), run[|run| - 1]);
      StepKeepsIff(After(init), run[|run| - 1]);
    } else {
      EmptyPageOk();
    }
  }

  lemma InStepHasPage(d: Desk)
    requires InStep(d)
    ensures PageOk(d.page)
  {
  }

  // ----- the failing run -----

  /** The page of one exchange. */
  function OneExchange(text: string, bubble: Message): Page {
    Page(ChatState([Message(UserId(1), [text], [], Done, None), bubble], None, Some(text)), 1)
  }

  /** The guard of the code alone does not keep it so: after an error, a retry before the failed exchange has settled is
      marked as stopped by that settling while its stream runs, and the next question starts a second stream. */
  lemma LateSettlingBreaks(first: string, detail: string, second: string)
    requires first != "" && second != ""
    ensures var run := [Commands(UserSends(first))] + [Dispatches(0, ErrorArrived(detail))] + [Commands(UserRetries)]
                       + [Dispatches(0, Settled)];
            var d, d' := After(run), After(run + [Commands(UserSends(second))]);
            && d.page == OneExchange(first, Message(AssistantId(1), [], [], Error, Some("Response stopped.")))
            && d.flights == [Flight(1, false)] && !IsStreaming(d.page.state)
            && d'.flights == [Flight(1, false), Flight(2, false)]
  {
    hide After, Next, Update;
    var sent, error := Commands(UserSends(first)), Dispatches(0, ErrorArrived(detail));
    var retried, settled := Commands(UserRetries), Dispatches(0, Settled);
    var failed := Update(FreshBubble(1), ErrorArrived(detail));
    var stopped := Update(FreshBubble(1), Settled);
    assert [] + [sent] == [sent];
    AfterOneMore([], sent);
    FirstSent(first);
    AfterOneMore([sent], error);
    OneDispatch(first, FreshBubble(1), [Flight(1, false)], 0, ErrorArrived(detail));
    AfterOneMore([sent] + [error], retried);
    FailedThenRetried(first, detail);
    AfterOneMore([sent] + [error] + [retried], settled);
    OneDispatch(first, FreshBubble(1), [Flight(1, true), Flight(1, false)], 0, Settled);
    assert [Flight(1, true), Flight(1, false)][..0] + [Flight(1, true), Flight(1, false)][1..] == [Flight(1, false)];
    assert [Flight(1, false)][0 := Flight(1, true)] == [Flight(1, true)];
    AfterOneMore([sent] + [error] + [retried] + [settled], Commands(UserSends(second)));
    StoppedThenSent(first, second);
  }

  lemma AfterOneMore(run: seq<Event>, e: Event)
    ensures After(run + [e]) == Next(After(run), e)
    ensures After([]) == Desk(Page(ChatState([], None, None), 0), [])
  {
    hide Next;
    assert (run + [e])[..|run|] == run;
  }

  lemma FirstSent(text: string)
    requires text != ""
    ensures Next(Desk(Page(ChatState([], None, None), 0), []), Commands(UserSends(text)))
         == Desk(OneExchange(text, FreshBubble(1)), [Flight(1, false)])
  {
  }

  lemma OneDispatch(text: string, bubble: Message, flights: seq<Flight>, i: nat, change: Change)
    requires i < |flights| && flights[i].n == 1 && (flights[i].over ==> change.Settled?)
    requires bubble.id == AssistantId(1) && !change.RetryStarted? && !change.DoneArrived?
    ensures Next(Desk(OneExchange(text, bubble), flights), Dispatches(i, change))
         == Desk(OneExchange(text, Update(bubble, change)),
                 if change.Settled? then flights[..i] + flights[i + 1..]
                 else flights[i := Flight(1, flights[i].over || Ends(change))])
  {
    hide Update;
    TwoMessages(Message(UserId(1), [text], [], Done, None), bubble, change);
  }

  lemma FailedThenRetried(text: string, detail: string)
    requires text != ""
    ensures Next(Desk(OneExchange(text, Update(FreshBubble(1), ErrorArrived(detail))), [Flight(1, true)]),
                 Commands(UserRetries))
         == Desk(OneExchange(text, FreshBubble(1)), [Flight(1, true), Flight(1, false)])
  {
    TwoMessages(Message(UserId(1), [text], [], Done, None), Update(FreshBubble(1), ErrorArrived(detail)), RetryStarted);
  }

  lemma StoppedThenSent(text: string, second: string)
    requires second != ""
    ensures var page := OneExchange(text, Update(FreshBubble(1), Settled));
            && Update(FreshBubble(1), Settled) == Message(AssistantId(1), [], [], Error, Some("Response stopped."))
            && !IsStreaming(page.state)
            && Next(Desk(page, [Flight(1, false)]), Commands(UserSends(second))).flights == [Flight(1, false), Flight(2, false)]
  {
  }

  lemma TwoMessages(question: Message, bubble: Message, change: Change)
    requires question.id.UserId? && bubble.id.AssistantId?
    ensures UpdateMessage([question, bubble], bubble.id, change) == [question, Update(bubble, change)]
    ensures FailedId([question, bubble]) == if bubble.status == Error then Some(bubble.id.n) else None
  {
    hide Update;
    assert [question, bubble][..1] == [question] && [question][..0] == [];
    assert FailedId([]) == None && FailedId([question]) == None;
  }
}
