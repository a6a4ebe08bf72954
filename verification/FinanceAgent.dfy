/** The agent's bounded tool loop, streaming and not. */
module FinanceAgent {
  import opened Wrappers
  import opened ChatSchemas

  const REFUSAL_TEXT := "I can't help with that request."
  const EMPTY_TEXT := "I wasn't able to produce an answer — please try rephrasing."

  datatype ToolStatus = Running | Completed | Failed

  datatype ToolEvent = ToolEvent(name: string, status: ToolStatus)

  /** What the registry makes of a call; its failures are error results, not exceptions. */
  datatype Execution = Execution(content: string, isError: bool)

  datatype AgentError = LLMError(detail: string) | AgentLoopError

  /** What happens at one model call: the deltas a stream would carry, then a response (and what its calls will yield
      when executed) or a failure. */
  datatype Turn =
    | Reply(deltas: seq<string>, response: LLMResponse, executions: seq<Execution>)
    | Fault(deltas: seq<string>, detail: string)

  /** Everything the outside world will do during a run. */
  type Script = seq<Turn>

  function TurnAt(script: Script, k: nat): Turn {
    if k < |script| then script[k] else Fault([], "could not reach the LLM provider")
  }

  function ExecutionAt(executions: seq<Execution>, i: nat): Execution {
    if i < |executions| then executions[i] else Execution("Internal error.", true)
  }

  datatype AgentRunResult = AgentRunResult(text: string, newMessages: seq<ChatMessage>, toolEvents: seq<ToolEvent>)

  datatype StreamItem = TokenItem(text: string) | ToolItem(event: ToolEvent) | ResultItem(result: AgentRunResult)

  class LLMClient {
    const script: Script
    var calls: nat
    var requests: seq<seq<ChatMessage>>  // the transcripts sent so far

    constructor (script: Script)
      ensures this.script == script && calls == 0 && requests == []
    {
      this.script, calls, requests := script, 0, [];
    }

    method Respond(messages: seq<ChatMessage>) returns (turn: Turn)
      modifies this
      ensures calls == old(calls) + 1 && requests == old(requests) + [messages]
      ensures turn == TurnAt(script, old(calls))
    {
      turn := TurnAt(script, calls);
      calls, requests := calls + 1, requests + [messages];
    }
  }

  // ----- what a run consists of -----

  function CallsOf(turn: Turn): seq<ToolCall> {
    if turn.Reply? then turn.response.toolCalls else []
  }

  function IsToolTurn(turn: Turn): bool {
    CallsOf(turn) != []
  }

  function Finish(call: ToolCall, e: Execution): ToolEvent {
    ToolEvent(call.name, if e.isError then Failed else Completed)
  }

  function ResultBlocks(calls: seq<ToolCall>, executions: seq<Execution>): seq<Block> {
    if calls == [] then []
    else
      var last := |calls| - 1;
      var e := ExecutionAt(executions, last);
      ResultBlocks(calls[..last], executions) + [ToolResultBlock(calls[last].id, e.content, e.isError)]
  }

  /** The audit trail of one turn's calls. */
  function FinishedEvents(calls: seq<ToolCall>, executions: seq<Execution>): seq<ToolEvent> {
    if calls == [] then []
    else
      var last := |calls| - 1;
      FinishedEvents(calls[..last], executions) + [Finish(calls[last], ExecutionAt(executions, last))]
  }

  /** What a stream shows of one turn's calls: each is announced and then reported. */
  function ToolItems(calls: seq<ToolCall>, executions: seq<Execution>): seq<StreamItem> {
    if calls == [] then []
    else
      var last := |calls| - 1;
      ToolItems(calls[..last], executions) +
      [ToolItem(ToolEvent(calls[last].name, Running)), ToolItem(Finish(calls[last], ExecutionAt(executions, last)))]
  }

  /** The tokens of one turn: empty deltas are not forwarded. */
  function Tokens(deltas: seq<string>): seq<StreamItem> {
    if deltas == [] then []
    else Tokens(deltas[..|deltas| - 1]) +
         if deltas[|deltas| - 1] == "" then [] else [TokenItem(deltas[|deltas| - 1])]
  }

  function ExecutionsOf(turn: Turn): seq<Execution> {
    if turn.Reply? then turn.executions else []
  }

  function AssistantTurn(turn: Turn): ChatMessage {
    ChatMessage(Assistant, if turn.Reply? then turn.response.content else [])
  }

  function Round(turn: Turn): seq<ChatMessage> {
    [AssistantTurn(turn), ChatMessage(Tool, ResultBlocks(CallsOf(turn), ExecutionsOf(turn)))]
  }

  /** The messages created by the first `n` tool rounds. */
  function NewMessages(user: string, script: Script, n: nat): seq<ChatMessage> {
    if n == 0 then [TextMessage(User, user)]
    else NewMessages(user, script, n - 1) + Round(TurnAt(script, n - 1))
  }

  function EventsUpTo(script: Script, n: nat): seq<ToolEvent> {
    if n == 0 then []
    else EventsUpTo(script, n - 1) + FinishedEvents(CallsOf(TurnAt(script, n - 1)), ExecutionsOf(TurnAt(script, n - 1)))
  }

  function TurnItems(turn: Turn): seq<StreamItem> {
    Tokens(turn.deltas) + ToolItems(CallsOf(turn), ExecutionsOf(turn))
  }

  function Streamed(script: Script, n: nat): seq<StreamItem> {
    if n == 0 then [] else Streamed(script, n - 1) + TurnItems(TurnAt(script, n - 1))
  }

  /** The transcripts of the first `n` model calls: always the history and everything the run has created so far. */
  function Requests(history: seq<ChatMessage>, user: string, script: Script, n: nat): seq<seq<ChatMessage>> {
    if n == 0 then []
    else Requests(history, user, script, n - 1) + [history + NewMessages(user, script, n - 1)]
  }

  /** The first turn from `k` on that makes no calls, or the bound. */
  function Stop(script: Script, k: nat, bound: nat): (n: nat)
    requires k <= bound
    ensures k <= n <= bound
    ensures forall j :: k <= j < n ==> IsToolTurn(TurnAt(script, j))
    ensures n < bound ==> !IsToolTurn(TurnAt(script, n))
    decreases bound - k
  {
    if k == bound || !IsToolTurn(TurnAt(script, k)) then k else Stop(script, k + 1, bound)
  }

  /** A run calls the model once for every tool round, and once more unless it runs out of rounds. */
  function CallsMade(script: Script, bound: nat): (calls: nat)
    ensures calls <= bound && (bound > 0 ==> calls > 0)
  {
    var n := Stop(script, 0, bound);
    if n < bound then n + 1 else n
  }

  function FinalText(r: LLMResponse): string {
    if r.text != "" then r.text else if r.stopReason == "refusal" then REFUSAL_TEXT else EMPTY_TEXT
  }

  /** The outcome of a run, however it is consumed. */
  function Outcome(user: string, script: Script, bound: nat): Result<AgentRunResult, AgentError> {
    var n := Stop(script, 0, bound);
    if n == bound then Err(AgentLoopError)
    else
      match TurnAt(script, n)
      case Fault(_, detail) => Err(LLMError(detail))
      case Reply(_, response, _) =>
        Ok(AgentRunResult(FinalText(response), NewMessages(user, script, n) + [ChatMessage(Assistant, response.content)],
                          EventsUpTo(script, n)))
  }

  /** Only the streaming loop forwards items as they happen. */
  function Shown(stream: bool, items: seq<StreamItem>): seq<StreamItem> {
    if stream then items else []
  }

  /** Everything a run yields. */
  function Yielded(user: string, script: Script, bound: nat, stream: bool): seq<StreamItem> {
    var n, r := Stop(script, 0, bound), Outcome(user, script, bound);
    Shown(stream, Streamed(script, n) + if n < bound then Tokens(TurnAt(script, n).deltas) else []) +
    if r.Ok? then [ResultItem(r.value)] else []
  }

  ghost predicate AllToolTurns(script: Script, n: nat) {
    forall j :: 0 <= j < n ==> IsToolTurn(TurnAt(script, j))
  }

  // ----- the loop -----

  class FinanceAgent {
    const llm: LLMClient
    const maxIterations: nat

    constructor (llm: LLMClient, maxIterations: nat)
      ensures this.llm == llm && this.maxIterations == maxIterations
    {
      this.llm, this.maxIterations := llm, maxIterations;
    }

    method Loop(history: seq<ChatMessage>, userMessage: string, stream: bool)
      returns (emitted: seq<StreamItem>, r: Result<AgentRunResult, AgentError>)
      requires llm.calls == 0 && llm.requests == []
      modifies llm
      ensures r == Outcome(userMessage, llm.script, maxIterations)
      ensures emitted == Yielded(userMessage, llm.script, maxIterations, stream)
      ensures llm.calls == CallsMade(llm.script, maxIterations) <= maxIterations
      ensures llm.calls > 0 ==> AllToolTurns(llm.script, llm.calls - 1)
      ensures llm.requests == Requests(history, userMessage, llm.script, llm.calls)
    {
      var n, last, newMessages, toolEvents;
      n, last, newMessages, toolEvents, emitted := RunRounds(history, userMessage, stream);
      StopIs(llm.script, 0, n, maxIterations);
      if last.None? {
        r := Err(AgentLoopError);
      } else if last.value.Fault? {
        r := Err(LLMError(last.value.detail));
      } else {
        var response := last.value.response;
        newMessages := newMessages + [ChatMessage(Assistant, response.content)];
        r := Ok(AgentRunResult(FinalText(response), newMessages, toolEvents));
        emitted := emitted + [ResultItem(r.value)];
      }
    }

    /** The iterations: tool rounds until a turn without calls, a failure (`last`), or the bound (None). */
    method RunRounds(history: seq<ChatMessage>, userMessage: string, stream: bool)
      returns (n: nat, last: Option<Turn>, newMessages: seq<ChatMessage>, toolEvents: seq<ToolEvent>,
               emitted: seq<StreamItem>)
      requires llm.calls == 0 && llm.requests == []
      modifies llm
      ensures n <= maxIterations && AllToolTurns(llm.script, n)
      ensures last == if n == maxIterations then None else Some(TurnAt(llm.script, n))
      ensures last.Some? ==> !IsToolTurn(last.value)
      ensures newMessages == NewMessages(userMessage, llm.script, n) && toolEvents == EventsUpTo(llm.script, n)
      ensures emitted == Shown(stream, Streamed(llm.script, n) + if last.Some? then Tokens(last.value.deltas) else [])
      ensures llm.calls == n + if last.Some? then 1 else 0
      ensures llm.calls > 0 ==> AllToolTurns(llm.script, llm.calls - 1)
      ensures llm.requests == Requests(history, userMessage, llm.script, llm.calls)
    {
      hide FinishedEvents, ToolItems, ResultBlocks, Tokens, NewMessages, EventsUpTo, Streamed, Requests;
      NothingDone(history, userMessage, llm.script);
      newMessages, toolEvents, emitted := [TextMessage(User, userMessage)], [], [];
      var messages := history + newMessages;
      ghost var items: seq<StreamItem> := [];
      for k := 0 to maxIterations
        invariant messages == history + newMessages && newMessages == NewMessages(userMessage, llm.script, k)
        invariant toolEvents == EventsUpTo(llm.script, k)
        invariant items == Streamed(llm.script, k) && emitted == Shown(stream, items)
        invariant AllToolTurns(llm.script, k)
        invariant llm.calls == k && llm.requests == Requests(history, userMessage, llm.script, k)
      {
        var turn := llm.Respond(messages);
        OneMoreRequest(history, userMessage, llm.script, k);
        items := items + Tokens(turn.deltas);
        if stream {
          emitted := emitted + Tokens(turn.deltas);
        }
        if !IsToolTurn(turn) {
          return k, Some(turn), newMessages, toolEvents, emitted;
        }
        var blocks, events, shown := ExecuteCalls(turn.response.toolCalls, turn.executions, stream);
        RoundDone(history, userMessage, llm.script, k);
        items := items + ToolItems(turn.response.toolCalls, turn.executions);
        toolEvents, emitted := toolEvents + events, emitted + shown;
        var round := [ChatMessage(Assistant, turn.response.content), ChatMessage(Tool, blocks)];
        assert round == Round(turn);
        messages, newMessages := messages + round, newMessages + round;
      }
      n, last := maxIterations, None;
    }
  }

  /** Executes every call of one turn; the results go back together. */
  method ExecuteCalls(calls: seq<ToolCall>, executions: seq<Execution>, stream: bool)
    returns (blocks: seq<Block>, events: seq<ToolEvent>, emitted: seq<StreamItem>)
    ensures blocks == ResultBlocks(calls, executions)
    ensures events == FinishedEvents(calls, executions)
    ensures emitted == Shown(stream, ToolItems(calls, executions))
  {
    ghost var items: seq<StreamItem> := [];
    blocks, events, emitted := [], [], [];
    for i := 0 to |calls|
      invariant blocks == ResultBlocks(calls[..i], executions)
      invariant events == FinishedEvents(calls[..i], executions)
      invariant items == ToolItems(calls[..i], executions) && emitted == Shown(stream, items)
    {
      var call := calls[i];
      assert calls[..i + 1][..i] == calls[..i];
      if stream {
        emitted := emitted + [ToolItem(ToolEvent(call.name, Running))];
      }
      var execution := ExecutionAt(executions, i);
      var done := Finish(call, execution);
      events := events + [done];
      if stream {
        emitted := emitted + [ToolItem(done)];
      }
      items := items + [ToolItem(ToolEvent(call.name, Running)), ToolItem(done)];
      blocks := blocks + [ToolResultBlock(call.id, execution.content, execution.isError)];
    }
    assert calls[..|calls|] == calls;
  }

  lemma {:induction false} StopIs(script: Script, k: nat, n: nat, bound: nat)
    requires k <= n <= bound
    requires forall j :: k <= j < n ==> IsToolTurn(TurnAt(script, j))
    requires n == bound || !IsToolTurn(TurnAt(script, n))
    ensures Stop(script, k, bound) == n
    decreases n - k
  {
    if k < n {
      StopIs(script, k + 1, n, bound);
    }
  }

  lemma NothingDone(history: seq<ChatMessage>, user: string, script: Script)
    ensures NewMessages(user, script, 0) == [TextMessage(User, user)] && EventsUpTo(script, 0) == []
    ensures Streamed(script, 0) == [] && Requests(history, user, script, 0) == []
  {
  }

  lemma RoundDone(history: seq<ChatMessage>, user: string, script: Script, k: nat)
    requires IsToolTurn(TurnAt(script, k)) && AllToolTurns(script, k)
    ensures var turn := TurnAt(script, k);
            && AllToolTurns(script, k + 1)
            && NewMessages(user, script, k + 1) == NewMessages(user, script, k) + Round(turn)
            && EventsUpTo(script, k + 1) == EventsUpTo(script, k) + FinishedEvents(CallsOf(turn), ExecutionsOf(turn))
            && Streamed(script, k + 1)
               == Streamed(script, k) + Tokens(turn.deltas) + ToolItems(CallsOf(turn), ExecutionsOf(turn))
            && history + NewMessages(user, script, k + 1) == history + NewMessages(user, script, k) + Round(turn)
  {
    hide Tokens, ToolItems, FinishedEvents, Round, CallsOf, ExecutionsOf;
  }

  lemma OneMoreRequest(history: seq<ChatMessage>, user: string, script: Script, k: nat)
    ensures Requests(history, user, script, k + 1)
         == Requests(history, user, script, k) + [history + NewMessages(user, script, k)]
  {
  }
}
