/** What every run of the agent owes the provider: transcripts in which each call is answered right away, in order. */
module AgentTranscripts {
  import opened Wrappers
  import opened ChatSchemas
  import opened FinanceAgent

  /** Every response in the script is one an adapter could have produced. */
  ghost predicate ScriptOk(script: Script) {
    forall i :: 0 <= i < |script| && script[i].Reply? ==> Consistent(script[i].response)
  }

  lemma {:induction false} ResultsAnswerCalls(calls: seq<ToolCall>, executions: seq<Execution>)
    ensures AnswersIn(ResultBlocks(calls, executions)) == IdsOf(calls)
    ensures CallsIn(ResultBlocks(calls, executions)) == []
  {
    if calls != [] {
      var init := calls[..|calls| - 1];
      ResultsAnswerCalls(init, executions);
      var blocks := ResultBlocks(calls, executions);
      assert blocks[..|blocks| - 1] == ResultBlocks(init, executions);
    }
  }

  lemma RoundIsPaired(turn: Turn)
    requires IsToolTurn(turn) && Consistent(turn.response)
    ensures Paired(Round(turn))
  {
    ResultsAnswerCalls(CallsOf(turn), ExecutionsOf(turn));
  }

  lemma PairedRound(messages: seq<ChatMessage>, turn: Turn)
    requires Paired(messages) && IsToolTurn(turn) && Consistent(turn.response)
    ensures Paired(messages + Round(turn))
  {
    RoundIsPaired(turn);
    PairedConcat(messages, Round(turn));
  }

  lemma SingleIsPaired(m: ChatMessage)
    requires m.role != Tool && AnswersIn(m.content) == [] && CallsIn(m.content) == []
    ensures Paired([m])
  {
  }

  lemma TextIsPlain(role: Role, text: string)
    ensures CallsIn(TextMessage(role, text).content) == [] && AnswersIn(TextMessage(role, text).content) == []
  {
    assert [TextBlock(text)][..0] == [];
  }

  lemma {:induction false} NewMessagesArePaired(user: string, script: Script, n: nat)
    requires ScriptOk(script) && AllToolTurns(script, n)
    ensures Paired(NewMessages(user, script, n))
  {
    if n == 0 {
      TextIsPlain(User, user);
      SingleIsPaired(TextMessage(User, user));
    } else {
      assert IsToolTurn(TurnAt(script, n - 1));
      hide Paired, Consistent, IsToolTurn, Round;
      NewMessagesArePaired(user, script, n - 1);
      PairedRound(NewMessages(user, script, n - 1), TurnAt(script, n - 1));
    }
  }

  lemma {:induction false} RequestAt(history: seq<ChatMessage>, user: string, script: Script, n: nat, k: nat)
    requires k < n
    ensures |Requests(history, user, script, n)| == n
    ensures Requests(history, user, script, n)[k] == history + NewMessages(user, script, k)
  {
    if n > 1 {
      RequestAt(history, user, script, n - 1, if k < n - 1 then k else 0);
    }
  }

  /** Every request of every run is the history plus what the run has created so far, and every call in it is
      answered. */
  lemma EveryRequestIsPaired(history: seq<ChatMessage>, user: string, script: Script, bound: nat, k: nat)
    requires Paired(history) && ScriptOk(script) && k < CallsMade(script, bound)
    ensures var requests := Requests(history, user, script, CallsMade(script, bound));
            && |requests| == CallsMade(script, bound)
            && requests[k] == history + NewMessages(user, script, k) && Paired(requests[k])
  {
    RequestAt(history, user, script, CallsMade(script, bound), k);
    NewMessagesArePaired(user, script, k);
    PairedConcat(history, NewMessages(user, script, k));
  }

  /** A successful run: its whole transcript is paired and it ends in an answer without calls. */
  lemma SuccessEndsInAnswer(history: seq<ChatMessage>, user: string, script: Script, bound: nat)
    requires Paired(history) && ScriptOk(script)
    ensures Outcome(user, script, bound).Ok? ==>
            var created := Outcome(user, script, bound).value.newMessages;
            && Paired(history + created) && created != []
            && created[|created| - 1].role == Assistant && CallsIn(created[|created| - 1].content) == []
            && created[0] == TextMessage(User, user)
  {
    if Outcome(user, script, bound).Ok? {
      var n := Stop(script, 0, bound);
      var answer := ChatMessage(Assistant, TurnAt(script, n).response.content);
      NewMessagesArePaired(user, script, n);
      SingleIsPaired(answer);
      PairedConcat(NewMessages(user, script, n), [answer]);
      PairedConcat(history, NewMessages(user, script, n) + [answer]);
      NewMessagesStart(user, script, n);
    }
  }

  lemma {:induction false} NewMessagesStart(user: string, script: Script, n: nat)
    ensures NewMessages(user, script, n) != [] && NewMessages(user, script, n)[0] == TextMessage(User, user)
  {
    if n > 0 {
      NewMessagesStart(user, script, n - 1);
    }
  }

  /** A run is exhausted exactly when each of its `bound` turns makes calls. */
  lemma ExhaustedIff(user: string, script: Script, bound: nat)
    ensures Outcome(user, script, bound) == Err(AgentLoopError) <==> AllToolTurns(script, bound)
  {
    if AllToolTurns(script, bound) {
      StopIs(script, 0, bound, bound);
    }
  }

  // ----- what a run says -----

  /** A successful run answers with the text of its last message, which is the last turn's; if the model has said
      nothing, with the refusal when it refused and else with the apology. */
  lemma AnswerIsTheText(user: string, script: Script, bound: nat)
    requires ScriptOk(script) && Outcome(user, script, bound).Ok?
    ensures var n, result := Stop(script, 0, bound), Outcome(user, script, bound).value;
            && n < bound && n < |script| && script[n].Reply? && result.newMessages != []
            && var said := TextIn(result.newMessages[|result.newMessages| - 1].content);
               && result.newMessages[|result.newMessages| - 1].content == script[n].response.content
               && (said != "" ==> result.text == said)
               && (said == "" && script[n].response.stopReason == "refusal" ==>
                     result.text == "I can't help with that request.")
               && (said == "" && script[n].response.stopReason != "refusal" ==>
                     result.text == "I wasn't able to produce an answer — please try rephrasing.")
  {
    hide NewMessages, EventsUpTo;
    var n := Stop(script, 0, bound);
    assert script[n].Reply? ==> Consistent(script[n].response);
  }

  /** What becomes of the calls of one turn: each is answered by what its execution yielded, in order; the trail names it
      and says whether it failed; a stream shows it running and then finished. */
  lemma {:induction false} CallsAreReported(calls: seq<ToolCall>, executions: seq<Execution>, i: nat)
    requires i < |calls| <= |executions|
    ensures var blocks, trail, items := ResultBlocks(calls, executions), FinishedEvents(calls, executions),
                                        ToolItems(calls, executions);
            && |blocks| == |trail| == |calls| && |items| == 2 * |calls|
            && blocks[i] == ToolResultBlock(calls[i].id, executions[i].content, executions[i].isError)
            && trail[i].name == calls[i].name && (trail[i].status == Failed <==> executions[i].isError)
            && (trail[i].status == Completed <==> !executions[i].isError)
            && items[2 * i] == ToolItem(ToolEvent(calls[i].name, Running)) && items[2 * i + 1] == ToolItem(trail[i])
  {
    var last := |calls| - 1;
    if last > 0 {
      CallsAreReported(calls[..last], executions, if i < last then i else 0);
    } else {
      assert calls[..0] == [];
    }
  }

  /** The messages a run creates: the question, then for every tool round the model's turn and the answers to its calls. */
  lemma {:induction false} MessagesOfRounds(user: string, script: Script, n: nat, k: nat)
    requires k < n <= |script| && forall j :: 0 <= j < n ==> script[j].Reply?
    ensures var created := NewMessages(user, script, n);
            && |created| == 2 * n + 1 && created[0] == ChatMessage(User, [TextBlock(user)])
            && created[2 * k + 1] == ChatMessage(Assistant, script[k].response.content)
            && created[2 * k + 2] == ChatMessage(Tool, ResultBlocks(script[k].response.toolCalls, script[k].executions))
  {
    if n > 1 {
      MessagesOfRounds(user, script, n - 1, if k < n - 1 then k else 0);
    } else {
      assert NewMessages(user, script, 0) == [TextMessage(User, user)];
    }
  }

  /** What a failing model says reaches the caller. */
  lemma FaultIsReported(user: string, script: Script, bound: nat, detail: string)
    ensures Outcome(user, script, bound) == Err(LLMError(detail))
            <==> Stop(script, 0, bound) < bound && TurnAt(script, Stop(script, 0, bound)).Fault?
                 && TurnAt(script, Stop(script, 0, bound)).detail == detail
  {
  }

  /** A run that is not streamed yields its result and nothing else. */
  lemma QuietRunYieldsItsResult(user: string, script: Script, bound: nat)
    ensures Yielded(user, script, bound, false)
         == if Outcome(user, script, bound).Ok? then [ResultItem(Outcome(user, script, bound).value)] else []
  {
    hide Outcome, Streamed, Tokens;
  }

  // ----- what a stream shows -----

  /** The finished tool events among streamed items. */
  function FinishedIn(items: seq<StreamItem>): seq<ToolEvent> {
    if items == [] then []
    else
      var last := items[|items| - 1];
      FinishedIn(items[..|items| - 1]) + if last.ToolItem? && last.event.status != Running then [last.event] else []
  }

  lemma {:induction false} FinishedConcat(a: seq<StreamItem>, b: seq<StreamItem>)
    ensures FinishedIn(a + b) == FinishedIn(a) + FinishedIn(b)
  {
    if b == [] {
      assert a + b == a;
    } else {
      assert (a + b)[..|a + b| - 1] == a + b[..|b| - 1];
      FinishedConcat(a, b[..|b| - 1]);
    }
  }

  lemma {:induction false} TokensFinishNothing(deltas: seq<string>)
    ensures FinishedIn(Tokens(deltas)) == []
  {
    if deltas != [] {
      var init, last := deltas[..|deltas| - 1], deltas[|deltas| - 1];
      TokensFinishNothing(init);
      var tail := if last == "" then [] else [TokenItem(last)];
      FinishedConcat(Tokens(init), tail);
      if last != "" {
        assert tail[..0] == [];
      }
    }
  }

  lemma {:induction false} ToolItemsFinish(calls: seq<ToolCall>, executions: seq<Execution>)
    ensures FinishedIn(ToolItems(calls, executions)) == FinishedEvents(calls, executions)
  {
    if calls != [] {
      var last := |calls| - 1;
      ToolItemsFinish(calls[..last], executions);
      var start, end := ToolItem(ToolEvent(calls[last].name, Running)),
                        ToolItem(Finish(calls[last], ExecutionAt(executions, last)));
      FinishedConcat(ToolItems(calls[..last], executions), [start, end]);
      assert FinishedIn([start, end]) == [end.event] by {
        assert [start, end][..1] == [start] && [start][..0] == [];
        assert FinishedIn([start]) == [];
      }
    }
  }

  /** A live stream shows exactly the audit trail of the result it ends in. */
  lemma {:induction false} StreamShowsAuditTrail(script: Script, n: nat)
    ensures FinishedIn(Streamed(script, n)) == EventsUpTo(script, n)
  {
    hide *;
    OneMoreTurn(script, n);
    if n > 0 {
      StreamShowsAuditTrail(script, n - 1);
      FinishedConcat(Streamed(script, n - 1), TurnItems(TurnAt(script, n - 1)));
      TurnShowsEvents(TurnAt(script, n - 1));
    }
  }

  lemma OneMoreTurn(script: Script, n: nat)
    ensures n == 0 ==> FinishedIn(Streamed(script, n)) == EventsUpTo(script, n)
    ensures n > 0 ==>
            var turn := TurnAt(script, n - 1);
            && Streamed(script, n) == Streamed(script, n - 1) + TurnItems(turn)
            && EventsUpTo(script, n) == EventsUpTo(script, n - 1) + FinishedEvents(CallsOf(turn), ExecutionsOf(turn))
  {
  }

  lemma TurnShowsEvents(turn: Turn)
    ensures FinishedIn(TurnItems(turn)) == FinishedEvents(CallsOf(turn), ExecutionsOf(turn))
  {
    FinishedConcat(Tokens(turn.deltas), ToolItems(CallsOf(turn), ExecutionsOf(turn)));
    TokensFinishNothing(turn.deltas);
    ToolItemsFinish(CallsOf(turn), ExecutionsOf(turn));
  }
}
