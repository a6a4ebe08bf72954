/** End to end: whatever is stored and whatever the model does, every request is one either provider accepts. */
module ProviderRequests {
  import opened Wrappers
  import opened ChatSchemas
  import opened FinanceAgent
  import opened AgentTranscripts
  import opened ChatService
  import OpenAiClient
  import LlmClient

  /** Paired, and acceptable on either wire. */
  ghost predicate IsAcceptable(request: seq<ChatMessage>) {
    && Paired(request)
    && OpenAiClient.Accepted(OpenAiClient.WireAll(request)) && LlmClient.Accepted(LlmClient.ParamsOf(request))
  }

  lemma PairedIsAcceptable(request: seq<ChatMessage>)
    requires Paired(request)
    ensures IsAcceptable(request)
  {
    OpenAiClient.WireIsAccepted(request);
    LlmClient.ParamsAreAccepted(request);
  }

  /** The `k`-th request of a run seeded with any paired history. */
  lemma EveryRequestIsAccepted(history: seq<ChatMessage>, user: string, script: Script, bound: nat, k: nat)
    requires Paired(history) && ScriptOk(script) && k < CallsMade(script, bound)
    ensures var requests := Requests(history, user, script, CallsMade(script, bound));
            |requests| == CallsMade(script, bound) && IsAcceptable(requests[k])
  {
    hide *;
    EveryRequestIsPaired(history, user, script, bound, k);
    PairedIsAcceptable(Requests(history, user, script, CallsMade(script, bound))[k]);
  }

  /** One chat request: replay what is stored, run the agent, store what it has said.  Everything the model is sent is
      acceptable, a result's messages extend the replayed history to a paired transcript, and without a result the
      conversation is as it was. */
  method Chat(conversation: Conversation, agent: FinanceAgent, message: string, stream: bool, stores: bool)
    returns (emitted: seq<StreamItem>, r: Result<AgentRunResult, ChatError>)
    requires agent.llm.calls == 0 && agent.llm.requests == [] && ScriptOk(agent.llm.script)
    modifies agent.llm, conversation
    ensures |agent.llm.requests| == agent.llm.calls == CallsMade(agent.llm.script, agent.maxIterations)
    ensures forall k :: 0 <= k < |agent.llm.requests| ==> IsAcceptable(agent.llm.requests[k])
    ensures r == Replied(message, agent.llm.script, agent.maxIterations, stores)
    ensures conversation.messages == old(conversation.messages) + if r.Ok? then r.value.newMessages else []
    ensures r.Ok? ==> Paired(Last(ReplayedAll(old(conversation.messages)), HISTORY_LIMIT) + r.value.newMessages)
  {
    hide Outcome, Requests, CallsMade, IsAcceptable, Paired, Last, ReplayedAll, ScriptOk, AllToolTurns, Yielded;
    var history := History(conversation.messages);
    var run;
    emitted, run := agent.Loop(history, message, stream);
    RequestCount(history, message, agent.llm.script, agent.llm.calls);
    forall k | 0 <= k < CallsMade(agent.llm.script, agent.maxIterations)
      ensures IsAcceptable(agent.llm.requests[k])
    {
      EveryRequestIsAccepted(history, message, agent.llm.script, agent.maxIterations, k);
    }
    SuccessEndsInAnswer(history, message, agent.llm.script, agent.maxIterations);
    if run.Err? {
      return emitted, Err(AgentFailed(run.error));
    }
    var stored := conversation.Persist(run.value, stores);
    r := if stored then Ok(run.value) else Err(NotStored);
  }

  lemma {:induction false} RequestCount(history: seq<ChatMessage>, user: string, script: Script, n: nat)
    ensures |Requests(history, user, script, n)| == n
  {
    if n > 0 {
      RequestCount(history, user, script, n - 1);
    }
  }
}
