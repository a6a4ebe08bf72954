/** The replayed history that seeds a run, and the storing of what a run has said. */
module ChatService {
  import opened Wrappers
  import opened ChatSchemas
  import opened FinanceAgent
  import opened AgentTranscripts

  const HISTORY_LIMIT: nat := 30

  /** What one stored message contributes: its text, unless it is a tool message or blank. */
  function Replayed(m: ChatMessage): seq<ChatMessage> {
    if m.role == Tool || Blank(TextIn(m.content)) then [] else [TextMessage(m.role, TextIn(m.content))]
  }

  function ReplayedAll(stored: seq<ChatMessage>): seq<ChatMessage> {
    if stored == [] then [] else ReplayedAll(stored[..|stored| - 1]) + Replayed(stored[|stored| - 1])
  }

  function Last(messages: seq<ChatMessage>, n: nat): seq<ChatMessage> {
    if |messages| <= n then messages else messages[|messages| - n..]
  }

  method History(stored: seq<ChatMessage>) returns (history: seq<ChatMessage>)
    ensures history == Last(ReplayedAll(stored), HISTORY_LIMIT)
    ensures Paired(history) && |history| <= HISTORY_LIMIT
  {
    history := [];
    for i := 0 to |stored|
      invariant history == ReplayedAll(stored[..i])
    {
      assert stored[..i + 1][..i] == stored[..i];
      var message := stored[i];
      if message.role != Tool {
        var text := TextIn(message.content);
        if !Blank(text) {
          history := history + [TextMessage(message.role, text)];
        }
      }
    }
    assert stored[..|stored|] == stored;
    history := if |history| <= HISTORY_LIMIT then history else history[|history| - HISTORY_LIMIT..];
    TextOnlyIsPaired(stored, history);
  }

  predicate IsReplayed(m: ChatMessage) {
    m.role != Tool && !Blank(TextIn(m.content))
  }

  /** Stored messages that are neither tool messages nor blank are replayed one for one, each by its role and text. */
  lemma {:induction false} ReplaySpeaks(stored: seq<ChatMessage>, i: nat)
    requires i < |stored| && forall m :: m in stored ==> IsReplayed(m)
    ensures |ReplayedAll(stored)| == |stored|
    ensures ReplayedAll(stored)[i] == ChatMessage(stored[i].role, [TextBlock(TextIn(stored[i].content))])
  {
    var n := |stored| - 1;
    assert stored[n] in stored;
    if n > 0 {
      ReplaySpeaks(stored[..n], if i < n then i else 0);
    } else {
      assert stored[..0] == [];
    }
  }

  /** The others leave no trace. */
  lemma {:induction false} OthersAreNotReplayed(a: seq<ChatMessage>, m: ChatMessage, b: seq<ChatMessage>)
    requires m.role == Tool || Blank(TextIn(m.content))
    ensures ReplayedAll(a + [m] + b) == ReplayedAll(a + b)
  {
    if b == [] {
      assert a + [m] + b == a + [m] && a + b == a && (a + [m])[..|a|] == a;
      assert ReplayedAll(a) + [] == ReplayedAll(a);
    } else {
      assert (a + [m] + b)[..|a + [m] + b| - 1] == a + [m] + b[..|b| - 1];
      assert (a + b)[..|a + b| - 1] == a + b[..|b| - 1];
      OthersAreNotReplayed(a, m, b[..|b| - 1]);
    }
  }

  /** The window keeps the newest, at most thirty. */
  lemma WindowKeepsTheNewest(messages: seq<ChatMessage>, i: nat)
    ensures var kept := Last(messages, HISTORY_LIMIT);
            && |kept| == (if |messages| <= 30 then |messages| else 30)
            && (i < |kept| ==> kept[|kept| - 1 - i] == messages[|messages| - 1 - i])
  {
  }

  datatype ChatError = AgentFailed(error: AgentError) | NotStored

  /** What an exchange comes to: a run's result counts only once its messages have been stored. */
  function Replied(user: string, script: Script, bound: nat, stores: bool): Result<AgentRunResult, ChatError> {
    match Outcome(user, script, bound)
    case Ok(result) => if stores then Ok(result) else Err(NotStored)
    case Err(error) => Err(AgentFailed(error))
  }

  class Conversation {
    var messages: seq<ChatMessage>

    constructor ()
      ensures messages == []
    {
      messages := [];
    }

    /** `stores` says whether the commit goes through; if it does not, nothing is kept. */
    method Persist(result: AgentRunResult, stores: bool) returns (ok: bool)
      modifies this
      ensures ok == stores && messages == old(messages) + if stores then result.newMessages else []
    {
      var session := messages;
      for i := 0 to |result.newMessages|
        invariant session == messages + result.newMessages[..i]
      {
        session := session + [result.newMessages[i]];
      }
      if stores {
        messages := session;
      }
      ok := stores;
    }
  }

  lemma {:induction false} ReplayIsTextOnly(stored: seq<ChatMessage>)
    ensures forall m :: m in ReplayedAll(stored) ==> m.role != Tool && CallsIn(m.content) == [] && AnswersIn(m.content) == []
  {
    if stored != [] {
      ReplayIsTextOnly(stored[..|stored| - 1]);
      var last := stored[|stored| - 1];
      TextIsPlain(last.role, TextIn(last.content));
    }
  }

  lemma TextOnlyIsPaired(stored: seq<ChatMessage>, kept: seq<ChatMessage>)
    requires kept == Last(ReplayedAll(stored), HISTORY_LIMIT)
    ensures Paired(kept)
  {
    ReplayIsTextOnly(stored);
    forall i | 0 <= i < |kept|
      ensures PairedAt(kept, i)
    {
      assert kept[i] in ReplayedAll(stored);
    }
  }
}
