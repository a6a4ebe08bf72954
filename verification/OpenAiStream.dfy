/** The streaming half of the Chat Completions adapter: fragments, however cut and interleaved, rebuild the message. */
module OpenAiStream {
  import opened Wrappers
  import opened JsonText
  import opened ChatSchemas
  import opened OpenAiClient

  datatype FunctionPart = FunctionPart(name: Option<string>, arguments: Option<string>)

  datatype Fragment = Fragment(index: int, id: Option<string>, part: Option<FunctionPart>)

  datatype Delta = Delta(content: Option<string>, toolCalls: seq<Fragment>)

  datatype Choice = Choice(finishReason: Option<string>, delta: Option<Delta>)

  datatype Chunk = Chunk(choices: seq<Choice>)

  datatype Partial = Partial(id: string, name: string, arguments: string)

  function FirstDelta(chunk: Chunk): Delta {
    if chunk.choices == [] || chunk.choices[0].delta.None? then Delta(None, []) else chunk.choices[0].delta.value
  }

  // ----- the accumulator -----

  /** Python's `x or default` on an optional string. */
  function OrElse(x: Option<string>, default: string): string {
    if x.Some? && x.value != "" then x.value else default
  }

  function NamePart(f: Fragment): string {
    if f.part.Some? then f.part.value.name.GetOr("") else ""
  }

  function ArgumentsPart(f: Fragment): string {
    if f.part.Some? then f.part.value.arguments.GetOr("") else ""
  }

  function AddFragment(calls: map<int, Partial>, f: Fragment): map<int, Partial> {
    var call := if f.index in calls then calls[f.index] else Partial("", "", "");
    calls[f.index := Partial(OrElse(f.id, call.id), call.name + NamePart(f), call.arguments + ArgumentsPart(f))]
  }

  function AddFragments(calls: map<int, Partial>, fragments: seq<Fragment>): map<int, Partial> {
    if fragments == [] then calls
    else AddFragment(AddFragments(calls, fragments[..|fragments| - 1]), fragments[|fragments| - 1])
  }

  /** All fragments of a stream, in order of arrival. */
  function FragmentsOf(chunks: seq<Chunk>): seq<Fragment> {
    if chunks == [] then []
    else FragmentsOf(chunks[..|chunks| - 1]) + FirstDelta(chunks[|chunks| - 1]).toolCalls
  }

  /** The text deltas forwarded, in order. */
  function TextDeltas(chunks: seq<Chunk>): seq<string> {
    if chunks == [] then []
    else
      var content := OrElse(FirstDelta(chunks[|chunks| - 1]).content, "");
      TextDeltas(chunks[..|chunks| - 1]) + if content == "" then [] else [content]
  }

  function Concat(parts: seq<string>): string {
    if parts == [] then "" else Concat(parts[..|parts| - 1]) + parts[|parts| - 1]
  }

  /** The latest finish reason that is not empty. */
  function FinishOf(chunks: seq<Chunk>): Option<string> {
    if chunks == [] then None
    else
      var last := chunks[|chunks| - 1];
      if last.choices != [] && OrElse(last.choices[0].finishReason, "") != "" then last.choices[0].finishReason
      else FinishOf(chunks[..|chunks| - 1])
  }

  ghost predicate Ascending(keys: seq<int>) {
    forall i, j :: 0 <= i < j < |keys| ==> keys[i] < keys[j]
  }

  /** `keys` lists the set in increasing order. */
  ghost predicate IsSorted(keys: seq<int>, of: set<int>) {
    Ascending(keys) && forall k :: k in keys <==> k in of
  }

  /** The accumulated calls at these indices. */
  function CallsAt(loads: string -> Option<Json>, calls: map<int, Partial>, keys: seq<int>): seq<ToolCall>
    requires forall k :: k in keys ==> k in calls
  {
    if keys == [] then []
    else
      var last := keys[|keys| - 1];
      CallsAt(loads, calls, keys[..|keys| - 1]) +
      [ToolCall(calls[last].id, calls[last].name, ParseArguments(loads, calls[last].arguments))]
  }

  method Stream(loads: string -> Option<Json>, chunks: seq<Chunk>)
    returns (deltas: seq<string>, r: LLMResponse, ghost keys: seq<int>)
    ensures deltas == TextDeltas(chunks) && r.text == Concat(deltas)
    ensures var calls := AddFragments(map[], FragmentsOf(chunks));
            && IsSorted(keys, calls.Keys) && (forall k :: k in keys ==> k in calls)
            && r == Respond(Concat(deltas), CallsAt(loads, calls, keys), FinishOf(chunks))
    ensures Consistent(r)
  {
    hide UseBlocks, ParseArguments;
    var calls: map<int, Partial> := map[];
    var finishReason: Option<string> := None;
    deltas := [];
    for i := 0 to |chunks|
      invariant deltas == TextDeltas(chunks[..i]) && finishReason == FinishOf(chunks[..i])
      invariant calls == AddFragments(map[], FragmentsOf(chunks[..i]))
    {
      assert chunks[..i + 1][..i] == chunks[..i];
      if chunks[i].choices == [] {
        assert FragmentsOf(chunks[..i + 1]) == FragmentsOf(chunks[..i]);
        continue;
      }
      var choice := chunks[i].choices[0];
      if OrElse(choice.finishReason, "") != "" {
        finishReason := choice.finishReason;
      }
      if choice.delta.None? {
        assert FragmentsOf(chunks[..i + 1]) == FragmentsOf(chunks[..i]);
        continue;
      }
      var content := OrElse(choice.delta.value.content, "");
      if content != "" {
        deltas := deltas + [content];
      }
      calls := Collect(calls, choice.delta.value.toolCalls);
      AddConcat(map[], FragmentsOf(chunks[..i]), choice.delta.value.toolCalls);
    }
    assert chunks[..|chunks|] == chunks;
    var text := Concat(deltas);
    var toolCalls, blocks;
    toolCalls, blocks, keys := InOrder(loads, calls);
    r := LLMResponse((if text == "" then [] else [TextBlock(text)]) + blocks, text, toolCalls, StopReason(finishReason));
    RespondIsConsistent(text, toolCalls, finishReason);
  }

  method Collect(calls: map<int, Partial>, fragments: seq<Fragment>) returns (updated: map<int, Partial>)
    ensures updated == AddFragments(calls, fragments)
  {
    updated := calls;
    for i := 0 to |fragments|
      invariant updated == AddFragments(calls, fragments[..i])
    {
      assert fragments[..i + 1][..i] == fragments[..i];
      var fragment := fragments[i];
      var call := if fragment.index in updated then updated[fragment.index] else Partial("", "", "");
      NothingAppended(call);
      if OrElse(fragment.id, "") != "" {
        call := call.(id := fragment.id.value);
      }
      if fragment.part.Some? {
        call := call.(name := call.name + fragment.part.value.name.GetOr(""),
                      arguments := call.arguments + fragment.part.value.arguments.GetOr(""));
      }
      updated := updated[fragment.index := call];
    }
    assert fragments[..|fragments|] == fragments;
  }

  lemma NothingAppended(call: Partial)
    ensures call.name + "" == call.name && call.arguments + "" == call.arguments
  {
  }

  /** The calls sorted by index, as calls and as content blocks. */
  method InOrder(loads: string -> Option<Json>, calls: map<int, Partial>)
    returns (toolCalls: seq<ToolCall>, blocks: seq<Block>, ghost keys: seq<int>)
    ensures IsSorted(keys, calls.Keys) && (forall k :: k in keys ==> k in calls)
    ensures toolCalls == CallsAt(loads, calls, keys) && blocks == UseBlocks(toolCalls)
  {
    hide UseBlocks, ParseArguments, CallsAt, IsSorted;
    toolCalls, blocks, keys := [], [], [];
    NoUseBlocks();
    NothingSorted();
    NoCallsAt(loads, calls);
    var left := calls.Keys;
    assert calls.Keys - left == {};
    while left != {}
      invariant left <= calls.Keys && (forall k :: k in keys ==> k in calls)
      invariant IsSorted(keys, calls.Keys - left)
      invariant forall k, j :: k in keys && j in left ==> k < j
      invariant toolCalls == CallsAt(loads, calls, keys) && blocks == UseBlocks(toolCalls)
      decreases |left|
    {
      var k := Least(left);
      var call := ToolCall(calls[k].id, calls[k].name, ParseArguments(loads, calls[k].arguments));
      blocks := blocks + [ToolUseBlock(call.id, call.name, call.arguments)];
      OneMoreUseBlock(toolCalls, call);
      toolCalls := toolCalls + [call];
      SortedAppend(keys, calls.Keys - left, k);
      OneMoreCallAt(loads, calls, keys, k);
      assert calls.Keys - left + {k} == calls.Keys - (left - {k});
      keys, left := keys + [k], left - {k};
    }
    assert calls.Keys - left == calls.Keys;
  }

  ghost predicate IsLeast(k: int, s: set<int>) {
    k in s && forall j :: j in s ==> k <= j
  }

  method Least(s: set<int>) returns (k: int)
    requires s != {}
    ensures IsLeast(k, s)
  {
    assert (forall x :: x !in s) ==> s == {};
    ghost var x :| x in s;
    LeastExists(s, x);
    k :| k in s && forall j :: j in s ==> k <= j;
  }

  lemma NothingSorted()
    ensures IsSorted([], {})
  {
  }

  lemma NoCallsAt(loads: string -> Option<Json>, calls: map<int, Partial>)
    ensures CallsAt(loads, calls, []) == []
  {
  }

  lemma OneMoreCallAt(loads: string -> Option<Json>, calls: map<int, Partial>, keys: seq<int>, k: int)
    requires k in calls && forall j :: j in keys ==> j in calls
    ensures forall j :: j in keys + [k] ==> j in calls
    ensures CallsAt(loads, calls, keys + [k])
            == CallsAt(loads, calls, keys) +
               [ToolCall(calls[k].id, calls[k].name, ParseArguments(loads, calls[k].arguments))]
  {
    hide ParseArguments;
    assert (keys + [k])[..|keys|] == keys;
  }

  lemma SortedAppend(keys: seq<int>, of: set<int>, k: int)
    requires IsSorted(keys, of) && forall j :: j in keys ==> j < k
    ensures IsSorted(keys + [k], of + {k})
  {
    assert forall i :: 0 <= i < |keys| ==> keys[i] in keys;
  }

  lemma {:induction false} LeastExists(s: set<int>, x: int)
    requires x in s
    ensures exists k :: IsLeast(k, s)
    decreases |s|
  {
    if !IsLeast(x, s) {
      var y :| y in s && y < x;
      assert y in s - {x};
      LeastExists(s - {x}, y);
      var z :| IsLeast(z, s - {x});
      assert z <= y;
      forall j | j in s ensures z <= j {
        assert j == x || j in s - {x};
      }
      assert IsLeast(z, s);
    }
  }

  lemma {:induction false} AddConcat(calls: map<int, Partial>, a: seq<Fragment>, b: seq<Fragment>)
    ensures AddFragments(calls, a + b) == AddFragments(AddFragments(calls, a), b)
  {
    if b == [] {
      assert a + b == a;
    } else {
      assert (a + b)[..|a + b| - 1] == a + b[..|b| - 1];
      AddConcat(calls, a, b[..|b| - 1]);
    }
  }

  // ----- fragmentations of a message -----

  /** The fragments addressed to one index, in order of arrival. */
  function Addressed(fragments: seq<Fragment>, index: int): seq<Fragment> {
    if fragments == [] then []
    else
      var last := fragments[|fragments| - 1];
      Addressed(fragments[..|fragments| - 1], index) + if last.index == index then [last] else []
  }

  function LastId(fragments: seq<Fragment>): string {
    if fragments == [] then "" else OrElse(fragments[|fragments| - 1].id, LastId(fragments[..|fragments| - 1]))
  }

  function JoinedName(fragments: seq<Fragment>): string {
    if fragments == [] then ""
    else JoinedName(fragments[..|fragments| - 1]) + NamePart(fragments[|fragments| - 1])
  }

  function JoinedArguments(fragments: seq<Fragment>): string {
    if fragments == [] then ""
    else JoinedArguments(fragments[..|fragments| - 1]) + ArgumentsPart(fragments[|fragments| - 1])
  }

  predicate Spells(fragments: seq<Fragment>, call: RawCall) {
    && fragments != [] && LastId(fragments) == call.id
    && JoinedName(fragments) == call.name && JoinedArguments(fragments) == call.arguments
  }

  /** The stream cuts the message up: its text in order, and each call's id, name and arguments in order, the calls
      interleaved in any way. */
  ghost predicate IsFragmentation(chunks: seq<Chunk>, message: RawMessage, finish: Option<string>) {
    && Concat(TextDeltas(chunks)) == message.content.GetOr("")
    && FinishOf(chunks) == finish
    && (forall f :: f in FragmentsOf(chunks) ==> 0 <= f.index < |message.toolCalls|)
    && (forall i :: 0 <= i < |message.toolCalls| ==>
          Spells(Addressed(FragmentsOf(chunks), i), message.toolCalls[i]))
  }

  /** The accumulator holds, for every index, what the fragments addressed to it spell. */
  lemma {:induction false} AccumulatesByIndex(fragments: seq<Fragment>, index: int)
    ensures var calls, mine := AddFragments(map[], fragments), Addressed(fragments, index);
            && (index in calls <==> mine != [])
            && (index in calls ==> calls[index] == Partial(LastId(mine), JoinedName(mine), JoinedArguments(mine)))
  {
    if fragments != [] {
      var init, last := fragments[..|fragments| - 1], fragments[|fragments| - 1];
      AccumulatesByIndex(init, index);
      var mine := Addressed(init, index);
      OneMoreFragment(mine, last);
      assert mine + [] == mine;
    }
  }

  lemma OneMoreFragment(mine: seq<Fragment>, f: Fragment)
    ensures LastId(mine + [f]) == OrElse(f.id, LastId(mine))
    ensures JoinedName(mine + [f]) == JoinedName(mine) + NamePart(f)
    ensures JoinedArguments(mine + [f]) == JoinedArguments(mine) + ArgumentsPart(f)
    ensures mine == [] ==> LastId(mine) == JoinedName(mine) == JoinedArguments(mine) == ""
  {
    assert (mine + [f])[..|mine|] == mine;
  }

  lemma {:induction false} AddressedKeys(fragments: seq<Fragment>, bound: nat)
    requires forall f :: f in fragments ==> 0 <= f.index < bound
    ensures forall k :: k in AddFragments(map[], fragments) ==> 0 <= k < bound
  {
    if fragments != [] {
      assert fragments[|fragments| - 1] in fragments;
      AddressedKeys(fragments[..|fragments| - 1], bound);
    }
  }

  /** Strictly increasing and covering 0..n means being 0..n. */
  lemma {:induction false} SortedIsIdentity(keys: seq<int>, n: nat)
    requires Ascending(keys) && forall k :: k in keys <==> 0 <= k < n
    ensures |keys| == n && forall i :: 0 <= i < n ==> keys[i] == i
  {
    if keys == [] {
      assert n > 0 ==> 0 in keys;
    } else {
      var init := keys[..|keys| - 1];
      assert keys[|keys| - 1] in keys && keys == init + [keys[|keys| - 1]];
      assert n - 1 in keys;
      var p :| 0 <= p < |keys| && keys[p] == n - 1;
      assert p == |keys| - 1;
      forall k ensures k in init <==> 0 <= k < n - 1 {
        assert k in keys <==> k in init || k == n - 1;
        if k in init {
          var i :| 0 <= i < |init| && init[i] == k;
          assert keys[i] < keys[p];
        }
      }
      SortedIsIdentity(init, n - 1);
    }
  }

  lemma {:induction false} FunctionCallsOfAll(loads: string -> Option<Json>, calls: seq<RawCall>)
    ensures |FunctionCalls(loads, calls)| <= |calls|
    ensures |FunctionCalls(loads, calls)| == |calls| <==> forall c :: c in calls ==> c.isFunction
    ensures |FunctionCalls(loads, calls)| == |calls| ==>
            forall i :: 0 <= i < |calls| ==> FunctionCalls(loads, calls)[i] == ToCall(loads, calls[i])
  {
    hide ToCall;
    if calls != [] {
      FunctionCallsOfAll(loads, calls[..|calls| - 1]);
      assert calls == calls[..|calls| - 1] + [calls[|calls| - 1]];
    }
  }

  lemma {:induction false} CallsAtEach(loads: string -> Option<Json>, calls: map<int, Partial>, keys: seq<int>)
    requires forall k :: k in keys ==> k in calls
    ensures |CallsAt(loads, calls, keys)| == |keys|
    ensures forall i :: 0 <= i < |keys| ==>
              CallsAt(loads, calls, keys)[i]
              == ToolCall(calls[keys[i]].id, calls[keys[i]].name, ParseArguments(loads, calls[keys[i]].arguments))
  {
    hide ParseArguments;
    if keys != [] {
      CallsAtEach(loads, calls, keys[..|keys| - 1]);
    }
  }

  /** Two fragments of one call: the id and name come with the first, the arguments in pieces. */
  lemma FragmentsSpell(calls: map<int, Partial>, i: int, id: string, name: string, a: string, b: string)
    requires i !in calls && id != ""
    ensures AddFragments(calls, [Fragment(i, Some(id), Some(FunctionPart(Some(name), Some(a)))),
                                 Fragment(i, None, Some(FunctionPart(None, Some(b))))])
         == calls[i := Partial(id, name, a + b)]
  {
    var first, second :=
      Fragment(i, Some(id), Some(FunctionPart(Some(name), Some(a)))), Fragment(i, None, Some(FunctionPart(None, Some(b))));
    assert [first, second][..1] == [first] && [first][..0] == [];
    assert AddFragments(calls, []) == calls;
    assert "" + name == name && "" + a == a && name + "" == name;
    assert AddFragments(calls, [first]) == calls[i := Partial(id, name, a)];
  }

  /** What one more chunk tells: its first choice's text and fragments, and its finish reason if it has one; a chunk
      without choices nothing. */
  lemma ChunkTells(chunks: seq<Chunk>, text: string, fragments: seq<Fragment>, reason: string, others: seq<Choice>)
    ensures var more := chunks + [Chunk([Choice(Some(reason), Some(Delta(Some(text), fragments)))] + others)];
            && TextDeltas(more) == TextDeltas(chunks) + (if text == "" then [] else [text])
            && FragmentsOf(more) == FragmentsOf(chunks) + fragments
            && FinishOf(more) == if reason != "" then Some(reason) else FinishOf(chunks)
    ensures var more := chunks + [Chunk([])];
            && TextDeltas(more) == TextDeltas(chunks) && FragmentsOf(more) == FragmentsOf(chunks)
            && FinishOf(more) == FinishOf(chunks)
  {
    var told, empty := Chunk([Choice(Some(reason), Some(Delta(Some(text), fragments)))] + others), Chunk([]);
    assert (chunks + [told])[..|chunks|] == chunks && (chunks + [empty])[..|chunks|] == chunks;
    assert FragmentsOf(chunks) + [] == FragmentsOf(chunks);
  }

  /** Fragmentation is invisible: however the message is cut and its calls interleaved, the accumulated calls are the
      message's, in order. */
  lemma FragmentsRebuildCalls(loads: string -> Option<Json>, chunks: seq<Chunk>, message: RawMessage,
                              finish: Option<string>, keys: seq<int>)
    requires IsFragmentation(chunks, message, finish)
    requires IsSorted(keys, AddFragments(map[], FragmentsOf(chunks)).Keys)
    ensures forall k :: k in keys ==> k in AddFragments(map[], FragmentsOf(chunks))
    ensures var calls := CallsAt(loads, AddFragments(map[], FragmentsOf(chunks)), keys);
            |calls| == |message.toolCalls| &&
            forall i :: 0 <= i < |calls| ==> calls[i] == ToCall(loads, message.toolCalls[i])
  {
    hide ParseArguments;
    var calls, n := AddFragments(map[], FragmentsOf(chunks)), |message.toolCalls|;
    AddressedKeys(FragmentsOf(chunks), n);
    forall i | 0 <= i < n
      ensures i in calls && calls[i] == Partial(message.toolCalls[i].id, message.toolCalls[i].name,
                                                message.toolCalls[i].arguments)
    {
      AccumulatesByIndex(FragmentsOf(chunks), i);
      assert Spells(Addressed(FragmentsOf(chunks), i), message.toolCalls[i]);
    }
    assert forall k :: k in keys <==> k in calls.Keys;
    SortedIsIdentity(keys, n);
    CallsAtEach(loads, calls, keys);
  }

  /** The streamed response is the one the whole message translates to if and only if the message has function calls
      only: the non-streaming path drops other calls, the accumulator keeps them. */
  lemma StreamedIsWholeIff(loads: string -> Option<Json>, chunks: seq<Chunk>, message: RawMessage,
                           finish: Option<string>, keys: seq<int>)
    requires IsFragmentation(chunks, message, finish)
    requires IsSorted(keys, AddFragments(map[], FragmentsOf(chunks)).Keys)
    requires forall k :: k in keys ==> k in AddFragments(map[], FragmentsOf(chunks))
    ensures Respond(Concat(TextDeltas(chunks)), CallsAt(loads, AddFragments(map[], FragmentsOf(chunks)), keys),
                    FinishOf(chunks))
            == Respond(message.content.GetOr(""), FunctionCalls(loads, message.toolCalls), finish)
            <==> forall c :: c in message.toolCalls ==> c.isFunction
  {
    hide UseBlocks, ParseArguments, FunctionCalls, CallsAt;
    FragmentsRebuildCalls(loads, chunks, message, finish, keys);
    FunctionCallsOfAll(loads, message.toolCalls);
    var streamed := CallsAt(loads, AddFragments(map[], FragmentsOf(chunks)), keys);
    if |FunctionCalls(loads, message.toolCalls)| == |message.toolCalls| {
      assert streamed == FunctionCalls(loads, message.toolCalls);
    }
  }
}
