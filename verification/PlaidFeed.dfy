/** The change feed behind /transactions/sync: an item's history of events, and what a window of it means. */
module PlaidFeed {
  import opened Wrappers

  /** personal_finance_category; either code may be missing. */
  datatype Pfc = Pfc(primary: Option<string>, detailed: Option<string>)

  /** One payload.  Dates are day numbers and amounts are counts of 1/10000 (the column is NUMERIC(19,4)). */
  datatype Entry = Entry(transactionId: string, accountId: Option<string>, date: int, merchantName: Option<string>,
                         name: Option<string>, amount: int, currency: Option<string>, pfc: Option<Pfc>, pending: bool)

  datatype Event = Add(entry: Entry) | Modify(entry: Entry) | Remove(removedId: string)
  {
    function Id(): string {
      if Remove? then removedId else entry.transactionId
    }
  }

  /** What the feed promises: an id is added once and first, and never heard of again once removed.
      `account` fixes the account of every transaction id. */
  predicate WellFormed(feed: seq<Event>, account: string -> Option<string>) {
    && (forall i, j :: 0 <= i < j < |feed| && feed[i].Id() == feed[j].Id() ==> !feed[i].Remove? && !feed[j].Add?)
    && (forall i :: 0 <= i < |feed| && !feed[i].Remove? ==> feed[i].entry.accountId == account(feed[i].Id()))
  }

  // ----- the meaning of a history: events one by one, in feed order -----

  function Happen(live: map<string, Entry>, event: Event): map<string, Entry> {
    if event.Remove? then live - {event.removedId} else live[event.Id() := event.entry]
  }

  function Replay(live: map<string, Entry>, events: seq<Event>): map<string, Entry> {
    if events == [] then live
    else Happen(Replay(live, events[..|events| - 1]), events[|events| - 1])
  }

  // ----- how the sync consumes a window: all added, then all modified, then all removed -----

  function Added(events: seq<Event>): seq<Entry> {
    if events == [] then []
    else Added(events[..|events| - 1]) +
         (if events[|events| - 1].Add? then [events[|events| - 1].entry] else [])
  }

  function Modified(events: seq<Event>): seq<Entry> {
    if events == [] then []
    else Modified(events[..|events| - 1]) +
         (if events[|events| - 1].Modify? then [events[|events| - 1].entry] else [])
  }

  function Removed(events: seq<Event>): seq<string> {
    if events == [] then []
    else Removed(events[..|events| - 1]) +
         (if events[|events| - 1].Remove? then [events[|events| - 1].removedId] else [])
  }

  function Changed(events: seq<Event>): seq<Entry> {
    Added(events) + Modified(events)
  }

  function Upserts(live: map<string, Entry>, entries: seq<Entry>): map<string, Entry> {
    if entries == [] then live
    else Upserts(live, entries[..|entries| - 1])[entries[|entries| - 1].transactionId := entries[|entries| - 1]]
  }

  function Ids(removed: seq<string>): set<string> {
    set id | id in removed
  }

  function Collapse(live: map<string, Entry>, events: seq<Event>): map<string, Entry> {
    Upserts(live, Changed(events)) - Ids(Removed(events))
  }

  function CollapseAll(live: map<string, Entry>, windows: seq<seq<Event>>): map<string, Entry> {
    if windows == [] then live
    else Collapse(CollapseAll(live, windows[..|windows| - 1]), windows[|windows| - 1])
  }

  function Concat(windows: seq<seq<Event>>): seq<Event> {
    if windows == [] then []
    else Concat(windows[..|windows| - 1]) + windows[|windows| - 1]
  }

  /** The latest payload ever sent for each id, removed or not: what the raw landing zone holds. */
  function Payloads(stored: map<string, Entry>, events: seq<Event>): map<string, Entry> {
    if events == [] then stored
    else
      var last := events[|events| - 1];
      var before := Payloads(stored, events[..|events| - 1]);
      if last.Remove? then before else before[last.Id() := last.entry]
  }

  // ----- splitting and membership -----

  lemma NothingSplit()
    ensures Added([]) == [] && Modified([]) == [] && Removed([]) == []
  {
  }

  lemma {:induction false} SplitConcat(a: seq<Event>, b: seq<Event>)
    ensures Added(a + b) == Added(a) + Added(b)
    ensures Modified(a + b) == Modified(a) + Modified(b)
    ensures Removed(a + b) == Removed(a) + Removed(b)
  {
    hide Added, Modified, Removed;
    if b == [] {
      assert a + b == a;
      NothingSplit();
    } else {
      var init, last := b[..|b| - 1], b[|b| - 1];
      assert a + b == a + init + [last] && b == init + [last];
      SplitConcat(a, init);
      SplitPush(a + init, last);
      SplitPush(init, last);
    }
  }

  lemma SplitPush(events: seq<Event>, last: Event)
    ensures Added(events + [last]) == if last.Add? then Added(events) + [last.entry] else Added(events)
    ensures Modified(events + [last]) == if last.Modify? then Modified(events) + [last.entry] else Modified(events)
    ensures Removed(events + [last]) == if last.Remove? then Removed(events) + [last.removedId] else Removed(events)
  {
    assert (events + [last])[..|events|] == events;
  }

  lemma {:induction false} ReplayConcat(live: map<string, Entry>, a: seq<Event>, b: seq<Event>)
    ensures Replay(live, a + b) == Replay(Replay(live, a), b)
    ensures Payloads(live, a + b) == Payloads(Payloads(live, a), b)
  {
    if b == [] {
      assert a + b == a;
    } else {
      assert (a + b)[..|a + b| - 1] == a + b[..|b| - 1];
      ReplayConcat(live, a, b[..|b| - 1]);
    }
  }

  predicate Mentions(events: seq<Event>, id: string) {
    events != [] && (events[|events| - 1].Id() == id || Mentions(events[..|events| - 1], id))
  }

  lemma {:induction false} MentionsConcat(a: seq<Event>, b: seq<Event>, id: string)
    ensures Mentions(a + b, id) <==> Mentions(a, id) || Mentions(b, id)
  {
    if b == [] {
      assert a + b == a;
    } else {
      assert (a + b)[..|a + b| - 1] == a + b[..|b| - 1];
      MentionsConcat(a, b[..|b| - 1], id);
    }
  }

  lemma {:induction false} MentionedAt(events: seq<Event>, id: string) returns (i: nat)
    requires Mentions(events, id)
    ensures i < |events| && events[i].Id() == id
  {
    i := |events| - 1;
    if events[i].Id() != id {
      i := MentionedAt(events[..i], id);
    }
  }

  lemma {:induction false} SplitMentions(events: seq<Event>)
    ensures forall e :: e in Changed(events) ==> Mentions(events, e.transactionId)
    ensures forall id :: id in Removed(events) ==> Mentions(events, id)
  {
    if events != [] {
      SplitMentions(events[..|events| - 1]);
    }
  }

  lemma {:induction false} UpsertCommutes(live: map<string, Entry>, a: seq<Entry>, e: Entry, b: seq<Entry>)
    requires forall x :: x in b ==> x.transactionId != e.transactionId
    ensures Upserts(live, a + [e] + b) == Upserts(live, a + b)[e.transactionId := e]
  {
    hide Upserts;
    if b == [] {
      assert a + [e] + b == a + [e] && a + b == a;
      UpsertPush(live, a, e);
    } else {
      var init, last := b[..|b| - 1], b[|b| - 1];
      assert a + [e] + b == (a + [e] + init) + [last] && a + b == (a + init) + [last];
      assert last in b;
      UpsertCommutes(live, a, e, init);
      UpsertPush(live, a + [e] + init, last);
      UpsertPush(live, a + init, last);
    }
  }

  lemma UpsertPush(live: map<string, Entry>, entries: seq<Entry>, last: Entry)
    ensures Upserts(live, entries + [last]) == Upserts(live, entries)[last.transactionId := last]
  {
    assert (entries + [last])[..|entries|] == entries;
  }

  // ----- collapsing a window means replaying it -----

  lemma WellFormedSlice(feed: seq<Event>, account: string -> Option<string>, lo: nat, hi: nat)
    requires WellFormed(feed, account) && lo <= hi <= |feed|
    ensures WellFormed(feed[lo..hi], account)
  {
    var s := feed[lo..hi];
    forall i, j | 0 <= i < j < |s| && s[i].Id() == s[j].Id()
      ensures !s[i].Remove? && !s[j].Add?
    {
      assert feed[lo + i] == s[i] && feed[lo + j] == s[j];
    }
  }

  lemma LastIsNew(init: seq<Event>, last: Event, account: string -> Option<string>)
    requires WellFormed(init + [last], account)
    ensures forall e :: e in Modified(init) && last.Add? ==> e.transactionId != last.Id()
    ensures last.Id() !in Removed(init)
  {
    var events := init + [last];
    forall i | 0 <= i < |init| && init[i].Id() == last.Id()
      ensures !init[i].Remove? && !last.Add?
    {
      assert events[i] == init[i] && events[|init|] == last;
    }
    SplitMentions(init);
    if Mentions(init, last.Id()) {
      var i := MentionedAt(init, last.Id());
    }
    if last.Id() in Removed(init) {
      var i := RemovedByEvent(init, last.Id());
    }
  }

  lemma {:induction false} RemovedByEvent(events: seq<Event>, id: string) returns (i: nat)
    requires id in Removed(events)
    ensures i < |events| && events[i].Remove? && events[i].Id() == id
  {
    i := |events| - 1;
    if events[i] != Remove(id) {
      i := RemovedByEvent(events[..i], id);
    }
  }

  /** Upserting a window's added then modified payloads and then deleting its removed ids leaves, from any starting
      point, what replaying its events one by one leaves; the payloads landed are the latest ones. */
  lemma {:induction false} CollapseIsReplay(live: map<string, Entry>, events: seq<Event>,
                                            account: string -> Option<string>)
    requires WellFormed(events, account)
    ensures Collapse(live, events) == Replay(live, events)
    ensures Upserts(live, Changed(events)) == Payloads(live, events)
  {
    if events == [] {
      assert Ids(Removed(events)) == {};
    } else {
      var init, last := events[..|events| - 1], events[|events| - 1];
      assert init + [last] == events;
      WellFormedSlice(events, account, 0, |events| - 1);
      CollapseIsReplay(live, init, account);
      LastIsNew(init, last, account);
      CollapseOneMore(live, init, last);
    }
  }

  lemma CollapseOneMore(live: map<string, Entry>, init: seq<Event>, last: Event)
    requires forall e :: e in Modified(init) && last.Add? ==> e.transactionId != last.Id()
    requires last.Id() !in Removed(init)
    ensures Collapse(live, init + [last]) == Happen(Collapse(live, init), last)
    ensures Upserts(live, Changed(init + [last]))
         == if last.Remove? then Upserts(live, Changed(init))
            else Upserts(live, Changed(init))[last.Id() := last.entry]
  {
    hide Upserts, Changed, Added, Modified, Removed;
    UpsertsOneMore(live, init, last);
    RemovedOneMore(init, last);
  }

  lemma RemovedOneMore(init: seq<Event>, last: Event)
    ensures Ids(Removed(init + [last])) == Ids(Removed(init)) + if last.Remove? then {last.removedId} else {}
  {
    assert (init + [last])[..|init|] == init;
  }

  lemma UpsertsOneMore(live: map<string, Entry>, init: seq<Event>, last: Event)
    requires forall e :: e in Modified(init) && last.Add? ==> e.transactionId != last.Id()
    ensures Upserts(live, Changed(init + [last]))
         == if last.Remove? then Upserts(live, Changed(init))
            else Upserts(live, Changed(init))[last.Id() := last.entry]
  {
    assert (init + [last])[..|init|] == init;
    if last.Add? {
      UpsertCommutes(live, Added(init), last.entry, Modified(init));
      assert Modified(init) + [] == Modified(init);
    } else if last.Modify? {
      assert Changed(init + [last]) == Changed(init) + [last.entry];
      assert (Changed(init) + [last.entry])[..|Changed(init)|] == Changed(init);
    } else {
      assert Modified(init) + [] == Modified(init) && Added(init) + [] == Added(init);
    }
  }

  // ----- exactly when it does -----

  /** The last event of a transaction. */
  function LastEvent(events: seq<Event>, id: string): Option<Event> {
    if events == [] then None
    else if events[|events| - 1].Id() == id then Some(events[|events| - 1])
    else LastEvent(events[..|events| - 1], id)
  }

  /** The last payload of a transaction. */
  function LastEntry(entries: seq<Entry>, id: string): Option<Entry> {
    if entries == [] then None
    else if entries[|entries| - 1].transactionId == id then Some(entries[|entries| - 1])
    else LastEntry(entries[..|entries| - 1], id)
  }

  /** A transaction whose last event in the window is no removal is removed nowhere in it, and that event's payload is the
      last one when the added come before the modified. */
  predicate OrderIsHarmless(events: seq<Event>, id: string) {
    var last := LastEvent(events, id);
    last.Some? && !last.value.Remove? ==>
      id !in Removed(events) && LastEntry(Changed(events), id) == Some(last.value.entry)
  }

  lemma {:induction false} ReplayAt(live: map<string, Entry>, events: seq<Event>, id: string)
    ensures var last, after := LastEvent(events, id), Replay(live, events);
            && (id in after <==> if last.None? then id in live else !last.value.Remove?)
            && (id in after ==> after[id] == if last.None? then live[id] else last.value.entry)
    ensures LastEvent(events, id).Some? && LastEvent(events, id).value.Remove? ==> id in Removed(events)
    ensures LastEvent(events, id).None? <==> !Mentions(events, id)
  {
    if events != [] {
      ReplayAt(live, events[..|events| - 1], id);
    }
  }

  lemma {:induction false} UpsertsAt(live: map<string, Entry>, entries: seq<Entry>, id: string)
    ensures var last, after := LastEntry(entries, id), Upserts(live, entries);
            && (id in after <==> last.Some? || id in live)
            && (id in after ==> after[id] == if last.Some? then last.value else live[id])
    ensures LastEntry(entries, id).None? <==> forall e :: e in entries ==> e.transactionId != id
  {
    if entries != [] {
      UpsertsAt(live, entries[..|entries| - 1], id);
      assert entries == entries[..|entries| - 1] + [entries[|entries| - 1]];
    }
  }

  lemma {:induction false} LastIsChanged(events: seq<Event>, id: string)
    requires LastEvent(events, id).Some? && !LastEvent(events, id).value.Remove?
    ensures LastEvent(events, id).value.entry in Changed(events) && LastEvent(events, id).value.entry.transactionId == id
  {
    if events[|events| - 1].Id() != id {
      LastIsChanged(events[..|events| - 1], id);
    }
  }

  predicate SameEntryAt(a: map<string, Entry>, b: map<string, Entry>, id: string) {
    (id in a <==> id in b) && (id in a ==> a[id] == b[id])
  }

  lemma CollapseAtIff(live: map<string, Entry>, events: seq<Event>, id: string)
    ensures SameEntryAt(Collapse(live, events), Replay(live, events), id) <==> OrderIsHarmless(events, id)
  {
    hide Upserts, Replay, Removed, Changed, LastEvent, LastEntry;
    ReplayAt(live, events, id);
    UpsertsAt(live, Changed(events), id);
    SplitMentions(events);
    if LastEvent(events, id).Some? && !LastEvent(events, id).value.Remove? {
      LastIsChanged(events, id);
    }
  }

  /** From any table, whatever the feed promises, the collapse of a window is its replay if and only if the order does no
      harm to any transaction. */
  lemma CollapseIsReplayIff(live: map<string, Entry>, events: seq<Event>)
    ensures Collapse(live, events) == Replay(live, events) <==> forall id :: OrderIsHarmless(events, id)
  {
    hide Collapse, Replay, OrderIsHarmless;
    var a, b := Collapse(live, events), Replay(live, events);
    forall id: string
      ensures SameEntryAt(a, b, id) <==> OrderIsHarmless(events, id)
    {
      CollapseAtIff(live, events, id);
    }
    if forall id :: OrderIsHarmless(events, id) {
      forall id: string
        ensures (id in a <==> id in b) && (id in a ==> a[id] == b[id])
      {
        assert OrderIsHarmless(events, id) && SameEntryAt(a, b, id);
      }
      assert a == b;
    }
  }

  /** The promise matters: an id that is re-added after its removal is lost by the collapse. */
  lemma ReAddIsLost(e: Entry)
    ensures var history := [Add(e)] + [Remove(e.transactionId)] + [Add(e)];
            Replay(map[], history) == map[e.transactionId := e] && Collapse(map[], history) == map[]
  {
    var add, remove := [Add(e)], [Remove(e.transactionId)];
    assert add[..0] == [] && remove[..0] == [];
    ReplayConcat(map[], add + remove, add);
    SplitConcat(add, remove);
    SplitConcat(add + remove, add);
    assert e.transactionId in Ids(Removed(add + remove + add));
    assert Changed(add + remove + add) == [e, e] && [e, e][..1] == [e] && [e][..0] == [];
    var none: map<string, Entry> := map[];
    assert Replay(none, add) == map[e.transactionId := e] && Replay(none, add + remove) == map[] by {
      ReplayConcat(none, add, remove);
    }
    assert Upserts(none, [e]) == map[e.transactionId := e];
    assert Upserts(none, [e, e]) == map[e.transactionId := e];
  }

  // ----- overlapping windows -----

  /** Two starting points that agree on every id a window does not mention are one after it. */
  lemma {:induction false} ReplayForgets(a: map<string, Entry>, b: map<string, Entry>, events: seq<Event>, id: string)
    requires Mentions(events, id) || ((id in a <==> id in b) && (id in a ==> a[id] == b[id]))
    ensures id in Replay(a, events) <==> id in Replay(b, events)
    ensures id in Replay(a, events) ==> Replay(a, events)[id] == Replay(b, events)[id]
  {
    if events != [] && events[|events| - 1].Id() != id {
      ReplayForgets(a, b, events[..|events| - 1], id);
    }
  }

  lemma {:induction false} ReplayKeeps(a: map<string, Entry>, events: seq<Event>, id: string)
    requires !Mentions(events, id)
    ensures id in Replay(a, events) <==> id in a
    ensures id in a ==> Replay(a, events)[id] == a[id]
  {
    if events != [] {
      ReplayKeeps(a, events[..|events| - 1], id);
    }
  }

  lemma {:induction false} CollapseAllIsReplay(live: map<string, Entry>, windows: seq<seq<Event>>,
                                               account: string -> Option<string>)
    requires WellFormed(Concat(windows), account)
    ensures CollapseAll(live, windows) == Replay(live, Concat(windows))
  {
    if windows != [] {
      var init, last := windows[..|windows| - 1], windows[|windows| - 1];
      var all := Concat(windows);
      assert all[..|Concat(init)|] == Concat(init) && all[|Concat(init)|..] == last;
      WellFormedSlice(all, account, 0, |Concat(init)|);
      WellFormedSlice(all, account, |Concat(init)|, |all|);
      assert all[|Concat(init)|..|all|] == last;
      CollapseAllIsReplay(live, init, account);
      CollapseIsReplay(CollapseAll(live, init), last, account);
      ReplayConcat(live, Concat(init), last);
    }
  }

  /** Overlap is harmless: from the table reached after `overlap`, re-applying windows that start before it and run
      to the end of the feed reaches the table of one straight pass. */
  lemma OverlappingWindowsConverge(past: seq<Event>, overlap: seq<Event>, rest: seq<Event>, windows: seq<seq<Event>>,
                                   account: string -> Option<string>)
    requires WellFormed(past + overlap + rest, account)
    requires Concat(windows) == overlap + rest
    ensures CollapseAll(Replay(map[], past + overlap), windows) == Replay(map[], past + overlap + rest)
  {
    var feed := past + overlap + rest;
    assert feed[|past|..|feed|] == overlap + rest;
    WellFormedSlice(feed, account, |past|, |feed|);
    CollapseAllIsReplay(Replay(map[], past + overlap), windows, account);
    SamePastSameFuture(Replay(map[], past), overlap, rest);
    ReplayConcat(map[], past, overlap);
    ReplayConcat(map[], past, overlap + rest);
    assert past + (overlap + rest) == feed;
  }

  lemma SamePastSameFuture(early: map<string, Entry>, overlap: seq<Event>, rest: seq<Event>)
    ensures Replay(Replay(early, overlap), overlap + rest) == Replay(early, overlap + rest)
  {
    forall id: string
      ensures id in Replay(Replay(early, overlap), overlap + rest) <==> id in Replay(early, overlap + rest)
      ensures id in Replay(early, overlap + rest) ==>
              Replay(Replay(early, overlap), overlap + rest)[id] == Replay(early, overlap + rest)[id]
    {
      MentionsConcat(overlap, rest, id);
      if !Mentions(overlap, id) {
        ReplayKeeps(early, overlap, id);
      }
      ReplayForgets(Replay(early, overlap), early, overlap + rest, id);
    }
  }

  // ----- the same of the landed payloads -----

  lemma {:induction false} PayloadsForget(a: map<string, Entry>, b: map<string, Entry>, events: seq<Event>, id: string)
    requires Lands(events, id) || ((id in a <==> id in b) && (id in a ==> a[id] == b[id]))
    ensures id in Payloads(a, events) <==> id in Payloads(b, events)
    ensures id in Payloads(a, events) ==> Payloads(a, events)[id] == Payloads(b, events)[id]
  {
    if events != [] && (events[|events| - 1].Remove? || events[|events| - 1].Id() != id) {
      PayloadsForget(a, b, events[..|events| - 1], id);
    }
  }

  /** An event lands a payload for the id. */
  predicate Lands(events: seq<Event>, id: string) {
    events != [] &&
    var last := events[|events| - 1];
    (!last.Remove? && last.Id() == id) || Lands(events[..|events| - 1], id)
  }

  lemma {:induction false} PayloadsKeep(a: map<string, Entry>, events: seq<Event>, id: string)
    requires !Lands(events, id)
    ensures id in Payloads(a, events) <==> id in a
    ensures id in a ==> Payloads(a, events)[id] == a[id]
  {
    if events != [] {
      PayloadsKeep(a, events[..|events| - 1], id);
    }
  }

  lemma {:induction false} LandsConcat(a: seq<Event>, b: seq<Event>, id: string)
    ensures Lands(a + b, id) <==> Lands(a, id) || Lands(b, id)
  {
    if b == [] {
      assert a + b == a;
    } else {
      assert (a + b)[..|a + b| - 1] == a + b[..|b| - 1];
      LandsConcat(a, b[..|b| - 1], id);
    }
  }

  /** Going over events once more lands the same payloads. */
  lemma SamePastSamePayloads(early: map<string, Entry>, overlap: seq<Event>, rest: seq<Event>)
    ensures Payloads(Payloads(early, overlap), overlap + rest) == Payloads(early, overlap + rest)
  {
    forall id: string
      ensures id in Payloads(Payloads(early, overlap), overlap + rest) <==> id in Payloads(early, overlap + rest)
      ensures id in Payloads(early, overlap + rest) ==>
              Payloads(Payloads(early, overlap), overlap + rest)[id] == Payloads(early, overlap + rest)[id]
    {
      LandsConcat(overlap, rest, id);
      if !Lands(overlap, id) {
        PayloadsKeep(early, overlap, id);
      }
      PayloadsForget(Payloads(early, overlap), early, overlap + rest, id);
    }
  }
}
