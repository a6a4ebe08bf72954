/** Windows that overlap what has been applied already: the tables converge to those of one straight pass. */
module SyncOverlap {
  import opened Wrappers
  import opened PlaidFeed
  import opened Store
  import opened Categorization
  import opened TransactionSync
  import opened SyncRuns

  /** The ledgers left by processing the windows one after the other. */
  ghost predicate ProcessedAll(item: ItemId, accounts: set<string>, windows: seq<seq<Event>>, ledgers: seq<Ledger>) {
    && |ledgers| == |windows| + 1
    && forall i :: 0 <= i < |windows| ==>
         WindowProcessed(ledgers[i], item, accounts, Changed(windows[i]), Removed(windows[i]), ledgers[i + 1])
  }

  /** What the tables hold for an id, standing for these live transactions and these payloads. */
  ghost predicate StandsAt(t: Ledger, accounts: set<string>, live: map<string, Entry>, payloads: map<string, Entry>,
                           account: string -> Option<string>, id: string) {
    && t.categories.Valid() && RowOk(t, accounts, live, id) && RawOk(t, accounts, payloads, id)
    && LandedAt(live, payloads, id) && AccountFixed(live, account, id)
  }

  lemma WindowStands(t: Ledger, item: ItemId, accounts: set<string>, live: map<string, Entry>, payloads: map<string, Entry>,
                     w: seq<Event>, t': Ledger, account: string -> Option<string>, id: string)
    requires WellFormed(w, account) && StandsAt(t, accounts, live, payloads, account, id)
    requires WindowProcessed(t, item, accounts, Changed(w), Removed(w), t')
    ensures StandsAt(t', accounts, Replay(live, w), Payloads(payloads, w), account, id)
    ensures RowExact(t', accounts, Replay(live, w), id)
  {
    hide WellFormed, WindowProcessed, RowOk, RawOk, RowExact, LandedAt, AccountFixed, Changed, Removed, Replay, Payloads;
    WindowOver(t, item, accounts, live, payloads, w, t', account, id);
  }

  lemma {:induction false} WindowsOver(item: ItemId, accounts: set<string>, windows: seq<seq<Event>>, ledgers: seq<Ledger>,
                                       live: map<string, Entry>, payloads: map<string, Entry>,
                                       account: string -> Option<string>, id: string)
    requires WellFormed(Concat(windows), account) && ProcessedAll(item, accounts, windows, ledgers)
    requires StandsAt(ledgers[0], accounts, live, payloads, account, id)
    ensures var all, last := Concat(windows), ledgers[|windows|];
            && StandsAt(last, accounts, Replay(live, all), Payloads(payloads, all), account, id)
            && (windows != [] ==> RowExact(last, accounts, Replay(live, all), id))
    decreases |windows|
  {
    hide WellFormed, WindowProcessed, ProcessedAll, StandsAt, RowExact, Replay, Payloads, Changed, Removed, Concat;
    ProcessedCount(item, accounts, windows, ledgers);
    if windows == [] {
      NothingReplayed(live, payloads);
    } else {
      var n := |windows| - 1;
      var init, last := windows[..n], windows[n];
      ConcatLast(windows);
      SlicesAreWellFormed(Concat(init), last, account);
      FirstProcessed(item, accounts, windows, ledgers);
      WindowsOver(item, accounts, init, ledgers[..n + 1], live, payloads, account, id);
      WindowStands(ledgers[n], item, accounts, Replay(live, Concat(init)), Payloads(payloads, Concat(init)), last,
                   ledgers[n + 1], account, id);
      ReplayConcat(live, Concat(init), last);
      ReplayConcat(payloads, Concat(init), last);
    }
  }

  lemma NothingReplayed(live: map<string, Entry>, payloads: map<string, Entry>)
    ensures Concat([]) == [] && Replay(live, []) == live && Payloads(payloads, []) == payloads
  {
  }

  lemma ConcatLast(windows: seq<seq<Event>>)
    requires windows != []
    ensures Concat(windows) == Concat(windows[..|windows| - 1]) + windows[|windows| - 1]
  {
  }

  lemma FirstProcessed(item: ItemId, accounts: set<string>, windows: seq<seq<Event>>, ledgers: seq<Ledger>)
    requires ProcessedAll(item, accounts, windows, ledgers) && windows != []
    ensures |ledgers| == |windows| + 1
    ensures ProcessedAll(item, accounts, windows[..|windows| - 1], ledgers[..|windows|])
    ensures var n := |windows| - 1;
            WindowProcessed(ledgers[n], item, accounts, Changed(windows[n]), Removed(windows[n]), ledgers[n + 1])
  {
    hide WindowProcessed, Changed, Removed;
    var n := |windows| - 1;
    var init, earlier := windows[..n], ledgers[..n + 1];
    forall i | 0 <= i < n
      ensures WindowProcessed(earlier[i], item, accounts, Changed(init[i]), Removed(init[i]), earlier[i + 1])
    {
      assert init[i] == windows[i] && earlier[i] == ledgers[i] && earlier[i + 1] == ledgers[i + 1];
    }
  }

  lemma ProcessedCount(item: ItemId, accounts: set<string>, windows: seq<seq<Event>>, ledgers: seq<Ledger>)
    requires ProcessedAll(item, accounts, windows, ledgers)
    ensures |ledgers| == |windows| + 1
  {
  }

  /** Overlap is harmless to the tables: from tables standing for the feed up to a later cursor, processing windows that
      start before it and run to the end leaves exactly the rows, and the payloads with their statuses, of one straight
      pass. */
  lemma OverlapConverges(item: ItemId, accounts: set<string>, past: seq<Event>, overlap: seq<Event>, rest: seq<Event>,
                         windows: seq<seq<Event>>, ledgers: seq<Ledger>, account: string -> Option<string>, id: string)
    requires WellFormed(past + overlap + rest, account)
    requires ProcessedAll(item, accounts, windows, ledgers) && windows != [] && Concat(windows) == overlap + rest
    requires ledgers[0].categories.Valid()
    requires RowOk(ledgers[0], accounts, Replay(map[], past + overlap), id)
    requires RawOk(ledgers[0], accounts, Payloads(map[], past + overlap), id)
    ensures RowExact(ledgers[|windows|], accounts, Replay(map[], past + overlap + rest), id)
    ensures RawOk(ledgers[|windows|], accounts, Payloads(map[], past + overlap + rest), id)
  {
    hide *;
    ProcessedCount(item, accounts, windows, ledgers);
    OverlapIsWellFormed(past, overlap, rest, account);
    PrefixStands(ledgers[0], accounts, past + overlap, account, id);
    WindowsOver(item, accounts, windows, ledgers, Replay(map[], past + overlap), Payloads(map[], past + overlap), account, id);
    OverlapReplays(past, overlap, rest);
    StandsRaw(ledgers[|windows|], accounts, Replay(map[], past + overlap + rest), Payloads(map[], past + overlap + rest),
              account, id);
  }

  lemma StandsRaw(t: Ledger, accounts: set<string>, live: map<string, Entry>, payloads: map<string, Entry>,
                  account: string -> Option<string>, id: string)
    requires StandsAt(t, accounts, live, payloads, account, id)
    ensures RawOk(t, accounts, payloads, id)
  {
  }

  lemma PrefixStands(t: Ledger, accounts: set<string>, past: seq<Event>, account: string -> Option<string>, id: string)
    requires WellFormed(past, account) && t.categories.Valid()
    requires RowOk(t, accounts, Replay(map[], past), id) && RawOk(t, accounts, Payloads(map[], past), id)
    ensures StandsAt(t, accounts, Replay(map[], past), Payloads(map[], past), account, id)
  {
    hide WellFormed, RowOk, RawOk;
    PrefixIsLanded(past, account, id);
  }

  lemma OverlapIsWellFormed(past: seq<Event>, overlap: seq<Event>, rest: seq<Event>, account: string -> Option<string>)
    requires WellFormed(past + overlap + rest, account)
    ensures WellFormed(past + overlap, account) && WellFormed(overlap + rest, account)
  {
    hide WellFormed;
    assert past + overlap + rest == past + (overlap + rest);
    SlicesAreWellFormed(past, overlap + rest, account);
    SlicesAreWellFormed(past + overlap, rest, account);
  }

  lemma OverlapReplays(past: seq<Event>, overlap: seq<Event>, rest: seq<Event>)
    ensures Replay(Replay(map[], past + overlap), overlap + rest) == Replay(map[], past + overlap + rest)
    ensures Payloads(Payloads(map[], past + overlap), overlap + rest) == Payloads(map[], past + overlap + rest)
  {
    var none: map<string, Entry> := map[];
    ReplayConcat(none, past, overlap);
    ReplayConcat(none, past, overlap + rest);
    assert past + overlap + rest == past + (overlap + rest);
    SamePastSameFuture(Replay(none, past), overlap, rest);
    SamePastSamePayloads(Payloads(none, past), overlap, rest);
  }

  lemma {:induction false} ApplyKeepsOwner(t: Ledger, item: ItemId, accounts: set<string>, changed: seq<Entry>, id: string)
    requires id in t.raws
    ensures var raws := ApplyChanges(t, item, accounts, changed).ledger.raws;
            id in raws && raws[id].itemId == t.raws[id].itemId
  {
    if changed != [] {
      ApplyKeepsOwner(t, item, accounts, changed[..|changed| - 1], id);
    }
  }

  /** Applying any earlier window a second time, right to the end of what has been applied, leaves the same row and the
      same payload as once: fields, category, classification, owner and status. */
  lemma TwiceIsOnce(t: Ledger, item: ItemId, accounts: set<string>, past: seq<Event>, w: seq<Event>, t': Ledger,
                    account: string -> Option<string>, id: string)
    requires WellFormed(past + w, account) && t.categories.Valid()
    requires RowExact(t, accounts, Replay(map[], past + w), id) && RawOk(t, accounts, Payloads(map[], past + w), id)
    requires WindowProcessed(t, item, accounts, Changed(w), Removed(w), t')
    ensures SameAt(t, t', id)
  {
    hide WellFormed, Changed, Removed;
    SlicesAreWellFormed(past, w, account);
    PrefixIsLanded(past + w, account, id);
    ExactIsOk(t, accounts, Replay(map[], past + w), id);
    WindowOver(t, item, accounts, Replay(map[], past + w), Payloads(map[], past + w), w, t', account, id);
    OverlapReplays(past, w, []);
    assert past + w + [] == past + w && w + [] == w;
    if id in t.rows {
      DerivedIsStable(t.categories, t'.categories, Replay(map[], past + w)[id].pfc);
    }
    if id in t.raws {
      ApplyKeepsOwner(t, item, accounts, Changed(w), id);
    }
  }

  lemma ExactIsOk(t: Ledger, accounts: set<string>, live: map<string, Entry>, id: string)
    requires RowExact(t, accounts, live, id)
    ensures RowOk(t, accounts, live, id)
  {
  }

  /** In every run, right after a sync of an item has committed, going over the feed once more from any earlier position
      to the new cursor leaves every row and payload of the item as it is. */
  lemma ResyncChangesNothing(env: Environment, worlds: seq<World>, steps: seq<Step>, k: nat, from: nat, t': Ledger, id: string)
    requires IsRun(env, worlds, steps) && k < |steps| && steps[k].SyncCommitted? && env.owner(id) == steps[k].item
    requires steps[k].item in worlds[k].providers
    requires from <= steps[k].next <= |worlds[k].providers[steps[k].item].feed|
    requires var w := worlds[k].providers[steps[k].item].feed[from..steps[k].next];
             WindowProcessed(worlds[k + 1].tables.ledger, steps[k].item, env.Synced(steps[k].item), Changed(w), Removed(w), t')
    ensures SameAt(worlds[k + 1].tables.ledger, t', id)
  {
    hide WellFormed, Takes, WorldOk, WindowProcessed, RowExact, RawOk, RowOk;
    var step, w, w' := steps[k], worlds[k], worlds[k + 1];
    RunKeepsWorldOk(env, worlds, steps, k);
    RunKeepsWorldOk(env, worlds, steps, k + 1);
    WorldHasCategories(env, w');
    assert Takes(env, w, step, w');
    var feed := w.providers[step.item].feed;
    CursorMoves(env, w, step.item, step.next, step.tables, w');
    CommittedWindowIsExact(env, w, step.item, step.next, step.tables, w', id);
    assert feed[..step.next] == feed[..from] + feed[from..step.next];
    TwiceIsOnce(w'.tables.ledger, step.item, env.Synced(step.item), feed[..from], feed[from..step.next], t', env.account, id);
  }

  lemma WorldHasCategories(env: Environment, w: World)
    requires WorldOk(env, w)
    ensures w.tables.ledger.categories.Valid()
  {
  }
}
