/** What a sync reports when it meets a window it has already applied. */
module SyncReplay {
  import opened Wrappers
  import opened PlaidFeed
  import opened Store
  import opened Categorization
  import opened TransactionSync
  import opened SyncRuns

  /** The category names a payload asks for, outermost first. */
  function CategoryPath(pfc: Option<Pfc>): seq<string> {
    var primary := PrimaryOf(pfc);
    if primary.None? then []
    else
      var suffix := DetailedSuffix(primary.value, pfc.value.detailed.GetOr(""));
      [HumanizeCode(primary.value)] + if suffix == "" then [] else [HumanizeCode(suffix)]
  }

  /** Two payloads normalise to the same fields and the same category names. */
  predicate SameFields(a: Entry, b: Entry) {
    && Normalized(a, a.accountId.GetOr(""), None) == Normalized(b, b.accountId.GetOr(""), None)
    && CategoryPath(a.pfc) == CategoryPath(b.pfc)
  }

  /** An already applied window is quiet at `e`: the payload is not synced, or it is not later removed and already has
      the fields of the window's last payload for its id. */
  predicate QuietAt(w: seq<Event>, accounts: set<string>, e: Entry) {
    var last := Upserts(map[], Changed(w));
    IsSynced(e, accounts) ==>
      e.transactionId !in Removed(w) && e.transactionId in last && SameFields(e, last[e.transactionId])
  }

  lemma ResolvedByPath(c: Categories, a: Option<Pfc>, b: Option<Pfc>)
    requires CategoryPath(a) == CategoryPath(b)
    ensures Resolved(c, a) <==> Resolved(c, b)
    ensures Derived(c, a) == Derived(c, b)
  {
    if PrimaryOf(a).Some? {
      assert CategoryPath(a)[0] == CategoryPath(b)[0];
      if |CategoryPath(a)| == 2 {
        assert CategoryPath(a)[1] == CategoryPath(b)[1];
      }
    }
  }

  /** In a table with one row per id, payloads share a category only if they name the same one. */
  lemma PathByDerived(c: Categories, a: Option<Pfc>, b: Option<Pfc>)
    requires c.Distinct() && Resolved(c, a) && Resolved(c, b)
    requires Derived(c, a) == Derived(c, b)
    ensures CategoryPath(a) == CategoryPath(b)
  {
  }

  /** Re-applying one payload over the row of another for the same id changes the row exactly when their fields differ. */
  lemma SameRowIffSameFields(c: Categories, e: Entry, stored: Entry)
    requires c.Valid() && c.Distinct() && Resolved(c, stored.pfc)
    requires e.accountId.Some? && stored.accountId == e.accountId
    ensures Normalized(e, e.accountId.value, ResolveIn(c, e.pfc).1) == RowOf(stored, c) <==> SameFields(e, stored)
    ensures SameFields(e, stored) ==> ResolveIn(c, e.pfc).0 == c
  {
    ResolveDerives(c, e.pfc);
    ResolveKeepsDistinct(c, e.pfc);
    var c' := ResolveIn(c, e.pfc).0;
    DerivedIsStable(c, c', stored.pfc);
    if CategoryPath(e.pfc) == CategoryPath(stored.pfc) {
      ResolvedByPath(c, e.pfc, stored.pfc);
    } else if Derived(c', e.pfc) == Derived(c', stored.pfc) {
      PathByDerived(c', e.pfc, stored.pfc);
    }
  }

  lemma {:induction false} UpsertsLast(live: map<string, Entry>, entries: seq<Entry>, id: string)
    ensures id in Upserts(map[], entries) <==> exists e :: e in entries && e.transactionId == id
    ensures id in Upserts(map[], entries) ==>
            id in Upserts(live, entries) && Upserts(live, entries)[id] == Upserts(map[], entries)[id]
  {
    if entries != [] {
      var init, last := entries[..|entries| - 1], entries[|entries| - 1];
      UpsertsLast(live, init, id);
      assert entries == init + [last];
    }
  }

  /** What the tables hold for the window's ids after it has been applied. */
  ghost predicate Applied(t: Ledger, accounts: set<string>, live: map<string, Entry>, w: seq<Event>) {
    && t.categories.Valid() && t.categories.Distinct()
    && (forall id :: Mentions(w, id) ==> RowExact(t, accounts, live, id))
  }

  lemma {:induction false} ReplayCounts(t: Ledger, item: ItemId, accounts: set<string>, past: seq<Event>,
                                        w: seq<Event>, changed: seq<Entry>, account: string -> Option<string>)
    requires WellFormed(past + w, account)
    requires Applied(t, accounts, Replay(map[], past + w), w)
    requires forall e :: e in changed ==> e in Changed(w)
    ensures var p := ApplyChanges(t, item, accounts, changed);
            && (p.added == p.modified == 0 <==> forall e :: e in changed ==> QuietAt(w, accounts, e))
            && (p.added == p.modified == 0 ==> p.ledger.rows == t.rows && p.ledger.categories == t.categories)
  {
    if changed != [] {
      var init, last := changed[..|changed| - 1], changed[|changed| - 1];
      assert changed == init + [last];
      ReplayCounts(t, item, accounts, past, w, init, account);
      ReplayOne(t, item, accounts, past, w, ApplyChanges(t, item, accounts, init), last, account);
    }
  }

  lemma ReplayOne(t: Ledger, item: ItemId, accounts: set<string>, past: seq<Event>, w: seq<Event>, p: Progress,
                  e: Entry, account: string -> Option<string>)
    requires WellFormed(past + w, account)
    requires Applied(t, accounts, Replay(map[], past + w), w) && e in Changed(w)
    ensures var q := ApplyOne(p, item, accounts, e);
            && q.added >= p.added && q.modified >= p.modified
            && (p.ledger.rows == t.rows && p.ledger.categories == t.categories ==>
                  && (q.added == p.added && q.modified == p.modified <==> QuietAt(w, accounts, e))
                  && (QuietAt(w, accounts, e) ==> q.ledger.rows == t.rows && q.ledger.categories == t.categories))
  {
    QuietMeansStored(accounts, past, w, e, account);
    if p.ledger.rows == t.rows && p.ledger.categories == t.categories {
      SplitMentions(w);
      ReplayOver(t, item, accounts, Replay(map[], past + w), p, e);
    }
  }

  lemma QuietMeansStored(accounts: set<string>, past: seq<Event>, w: seq<Event>, e: Entry,
                         account: string -> Option<string>)
    requires WellFormed(past + w, account) && e in Changed(w)
    ensures var live := Replay(map[], past + w);
            && (QuietAt(w, accounts, e) <==>
                (IsSynced(e, accounts) ==> e.transactionId in live && SameFields(e, live[e.transactionId])))
            && (e.transactionId in live ==> live[e.transactionId].accountId == e.accountId)
  {
    var id := e.transactionId;
    WindowFinal(past, w, account, id);
    UpsertsLast(Replay(map[], past), Changed(w), id);
    SlicesAreWellFormed(past, w, account);
    ChangedAccounts(w, account);
    LiveIsLanded(past + w, account, id);
  }

  lemma ReplayOver(t: Ledger, item: ItemId, accounts: set<string>, live: map<string, Entry>, p: Progress, e: Entry)
    requires t.categories.Valid() && t.categories.Distinct()
    requires RowExact(t, accounts, live, e.transactionId)
    requires e.transactionId in live ==> live[e.transactionId].accountId == e.accountId
    requires p.ledger.rows == t.rows && p.ledger.categories == t.categories
    ensures var q := ApplyOne(p, item, accounts, e);
            var same := IsSynced(e, accounts) ==> e.transactionId in live && SameFields(e, live[e.transactionId]);
            && (q.added == p.added && q.modified == p.modified <==> same)
            && (same ==> q.ledger.rows == t.rows && q.ledger.categories == t.categories)
  {
    if IsSynced(e, accounts) && e.transactionId in live {
      SameRowIffSameFields(t.categories, e, live[e.transactionId]);
    }
  }

  /** A window decides its ids: removed ones are gone, upserted ones hold their last payload. */
  lemma WindowFinal(past: seq<Event>, w: seq<Event>, account: string -> Option<string>, id: string)
    requires WellFormed(past + w, account)
    ensures id in Removed(w) ==> id !in Replay(map[], past + w)
    ensures id in Upserts(map[], Changed(w)) && id !in Removed(w) ==>
            id in Replay(map[], past + w) && Replay(map[], past + w)[id] == Upserts(map[], Changed(w))[id]
  {
    SlicesAreWellFormed(past, w, account);
    ReplayConcat(map[], past, w);
    CollapseIsReplay(Replay(map[], past), w, account);
    UpsertsLast(Replay(map[], past), Changed(w), id);
  }

  predicate IsSilent(report: Summary) {
    report.added == report.modified == report.removed == 0
  }

  /** Applying a window a second time reports nothing added, modified or removed if and only if the window is quiet
      at each of its payloads. */
  lemma SecondPassIsSilentIff(t: Ledger, item: ItemId, accounts: set<string>, past: seq<Event>, w: seq<Event>, next: nat,
                              account: string -> Option<string>)
    requires WellFormed(past + w, account)
    requires Applied(t, accounts, Replay(map[], past + w), w)
    ensures IsSilent(SummaryOf(t, item, accounts, Changed(w), Removed(w), next))
            <==> forall e :: e in Changed(w) ==> QuietAt(w, accounts, e)
  {
    ReplayCounts(t, item, accounts, past, w, Changed(w), account);
    var p := ApplyChanges(t, item, accounts, Changed(w));
    if p.added == p.modified == 0 {
      forall id | id in Removed(w)
        ensures id !in t.rows
      {
        SplitMentions(w);
        WindowFinal(past, w, account, id);
        assert RowExact(t, accounts, Replay(map[], past + w), id);
      }
      assert t.rows.Keys * Ids(Removed(w)) == {};
    }
  }

  /** In particular when every id occurs once in the window. */
  lemma DistinctIdsAreSilent(t: Ledger, item: ItemId, accounts: set<string>, past: seq<Event>, w: seq<Event>, next: nat,
                             account: string -> Option<string>)
    requires WellFormed(past + w, account)
    requires Applied(t, accounts, Replay(map[], past + w), w)
    requires forall i, j :: 0 <= i < j < |w| ==> w[i].Id() != w[j].Id()
    ensures IsSilent(SummaryOf(t, item, accounts, Changed(w), Removed(w), next))
  {
    forall e | e in Changed(w) ensures QuietAt(w, accounts, e) {
      var i := ChangedAt(w, e);
      assert w[i].Id() == e.transactionId;
      if e.transactionId in Removed(w) {
        var j := RemovedByEvent(w, e.transactionId);
      }
      UpsertsLast(map[], Changed(w), e.transactionId);
      var last := LastUpsert(Changed(w), e.transactionId);
      var k := ChangedAt(w, last);
      assert w[k].Id() == w[i].Id();
    }
    SecondPassIsSilentIff(t, item, accounts, past, w, next, account);
  }

  lemma {:induction false} ChangedAt(w: seq<Event>, e: Entry) returns (i: nat)
    requires e in Changed(w)
    ensures i < |w| && !w[i].Remove? && w[i].entry == e
  {
    i := |w| - 1;
    if w[i].Remove? || w[i].entry != e {
      i := ChangedAt(w[..i], e);
    }
  }

  lemma {:induction false} LastUpsert(entries: seq<Entry>, id: string) returns (e: Entry)
    requires id in Upserts(map[], entries)
    ensures e in entries && e.transactionId == id && Upserts(map[], entries)[id] == e
  {
    e := entries[|entries| - 1];
    if e.transactionId != id {
      e := LastUpsert(entries[..|entries| - 1], id);
    }
  }

  // ----- in runs -----

  /** The window that a sync of any run has committed is applied. */
  lemma CommittedWindowIsApplied(env: Environment, worlds: seq<World>, steps: seq<Step>, k: nat, lo: nat)
    requires IsRun(env, worlds, steps) && k < |steps| && steps[k].SyncCommitted?
    requires lo == CursorOf(worlds[k].tables, steps[k].item).GetOr(0)
    ensures steps[k].item in worlds[k].providers && lo <= steps[k].next <= |worlds[k].providers[steps[k].item].feed|
    ensures var item, feed := steps[k].item, worlds[k].providers[steps[k].item].feed;
            var past, window := feed[..lo], feed[lo..steps[k].next];
            && WellFormed(past + window, env.account)
            && Applied(worlds[k + 1].tables.ledger, env.Synced(item), Replay(map[], past + window), window)
  {
    hide WellFormed, Takes, WorldOk, RowExact;
    var step, w, w' := steps[k], worlds[k], worlds[k + 1];
    var item := step.item;
    RunKeepsWorldOk(env, worlds, steps, k);
    RunKeepsWorldOk(env, worlds, steps, k + 1);
    WorldCategories(env, w');
    assert Takes(env, w, step, w');
    CommittedCursor(env, w, item, step.next, step.tables, w');
    CursorMoves(env, w, item, step.next, step.tables, w');
    var feed := w.providers[item].feed;
    var window := feed[lo..step.next];
    EventsAreOwned(env, w, item);
    forall id | Mentions(window, id)
      ensures RowExact(w'.tables.ledger, env.Synced(item), Replay(map[], feed[..step.next]), id)
    {
      if env.owner(id) != item {
        OwnedMentions(window, env.owner, item, id);
      }
      CommittedWindowIsExact(env, w, item, step.next, step.tables, w', id);
    }
  }

  lemma WorldCategories(env: Environment, w: World)
    requires WorldOk(env, w)
    ensures w.tables.ledger.categories.Valid() && w.tables.ledger.categories.Distinct()
  {
  }

  lemma EventsAreOwned(env: Environment, w: World, item: ItemId)
    requires WorldOk(env, w) && item in w.providers
    ensures forall i :: 0 <= i < |w.providers[item].feed| ==> env.owner(w.providers[item].feed[i].Id()) == item
  {
    assert ItemOk(env, w, item);
  }

  /** So a sync that meets the window a run has just committed once more (its tables `t` differ from the committed ones in
      the cursor or a status at most) reports nothing if and only if the window is quiet. */
  lemma CommittedWindowIsSilentIff(env: Environment, worlds: seq<World>, steps: seq<Step>, k: nat, lo: nat, t: Tables)
    requires IsRun(env, worlds, steps) && k < |steps| && steps[k].SyncCommitted?
    requires lo == CursorOf(worlds[k].tables, steps[k].item).GetOr(0)
    requires t.ledger == worlds[k + 1].tables.ledger && t.accounts == worlds[k + 1].tables.accounts
    ensures steps[k].item in worlds[k].providers && lo <= steps[k].next <= |worlds[k].providers[steps[k].item].feed|
    ensures steps[k].item in env.snapshots
    ensures var item, next := steps[k].item, steps[k].next;
            var window := worlds[k].providers[item].feed[lo..next];
            IsSilent(ReportOf(t, item, window, next, env.snapshots[item]))
            <==> forall e :: e in Changed(window) ==> QuietAt(window, env.Synced(item), e)
  {
    hide WellFormed, Applied, Takes, ApplyChanges, QuietAt, SummaryOf, IsSilent;
    CommittedWindowIsApplied(env, worlds, steps, k, lo);
    var item, next, feed := steps[k].item, steps[k].next, worlds[k].providers[steps[k].item].feed;
    var window := feed[lo..next];
    SecondPassIsSilentIff(t.ledger, item, env.Synced(item), feed[..lo], window, next, env.account);
    ReportAccounts(env, worlds, steps, k, window, t);
    if Changed(window) == [] {
      NoChangesNoAccounts(t.ledger, item, AccountsOf(Prepared(t, item, env.snapshots[item], Changed(window)).accounts, item),
                          env.Synced(item), Removed(window), next);
    }
  }

  lemma ReportAccounts(env: Environment, worlds: seq<World>, steps: seq<Step>, k: nat, window: seq<Event>, t: Tables)
    requires IsRun(env, worlds, steps) && k < |steps| && steps[k].SyncCommitted?
    requires t.accounts == worlds[k + 1].tables.accounts
    ensures steps[k].item in env.snapshots
    ensures AccountsOf(Prepared(t, steps[k].item, env.snapshots[steps[k].item], Changed(window)).accounts, steps[k].item)
            == env.Synced(steps[k].item)
            || Changed(window) == []
  {
    hide WellFormed, WorldOk, AccountsOf, WindowCommitted;
    var w' := worlds[k + 1];
    RunKeepsWorldOk(env, worlds, steps, k + 1);
    assert Takes(env, worlds[k], steps[k], w');
    PreparedAccounts(env, w', steps[k].item, window);
  }

  lemma NoChangesNoAccounts(t: Ledger, item: ItemId, a: set<string>, b: set<string>, removed: seq<string>, next: nat)
    ensures SummaryOf(t, item, a, [], removed, next) == SummaryOf(t, item, b, [], removed, next)
  {
  }
}
