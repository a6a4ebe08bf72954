/** The service seen as steps of the world, and what leaves an item alone. */
module SyncHistory {
  import opened Wrappers
  import opened PlaidFeed
  import opened Store
  import opened Categorization
  import opened TransactionSync
  import opened SyncRuns
  import PlaidService
  import AccountSync

  // ----- a call of the service is steps of the world -----

  /** The provider object is the item's provider, as it is now. */
  ghost predicate Reflects(env: Environment, item: ItemId, p: Provider, plaid: PlaidService.PlaidServer)
    reads plaid
  {
    && plaid.Valid() && plaid.account == env.account
    && (forall id :: plaid.owns(id) ==> env.owner(id) == item)
    && p == Provider(plaid.feed, plaid.stable)
    && item in env.snapshots && env.snapshots[item] == plaid.accounts
  }

  lemma ReflectedIsOk(env: Environment, item: ItemId, p: Provider, plaid: PlaidService.PlaidServer)
    requires Reflects(env, item, p, plaid)
    ensures ProviderOk(env, item, p) && plaid.Valid()
    ensures p == Provider(plaid.feed, plaid.stable) && item in env.snapshots && env.snapshots[item] == plaid.accounts
  {
    hide WellFormed;
  }

  lemma StillReflects(env: Environment, item: ItemId, plaid: PlaidService.PlaidServer)
    requires plaid.Valid() && plaid.account == env.account
    requires forall id :: plaid.owns(id) ==> env.owner(id) == item
    requires item in env.snapshots && env.snapshots[item] == plaid.accounts
    ensures Reflects(env, item, Provider(plaid.feed, plaid.stable), plaid)
  {
    hide WellFormed;
  }

  /** One request that syncs an item: the provider may evolve meanwhile; then the window is committed, or a failure is, or
      nothing is.  Whatever was not committed is gone when the request ends, and every item is as it should be. */
  method Request(ghost env: Environment, ghost w: World, service: TransactionSyncService, item: ItemId,
                 plaid: PlaidService.PlaidServer)
    returns (r: Result<Summary, AccountSync.SyncError>, ghost mid: World, ghost step: Step, ghost w': World)
    requires WorldOk(env, w) && w.tables == service.db.committed == service.db.session && service.db.Valid()
    requires item in w.providers && Reflects(env, item, w.providers[item], plaid) && item in w.tables.items
    requires service.categorizer.Agrees(service.db.session.ledger.categories)
    modifies service.db, plaid, service.categorizer
    ensures service.db.Valid() && (r.Ok? ==> service.categorizer.Agrees(service.db.session.ledger.categories))
    ensures mid == w.(providers := w.providers[item := Provider(plaid.feed, plaid.stable)])
    ensures w' == mid.(tables := service.db.committed) && service.db.session == service.db.committed
    ensures Reflects(env, item, Provider(plaid.feed, plaid.stable), plaid)
    ensures Takes(env, w, FeedEvolves(item, mid.providers[item]), mid) && Takes(env, mid, step, w')
    ensures r.Ok? ==> step == SyncCommitted(item, r.value.nextCursor, w'.tables) && UpToDate(env, w', item, r.value.nextCursor)
    ensures r.Err? ==> step == SyncFailed(item, w'.tables) || step == Crashed
    ensures r.Err? ==> w'.tables.ledger == w.tables.ledger && w'.tables.accounts == w.tables.accounts
                       && CursorOf(w'.tables, item) == CursorOf(w.tables, item)
    ensures WorldOk(env, w')
  {
    hide WellFormed, WindowCommitted, FailureCommitted, Takes, WorldOk, ReportOf, UpToDate, PlaidService.Evolved, ProviderOk,
      CursorOf;
    ReadyToSync(env, w, item);
    ReflectedIsOk(env, item, w.providers[item], plaid);
    r := service.SyncItem(item, plaid);
    if r.Err? {
      service.db.Rollback();
    }
    StillReflects(env, item, plaid);
    ReflectedIsOk(env, item, Provider(plaid.feed, plaid.stable), plaid);
    mid := w.(providers := w.providers[item := Provider(plaid.feed, plaid.stable)]);
    w' := mid.(tables := service.db.committed);
    EvolutionIsStep(env, w, item, mid.providers[item], mid);
    step := if r.Ok? then SyncCommitted(item, r.value.nextCursor, w'.tables) else FailureStep(mid, item, w');
    if r.Ok? {
      CommitIsStep(env, mid, item, r.value.nextCursor, w');
    } else {
      FailureIsStep(env, mid, item, w');
    }
  }

  ghost function FailureStep(mid: World, item: ItemId, w': World): Step {
    if w' == mid then Crashed else SyncFailed(item, w'.tables)
  }

  // ----- a request over many items -----

  /** Every item's provider object is the one in the world, and they are different objects. */
  ghost predicate ReflectsAll(env: Environment, w: World, plaids: map<ItemId, PlaidService.PlaidServer>)
    reads plaids.Values
  {
    && (forall item :: item in plaids ==> item in w.providers && Reflects(env, item, w.providers[item], plaids[item]))
    && forall i, j :: i in plaids && j in plaids && i != j ==> plaids[i] != plaids[j]
  }

  /** The item's rows are exactly the projection of its feed at this cursor. */
  ghost predicate UpToDate(env: Environment, w: World, item: ItemId, cursor: nat) {
    && item in w.providers && CursorOf(w.tables, item) == Some(cursor)
    && forall id :: env.owner(id) == item ==>
         RowExact(w.tables.ledger, env.Synced(item), Replay(map[], Covered(w, item)), id)
  }

  ghost predicate Leads(env: Environment, worlds: seq<World>, steps: seq<Step>) {
    && |worlds| == |steps| + 1
    && forall i :: 0 <= i < |steps| ==> Takes(env, worlds[i], steps[i], worlds[i + 1])
  }

  lemma LeadsNowhere(env: Environment, w: World)
    ensures Leads(env, [w], [])
  {
  }

  lemma LeadsOn(env: Environment, worlds: seq<World>, steps: seq<Step>, step: Step, w': World)
    requires Leads(env, worlds, steps) && |worlds| == |steps| + 1 && Takes(env, worlds[|steps|], step, w')
    ensures Leads(env, worlds + [w'], steps + [step])
  {
    hide Takes;
    var more, all := steps + [step], worlds + [w'];
    forall i | 0 <= i < |more|
      ensures Takes(env, all[i], more[i], all[i + 1])
    {
      assert i < |steps| ==> all[i] == worlds[i] && all[i + 1] == worlds[i + 1] && more[i] == steps[i];
    }
  }

  predicate SyncsOne(step: Step, item: ItemId) {
    match step
    case FeedEvolves(i, _) => i == item
    case SyncCommitted(i, _, _) => i == item
    case SyncFailed(i, _) => i == item
    case Crashed => true
    case _ => false
  }

  /** The sync of one item, step by step, leaves every other item as it is. */
  lemma OthersStayUpToDate(env: Environment, w: World, step: Step, w': World, item: ItemId, other: ItemId)
    requires WorldOk(env, w) && Takes(env, w, step, w') && SyncsOne(step, item) && other != item && other in w.providers
    ensures other in w'.providers && CursorOf(w'.tables, other) == CursorOf(w.tables, other)
    ensures forall cursor :: UpToDate(env, w, other, cursor) ==> UpToDate(env, w', other, cursor)
  {
    hide WellFormed, WindowProcessed, ItemOk, UnlinkedOwnNothing, RowExact;
    assert Covered(w', other) == Covered(w, other);
    if step.SyncCommitted? {
      CommittedCategories(env, w, item, step.next, step.tables, w');
      forall id | env.owner(id) == other
                  && RowExact(w.tables.ledger, env.Synced(other), Replay(map[], Covered(w, other)), id)
        ensures RowExact(w'.tables.ledger, env.Synced(other), Replay(map[], Covered(w', other)), id)
      {
        OthersKeepTheirLedger(env, w, item, step.next, step.tables, w', id);
        ExactStays(w.tables.ledger, w'.tables.ledger, env.Synced(other), Replay(map[], Covered(w, other)), id);
      }
    }
  }

  lemma ItemsStay(env: Environment, w: World, step: Step, w': World)
    requires Takes(env, w, step, w')
    ensures w.tables.items.Keys <= w'.tables.items.Keys
  {
    hide WellFormed, WindowProcessed;
  }

  lemma ExactStays(t: Ledger, t': Ledger, accounts: set<string>, live: map<string, Entry>, id: string)
    requires RowExact(t, accounts, live, id) && SameAt(t, t', id)
    requires t'.categories.Extends(t.categories)
    ensures RowExact(t', accounts, live, id)
  {
    if id in t.rows {
      DerivedIsStable(t.categories, t'.categories, live[id].pfc);
    }
  }

  lemma CommitIsUpToDate(env: Environment, w: World, item: ItemId, next: nat, tables: Tables, w': World)
    requires WorldOk(env, w) && Takes(env, w, SyncCommitted(item, next, tables), w')
    ensures UpToDate(env, w', item, next)
  {
    hide WellFormed, WindowCommitted, WorldOk, RowExact, RowOk, RawOk, Takes;
    CommittedCursor(env, w, item, next, tables, w');
    forall id | env.owner(id) == item
      ensures RowExact(w'.tables.ledger, env.Synced(item), Replay(map[], Covered(w', item)), id)
    {
      CommittedWindowIsExact(env, w, item, next, tables, w', id);
    }
  }

  /** One request that syncs several items in turn with one resolver: it stops at the first that fails, and what has been
      synced before is committed for good, each item exact at its new cursor; the failing item and those not reached
      are where they were. */
  method RequestAll(ghost env: Environment, ghost w: World, service: TransactionSyncService, items: seq<ItemId>,
                    plaids: map<ItemId, PlaidService.PlaidServer>)
    returns (done: seq<Summary>, error: Option<AccountSync.SyncError>, ghost worlds: seq<World>, ghost steps: seq<Step>)
    requires WorldOk(env, w) && w.tables == service.db.committed == service.db.session && service.db.Valid()
    requires ReflectsAll(env, w, plaids)
    requires forall i :: 0 <= i < |items| ==> items[i] in plaids && items[i] in w.tables.items
    requires forall i, j :: 0 <= i < j < |items| ==> items[i] != items[j]
    requires service.categorizer.Agrees(service.db.session.ledger.categories)
    modifies service.db, service.categorizer, plaids.Values
    ensures |done| <= |items| && (error.None? <==> |done| == |items|)
    ensures Leads(env, worlds, steps) && worlds[0] == w && WorldOk(env, worlds[|steps|])
    ensures worlds[|steps|].tables == service.db.committed == service.db.session
    ensures forall j :: 0 <= j < |done| ==> UpToDate(env, worlds[|steps|], items[j], done[j].nextCursor)
    ensures forall j :: |done| <= j < |items| ==> CursorOf(service.db.committed, items[j]) == CursorOf(w.tables, items[j])
  {
    hide WorldOk, Takes, UpToDate, Covered, CursorOf, Reflects, Leads;
    LeadsNowhere(env, w);
    done, error, worlds, steps := [], None, [w], [];
    ghost var now := w;
    for i := 0 to |items|
      invariant |done| == i && service.db.Valid()
      invariant Leads(env, worlds, steps) && |worlds| == |steps| + 1 && worlds[0] == w
      invariant worlds[|steps|] == now && WorldOk(env, now)
      invariant now.tables == service.db.committed == service.db.session && ReflectsAll(env, now, plaids)
      invariant service.categorizer.Agrees(service.db.session.ledger.categories)
      invariant forall j :: 0 <= j < |items| ==> items[j] in now.tables.items
      invariant forall j :: 0 <= j < i ==> UpToDate(env, now, items[j], done[j].nextCursor)
      invariant forall j :: i <= j < |items| ==> CursorOf(now.tables, items[j]) == CursorOf(w.tables, items[j])
    {
      var item := items[i];
      var r;
      ghost var mid, step, w';
      r, mid, step, w' := Request(env, now, service, item, plaids[item]);
      forall j | 0 <= j < |items| && j != i
        ensures CursorOf(w'.tables, items[j]) == CursorOf(now.tables, items[j])
        ensures j < i ==> UpToDate(env, w', items[j], done[j].nextCursor)
      {
        OneSyncDone(env, now, mid.providers[item], mid, step, w', item, items[j]);
      }
      ItemsStay(env, now, FeedEvolves(item, mid.providers[item]), mid);
      ItemsStay(env, mid, step, w');
      LeadsOn(env, worlds, steps, FeedEvolves(item, mid.providers[item]), mid);
      worlds, steps := worlds + [mid], steps + [FeedEvolves(item, mid.providers[item])];
      LeadsOn(env, worlds, steps, step, w');
      worlds, steps := worlds + [w'], steps + [step];
      now := w';
      if r.Err? {
        return done, Some(r.error), worlds, steps;
      }
      done := done + [r.value];
    }
  }

  lemma OneSyncDone(env: Environment, w: World, p: Provider, mid: World, step: Step, w': World, item: ItemId,
                    other: ItemId)
    requires WorldOk(env, w) && Takes(env, w, FeedEvolves(item, p), mid) && Takes(env, mid, step, w')
    requires SyncsOne(step, item) && other != item && other in w.providers
    ensures other in w'.providers && CursorOf(w'.tables, other) == CursorOf(w.tables, other)
    ensures forall cursor :: UpToDate(env, w, other, cursor) ==> UpToDate(env, w', other, cursor)
  {
    hide WorldOk, Takes, UpToDate, CursorOf;
    OthersStayUpToDate(env, w, FeedEvolves(item, p), mid, item, other);
    StepKeepsWorldOk(env, w, FeedEvolves(item, p), mid);
    OthersStayUpToDate(env, mid, step, w', item, other);
  }

  lemma EvolutionIsStep(env: Environment, w: World, item: ItemId, p: Provider, mid: World)
    requires WorldOk(env, w) && item in w.providers && ProviderOk(env, item, p)
    requires PlaidService.Evolved(w.providers[item].feed, w.providers[item].stable, p.feed, p.stable)
    requires mid == w.(providers := w.providers[item := p])
    ensures Takes(env, w, FeedEvolves(item, p), mid) && WorldOk(env, mid)
  {
    hide ProviderOk, WorldOk;
    StepKeepsWorldOk(env, w, FeedEvolves(item, p), mid);
  }

  lemma CommitIsStep(env: Environment, mid: World, item: ItemId, next: nat, w': World)
    requires WorldOk(env, mid) && item in mid.providers && item in env.snapshots
    requires CursorOf(mid.tables, item).GetOr(0) <= next <= mid.providers[item].stable <= |mid.providers[item].feed|
    requires WindowCommitted(mid.tables, item, mid.providers[item].feed[CursorOf(mid.tables, item).GetOr(0)..next], next,
                             env.snapshots[item], w'.tables)
    requires w' == mid.(tables := w'.tables)
    ensures Takes(env, mid, SyncCommitted(item, next, w'.tables), w') && WorldOk(env, w')
    ensures UpToDate(env, w', item, next)
  {
    hide WindowCommitted, WorldOk, UpToDate;
    CommitIsUpToDate(env, mid, item, next, w'.tables, w');
    StepKeepsWorldOk(env, mid, SyncCommitted(item, next, w'.tables), w');
  }

  lemma FailureIsStep(env: Environment, mid: World, item: ItemId, w': World)
    requires WorldOk(env, mid) && item in mid.providers
    requires w'.tables == mid.tables || FailureCommitted(mid.tables, item, w'.tables)
    requires w' == mid.(tables := w'.tables)
    ensures Takes(env, mid, FailureStep(mid, item, w'), w')
    ensures w'.tables.ledger == mid.tables.ledger && w'.tables.accounts == mid.tables.accounts
    ensures CursorOf(w'.tables, item) == CursorOf(mid.tables, item)
    ensures WorldOk(env, w')
  {
    hide WorldOk;
    assert w'.tables == mid.tables ==> w' == mid;
    StepKeepsWorldOk(env, mid, FailureStep(mid, item, w'), w');
  }

  lemma ReadyToSync(env: Environment, w: World, item: ItemId)
    requires WorldOk(env, w) && item in w.providers
    ensures CursorOf(w.tables, item).GetOr(0) <= w.providers[item].stable && w.tables.ledger.categories.Valid()
  {
    assert ItemOk(env, w, item);
  }

  // ----- what leaves an item alone -----

  /** The row, if there is one, may have lost its category or its classification; nothing else has moved. */
  predicate FadedAt(t: Ledger, t': Ledger, id: string) {
    && (id in t'.rows <==> id in t.rows)
    && (id in t.rows ==>
          var row, row' := t.rows[id], t'.rows[id];
          && row' == row.(categoryId := row'.categoryId, classification := row'.classification)
          && row'.categoryId in {row.categoryId, None} && row'.classification in {row.classification, Unknown})
    && (id in t'.raws <==> id in t.raws) && (id in t.raws ==> t'.raws[id] == t.raws[id])
  }

  predicate CommitsItem(step: Step, item: ItemId) {
    step.SyncCommitted? && step.item == item
  }

  lemma OtherStepsFade(env: Environment, w: World, step: Step, w': World, item: ItemId, id: string)
    requires WorldOk(env, w) && Takes(env, w, step, w') && !CommitsItem(step, item)
    requires item in w.providers && env.owner(id) == item
    ensures item in w'.providers && CursorOf(w'.tables, item) == CursorOf(w.tables, item)
    ensures FadedAt(w.tables.ledger, w'.tables.ledger, id)
  {
    hide WellFormed, WindowProcessed, ItemOk, UnlinkedOwnNothing;
    if step.SyncCommitted? {
      OthersKeepTheirLedger(env, w, step.item, step.next, step.tables, w', id);
    }
  }

  /** As long as no sync of an item commits, whatever else happens in a run (its own failing syncs, crashes, feed changes,
      other items' syncs, links, account syncs), the item's cursor, rows and payloads stay, save that rows may lose their
      category or classification. */
  lemma {:induction false} OnlyItsCommitsMoveAnItem(env: Environment, worlds: seq<World>, steps: seq<Step>,
                                                    i: nat, k: nat, item: ItemId, id: string)
    requires IsRun(env, worlds, steps) && i <= k < |worlds|
    requires item in worlds[i].providers && env.owner(id) == item
    requires forall j :: i <= j < k ==> !CommitsItem(steps[j], item)
    ensures item in worlds[k].providers && CursorOf(worlds[k].tables, item) == CursorOf(worlds[i].tables, item)
    ensures FadedAt(worlds[i].tables.ledger, worlds[k].tables.ledger, id)
    decreases k
  {
    hide WorldOk, Takes, FadedAt, IsRun, CursorOf;
    RunStep(env, worlds, steps, k);
    if i == k {
      NotFaded(worlds[i].tables.ledger, id);
    } else {
      OnlyItsCommitsMoveAnItem(env, worlds, steps, i, k - 1, item, id);
      RunKeepsWorldOk(env, worlds, steps, k - 1);
      OtherStepsFade(env, worlds[k - 1], steps[k - 1], worlds[k], item, id);
      FadedTwice(worlds[i].tables.ledger, worlds[k - 1].tables.ledger, worlds[k].tables.ledger, id);
    }
  }

  lemma RunStep(env: Environment, worlds: seq<World>, steps: seq<Step>, k: nat)
    requires IsRun(env, worlds, steps) && k < |worlds|
    ensures |worlds| == |steps| + 1
    ensures k > 0 ==> Takes(env, worlds[k - 1], steps[k - 1], worlds[k])
  {
    hide Takes;
    assert k > 0 ==> Takes(env, worlds[k - 1], steps[k - 1], worlds[k - 1 + 1]);
  }

  lemma NotFaded(t: Ledger, id: string)
    ensures FadedAt(t, t, id)
  {
  }

  lemma FadedTwice(a: Ledger, b: Ledger, c: Ledger, id: string)
    requires FadedAt(a, b, id) && FadedAt(b, c, id)
    ensures FadedAt(a, c, id)
  {
  }
}
