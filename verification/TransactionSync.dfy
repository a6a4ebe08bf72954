/** One item's sync: what a window does to the tables, and the service that does it inside one transaction. */
module TransactionSync {
  import opened Wrappers
  import opened PlaidFeed
  import opened Store
  import opened Categorization
  import PlaidService
  import AccountSync

  /** Python's `a or b` on optional strings: the empty string is falsy. */
  function Or(a: Option<string>, b: Option<string>): Option<string> {
    if a.Some? && a.value != "" then a else b
  }

  function Normalized(e: Entry, accountId: string, categoryId: Option<CategoryId>): Row {
    Row(accountId, e.date, Or(e.merchantName, e.name), e.amount,
        Or(e.currency, Some("USD")).GetOr("USD"),
        if e.amount >= 0 then Debit else Credit,
        Classify(e.pfc, e.amount), e.pending, categoryId)
  }

  /** The row a payload stands for, given the category table. */
  function RowOf(e: Entry, c: Categories): Row {
    Normalized(e, e.accountId.GetOr(""), Derived(c, e.pfc))
  }

  /** Sign, direction and meaning of a row agree: money in is credit, a refund comes in, an expense goes out, and only a
      payload without a category is unknown. */
  lemma SignsAgree(e: Entry, accountId: string, categoryId: Option<CategoryId>)
    ensures var row := Normalized(e, accountId, categoryId);
            && (row.kind == Credit <==> row.amount < 0)
            && (row.classification == Refund ==> row.kind == Credit)
            && (row.classification == Expense ==> row.kind == Debit)
            && (row.classification == Unknown <==> PrimaryOf(e.pfc).None?)
  {
  }

  predicate IsSynced(e: Entry, accounts: set<string>) {
    e.accountId.Some? && e.accountId.value in accounts
  }

  // ----- what one window does to the tables -----

  datatype Progress = Progress(ledger: Ledger, added: nat, modified: nat, skipped: nat)

  function Land(raws: map<string, Raw>, item: ItemId, e: Entry, synced: bool): map<string, Raw> {
    var owner := if e.transactionId in raws then raws[e.transactionId].itemId else item;
    raws[e.transactionId := Raw(owner, e, if synced then Processed else Skipped)]
  }

  function ApplyOne(p: Progress, item: ItemId, accounts: set<string>, e: Entry): Progress {
    var t := p.ledger;
    var raws := Land(t.raws, item, e, IsSynced(e, accounts));
    if !IsSynced(e, accounts) then Progress(t.(raws := raws), p.added, p.modified, p.skipped + 1)
    else
      var (categories, category) := ResolveIn(t.categories, e.pfc);
      var row := Normalized(e, e.accountId.value, category);
      var isNew := e.transactionId !in t.rows;
      Progress(Ledger(raws, t.rows[e.transactionId := row], categories),
               p.added + if isNew then 1 else 0,
               p.modified + (if !isNew && t.rows[e.transactionId] != row then 1 else 0),
               p.skipped)
  }

  function ApplyChanges(t: Ledger, item: ItemId, accounts: set<string>, changed: seq<Entry>): Progress {
    if changed == [] then Progress(t, 0, 0, 0)
    else ApplyOne(ApplyChanges(t, item, accounts, changed[..|changed| - 1]), item, accounts, changed[|changed| - 1])
  }

  lemma NothingApplied(t: Ledger, item: ItemId, accounts: set<string>)
    ensures ApplyChanges(t, item, accounts, []) == Progress(t, 0, 0, 0)
  {
  }

  lemma ApplyMore(t: Ledger, item: ItemId, accounts: set<string>, changed: seq<Entry>, i: nat)
    requires i < |changed|
    ensures ApplyChanges(t, item, accounts, changed[..i + 1])
         == ApplyOne(ApplyChanges(t, item, accounts, changed[..i]), item, accounts, changed[i])
  {
    hide ApplyOne;
    assert changed[..i + 1][..i] == changed[..i];
  }

  function ApplyWindow(t: Ledger, item: ItemId, accounts: set<string>, changed: seq<Entry>, removed: seq<string>): Ledger {
    var t' := ApplyChanges(t, item, accounts, changed).ledger;
    t'.(rows := t'.rows - Ids(removed))
  }

  function Enriched(row: Row, payload: Entry, c: Categories): Row {
    row.(categoryId := if row.categoryId.None? then Derived(c, payload.pfc) else row.categoryId,
         classification := if row.classification == Unknown then Classify(payload.pfc, row.amount)
                           else row.classification)
  }

  /** The row is in one of the accounts and has a stored payload to re-derive from. */
  predicate Enrichable(t: Ledger, accounts: set<string>, id: string) {
    id in t.rows && id in t.raws && t.rows[id].accountId in accounts
  }

  /** `t'` is `t` with every row of `ids` re-derived where it lacked something, and nothing else moved. */
  ghost predicate Rederived(t: Ledger, ids: set<string>, t': Ledger) {
    && t'.raws == t.raws
    && t'.categories.Valid() && t'.categories.Extends(t.categories)
    && (t.categories.Distinct() ==> t'.categories.Distinct())
    && t'.rows.Keys == t.rows.Keys
    && (forall id :: id in t.rows && id !in ids ==> t'.rows[id] == t.rows[id])
    && forall id :: id in t.rows && id in ids && id in t.raws ==>
         && t'.rows[id] == Enriched(t.rows[id], t.raws[id].payload, t'.categories)
         && (t.rows[id].categoryId.None? ==> Resolved(t'.categories, t.raws[id].payload.pfc))
  }

  function EnrichableIds(t: Ledger, accounts: set<string>): set<string> {
    set id | id in t.rows && Enrichable(t, accounts, id)
  }

  /** Apply the window, then re-derive what the item's rows lack. */
  ghost predicate WindowProcessed(t: Ledger, item: ItemId, accounts: set<string>, changed: seq<Entry>,
                                  removed: seq<string>, t': Ledger) {
    var applied := ApplyWindow(t, item, accounts, changed, removed);
    Rederived(applied, EnrichableIds(applied, accounts), t')
  }

  // ----- the service -----

  datatype Summary = Summary(added: nat, modified: nat, removed: nat, skipped: nat, nextCursor: nat)

  function SummaryOf(t: Ledger, item: ItemId, accounts: set<string>, changed: seq<Entry>, removed: seq<string>,
                     next: nat): Summary {
    var p := ApplyChanges(t, item, accounts, changed);
    Summary(p.added, p.modified, |p.ledger.rows.Keys * Ids(removed)|, p.skipped, next)
  }

  // ----- what the service may commit -----

  function CursorOf(t: Tables, item: ItemId): Option<nat> {
    if item in t.states then t.states[item].cursor else None
  }

  function WithState(t: Tables, item: ItemId, cursor: Option<nat>, status: SyncStatus): Tables {
    Tables(t.items, t.states[item := SyncState(cursor, status)], t.accounts, t.ledger)
  }

  /** A failed sync moves no cursor, row, payload, category or account; only statuses may be left behind. */
  ghost predicate FailureCommitted(t: Tables, item: ItemId, t': Tables) {
    && t'.accounts == t.accounts && t'.ledger == t.ledger
    && (t'.items == t.items || t'.items == t.items[item := LoginRequired])
    && (t'.states == t.states[item := SyncState(CursorOf(t, item), SyncError)]
        || t'.states == t.states[item := SyncState(CursorOf(t, item), Syncing)])
  }

  /** The first sync with changes fetches the item's accounts. */
  predicate NeedsAccounts(t: Tables, item: ItemId, changed: seq<Entry>) {
    changed != [] && AccountsOf(t.accounts, item) == {}
  }

  function Prepared(t: Tables, item: ItemId, snapshot: seq<PlaidService.AccountInfo>, changed: seq<Entry>): Tables {
    if NeedsAccounts(t, item, changed) then
      t.(items := t.items[item := Active],
         accounts := AccountSync.WithAccounts(t.accounts, item, AccountSync.Syncable(snapshot)))
    else t
  }

  /** `t'` is `t` after the window `w`, with the cursor that describes it. */
  ghost predicate WindowCommitted(t: Tables, item: ItemId, w: seq<Event>, next: nat,
                                  snapshot: seq<PlaidService.AccountInfo>, t': Tables) {
    var t1 := Prepared(t, item, snapshot, Changed(w));
    && t'.items == t1.items && t'.accounts == t1.accounts
    && t'.states == t.states[item := SyncState(Some(next), Idle)]
    && WindowProcessed(t.ledger, item, AccountsOf(t1.accounts, item), Changed(w), Removed(w), t'.ledger)
  }

  /** What a sync reports of the window it has processed. */
  function ReportOf(t: Tables, item: ItemId, w: seq<Event>, next: nat, snapshot: seq<PlaidService.AccountInfo>): Summary {
    SummaryOf(t.ledger, item, AccountsOf(Prepared(t, item, snapshot, Changed(w)).accounts, item), Changed(w), Removed(w), next)
  }

  ghost predicate Finished(s: Tables, item: ItemId, r: PlaidService.SyncResult, t': Tables) {
    && t' == Tables(s.items, s.states[item := SyncState(Some(r.nextCursor), Idle)], s.accounts, t'.ledger)
    && WindowProcessed(s.ledger, item, AccountsOf(s.accounts, item), r.added + r.modified, r.removed, t'.ledger)
  }

  /** The session when the window is about to be processed. */
  function Ready(t: Tables, item: ItemId, snapshot: seq<PlaidService.AccountInfo>, changed: seq<Entry>): Tables {
    WithState(Prepared(t, item, snapshot, changed), item, CursorOf(t, item), Syncing)
  }

  lemma FinishedIsCommitted(t: Tables, item: ItemId, w: seq<Event>, r: PlaidService.SyncResult,
                            snapshot: seq<PlaidService.AccountInfo>, t': Tables)
    requires r.added == Added(w) && r.modified == Modified(w) && r.removed == Removed(w)
    requires Finished(Ready(t, item, snapshot, r.added + r.modified), item, r, t')
    ensures WindowCommitted(t, item, w, r.nextCursor, snapshot, t')
  {
    hide WindowProcessed, AccountsOf, Added, Modified, Removed, AccountSync.WithAccounts, AccountSync.Syncable;
    assert t'.states == t.states[item := SyncState(Some(r.nextCursor), Idle)];
  }

  lemma ApplyCommits(t: Tables, item: ItemId, feed: seq<Event>, stable: nat, feed': seq<Event>, stable': nat,
                     r: PlaidService.SyncResult, snapshot: seq<PlaidService.AccountInfo>, t': Tables, summary: Summary)
    requires PlaidService.Evolved(feed, stable, feed', stable')
    requires PlaidService.IsSlice(feed, CursorOf(t, item).GetOr(0), r.nextCursor, r.added, r.modified, r.removed)
    requires r.nextCursor <= stable && Finished(Ready(t, item, snapshot, r.added + r.modified), item, r, t')
    requires summary == SummaryOf(t.ledger, item, AccountsOf(Prepared(t, item, snapshot, r.added + r.modified).accounts, item),
                                  r.added + r.modified, r.removed, r.nextCursor)
    ensures var lo, next := CursorOf(t, item).GetOr(0), summary.nextCursor;
            && lo <= next == r.nextCursor && next <= |feed'|
            && WindowCommitted(t, item, feed'[lo..next], next, snapshot, t')
            && t'.states == t.states[item := SyncState(Some(next), Idle)]
            && summary == ReportOf(t, item, feed'[lo..next], next, snapshot)
  {
    hide Finished, WindowCommitted, Prepared, AccountsOf, ApplyChanges, Ids;
    PlaidService.EvolvedTwice(feed, stable, feed, stable, feed', stable');
    var w := feed'[CursorOf(t, item).GetOr(0)..r.nextCursor];
    assert w == feed[CursorOf(t, item).GetOr(0)..r.nextCursor];
    FinishedIsCommitted(t, item, w, r, snapshot, t');
    CommittedState(t, item, w, r.nextCursor, snapshot, t');
  }

  /** A commit marks the item idle at the window's end and no other item. */
  lemma CommittedState(t: Tables, item: ItemId, w: seq<Event>, next: nat, snapshot: seq<PlaidService.AccountInfo>,
                       t': Tables)
    requires WindowCommitted(t, item, w, next, snapshot, t')
    ensures t'.states == t.states[item := SyncState(Some(next), Idle)]
  {
  }

  /** An account that the service keeps is in the snapshot under this id. */
  predicate IsListed(snapshot: seq<PlaidService.AccountInfo>, a: string) {
    exists i :: 0 <= i < |snapshot| && snapshot[i].accountId == a
                && (snapshot[i].accountType == "depository" || snapshot[i].accountType == "credit")
  }

  /** A commit leaves accounts and items alone, unless the item has no account yet and there are changes: then it takes the
      accounts listed, and is active. */
  lemma CommitTakesAccounts(t: Tables, item: ItemId, w: seq<Event>, next: nat, snapshot: seq<PlaidService.AccountInfo>,
                            t': Tables)
    requires WindowCommitted(t, item, w, next, snapshot, t')
    ensures Changed(w) == [] || (exists a :: a in t.accounts && t.accounts[a] == item) ==>
              t'.accounts == t.accounts && t'.items == t.items
    ensures Changed(w) != [] && (forall a :: a in t.accounts ==> t.accounts[a] != item) ==>
              && t'.items == t.items[item := Active]
              && forall a :: if IsListed(snapshot, a) then a in t'.accounts && t'.accounts[a] == item
                             else (a in t'.accounts <==> a in t.accounts)
                                  && (a in t.accounts ==> t'.accounts[a] == t.accounts[a])
  {
    hide WindowProcessed, Added, Modified, Removed;
    if a :| a in t.accounts && t.accounts[a] == item {
      assert a in AccountsOf(t.accounts, item);
    } else {
      assert AccountsOf(t.accounts, item) == {};
    }
    assert forall a :: a in AccountSync.Syncable(snapshot) <==> IsListed(snapshot, a);
  }

  class TransactionSyncService {
    const db: Database
    const categorizer: CategoryResolver

    constructor (db: Database)
      ensures this.db == db && fresh(categorizer) && categorizer.cache == map[]
    {
      this.db := db;
      categorizer := new CategoryResolver();
    }

    /** `plaid` is the provider as the item's access token shows it. */
    method SyncItem(item: ItemId, plaid: PlaidService.PlaidServer) returns (r: Result<Summary, AccountSync.SyncError>)
      requires db.Valid() && db.session == db.committed && item in db.session.items
      requires plaid.Valid() && CursorOf(db.session, item).GetOr(0) <= plaid.stable
      requires categorizer.Agrees(db.session.ledger.categories) && db.session.ledger.categories.Valid()
      modifies db, plaid, categorizer
      ensures db.Valid() && plaid.Valid()
      ensures PlaidService.Evolved(old(plaid.feed), old(plaid.stable), plaid.feed, plaid.stable)
      ensures r.Ok? ==>
              var lo, next := CursorOf(old(db.committed), item).GetOr(0), r.value.nextCursor;
              && db.history == old(db.history) + [db.committed] && db.session == db.committed
              && categorizer.Agrees(db.session.ledger.categories)
              && lo <= next <= plaid.stable
              && WindowCommitted(old(db.committed), item, plaid.feed[lo..next], next, plaid.accounts, db.committed)
              && r.value == ReportOf(old(db.committed), item, plaid.feed[lo..next], next, plaid.accounts)
              && db.committed.states == old(db.committed.states)[item := SyncState(Some(next), Idle)]
      ensures r.Err? ==>
              || (db.history == old(db.history) && db.committed == old(db.committed))
              || (db.history == old(db.history) + [db.committed]
                  && FailureCommitted(old(db.committed), item, db.committed))
    {
      hide WindowProcessed, FailureCommitted, Finished, WindowCommitted, SummaryOf, ReportOf, Prepared, PlaidService.IsSlice,
        PlaidService.Evolved;
      ghost var t := db.session;
      var fetched := Fetch(item, plaid);
      if fetched.Err? {
        return Err(AccountSync.Plaid(fetched.error));
      }
      var result := fetched.value;
      ghost var feed, stable := plaid.feed, plaid.stable;
      r := Apply(item, plaid, result, t);
      PlaidService.EvolvedTwice(old(plaid.feed), old(plaid.stable), feed, stable, plaid.feed, plaid.stable);
      if r.Ok? {
        ApplyCommits(t, item, feed, stable, plaid.feed, plaid.stable, result, plaid.accounts, db.committed, r.value);
      }
    }

    /** From the fetched window to the commit of it or of a failure. */
    method Apply(item: ItemId, plaid: PlaidService.PlaidServer, result: PlaidService.SyncResult, ghost t: Tables)
      returns (r: Result<Summary, AccountSync.SyncError>)
      requires db.Valid() && db.committed == t && plaid.Valid()
      requires db.session == WithState(t, item, CursorOf(t, item), Syncing)
      requires categorizer.Agrees(t.ledger.categories) && t.ledger.categories.Valid()
      modifies db, plaid, categorizer
      ensures db.Valid() && plaid.Valid()
      ensures PlaidService.Evolved(old(plaid.feed), old(plaid.stable), plaid.feed, plaid.stable)
      ensures plaid.stable == old(plaid.stable)
      ensures r.Ok? ==>
              && db.history == old(db.history) + [db.committed] && db.session == db.committed
              && categorizer.Agrees(db.session.ledger.categories)
              && var changed := result.added + result.modified;
                 && Finished(Ready(t, item, plaid.accounts, changed), item, result, db.committed)
                 && r.value == SummaryOf(t.ledger, item, AccountsOf(Prepared(t, item, plaid.accounts, changed).accounts, item),
                                         changed, result.removed, result.nextCursor)
      ensures r.Err? ==>
              || (db.history == old(db.history) && db.committed == t)
              || (db.history == old(db.history) + [db.committed] && FailureCommitted(t, item, db.committed))
    {
      hide WindowProcessed, FailureCommitted, Finished, SummaryOf, AccountsOf;
      var prepared := EnsureAccounts(item, plaid, result.added + result.modified, t);
      if prepared.Err? {
        return Err(prepared.error);
      }
      var summary := FinishSync(item, result);
      r := Ok(summary);
    }

    /** The remote window, or the error status that is committed before the error escapes. */
    method Fetch(item: ItemId, plaid: PlaidService.PlaidServer)
      returns (r: Result<PlaidService.SyncResult, PlaidService.PlaidError>)
      requires db.Valid() && db.session == db.committed
      requires plaid.Valid() && CursorOf(db.session, item).GetOr(0) <= plaid.stable
      modifies db, plaid
      ensures db.Valid() && plaid.Valid()
      ensures PlaidService.Evolved(old(plaid.feed), old(plaid.stable), plaid.feed, plaid.stable)
      ensures r.Ok? ==>
              && db.history == old(db.history)
              && db.session == WithState(old(db.session), item, CursorOf(old(db.session), item), Syncing)
              && r.value.nextCursor <= plaid.stable
              && PlaidService.IsSlice(plaid.feed, CursorOf(old(db.session), item).GetOr(0), r.value.nextCursor,
                                      r.value.added, r.value.modified, r.value.removed)
      ensures r.Err? ==>
              && db.history == old(db.history) + [db.committed]
              && FailureCommitted(old(db.committed), item, db.committed)
    {
      hide PlaidService.IsSlice, WellFormed;
      var cursor := CursorOf(db.session, item);
      SetState(item, cursor, Syncing);
      r := PlaidService.SyncTransactions(plaid, cursor);
      if r.Err? {
        RecordFailure(item, cursor, r.error);
      }
    }

    method RecordFailure(item: ItemId, cursor: Option<nat>, error: PlaidService.PlaidError)
      requires db.Valid()
      modifies db
      ensures db.Valid() && db.history == old(db.history) + [db.committed]
      ensures var s := old(db.session);
              db.committed == Tables(if error == PlaidService.LoginRequired then s.items[item := LoginRequired]
                                     else s.items,
                                     s.states[item := SyncState(cursor, SyncError)], s.accounts, s.ledger)
    {
      if error == PlaidService.LoginRequired {
        db.session := db.session.(items := db.session.items[item := LoginRequired]);
      }
      SetState(item, cursor, SyncError);
      db.Commit();
    }

    method EnsureAccounts(item: ItemId, plaid: PlaidService.PlaidServer, changed: seq<Entry>, ghost t: Tables)
      returns (r: Result<(), AccountSync.SyncError>)
      requires db.Valid() && db.committed == t && plaid.Valid()
      requires db.session == WithState(t, item, CursorOf(t, item), Syncing)
      modifies db, plaid
      ensures db.Valid() && plaid.Valid()
      ensures PlaidService.Evolved(old(plaid.feed), old(plaid.stable), plaid.feed, plaid.stable)
      ensures plaid.stable == old(plaid.stable)
      ensures r.Ok? ==>
              && db.history == old(db.history)
              && db.session == WithState(Prepared(t, item, plaid.accounts, changed), item, CursorOf(t, item), Syncing)
      ensures r.Err? ==>
              || (db.history == old(db.history) && db.committed == t)
              || (db.history == old(db.history) + [db.committed] && FailureCommitted(t, item, db.committed))
    {
      r := Ok(());
      if changed != [] && AccountsOf(db.session.accounts, item) == {} {
        r := AccountSync.SyncItem(db, plaid, item);
      }
    }

    method SetState(item: ItemId, cursor: Option<nat>, status: SyncStatus)
      modifies db`session
      ensures db.session == WithState(old(db.session), item, cursor, status)
    {
      db.session := db.session.(states := db.session.states[item := SyncState(cursor, status)]);
    }

    /** From the fetched window to the commit. */
    method FinishSync(item: ItemId, result: PlaidService.SyncResult) returns (summary: Summary)
      requires db.Valid()
      requires categorizer.Agrees(db.session.ledger.categories) && db.session.ledger.categories.Valid()
      modifies db, categorizer
      ensures db.Valid() && db.history == old(db.history) + [db.committed] && db.session == db.committed
      ensures categorizer.Agrees(db.session.ledger.categories)
      ensures summary == SummaryOf(old(db.session.ledger), item, AccountsOf(old(db.session.accounts), item),
                                   result.added + result.modified, result.removed, result.nextCursor)
      ensures Finished(old(db.session), item, result, db.committed)
    {
      hide WindowProcessed, SummaryOf, AccountsOf;
      summary := Process(item, AccountsOf(db.session.accounts, item), result);
      SetState(item, Some(result.nextCursor), Idle);
      db.Commit();
    }

    method Process(item: ItemId, accounts: set<string>, result: PlaidService.SyncResult) returns (summary: Summary)
      requires categorizer.Agrees(db.session.ledger.categories) && db.session.ledger.categories.Valid()
      modifies db`session, categorizer
      ensures db.session == old(db.session).(ledger := db.session.ledger)
      ensures WindowProcessed(old(db.session.ledger), item, accounts, result.added + result.modified, result.removed,
                              db.session.ledger)
      ensures summary == SummaryOf(old(db.session.ledger), item, accounts, result.added + result.modified, result.removed,
                                   result.nextCursor)
      ensures categorizer.Agrees(db.session.ledger.categories)
    {
      var added, modified, skipped := LandAndNormalize(item, accounts, result.added + result.modified);
      var removed := DeleteByPlaidIds(result.removed);
      var _ := BackfillEnrichment(accounts);
      summary := Summary(added, modified, removed, skipped, result.nextCursor);
    }

    method LandAndNormalize(item: ItemId, accounts: set<string>, changed: seq<Entry>)
      returns (added: nat, modified: nat, skipped: nat)
      requires categorizer.Agrees(db.session.ledger.categories) && db.session.ledger.categories.Valid()
      modifies db`session, categorizer
      ensures db.session == old(db.session).(ledger := db.session.ledger)
      ensures Progress(db.session.ledger, added, modified, skipped)
           == ApplyChanges(old(db.session.ledger), item, accounts, changed)
      ensures categorizer.Agrees(db.session.ledger.categories) && db.session.ledger.categories.Valid()
    {
      hide Normalized, ResolveIn, Derived, Resolved, Classify, ApplyChanges;
      ghost var before := db.session.ledger;
      NothingApplied(before, item, accounts);
      var rawById := MapByPlaidIds(db.session.ledger.raws, changed);
      var txById := MapByPlaidIds(db.session.ledger.rows, changed);
      added, modified, skipped := 0, 0, 0;
      for i := 0 to |changed|
        invariant categorizer.Agrees(db.session.ledger.categories) && db.session.ledger.categories.Valid()
        invariant db.session == old(db.session).(ledger := db.session.ledger)
        invariant forall e :: e in changed ==>
                    && (e.transactionId in rawById <==> e.transactionId in db.session.ledger.raws)
                    && (e.transactionId in txById <==> e.transactionId in db.session.ledger.rows)
        invariant Progress(db.session.ledger, added, modified, skipped)
               == ApplyChanges(old(db.session.ledger), item, accounts, changed[..i])
      {
        var entry := changed[i];
        ApplyMore(before, item, accounts, changed, i);
        var id := entry.transactionId;
        var ledger := db.session.ledger;
        var synced := IsSynced(entry, accounts);
        var owner := if id in rawById then ledger.raws[id].itemId else item;
        ledger := ledger.(raws := ledger.raws[id := Raw(owner, entry, if synced then Processed else Skipped)]);
        rawById := rawById + {id};
        if !synced {
          skipped := skipped + 1;
        } else {
          var categories, category := categorizer.Resolve(ledger.categories, entry.pfc);
          var fields := Normalized(entry, entry.accountId.value, category);
          if id !in txById {
            txById := txById + {id};
            added := added + 1;
          } else if ledger.rows[id] != fields {
            modified := modified + 1;
          }
          ledger := ledger.(rows := ledger.rows[id := fields], categories := categories);
        }
        db.session := db.session.(ledger := ledger);
      }
      assert changed[..|changed|] == changed;
    }

    method DeleteByPlaidIds(ids: seq<string>) returns (deleted: nat)
      modifies db`session
      ensures db.session == old(db.session).(ledger := old(db.session.ledger).(
                              rows := old(db.session.ledger.rows) - Ids(ids)))
      ensures deleted == |old(db.session.ledger.rows).Keys * Ids(ids)|
    {
      var rows;
      rows, deleted := DeleteFrom(db.session.ledger.rows, ids);
      db.session := db.session.(ledger := db.session.ledger.(rows := rows));
    }

    method BackfillEnrichment(accounts: set<string>) returns (enriched: nat)
      requires categorizer.Agrees(db.session.ledger.categories) && db.session.ledger.categories.Valid()
      modifies db`session, categorizer
      ensures db.session == old(db.session).(ledger := db.session.ledger)
      ensures Rederived(old(db.session.ledger), EnrichableIds(old(db.session.ledger), accounts), db.session.ledger)
      ensures categorizer.Agrees(db.session.ledger.categories) && db.session.ledger.categories.Valid()
      ensures enriched == |Moved(old(db.session.ledger.rows), db.session.ledger.rows)|
    {
      hide Rederived, Moved, Enrichable, EnrichableIds, Lacking;
      ghost var t := db.session.ledger;
      enriched := 0;
      var pending := ListUnenriched(db.session.ledger, accounts);
      ghost var all := pending;
      NothingRederived(t, all);
      while pending != {}
        invariant pending <= all
        invariant categorizer.Agrees(db.session.ledger.categories)
        invariant db.session == old(db.session).(ledger := db.session.ledger)
        invariant Rederived(t, all - pending, db.session.ledger)
        invariant enriched == |Moved(t.rows, db.session.ledger.rows)|
        decreases |pending|
      {
        var id :| id in pending;
        ghost var rows := db.session.ledger.rows;
        NotYetRederived(t, all - pending, db.session.ledger, id);
        var changed := BackfillOne(t, all - pending, id);
        OneMoreMoved(t.rows, rows, id, db.session.ledger.rows[id]);
        if changed {
          enriched := enriched + 1;
        }
        assert all - pending + {id} == all - (pending - {id});
        pending := pending - {id};
      }
      assert all - pending == all;
      OnlyLackingChange(t, accounts, db.session.ledger);
    }

    method BackfillOne(ghost t: Ledger, ghost done: set<string>, id: string) returns (changed: bool)
      requires categorizer.Agrees(db.session.ledger.categories)
      requires Rederived(t, done, db.session.ledger) && id in t.rows && id in t.raws && id !in done
      modifies db`session, categorizer
      ensures db.session == old(db.session).(ledger := db.session.ledger)
      ensures Rederived(t, done + {id}, db.session.ledger)
      ensures id in db.session.ledger.rows
      ensures db.session.ledger.rows == old(db.session.ledger.rows)[id := db.session.ledger.rows[id]]
      ensures changed <==> db.session.ledger.rows[id] != t.rows[id]
      ensures categorizer.Agrees(db.session.ledger.categories)
    {
      hide Rederived, Resolved, Derived, Classify;
      var ledger := db.session.ledger;
      NotYetRederived(t, done, ledger, id);
      var categories, row;
      categories, row, changed := EnrichRow(ledger.categories, ledger.rows[id], ledger.raws[id].payload);
      RederivedOneMore(t, done, ledger, id, categories);
      db.session := db.session.(ledger := Ledger(ledger.raws, ledger.rows[id := row], categories));
    }

    /** Fills in what the row lacks. */
    method EnrichRow(categories: Categories, row: Row, payload: Entry)
      returns (table: Categories, fields: Row, changed: bool)
      requires categorizer.Agrees(categories) && categories.Valid()
      modifies categorizer
      ensures categorizer.Agrees(table) && table.Valid() && table.Extends(categories)
      ensures categories.Distinct() ==> table.Distinct()
      ensures fields == Enriched(row, payload, table) && (changed <==> fields != row)
      ensures row.categoryId.None? ==> Resolved(table, payload.pfc)
    {
      hide Classify, ResolveIn;
      table, fields, changed := categories, row, false;
      ResolveDerives(categories, payload.pfc);
      ResolveKeepsDistinct(categories, payload.pfc);
      if row.categoryId.None? {
        var category;
        table, category := categorizer.Resolve(categories, payload.pfc);
        if category.Some? {
          fields, changed := fields.(categoryId := category), true;
        }
      }
      if row.classification == Unknown {
        var classification := Classify(payload.pfc, row.amount);
        if classification != Unknown {
          fields, changed := fields.(classification := classification), true;
        }
      }
    }
  }

  const IN_CLAUSE_CHUNK := 1000

  /** The ids among the entries that the table holds, found in chunks.  A row object is live, so its id stands for it. */
  method MapByPlaidIds<V>(table: map<string, V>, entries: seq<Entry>) returns (found: set<string>)
    ensures found == set e | e in entries && e.transactionId in table :: e.transactionId
  {
    found := {};
    var i := 0;
    while i < |entries|
      invariant 0 <= i <= |entries|
      invariant found == set e | e in entries[..i] && e.transactionId in table :: e.transactionId
    {
      var end := if |entries| - i < IN_CLAUSE_CHUNK then |entries| else i + IN_CLAUSE_CHUNK;
      assert entries[..end] == entries[..i] + entries[i..end];
      found := found + set e | e in entries[i..end] && e.transactionId in table :: e.transactionId;
      i := end;
    }
    assert entries[..|entries|] == entries;
  }

  /** Deletes in chunks; an id listed twice is deleted once and an unknown one not at all. */
  method DeleteFrom(table: map<string, Row>, ids: seq<string>) returns (rows: map<string, Row>, deleted: nat)
    ensures rows == table - Ids(ids)
    ensures deleted == |table.Keys * Ids(ids)|
  {
    rows, deleted := table, 0;
    var i := 0;
    while i < |ids|
      invariant 0 <= i <= |ids|
      invariant rows == table - Ids(ids[..i])
      invariant deleted == |table.Keys * Ids(ids[..i])|
    {
      var end := if |ids| - i < IN_CLAUSE_CHUNK then |ids| else i + IN_CLAUSE_CHUNK;
      var hit := rows.Keys * Ids(ids[i..end]);
      DeleteOneChunk(table, ids, i, end);
      rows, deleted, i := rows - hit, deleted + |hit|, end;
    }
    assert ids[..|ids|] == ids;
  }

  /** The rows to re-derive: in one of the accounts, with a stored payload, lacking something. */
  function ListUnenriched(t: Ledger, accounts: set<string>): (ids: set<string>)
    ensures forall id :: id in ids ==> id in t.rows && id in t.raws
  {
    set id | id in EnrichableIds(t, accounts) && Lacking(t.rows[id])
  }

  /** The rows that are no longer what they were. */
  function Moved(before: map<string, Row>, after: map<string, Row>): set<string> {
    set id | id in before && id in after && before[id] != after[id]
  }

  lemma OneMoreMoved(before: map<string, Row>, rows: map<string, Row>, id: string, row: Row)
    requires id in before && id in rows && rows[id] == before[id]
    ensures |Moved(before, rows[id := row])| == |Moved(before, rows)| + if row != before[id] then 1 else 0
  {
    assert Moved(before, rows[id := row]) == Moved(before, rows) + if row != before[id] then {id} else {};
  }

  predicate Lacking(row: Row) {
    row.categoryId.None? || row.classification == Unknown
  }

  lemma DeleteOneChunk(before: map<string, Row>, ids: seq<string>, i: nat, end: nat)
    requires i <= end <= |ids|
    ensures var hit := (before - Ids(ids[..i])).Keys * Ids(ids[i..end]);
            && before - Ids(ids[..i]) - hit == before - Ids(ids[..end])
            && |before.Keys * Ids(ids[..end])| == |before.Keys * Ids(ids[..i])| + |hit|
  {
    hide Ids;
    OneMoreChunk(ids, i, end);
    DeleteBoth(before, Ids(ids[..i]), Ids(ids[i..end]));
  }

  lemma OneMoreChunk(ids: seq<string>, i: nat, end: nat)
    requires i <= end <= |ids|
    ensures Ids(ids[..end]) == Ids(ids[..i]) + Ids(ids[i..end])
  {
    assert ids[..end] == ids[..i] + ids[i..end];
  }

  lemma DeleteBoth(before: map<string, Row>, a: set<string>, b: set<string>)
    ensures var hit := (before - a).Keys * b;
            && before - a - hit == before - (a + b)
            && |before.Keys * (a + b)| == |before.Keys * a| + |hit|
  {
    var hit := (before - a).Keys * b;
    assert before.Keys * (a + b) == before.Keys * a + hit;
  }

  lemma NotYetRederived(t: Ledger, done: set<string>, earlier: Ledger, id: string)
    requires Rederived(t, done, earlier) && id in t.rows && id !in done
    ensures id in earlier.rows && earlier.rows[id] == t.rows[id] && earlier.raws == t.raws
    ensures earlier.categories.Valid()
  {
  }

  lemma RederivedOneMore(t: Ledger, done: set<string>, earlier: Ledger, id: string, c: Categories)
    requires Rederived(t, done, earlier)
    requires id in t.rows && id in t.raws && id !in done
    requires c.Valid() && c.Extends(earlier.categories) && (earlier.categories.Distinct() ==> c.Distinct())
    requires t.rows[id].categoryId.None? ==> Resolved(c, t.raws[id].payload.pfc)
    ensures Rederived(t, done + {id},
                      Ledger(t.raws, earlier.rows[id := Enriched(t.rows[id], t.raws[id].payload, c)], c))
  {
    ExtendsTransitive(t.categories, earlier.categories, c);
    forall other | other in t.rows && other in done && other in t.raws && t.rows[other].categoryId.None?
      ensures Resolved(c, t.raws[other].payload.pfc)
      ensures Derived(c, t.raws[other].payload.pfc) == Derived(earlier.categories, t.raws[other].payload.pfc)
    {
      DerivedIsStable(earlier.categories, c, t.raws[other].payload.pfc);
    }
  }

  /** A row that lacks nothing is its own re-derivation. */
  lemma OnlyLackingChange(t: Ledger, accounts: set<string>, t': Ledger)
    requires Rederived(t, ListUnenriched(t, accounts), t')
    ensures Rederived(t, EnrichableIds(t, accounts), t') && t'.categories.Valid()
  {
  }

  lemma NothingRederived(t: Ledger, all: set<string>)
    requires t.categories.Valid()
    ensures Rederived(t, all - all, t) && |Moved(t.rows, t.rows)| == 0
  {
  }
}
