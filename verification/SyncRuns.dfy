/** Every run of feed changes, syncs, failures and crashes: the committed tables are the feed's projection. */
module SyncRuns {
  import opened Wrappers
  import opened PlaidFeed
  import opened Store
  import opened Categorization
  import opened TransactionSync
  import PlaidService
  import AccountSync

  // ----- when the ledger stands for a history -----

  /** `row` is the payload's row, except that its category or classification may have been lost since. */
  predicate Matches(row: Row, c: Categories, e: Entry) {
    && row.(categoryId := None, classification := Unknown) == RowOf(e, c).(categoryId := None, classification := Unknown)
    && (row.categoryId.Some? ==> Resolved(c, e.pfc) && row.categoryId == Derived(c, e.pfc))
    && (row.classification == Unknown || row.classification == Classify(e.pfc, e.amount))
  }

  /** Exactly the synced live transactions have a row. */
  predicate RowOk(t: Ledger, accounts: set<string>, live: map<string, Entry>, id: string) {
    && (id in t.rows <==> id in live && IsSynced(live[id], accounts))
    && (id in t.rows ==> Matches(t.rows[id], t.categories, live[id]))
  }

  /** Every payload ever sent is kept, in its latest version and with its final processing status. */
  predicate RawOk(t: Ledger, accounts: set<string>, payloads: map<string, Entry>, id: string) {
    && (id in t.raws <==> id in payloads)
    && (id in t.raws ==>
          && t.raws[id].payload == payloads[id]
          && t.raws[id].status == if IsSynced(payloads[id], accounts) then Processed else Skipped)
  }

  predicate RowExact(t: Ledger, accounts: set<string>, live: map<string, Entry>, id: string) {
    && (id in t.rows <==> id in live && IsSynced(live[id], accounts))
    && (id in t.rows ==> t.rows[id] == RowOf(live[id], t.categories) && Resolved(t.categories, live[id].pfc))
  }

  /** The accounts of the payloads in `m` are the ones fixed for their ids. */
  predicate AccountFixed(m: map<string, Entry>, account: string -> Option<string>, id: string) {
    id in m ==> m[id].accountId == account(id)
  }

  lemma MatchesIsStable(row: Row, c: Categories, c': Categories, e: Entry)
    requires Matches(row, c, e) && c'.Extends(c)
    ensures Matches(row, c', e)
  {
    if row.categoryId.Some? {
      DerivedIsStable(c, c', e.pfc);
    }
  }

  // ----- one payload, one id at a time -----

  lemma ApplyOneAt(p: Progress, item: ItemId, accounts: set<string>, e: Entry, live: map<string, Entry>,
                   payloads: map<string, Entry>, account: string -> Option<string>, id: string)
    requires p.ledger.categories.Valid()
    requires RowOk(p.ledger, accounts, live, id) && RawOk(p.ledger, accounts, payloads, id)
    requires AccountFixed(live, account, id) && e.accountId == account(e.transactionId)
    ensures var t := ApplyOne(p, item, accounts, e).ledger;
            && t.categories.Valid() && t.categories.Extends(p.ledger.categories)
            && RowOk(t, accounts, live[e.transactionId := e], id)
            && RawOk(t, accounts, payloads[e.transactionId := e], id)
            && AccountFixed(live[e.transactionId := e], account, id)
  {
    ResolveDerives(p.ledger.categories, e.pfc);
    var t := ApplyOne(p, item, accounts, e).ledger;
    if id != e.transactionId && id in p.ledger.rows {
      MatchesIsStable(p.ledger.rows[id], p.ledger.categories, t.categories, live[id]);
    }
  }

  lemma {:induction false} ApplyChangesAt(t: Ledger, item: ItemId, accounts: set<string>, changed: seq<Entry>,
                                          live: map<string, Entry>, payloads: map<string, Entry>,
                                          account: string -> Option<string>, id: string)
    requires t.categories.Valid()
    requires RowOk(t, accounts, live, id) && RawOk(t, accounts, payloads, id) && AccountFixed(live, account, id)
    requires forall e :: e in changed ==> e.accountId == account(e.transactionId)
    ensures var t' := ApplyChanges(t, item, accounts, changed).ledger;
            && t'.categories.Valid() && t'.categories.Extends(t.categories)
            && RowOk(t', accounts, Upserts(live, changed), id)
            && RawOk(t', accounts, Upserts(payloads, changed), id)
            && AccountFixed(Upserts(live, changed), account, id)
  {
    if changed != [] {
      var init, last := changed[..|changed| - 1], changed[|changed| - 1];
      ApplyChangesAt(t, item, accounts, init, live, payloads, account, id);
      var p := ApplyChanges(t, item, accounts, init);
      assert last in changed;
      ApplyOneAt(p, item, accounts, last, Upserts(live, init), Upserts(payloads, init), account, id);
      ExtendsTransitive(t.categories, p.ledger.categories, ApplyOne(p, item, accounts, last).ledger.categories);
    }
  }

  /** A live transaction's latest payload is the one it was last added or modified with. */
  lemma {:induction false} LiveIsLanded(events: seq<Event>, account: string -> Option<string>, id: string)
    requires forall i :: 0 <= i < |events| && !events[i].Remove? ==> events[i].entry.accountId == account(events[i].Id())
    ensures id in Replay(map[], events) ==>
            id in Payloads(map[], events) && Payloads(map[], events)[id] == Replay(map[], events)[id]
    ensures AccountFixed(Replay(map[], events), account, id) && AccountFixed(Payloads(map[], events), account, id)
  {
    if events != [] {
      LiveIsLanded(events[..|events| - 1], account, id);
    }
  }

  lemma {:induction false} ChangedAccounts(events: seq<Event>, account: string -> Option<string>)
    requires forall i :: 0 <= i < |events| && !events[i].Remove? ==> events[i].entry.accountId == account(events[i].Id())
    ensures forall e :: e in Changed(events) ==> e.accountId == account(e.transactionId)
  {
    if events != [] {
      ChangedAccounts(events[..|events| - 1], account);
    }
  }

  /** The row's payload is the landed one. */
  predicate LandedAt(live: map<string, Entry>, payloads: map<string, Entry>, id: string) {
    id in live ==> id in payloads && payloads[id] == live[id]
  }

  lemma {:induction false} LandedStays(live: map<string, Entry>, payloads: map<string, Entry>, w: seq<Event>, id: string)
    requires LandedAt(live, payloads, id)
    ensures LandedAt(Replay(live, w), Payloads(payloads, w), id)
  {
    if w != [] {
      LandedStays(live, payloads, w[..|w| - 1], id);
    }
  }

  /** From any tables, whatever they stand for, processing a window yields tables that stand for it with the window's
      events replayed on it, with every row exact whatever had been lost, and nothing left pending. */
  lemma WindowOver(t: Ledger, item: ItemId, accounts: set<string>, live: map<string, Entry>, payloads: map<string, Entry>,
                   w: seq<Event>, t': Ledger, account: string -> Option<string>, id: string)
    requires WellFormed(w, account) && t.categories.Valid()
    requires RowOk(t, accounts, live, id) && RawOk(t, accounts, payloads, id)
    requires LandedAt(live, payloads, id) && AccountFixed(live, account, id)
    requires WindowProcessed(t, item, accounts, Changed(w), Removed(w), t')
    ensures RowExact(t', accounts, Replay(live, w), id) && RowOk(t', accounts, Replay(live, w), id)
    ensures RawOk(t', accounts, Payloads(payloads, w), id)
    ensures LandedAt(Replay(live, w), Payloads(payloads, w), id) && AccountFixed(Replay(live, w), account, id)
    ensures t'.categories.Valid() && t'.categories.Extends(t.categories)
  {
    ChangedAccounts(w, account);
    ApplyChangesAt(t, item, accounts, Changed(w), live, payloads, account, id);
    CollapseIsReplay(live, w, account);
    CollapseIsReplay(payloads, w, account);
    LandedStays(live, payloads, w, id);
    var applied := ApplyWindow(t, item, accounts, Changed(w), Removed(w));
    ExtendsTransitive(t.categories, applied.categories, t'.categories);
    RederivedIsExact(applied, accounts, Replay(live, w), Payloads(payloads, w), t', id);
  }

  /** In particular from tables standing for a prefix of the feed to tables standing for the longer prefix. */
  lemma WindowAdvances(t: Ledger, item: ItemId, accounts: set<string>, past: seq<Event>, w: seq<Event>, t': Ledger,
                       account: string -> Option<string>, id: string)
    requires WellFormed(past + w, account) && t.categories.Valid()
    requires RowOk(t, accounts, Replay(map[], past), id) && RawOk(t, accounts, Payloads(map[], past), id)
    requires WindowProcessed(t, item, accounts, Changed(w), Removed(w), t')
    ensures RowExact(t', accounts, Replay(map[], past + w), id)
    ensures RowOk(t', accounts, Replay(map[], past + w), id)
    ensures RawOk(t', accounts, Payloads(map[], past + w), id)
  {
    hide WellFormed, WindowProcessed, RowOk, RawOk, RowExact;
    SlicesAreWellFormed(past, w, account);
    PrefixIsLanded(past, account, id);
    WindowOver(t, item, accounts, Replay(map[], past), Payloads(map[], past), w, t', account, id);
    ReplayConcat(map[], past, w);
  }

  lemma PrefixIsLanded(past: seq<Event>, account: string -> Option<string>, id: string)
    requires WellFormed(past, account)
    ensures LandedAt(Replay(map[], past), Payloads(map[], past), id)
    ensures AccountFixed(Replay(map[], past), account, id)
  {
    LiveIsLanded(past, account, id);
  }

  lemma SlicesAreWellFormed(past: seq<Event>, w: seq<Event>, account: string -> Option<string>)
    requires WellFormed(past + w, account)
    ensures WellFormed(past, account) && WellFormed(w, account)
  {
    WellFormedSlice(past + w, account, 0, |past|);
    WellFormedSlice(past + w, account, |past|, |past + w|);
    assert (past + w)[0..|past|] == past && (past + w)[|past|..|past + w|] == w;
  }

  lemma RederivedIsExact(t: Ledger, accounts: set<string>, live: map<string, Entry>, payloads: map<string, Entry>,
                         t': Ledger, id: string)
    requires Rederived(t, EnrichableIds(t, accounts), t')
    requires RowOk(t, accounts, live, id) && RawOk(t, accounts, payloads, id)
    requires id in live ==> id in payloads && payloads[id] == live[id]
    ensures RowExact(t', accounts, live, id) && RowOk(t', accounts, live, id) && RawOk(t', accounts, payloads, id)
  {
    if id in t.rows {
      assert id in EnrichableIds(t, accounts);
      if t.rows[id].categoryId.Some? {
        DerivedIsStable(t.categories, t'.categories, live[id].pfc);
      }
    }
  }

  lemma {:induction false} ApplyLeavesOthers(t: Ledger, item: ItemId, accounts: set<string>, changed: seq<Entry>, id: string)
    requires forall e :: e in changed ==> e.transactionId != id
    ensures var t' := ApplyChanges(t, item, accounts, changed).ledger;
            && (id in t'.rows <==> id in t.rows) && (id in t.rows ==> t'.rows[id] == t.rows[id])
            && (id in t'.raws <==> id in t.raws) && (id in t.raws ==> t'.raws[id] == t.raws[id])
  {
    if changed != [] {
      assert changed[|changed| - 1] in changed;
      ApplyLeavesOthers(t, item, accounts, changed[..|changed| - 1], id);
    }
  }

  lemma {:induction false} ApplyExtends(t: Ledger, item: ItemId, accounts: set<string>, changed: seq<Entry>)
    requires t.categories.Valid()
    ensures var c := ApplyChanges(t, item, accounts, changed).ledger.categories; c.Valid() && c.Extends(t.categories)
    ensures t.categories.Distinct() ==> ApplyChanges(t, item, accounts, changed).ledger.categories.Distinct()
  {
    if changed != [] {
      var init, last := changed[..|changed| - 1], changed[|changed| - 1];
      ApplyExtends(t, item, accounts, init);
      var p := ApplyChanges(t, item, accounts, init);
      ResolveDerives(p.ledger.categories, last.pfc);
      ResolveKeepsDistinct(p.ledger.categories, last.pfc);
      ExtendsTransitive(t.categories, p.ledger.categories, ApplyOne(p, item, accounts, last).ledger.categories);
    }
  }

  /** The transaction's row and payload are what they were. */
  predicate SameAt(t: Ledger, t': Ledger, id: string) {
    && (id in t'.rows <==> id in t.rows) && (id in t.rows ==> t'.rows[id] == t.rows[id])
    && (id in t'.raws <==> id in t.raws) && (id in t.raws ==> t'.raws[id] == t.raws[id])
  }

  /** A window of one item does not disturb another item's transaction. */
  lemma WindowLeavesOthers(t: Ledger, item: ItemId, accounts: set<string>, w: seq<Event>, t': Ledger,
                           others: set<string>, live: map<string, Entry>, payloads: map<string, Entry>, id: string)
    requires t.categories.Valid() && accounts !! others
    requires WindowProcessed(t, item, accounts, Changed(w), Removed(w), t')
    requires !Mentions(w, id)
    requires RowOk(t, others, live, id) && RawOk(t, others, payloads, id)
    ensures RowOk(t', others, live, id) && RawOk(t', others, payloads, id)
    ensures SameAt(t, t', id)
  {
    SplitMentions(w);
    ApplyLeavesOthers(t, item, accounts, Changed(w), id);
    ApplyExtends(t, item, accounts, Changed(w));
    var c := ApplyChanges(t, item, accounts, Changed(w)).ledger.categories;
    ExtendsTransitive(t.categories, c, t'.categories);
    if id in t.rows {
      assert id !in EnrichableIds(ApplyWindow(t, item, accounts, Changed(w), Removed(w)), accounts);
      MatchesIsStable(t.rows[id], t.categories, t'.categories, live[id]);
    }
  }

  /** Why the item's account set must be fixed: a window never gives a row to a transaction it does not mention, so a
      payload skipped for its account stays without one however the accounts have grown since. */
  lemma SkippedIsNotRevisited(t: Ledger, item: ItemId, accounts: set<string>, w: seq<Event>, t': Ledger, id: string)
    requires WindowProcessed(t, item, accounts, Changed(w), Removed(w), t')
    requires !Mentions(w, id)
    ensures id in t'.rows <==> id in t.rows
    ensures id in t.raws ==> id in t'.raws && t'.raws[id].status == t.raws[id].status
  {
    SplitMentions(w);
    ApplyLeavesOthers(t, item, accounts, Changed(w), id);
  }

  // ----- the world -----

  /** What the provider fixes for good: each transaction's account and item, each item's accounts. */
  datatype Environment = Environment(account: string -> Option<string>, owner: string -> ItemId,
                                     snapshots: map<ItemId, seq<PlaidService.AccountInfo>>)
  {
    function Synced(item: ItemId): set<string> {
      if item in snapshots then AccountSync.Syncable(snapshots[item]) else {}
    }

    /** An account belongs to one item. */
    ghost predicate Valid() {
      forall i, j :: i in snapshots && j in snapshots && i != j ==> Synced(i) !! Synced(j)
    }
  }

  datatype Provider = Provider(feed: seq<Event>, stable: nat)

  /** The committed tables and the feed behind every linked item. */
  datatype World = World(tables: Tables, providers: map<ItemId, Provider>)

  datatype Step =
    | Linked(item: ItemId, provider: Provider)
    | FeedEvolves(item: ItemId, provider: Provider)
    | EnrichmentLost(id: string, category: bool, classification: bool)
    | AccountsSynced(item: ItemId)
    | StatusChanged(item: ItemId, status: ItemStatus)
    | SyncCommitted(item: ItemId, next: nat, tables: Tables)
    | SyncFailed(item: ItemId, tables: Tables)
    | Crashed

  ghost predicate ProviderOk(env: Environment, item: ItemId, p: Provider) {
    && WellFormed(p.feed, env.account)
    && (forall i :: 0 <= i < |p.feed| ==> env.owner(p.feed[i].Id()) == item)
    && p.stable <= |p.feed|
  }

  /** One step of the world.  A crash or an exception before the commit leaves the committed tables alone. */
  ghost predicate Takes(env: Environment, w: World, step: Step, w': World) {
    match step
    case Linked(item, p) =>
      && item !in w.providers && item in env.snapshots && ProviderOk(env, item, p)
      && w' == World(w.tables.(items := w.tables.items[item := Active]), w.providers[item := p])
    case FeedEvolves(item, p) =>
      && item in w.providers && ProviderOk(env, item, p)
      && PlaidService.Evolved(w.providers[item].feed, w.providers[item].stable, p.feed, p.stable)
      && w' == w.(providers := w.providers[item := p])
    case EnrichmentLost(id, category, classification) =>
      && id in w.tables.ledger.rows
      && var row := w.tables.ledger.rows[id];
         var row' := row.(categoryId := if category then None else row.categoryId,
                          classification := if classification then Unknown else row.classification);
         w' == w.(tables := w.tables.(ledger := w.tables.ledger.(rows := w.tables.ledger.rows[id := row'])))
    case AccountsSynced(item) =>
      && item in w.providers && item in env.snapshots
      && w' == w.(tables := w.tables.(items := w.tables.items[item := Active],
                                      accounts := AccountSync.WithAccounts(w.tables.accounts, item, env.Synced(item))))
    case StatusChanged(item, status) =>
      item in w.providers && w' == w.(tables := w.tables.(items := w.tables.items[item := status]))
    case SyncCommitted(item, next, tables) =>
      && item in w.providers && item in env.snapshots
      && CursorOf(w.tables, item).GetOr(0) <= next <= w.providers[item].stable
      && |w.providers[item].feed| >= next
      && WindowCommitted(w.tables, item, w.providers[item].feed[CursorOf(w.tables, item).GetOr(0)..next], next,
                         env.snapshots[item], tables)
      && w' == w.(tables := tables)
    case SyncFailed(item, tables) =>
      item in w.providers && FailureCommitted(w.tables, item, tables) && w' == w.(tables := tables)
    case Crashed => w' == w
  }

  /** The events of an item that its committed cursor covers. */
  function Covered(w: World, item: ItemId): seq<Event>
    requires item in w.providers
  {
    var n := CursorOf(w.tables, item).GetOr(0);
    if n <= |w.providers[item].feed| then w.providers[item].feed[..n] else w.providers[item].feed
  }

  ghost predicate LedgerOk(env: Environment, t: Ledger, item: ItemId, past: seq<Event>) {
    forall id :: env.owner(id) == item ==>
      && RowOk(t, env.Synced(item), Replay(map[], past), id)
      && RawOk(t, env.Synced(item), Payloads(map[], past), id)
  }

  /** The item's accounts are there, or it has seen no transaction yet. */
  ghost predicate AccountsOk(env: Environment, t: Tables, item: ItemId, past: seq<Event>) {
    || AccountsOf(t.accounts, item) == env.Synced(item)
    || (AccountsOf(t.accounts, item) == {} && Changed(past) == [])
  }

  ghost predicate ItemOk(env: Environment, w: World, item: ItemId)
    requires item in w.providers
  {
    && item in env.snapshots
    && ProviderOk(env, item, w.providers[item])
    && CursorOf(w.tables, item).GetOr(0) <= w.providers[item].stable
    && AccountsOk(env, w.tables, item, Covered(w, item))
    && LedgerOk(env, w.tables.ledger, item, Covered(w, item))
  }

  /** An item that is not linked owns nothing yet. */
  ghost predicate UnlinkedOwnNothing(env: Environment, w: World) {
    && (forall item :: item in w.tables.states ==> item in w.providers)
    && (forall a :: a in w.tables.accounts ==> w.tables.accounts[a] in w.providers)
    && forall id :: env.owner(id) !in w.providers ==> id !in w.tables.ledger.rows && id !in w.tables.ledger.raws
  }

  ghost predicate WorldOk(env: Environment, w: World) {
    && env.Valid()
    && w.tables.ledger.categories.Valid() && w.tables.ledger.categories.Distinct()
    && UnlinkedOwnNothing(env, w)
    && forall item :: item in w.providers ==> ItemOk(env, w, item)
  }

  // ----- each step keeps the invariant -----

  lemma WorldItem(env: Environment, w: World, item: ItemId)
    requires WorldOk(env, w) && item in w.providers
    ensures ItemOk(env, w, item) && env.Valid() && w.tables.ledger.categories.Valid()
  {
    hide ItemOk, UnlinkedOwnNothing;
  }

  lemma ItemStands(env: Environment, w: World, item: ItemId, id: string)
    requires WorldOk(env, w) && item in w.providers && env.owner(id) == item
    ensures RowOk(w.tables.ledger, env.Synced(item), Replay(map[], Covered(w, item)), id)
    ensures RawOk(w.tables.ledger, env.Synced(item), Payloads(map[], Covered(w, item)), id)
  {
    hide RowOk, RawOk, Covered, ProviderOk, AccountsOk;
    WorldItem(env, w, item);
  }

  /** A step that moves neither an item's feed nor its cursor nor its accounts keeps it if it keeps its ledger. */
  lemma ItemStays(env: Environment, w: World, w': World, item: ItemId)
    requires item in w.providers && ItemOk(env, w, item)
    requires item in w'.providers && w'.providers[item] == w.providers[item]
    requires CursorOf(w'.tables, item) == CursorOf(w.tables, item)
    requires AccountsOf(w'.tables.accounts, item) == AccountsOf(w.tables.accounts, item)
    requires LedgerOk(env, w'.tables.ledger, item, Covered(w, item))
    ensures ItemOk(env, w', item) && Covered(w', item) == Covered(w, item)
  {
    hide LedgerOk, ProviderOk, CursorOf, AccountsOf;
  }

  lemma LedgerStays(env: Environment, w: World, item: ItemId)
    requires item in w.providers && ItemOk(env, w, item)
    ensures LedgerOk(env, w.tables.ledger, item, Covered(w, item))
  {
    hide LedgerOk, ProviderOk, AccountsOk, Covered;
  }

  lemma {:induction false} NoChangesNoLedger(past: seq<Event>)
    requires Changed(past) == []
    ensures Replay(map[], past) == map[] && Payloads(map[], past) == map[]
  {
    if past != [] {
      NoChangesNoLedger(past[..|past| - 1]);
    }
  }

  lemma PreparedAccounts(env: Environment, w: World, item: ItemId, window: seq<Event>)
    requires WorldOk(env, w) && item in w.providers
    ensures var t1 := Prepared(w.tables, item, env.snapshots[item], Changed(window));
            || AccountsOf(t1.accounts, item) == env.Synced(item)
            || (AccountsOf(t1.accounts, item) == {} && Changed(window) == [] && Changed(Covered(w, item)) == [])
  {
    assert ItemOk(env, w, item);
    if NeedsAccounts(w.tables, item, Changed(window)) {
      AddedAccounts(w.tables.accounts, item, env.Synced(item));
    }
  }

  lemma AddedAccounts(accounts: map<string, ItemId>, item: ItemId, kept: set<string>)
    ensures AccountsOf(AccountSync.WithAccounts(accounts, item, kept), item) == AccountsOf(accounts, item) + kept
    ensures forall j :: j != item && AccountsOf(accounts, j) !! kept ==>
              AccountsOf(AccountSync.WithAccounts(accounts, item, kept), j) == AccountsOf(accounts, j)
  {
  }

  /** The synced item: its rows are exactly the projection of the feed up to the new cursor. */
  lemma CommittedWindowIsExact(env: Environment, w: World, item: ItemId, next: nat, tables: Tables, w': World, id: string)
    requires WorldOk(env, w) && Takes(env, w, SyncCommitted(item, next, tables), w')
    requires env.owner(id) == item
    ensures Covered(w', item) == w.providers[item].feed[..next]
    ensures RowExact(w'.tables.ledger, env.Synced(item), Replay(map[], Covered(w', item)), id)
    ensures RowOk(w'.tables.ledger, env.Synced(item), Replay(map[], Covered(w', item)), id)
    ensures RawOk(w'.tables.ledger, env.Synced(item), Payloads(map[], Covered(w', item)), id)
  {
    CursorMoves(env, w, item, next, tables, w');
    var past := Covered(w, item);
    var window := w.providers[item].feed[|past|..next];
    PreparedAccounts(env, w, item, window);
    var t1 := Prepared(w.tables, item, env.snapshots[item], Changed(window));
    assert ItemOk(env, w, item);
    WindowExactAt(w.tables.ledger, item, env.Synced(item), AccountsOf(t1.accounts, item), past, window, tables.ledger,
                  env.account, id);
  }

  lemma CursorMoves(env: Environment, w: World, item: ItemId, next: nat, tables: Tables, w': World)
    requires WorldOk(env, w) && Takes(env, w, SyncCommitted(item, next, tables), w')
    ensures var feed, lo := w.providers[item].feed, CursorOf(w.tables, item).GetOr(0);
            && Covered(w, item) == feed[..lo] && lo == |Covered(w, item)|
            && Covered(w', item) == feed[..next] == feed[..lo] + feed[lo..next]
            && WellFormed(feed[..next], env.account)
  {
    hide WellFormed, Takes, WorldOk, ItemOk;
    CommittedCursor(env, w, item, next, tables, w');
    var feed := w.providers[item].feed;
    WellFormedSlice(feed, env.account, 0, next);
    assert feed[0..next] == feed[..next];
  }

  lemma CommittedCursor(env: Environment, w: World, item: ItemId, next: nat, tables: Tables, w': World)
    requires WorldOk(env, w) && Takes(env, w, SyncCommitted(item, next, tables), w')
    ensures w'.providers == w.providers && item in w.providers
    ensures CursorOf(w.tables, item).GetOr(0) <= next <= |w.providers[item].feed|
    ensures WellFormed(w.providers[item].feed, env.account)
    ensures CursorOf(w'.tables, item) == Some(next)
  {
    hide WellFormed, WindowProcessed, LedgerOk, AccountsOk, Prepared, Changed;
    assert ItemOk(env, w, item);
  }

  lemma WindowExactAt(t: Ledger, item: ItemId, synced: set<string>, accounts: set<string>, past: seq<Event>,
                      window: seq<Event>, t': Ledger, account: string -> Option<string>, id: string)
    requires t.categories.Valid() && WellFormed(past + window, account)
    requires accounts == synced || (Changed(window) == [] && Changed(past) == [])
    requires RowOk(t, synced, Replay(map[], past), id) && RawOk(t, synced, Payloads(map[], past), id)
    requires WindowProcessed(t, item, accounts, Changed(window), Removed(window), t')
    ensures RowExact(t', synced, Replay(map[], past + window), id)
    ensures RowOk(t', synced, Replay(map[], past + window), id)
    ensures RawOk(t', synced, Payloads(map[], past + window), id)
  {
    if accounts == synced {
      WindowAdvances(t, item, synced, past, window, t', account, id);
    } else {
      ChangesConcat(past, window);
      NoChangesNoLedger(past);
      NoChangesNoLedger(past + window);
    }
  }

  lemma ChangesConcat(a: seq<Event>, b: seq<Event>)
    requires Changed(a) == [] && Changed(b) == []
    ensures Changed(a + b) == []
  {
    SplitConcat(a, b);
  }

  lemma {:induction false} OwnedMentions(events: seq<Event>, owner: string -> ItemId, item: ItemId, id: string)
    requires forall i :: 0 <= i < |events| ==> owner(events[i].Id()) == item
    requires owner(id) != item
    ensures !Mentions(events, id)
  {
    if events != [] {
      OwnedMentions(events[..|events| - 1], owner, item, id);
    }
  }

  /** Every other item: one item's sync never touches another's data. */
  lemma OthersKeepTheirLedger(env: Environment, w: World, item: ItemId, next: nat, tables: Tables, w': World, id: string)
    requires WorldOk(env, w) && Takes(env, w, SyncCommitted(item, next, tables), w')
    requires env.owner(id) != item && env.owner(id) in w.providers
    ensures var other := env.owner(id);
            && RowOk(w'.tables.ledger, env.Synced(other), Replay(map[], Covered(w, other)), id)
            && RawOk(w'.tables.ledger, env.Synced(other), Payloads(map[], Covered(w, other)), id)
    ensures SameAt(w.tables.ledger, w'.tables.ledger, id)
  {
    hide WorldOk, ItemOk, WindowProcessed, RowOk, RawOk, SameAt, Covered, Prepared, AccountsOf, Changed, Removed;
    var other := env.owner(id);
    ItemStands(env, w, other, id);
    WorldItem(env, w, other);
    var feed, lo := w.providers[item].feed, CursorOf(w.tables, item).GetOr(0);
    var window := feed[lo..next];
    NotMentioned(env, w, item, lo, next, id);
    var t1 := Prepared(w.tables, item, env.snapshots[item], Changed(window));
    AccountsApart(env, w, item, other, window);
    WindowLeavesOthers(w.tables.ledger, item, AccountsOf(t1.accounts, item), window, tables.ledger, env.Synced(other),
                       Replay(map[], Covered(w, other)), Payloads(map[], Covered(w, other)), id);
  }

  /** What another item owns is in no window of this one. */
  lemma NotMentioned(env: Environment, w: World, item: ItemId, lo: nat, hi: nat, id: string)
    requires WorldOk(env, w) && item in w.providers && env.owner(id) != item
    requires lo <= hi <= |w.providers[item].feed|
    ensures !Mentions(w.providers[item].feed[lo..hi], id)
  {
    hide WorldOk, WellFormed, LedgerOk, AccountsOk;
    WorldItem(env, w, item);
    OwnedMentions(w.providers[item].feed[lo..hi], env.owner, item, id);
  }

  lemma AccountsApart(env: Environment, w: World, item: ItemId, other: ItemId, window: seq<Event>)
    requires WorldOk(env, w) && item in w.providers && other in w.providers && other != item
    ensures item in env.snapshots && other in env.snapshots
    ensures AccountsOf(Prepared(w.tables, item, env.snapshots[item], Changed(window)).accounts, item) !! env.Synced(other)
  {
    hide WorldOk, LedgerOk, ProviderOk, AccountsOk, Prepared, AccountsOf;
    WorldItem(env, w, item);
    WorldItem(env, w, other);
    PreparedAccounts(env, w, item, window);
    assert env.Synced(item) !! env.Synced(other);
  }

  lemma AccountsStayOk(env: Environment, w: World, item: ItemId, other: ItemId)
    requires WorldOk(env, w) && item in w.providers && other in w.providers && other != item
    ensures AccountsOf(AccountSync.WithAccounts(w.tables.accounts, item, env.Synced(item)), other)
         == AccountsOf(w.tables.accounts, other)
  {
    hide WorldOk, LedgerOk, ProviderOk, AccountsOf, AccountSync.WithAccounts;
    WorldItem(env, w, item);
    WorldItem(env, w, other);
    assert env.Synced(item) !! env.Synced(other);
    AddedAccounts(w.tables.accounts, item, env.Synced(item));
  }

  lemma CommittedKeepsItem(env: Environment, w: World, item: ItemId, next: nat, tables: Tables, w': World, j: ItemId)
    requires WorldOk(env, w) && Takes(env, w, SyncCommitted(item, next, tables), w')
    requires j in w.providers && j in w'.providers
    ensures ItemOk(env, w', j)
  {
    hide WorldOk, ItemOk, Takes;
    if j == item {
      CommittedKeepsOwn(env, w, item, next, tables, w');
    } else {
      CommittedKeepsOther(env, w, item, next, tables, w', j);
    }
  }

  lemma CommittedKeepsOwn(env: Environment, w: World, item: ItemId, next: nat, tables: Tables, w': World)
    requires WorldOk(env, w) && Takes(env, w, SyncCommitted(item, next, tables), w')
    ensures ItemOk(env, w', item)
  {
    hide WorldOk, WindowCommitted, Covered, RowOk, RawOk, RowExact, ProviderOk, AccountsOk;
    WorldItem(env, w, item);
    CommittedCursor(env, w, item, next, tables, w');
    forall id | env.owner(id) == item
      ensures RowOk(w'.tables.ledger, env.Synced(item), Replay(map[], Covered(w', item)), id)
      ensures RawOk(w'.tables.ledger, env.Synced(item), Payloads(map[], Covered(w', item)), id)
    {
      CommittedWindowIsExact(env, w, item, next, tables, w', id);
    }
    CommittedAccounts(env, w, item, next, tables, w');
  }

  lemma CommittedKeepsOther(env: Environment, w: World, item: ItemId, next: nat, tables: Tables, w': World, j: ItemId)
    requires WorldOk(env, w) && Takes(env, w, SyncCommitted(item, next, tables), w')
    requires j in w.providers && j in w'.providers && j != item
    ensures ItemOk(env, w', j)
  {
    hide WorldOk, ItemOk, Takes, Covered, RowOk, RawOk, SameAt, AccountsOf;
    WorldItem(env, w, j);
    CommitMoves(env, w, item, next, tables, w', j);
    forall id | env.owner(id) == j
      ensures RowOk(w'.tables.ledger, env.Synced(j), Replay(map[], Covered(w, j)), id)
      ensures RawOk(w'.tables.ledger, env.Synced(j), Payloads(map[], Covered(w, j)), id)
    {
      OthersKeepTheirLedger(env, w, item, next, tables, w', id);
    }
    ItemStays(env, w, w', j);
  }

  /** The commit moves the state of its own item only. */
  lemma CommitMoves(env: Environment, w: World, item: ItemId, next: nat, tables: Tables, w': World, j: ItemId)
    requires WorldOk(env, w) && Takes(env, w, SyncCommitted(item, next, tables), w') && j in w.providers && j != item
    ensures w'.providers == w.providers && CursorOf(w'.tables, j) == CursorOf(w.tables, j)
    ensures AccountsOf(w'.tables.accounts, j) == AccountsOf(w.tables.accounts, j)
  {
    hide WorldOk, WindowProcessed, Changed, Removed, AccountsOf;
    AccountsStayOk(env, w, item, j);
  }

  lemma CommittedAccounts(env: Environment, w: World, item: ItemId, next: nat, tables: Tables, w': World)
    requires WorldOk(env, w) && Takes(env, w, SyncCommitted(item, next, tables), w')
    ensures AccountsOk(env, w'.tables, item, Covered(w', item))
  {
    hide WellFormed, WindowProcessed, LedgerOk, Covered, Prepared;
    var feed, lo := w.providers[item].feed, CursorOf(w.tables, item).GetOr(0);
    PreparedAccounts(env, w, item, feed[lo..next]);
    CursorMoves(env, w, item, next, tables, w');
    if AccountsOf(tables.accounts, item) != env.Synced(item) {
      ChangesConcat(feed[..lo], feed[lo..next]);
    }
  }

  lemma CommittedCategories(env: Environment, w: World, item: ItemId, next: nat, tables: Tables, w': World)
    requires WorldOk(env, w) && Takes(env, w, SyncCommitted(item, next, tables), w')
    ensures tables.ledger.categories.Valid() && tables.ledger.categories.Distinct()
    ensures tables.ledger.categories.Extends(w.tables.ledger.categories)
  {
    hide WellFormed, LedgerOk;
    assert ItemOk(env, w, item);
    var window := w.providers[item].feed[CursorOf(w.tables, item).GetOr(0)..next];
    var t1 := Prepared(w.tables, item, env.snapshots[item], Changed(window));
    var applied := ApplyChanges(w.tables.ledger, item, AccountsOf(t1.accounts, item), Changed(window)).ledger;
    ApplyExtends(w.tables.ledger, item, AccountsOf(t1.accounts, item), Changed(window));
    ExtendsTransitive(w.tables.ledger.categories, applied.categories, tables.ledger.categories);
  }

  lemma StepKeepsWorldOk(env: Environment, w: World, step: Step, w': World)
    requires WorldOk(env, w) && Takes(env, w, step, w')
    ensures WorldOk(env, w')
  {
    hide ItemOk, WindowProcessed, ProviderOk, UnlinkedOwnNothing;
    forall j | j in w'.providers
      ensures ItemOk(env, w', j)
    {
      StepKeepsItem(env, w, step, w', j);
    }
    StepKeepsUnlinked(env, w, step, w');
    if step.SyncCommitted? {
      CommittedCategories(env, w, step.item, step.next, step.tables, w');
    }
  }

  lemma StepKeepsItem(env: Environment, w: World, step: Step, w': World, j: ItemId)
    requires WorldOk(env, w) && Takes(env, w, step, w') && j in w'.providers
    ensures ItemOk(env, w', j)
  {
    hide ItemOk, WorldOk, Takes;
    SameProviders(env, w, step, w');
    match step
    case Linked(item, p) => LinkingKeepsItem(env, w, item, p, w', j);
    case FeedEvolves(item, p) => EvolvedKeepsItem(env, w, item, p, w', j);
    case EnrichmentLost(id, _, _) => LossKeepsItem(env, w, step, w', j);
    case AccountsSynced(item) => AccountsKeepItem(env, w, item, w', j);
    case SyncCommitted(item, next, tables) => CommittedKeepsItem(env, w, item, next, tables, w', j);
    case StatusChanged(_, _) => FailureKeepsItem(env, w, step, w', j);
    case SyncFailed(item, tables) => FailureKeepsItem(env, w, step, w', j);
    case Crashed => FailureKeepsItem(env, w, step, w', j);
  }

  lemma SameProviders(env: Environment, w: World, step: Step, w': World)
    requires Takes(env, w, step, w')
    ensures w'.providers.Keys == w.providers.Keys + if step.Linked? then {step.item} else {}
  {
    hide WellFormed, WindowCommitted;
  }

  lemma StepKeepsUnlinked(env: Environment, w: World, step: Step, w': World)
    requires WorldOk(env, w) && Takes(env, w, step, w')
    ensures UnlinkedOwnNothing(env, w')
  {
    hide ItemOk, WindowProcessed, ProviderOk, WorldOk;
    WorldOwns(env, w);
    if step.SyncCommitted? {
      forall id | env.owner(id) !in w.providers
        ensures id !in w'.tables.ledger.rows && id !in w'.tables.ledger.raws
      {
        CommitGivesUnlinkedNothing(env, w, step.item, step.next, step.tables, w', id);
      }
      CommittedOwners(env, w, step.item, step.next, step.tables, w');
    }
  }

  lemma WorldOwns(env: Environment, w: World)
    requires WorldOk(env, w)
    ensures UnlinkedOwnNothing(env, w)
  {
  }

  lemma CommittedOwners(env: Environment, w: World, item: ItemId, next: nat, tables: Tables, w': World)
    requires UnlinkedOwnNothing(env, w) && Takes(env, w, SyncCommitted(item, next, tables), w')
    ensures forall i :: i in tables.states ==> i in w.providers
    ensures forall a :: a in tables.accounts ==> tables.accounts[a] in w.providers
  {
    hide WindowProcessed;
  }

  lemma CommitGivesUnlinkedNothing(env: Environment, w: World, item: ItemId, next: nat, tables: Tables, w': World,
                                   id: string)
    requires WorldOk(env, w) && Takes(env, w, SyncCommitted(item, next, tables), w')
    requires env.owner(id) !in w.providers
    ensures id !in tables.ledger.rows && id !in tables.ledger.raws
  {
    hide WellFormed, LedgerOk;
    assert ItemOk(env, w, item);
    var window := w.providers[item].feed[CursorOf(w.tables, item).GetOr(0)..next];
    OwnedMentions(window, env.owner, item, id);
    SplitMentions(window);
    var t1 := Prepared(w.tables, item, env.snapshots[item], Changed(window));
    ApplyLeavesOthers(w.tables.ledger, item, AccountsOf(t1.accounts, item), Changed(window), id);
  }

  /** A new item has covered nothing, and nothing is there for it. */
  lemma LinkingKeepsItem(env: Environment, w: World, item: ItemId, p: Provider, w': World, j: ItemId)
    requires WorldOk(env, w) && Takes(env, w, Linked(item, p), w') && j in w'.providers
    ensures ItemOk(env, w', j)
  {
    hide WorldOk, ItemOk, LedgerOk, Covered, AccountsOf, UnlinkedOwnNothing;
    if j != item {
      WorldItem(env, w, j);
      LedgerStays(env, w, j);
      ItemStays(env, w, w', j);
    } else {
      WorldOwns(env, w);
      NewItemIsOk(env, w, item, p, w');
    }
  }

  lemma NewItemIsOk(env: Environment, w: World, item: ItemId, p: Provider, w': World)
    requires UnlinkedOwnNothing(env, w) && Takes(env, w, Linked(item, p), w')
    ensures ItemOk(env, w', item)
  {
    hide WellFormed, ProviderOk, Environment.Synced;
    assert Covered(w', item) == [];
    assert AccountsOf(w'.tables.accounts, item) == {};
    assert Replay(map[], []) == map[] && Payloads(map[], []) == map[];
  }

  lemma AccountsKeepItem(env: Environment, w: World, item: ItemId, w': World, j: ItemId)
    requires WorldOk(env, w) && Takes(env, w, AccountsSynced(item), w') && j in w.providers && j in w'.providers
    ensures ItemOk(env, w', j)
  {
    hide WorldOk, ItemOk, LedgerOk, Covered, AccountsOf, AccountSync.WithAccounts;
    WorldItem(env, w, j);
    LedgerStays(env, w, j);
    if j != item {
      AccountsStayOk(env, w, item, j);
      ItemStays(env, w, w', j);
    } else {
      OwnAccountsKeepItem(env, w, item, w');
    }
  }

  lemma OwnAccountsKeepItem(env: Environment, w: World, item: ItemId, w': World)
    requires item in w.providers && ItemOk(env, w, item) && Takes(env, w, AccountsSynced(item), w')
    ensures ItemOk(env, w', item)
  {
    hide LedgerOk, ProviderOk, AccountsOf, AccountSync.WithAccounts, Replay, Changed;
    AddedAccounts(w.tables.accounts, item, env.Synced(item));
    assert Covered(w', item) == Covered(w, item);
    assert {} + env.Synced(item) == env.Synced(item);
  }

  lemma FailureKeepsItem(env: Environment, w: World, step: Step, w': World, j: ItemId)
    requires WorldOk(env, w) && Takes(env, w, step, w') && j in w.providers && j in w'.providers
    requires step.SyncFailed? || step.Crashed? || step.StatusChanged?
    ensures ItemOk(env, w', j)
  {
    hide WorldOk, ItemOk, LedgerOk, Covered, AccountsOf;
    WorldItem(env, w, j);
    LedgerStays(env, w, j);
    ItemStays(env, w, w', j);
  }

  lemma EvolvedKeepsItem(env: Environment, w: World, item: ItemId, p: Provider, w': World, j: ItemId)
    requires WorldOk(env, w) && Takes(env, w, FeedEvolves(item, p), w') && j in w.providers && j in w'.providers
    ensures ItemOk(env, w', j)
  {
    hide WorldOk, LedgerOk, AccountsOk, ProviderOk;
    WorldItem(env, w, j);
    if j == item {
      var n, before := CursorOf(w.tables, item).GetOr(0), w.providers[item];
      assert p.feed[..n] == p.feed[..before.stable][..n] == before.feed[..before.stable][..n] == before.feed[..n];
    }
    assert Covered(w', j) == Covered(w, j);
  }

  lemma LossKeepsItem(env: Environment, w: World, step: Step, w': World, j: ItemId)
    requires WorldOk(env, w) && step.EnrichmentLost? && Takes(env, w, step, w') && j in w.providers && j in w'.providers
    ensures ItemOk(env, w', j)
  {
    hide WorldOk, ItemOk, Covered, AccountsOf, RowOk, RawOk;
    WorldItem(env, w, j);
    forall id | env.owner(id) == j
      ensures RowOk(w'.tables.ledger, env.Synced(j), Replay(map[], Covered(w, j)), id)
      ensures RawOk(w'.tables.ledger, env.Synced(j), Payloads(map[], Covered(w, j)), id)
    {
      ItemStands(env, w, j, id);
      LossKeepsRow(env, w, step, w', env.Synced(j), Replay(map[], Covered(w, j)), Payloads(map[], Covered(w, j)), id);
    }
    ItemStays(env, w, w', j);
  }

  lemma LossKeepsRow(env: Environment, w: World, step: Step, w': World, accounts: set<string>, live: map<string, Entry>,
                     payloads: map<string, Entry>, id: string)
    requires step.EnrichmentLost? && Takes(env, w, step, w')
    requires RowOk(w.tables.ledger, accounts, live, id) && RawOk(w.tables.ledger, accounts, payloads, id)
    ensures RowOk(w'.tables.ledger, accounts, live, id) && RawOk(w'.tables.ledger, accounts, payloads, id)
  {
  }

  // ----- runs -----

  /** Nothing has been synced yet; items may be linked already or later. */
  ghost predicate Initial(env: Environment, w: World) {
    && env.Valid()
    && w.tables.states == map[] && w.tables.accounts == map[]
    && w.tables.ledger == Ledger(map[], map[], Categories(map[], 0))
    && forall item :: item in w.providers ==> item in env.snapshots && ProviderOk(env, item, w.providers[item])
  }

  ghost predicate IsRun(env: Environment, worlds: seq<World>, steps: seq<Step>) {
    && |worlds| == |steps| + 1
    && Initial(env, worlds[0])
    && forall i :: 0 <= i < |steps| ==> Takes(env, worlds[i], steps[i], worlds[i + 1])
  }

  lemma {:induction false} RunKeepsWorldOk(env: Environment, worlds: seq<World>, steps: seq<Step>, k: nat)
    requires IsRun(env, worlds, steps) && k < |worlds|
    ensures WorldOk(env, worlds[k])
  {
    if k == 0 {
      InitialIsOk(env, worlds[0]);
    } else {
      RunKeepsWorldOk(env, worlds, steps, k - 1);
      StepKeepsWorldOk(env, worlds[k - 1], steps[k - 1], worlds[k]);
    }
  }

  lemma InitialIsOk(env: Environment, w: World)
    requires Initial(env, w)
    ensures WorldOk(env, w)
  {
    forall item | item in w.providers
      ensures ItemOk(env, w, item)
    {
      assert Covered(w, item) == [];
    }
  }

  /** The rows of an item, and what they should be: the live synced transactions of the feed up to the cursor. */
  function ItemRows(env: Environment, t: Ledger, item: ItemId): map<string, Row> {
    map id | id in t.rows && env.owner(id) == item :: t.rows[id]
  }

  function Projection(env: Environment, c: Categories, item: ItemId, past: seq<Event>): map<string, Row> {
    var live := Replay(map[], past);
    map id | id in live && env.owner(id) == item && IsSynced(live[id], env.Synced(item)) :: RowOf(live[id], c)
  }

  /** At every moment of every run an item has exactly one row for each live synced transaction its cursor covers,
      each with the fields of its latest payload (category and classification at worst lost, never wrong), and every
      row has its payload landed, which is not pending. */
  lemma CommittedRowsAreTheProjection(env: Environment, worlds: seq<World>, steps: seq<Step>, k: nat, item: ItemId)
    requires IsRun(env, worlds, steps) && k < |worlds| && item in worlds[k].providers
    ensures var t := worlds[k].tables.ledger;
            var past := Covered(worlds[k], item);
            && ItemRows(env, t, item).Keys == Projection(env, t.categories, item, past).Keys
            && forall id :: id in ItemRows(env, t, item) ==>
                 && Matches(t.rows[id], t.categories, Replay(map[], past)[id])
                 && id in t.raws && t.raws[id].payload == Replay(map[], past)[id] && t.raws[id].status == Processed
  {
    hide IsRun, WorldOk, Covered, RawOk, RowOk, Matches;
    RunKeepsWorldOk(env, worlds, steps, k);
    var w := worlds[k];
    var past := Covered(w, item);
    forall id: string | env.owner(id) == item
      ensures RowStands(w.tables.ledger, env.Synced(item), Replay(map[], past), id)
    {
      ItemStands(env, w, item, id);
      CoveredIsWellFormed(env, w, item);
      LiveIsLanded(past, env.account, id);
      StandingRow(w.tables.ledger, env.Synced(item), Replay(map[], past), Payloads(map[], past), id);
    }
  }

  /** A row exactly for a synced live transaction, matching its latest payload, which is landed and processed. */
  predicate RowStands(t: Ledger, accounts: set<string>, live: map<string, Entry>, id: string) {
    && (id in t.rows <==> id in live && IsSynced(live[id], accounts))
    && (id in t.rows ==>
          && Matches(t.rows[id], t.categories, live[id])
          && id in t.raws && t.raws[id].payload == live[id] && t.raws[id].status == Processed)
  }

  lemma StandingRow(t: Ledger, accounts: set<string>, live: map<string, Entry>, payloads: map<string, Entry>, id: string)
    requires RowOk(t, accounts, live, id) && RawOk(t, accounts, payloads, id) && LandedAt(live, payloads, id)
    ensures RowStands(t, accounts, live, id)
  {
    hide Matches;
  }

  lemma CoveredIsWellFormed(env: Environment, w: World, item: ItemId)
    requires WorldOk(env, w) && item in w.providers
    ensures WellFormed(Covered(w, item), env.account)
  {
    hide WorldOk, WellFormed, LedgerOk, AccountsOk;
    WorldItem(env, w, item);
    var feed, past := w.providers[item].feed, Covered(w, item);
    WellFormedSlice(feed, env.account, 0, |past|);
    assert feed[0..|past|] == past;
  }

  /** Right after a committed sync the item's rows are the projection at the new cursor, to the letter, even if
      category or classification had been lost before it. */
  lemma CommittedSyncIsExact(env: Environment, worlds: seq<World>, steps: seq<Step>, k: nat)
    requires IsRun(env, worlds, steps) && k < |steps| && steps[k].SyncCommitted?
    ensures var item, w' := steps[k].item, worlds[k + 1];
            && CursorOf(w'.tables, item) == Some(steps[k].next)
            && Covered(w', item) == w'.providers[item].feed[..steps[k].next]
            && ItemRows(env, w'.tables.ledger, item)
               == Projection(env, w'.tables.ledger.categories, item, Covered(w', item))
  {
    RunKeepsWorldOk(env, worlds, steps, k);
    var step, w, w' := steps[k], worlds[k], worlds[k + 1];
    var item := step.item;
    assert Takes(env, w, step, w');
    CursorMoves(env, w, item, step.next, step.tables, w');
    var past := Covered(w', item);
    forall id | env.owner(id) == item
      ensures RowExact(w'.tables.ledger, env.Synced(item), Replay(map[], past), id)
    {
      CommittedWindowIsExact(env, w, item, step.next, step.tables, w', id);
    }
    ExactIsProjection(env, w'.tables.ledger, item, past);
  }

  lemma ExactIsProjection(env: Environment, t: Ledger, item: ItemId, past: seq<Event>)
    requires forall id :: env.owner(id) == item ==> RowExact(t, env.Synced(item), Replay(map[], past), id)
    ensures ItemRows(env, t, item) == Projection(env, t.categories, item, past)
  {
    forall id: string
      ensures id in ItemRows(env, t, item) <==> id in Projection(env, t.categories, item, past)
      ensures id in ItemRows(env, t, item) ==>
              ItemRows(env, t, item)[id] == Projection(env, t.categories, item, past)[id]
    {
      assert env.owner(id) == item ==> RowExact(t, env.Synced(item), Replay(map[], past), id);
    }
  }

  /** No step of any run ever deletes a landed payload. */
  lemma {:induction false} PayloadsAreKept(env: Environment, worlds: seq<World>, steps: seq<Step>, i: nat, k: nat)
    requires IsRun(env, worlds, steps) && i <= k < |worlds|
    ensures worlds[i].tables.ledger.raws.Keys <= worlds[k].tables.ledger.raws.Keys
    decreases k
  {
    if i < k {
      PayloadsAreKept(env, worlds, steps, i, k - 1);
      var step, w := steps[k - 1], worlds[k - 1];
      assert Takes(env, w, step, worlds[k - 1 + 1]);
      if step.SyncCommitted? {
        var window := w.providers[step.item].feed[CursorOf(w.tables, step.item).GetOr(0)..step.next];
        var t1 := Prepared(w.tables, step.item, env.snapshots[step.item], Changed(window));
        ApplyKeepsRaws(w.tables.ledger, step.item, AccountsOf(t1.accounts, step.item), Changed(window));
      }
    }
  }

  lemma {:induction false} ApplyKeepsRaws(t: Ledger, item: ItemId, accounts: set<string>, changed: seq<Entry>)
    ensures t.raws.Keys <= ApplyChanges(t, item, accounts, changed).ledger.raws.Keys
  {
    if changed != [] {
      ApplyKeepsRaws(t, item, accounts, changed[..|changed| - 1]);
    }
  }
}
