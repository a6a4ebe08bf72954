/** Upserting an item's accounts; the nested step of the first transaction sync. */
module AccountSync {
  import opened Wrappers
  import opened Store
  import PlaidService

  const ACCOUNT_TYPES_TO_SYNC := {"depository", "credit"}

  /** Integrity is the unique constraint on plaid_account_id refusing another item's account. */
  datatype SyncError = Plaid(error: PlaidService.PlaidError) | Integrity

  /** The accounts of a snapshot that the service keeps. */
  function Syncable(snapshot: seq<PlaidService.AccountInfo>): set<string> {
    set info | info in snapshot && IsSyncable(info) :: info.accountId
  }

  function WithAccounts(accounts: map<string, ItemId>, item: ItemId, kept: set<string>): map<string, ItemId> {
    accounts + (map a | a in kept :: item)
  }

  predicate IsSyncable(info: PlaidService.AccountInfo) {
    info.accountType in ACCOUNT_TYPES_TO_SYNC
  }

  /** The snapshot makes the upsert insert an account id that is already there: another item's, or one that it has itself
      just inserted, since the accounts looked up beforehand are not looked up again. */
  predicate Clashes(accounts: map<string, ItemId>, item: ItemId, snapshot: seq<PlaidService.AccountInfo>) {
    snapshot != [] &&
    var init, last := snapshot[..|snapshot| - 1], snapshot[|snapshot| - 1];
    || Clashes(accounts, item, init)
    || (IsSyncable(last) && if last.accountId in accounts then accounts[last.accountId] != item
                            else last.accountId in Syncable(init))
  }

  /** Flushes only: nothing is committed unless the login is broken. */
  method SyncItem(db: Database, plaid: PlaidService.PlaidServer, item: ItemId) returns (r: Result<(), SyncError>)
    requires db.Valid() && plaid.Valid()
    modifies db, plaid
    ensures db.Valid() && plaid.Valid()
    ensures PlaidService.Evolved(old(plaid.feed), old(plaid.stable), plaid.feed, plaid.stable)
    ensures plaid.stable == old(plaid.stable)
    ensures r.Ok? ==>
            && !Clashes(old(db.session.accounts), item, plaid.accounts)
            && db.history == old(db.history)
            && db.session == old(db.session).(
                 items := old(db.session.items)[item := Active],
                 accounts := WithAccounts(old(db.session.accounts), item, Syncable(plaid.accounts)))
    ensures r == Err(Plaid(PlaidService.LoginRequired)) ==>
            && db.session == old(db.session).(items := old(db.session.items)[item := LoginRequired])
            && db.history == old(db.history) + [db.session]
    ensures r.Err? && r != Err(Plaid(PlaidService.LoginRequired)) ==> db.history == old(db.history)
    ensures r == Err(Integrity) ==> Clashes(old(db.session.accounts), item, plaid.accounts)
  {
    var reply := plaid.GetAccounts();
    if reply.Err? {
      if reply.error == PlaidService.LoginRequired {
        db.session := db.session.(items := db.session.items[item := LoginRequired]);
        db.Commit();
      }
      return Err(Plaid(reply.error));
    }
    db.session := db.session.(items := db.session.items[item := Active]);
    var accounts := UpsertAccounts(db.session.accounts, item, reply.value);
    if accounts.Err? {
      return Err(accounts.error);
    }
    db.session := db.session.(accounts := accounts.value);
    r := Ok(());
  }

  /** `existing` is the table before the upsert; only the item's own accounts in it count as already there. */
  method UpsertAccounts(existing: map<string, ItemId>, item: ItemId, snapshot: seq<PlaidService.AccountInfo>)
    returns (r: Result<map<string, ItemId>, SyncError>)
    ensures r.Ok? ==> r.value == WithAccounts(existing, item, Syncable(snapshot))
    ensures r.Ok? <==> !Clashes(existing, item, snapshot)
    ensures r.Err? ==> r.error == Integrity
  {
    var accounts := existing;
    for i := 0 to |snapshot|
      invariant accounts == WithAccounts(existing, item, Syncable(snapshot[..i]))
      invariant !Clashes(existing, item, snapshot[..i])
    {
      hide Syncable;
      var raw := snapshot[i];
      assert snapshot[..i + 1][..i] == snapshot[..i];
      OneMoreAccount(existing, item, snapshot, i);
      if IsSyncable(raw) {
        if !(raw.accountId in existing && existing[raw.accountId] == item) {
          if raw.accountId in accounts {
            ClashStays(existing, item, snapshot, i + 1);
            return Err(Integrity);
          }
          accounts := accounts[raw.accountId := item];
        }
      }
    }
    assert snapshot[..|snapshot|] == snapshot;
    r := Ok(accounts);
  }

  lemma {:induction false} ClashStays(existing: map<string, ItemId>, item: ItemId,
                                      snapshot: seq<PlaidService.AccountInfo>, n: nat)
    requires n <= |snapshot| && Clashes(existing, item, snapshot[..n])
    ensures Clashes(existing, item, snapshot)
    decreases |snapshot|
  {
    hide Syncable;
    if n == |snapshot| {
      assert snapshot[..n] == snapshot;
    } else {
      assert snapshot[..|snapshot| - 1][..n] == snapshot[..n];
      ClashStays(existing, item, snapshot[..|snapshot| - 1], n);
    }
  }

  lemma OneMoreAccount(existing: map<string, ItemId>, item: ItemId, snapshot: seq<PlaidService.AccountInfo>, i: nat)
    requires i < |snapshot|
    ensures var kept, id := Syncable(snapshot[..i]), snapshot[i].accountId;
            && WithAccounts(existing, item, Syncable(snapshot[..i + 1]))
               == (if IsSyncable(snapshot[i]) then WithAccounts(existing, item, kept)[id := item]
                   else WithAccounts(existing, item, kept))
            && (id in WithAccounts(existing, item, kept) <==> id in existing || id in kept)
            && (id in existing && existing[id] == item ==>
                  WithAccounts(existing, item, kept)[id := item] == WithAccounts(existing, item, kept))
  {
    hide Syncable;
    SyncableOneMore(snapshot, i);
  }

  lemma SyncableOneMore(snapshot: seq<PlaidService.AccountInfo>, i: nat)
    requires i < |snapshot|
    ensures Syncable(snapshot[..i + 1])
         == Syncable(snapshot[..i]) + if IsSyncable(snapshot[i]) then {snapshot[i].accountId} else {}
  {
    hide IsSyncable;
    assert snapshot[..i + 1] == snapshot[..i] + [snapshot[i]];
  }

  /** After a snapshot exactly its depository and credit accounts are the item's besides those it had, and every other
      account is whose it was. */
  lemma SnapshotIsTaken(accounts: map<string, ItemId>, item: ItemId, snapshot: seq<PlaidService.AccountInfo>, a: string)
    requires !Clashes(accounts, item, snapshot)
    ensures var after := WithAccounts(accounts, item, Syncable(snapshot));
            && (a in after && after[a] == item <==>
                || (a in accounts && accounts[a] == item)
                || exists i :: 0 <= i < |snapshot| && snapshot[i].accountId == a
                               && (snapshot[i].accountType == "depository" || snapshot[i].accountType == "credit"))
            && (a in accounts ==> a in after && after[a] == accounts[a])
  {
    hide Clashes;
    if a in accounts && a in Syncable(snapshot) {
      NotForeign(accounts, item, snapshot, a);
    }
  }

  lemma {:induction false} NotForeign(accounts: map<string, ItemId>, item: ItemId, snapshot: seq<PlaidService.AccountInfo>,
                                      a: string)
    requires !Clashes(accounts, item, snapshot) && a in accounts && a in Syncable(snapshot)
    ensures accounts[a] == item
  {
    hide Syncable;
    if snapshot == [] {
      NothingSyncable();
    } else {
      var n := |snapshot| - 1;
      SyncableOneMore(snapshot, n);
      assert snapshot[..n + 1] == snapshot;
      if a in Syncable(snapshot[..n]) {
        NotForeign(accounts, item, snapshot[..n], a);
      }
    }
  }

  lemma NothingSyncable()
    ensures Syncable([]) == {}
  {
  }

  predicate Foreign(accounts: map<string, ItemId>, item: ItemId, kept: set<string>) {
    exists a :: a in kept && a in accounts && accounts[a] != item
  }

  /** A snapshot that lists no account twice clashes if and only if one of its accounts is another item's. */
  lemma {:induction false} DistinctClashIffForeign(accounts: map<string, ItemId>, item: ItemId,
                                                   snapshot: seq<PlaidService.AccountInfo>)
    requires forall i, j :: 0 <= i < j < |snapshot| ==> snapshot[i].accountId != snapshot[j].accountId
    ensures Clashes(accounts, item, snapshot) <==> Foreign(accounts, item, Syncable(snapshot))
  {
    if snapshot != [] {
      var n := |snapshot| - 1;
      var init, last := snapshot[..n], snapshot[n];
      DistinctClashIffForeign(accounts, item, init);
      SyncableOneMore(snapshot, n);
      assert snapshot[..n + 1] == snapshot;
      assert last.accountId !in Syncable(init);
    }
  }

  /** One that lists a new account twice does clash. */
  lemma NewAccountTwiceClashes(accounts: map<string, ItemId>, item: ItemId, info: PlaidService.AccountInfo)
    requires IsSyncable(info) && info.accountId !in accounts
    ensures Clashes(accounts, item, [info, info])
  {
    assert [info, info][..1] == [info];
    assert info in [info];
  }
}
