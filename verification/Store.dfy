/** The database: its tables, and a session whose working copy only `Commit` publishes. */
module Store {
  import opened Wrappers
  import opened PlaidFeed

  type ItemId = string
  type CategoryId = nat

  datatype ItemStatus = Active | LoginRequired | ItemError | Disconnected
  datatype SyncStatus = Idle | Syncing | SyncError
  datatype ProcessingStatus = Pending | Processed | Failed | Skipped
  datatype TransactionType = Debit | Credit
  datatype Classification = Income | Expense | Transfer | Fee | Refund | Unknown

  datatype SyncState = SyncState(cursor: Option<nat>, status: SyncStatus)

  datatype Raw = Raw(itemId: ItemId, payload: Entry, status: ProcessingStatus)

  /** A normalised transaction; accounts are identified by their Plaid id, on which the table is unique. */
  datatype Row = Row(accountId: string, date: int, merchantName: Option<string>, amount: int, currency: string,
                     kind: TransactionType, classification: Classification, pending: bool,
                     categoryId: Option<CategoryId>)

  /** The columns of the UNIQUE constraint on categories. */
  datatype CategoryKey = CategoryKey(name: string, parent: Option<CategoryId>)

  /** `next` is the id the next new category will get. */
  datatype Categories = Categories(ids: map<CategoryKey, CategoryId>, next: CategoryId)
  {
    ghost predicate Valid() {
      forall k :: k in ids ==> ids[k] < next
    }

    /** One row per id. */
    ghost predicate Distinct() {
      forall k, l :: k in ids && l in ids && ids[k] == ids[l] ==> k == l
    }

    ghost predicate Extends(earlier: Categories) {
      && (forall k :: k in earlier.ids ==> k in ids && ids[k] == earlier.ids[k])
      && (forall k :: k in ids && k !in earlier.ids ==> ids[k] >= earlier.next)
      && earlier.next <= next
    }
  }

  /** The transaction tables: payloads as landed, normalised rows, and the categories they refer to. */
  datatype Ledger = Ledger(raws: map<string, Raw>, rows: map<string, Row>, categories: Categories)

  datatype Tables = Tables(items: map<ItemId, ItemStatus>, states: map<ItemId, SyncState>,
                           accounts: map<string, ItemId>, ledger: Ledger)

  function AccountsOf(accounts: map<string, ItemId>, item: ItemId): set<string> {
    set a | a in accounts && accounts[a] == item
  }

  class Database {
    var committed: Tables
    var session: Tables
    ghost var history: seq<Tables>  // every state ever committed, oldest first

    ghost predicate Valid()
      reads this
    {
      history != [] && history[|history| - 1] == committed
    }

    method Commit()
      requires Valid()
      modifies this`committed, this`history
      ensures Valid() && committed == session
      ensures history == old(history) + [session]
    {
      committed := session;
      history := history + [session];
    }

    /** What closing the session does with uncommitted work, on an escaped exception as on a crash. */
    method Rollback()
      modifies this`session
      ensures session == committed
    {
      session := committed;
    }
  }
}
