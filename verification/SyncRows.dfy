/** What a row says, field by field, and what a sync's counters count. */
module SyncRows {
  import opened Wrappers
  import opened PlaidFeed
  import opened Store
  import opened Categorization
  import opened TransactionSync
  import opened SyncRuns

  // ----- the row of a payload -----

  predicate HasCode(pfc: Option<Pfc>, code: string) {
    code != "" && pfc.Some? && pfc.value.primary == Some(code)
  }

  /** The financial meaning of a primary code, and of the sign when the code has none of its own. */
  ghost predicate Means(classification: Classification, pfc: Option<Pfc>, amount: int) {
    var uncoded := forall code :: !HasCode(pfc, code);
    var transfer := HasCode(pfc, "TRANSFER_IN") || HasCode(pfc, "TRANSFER_OUT") || HasCode(pfc, "LOAN_PAYMENTS");
    var ordinary := !uncoded && !transfer && !HasCode(pfc, "INCOME") && !HasCode(pfc, "BANK_FEES");
    && (classification == Unknown <==> uncoded)
    && (classification == Income <==> HasCode(pfc, "INCOME"))
    && (classification == Transfer <==> transfer)
    && (classification == Fee <==> HasCode(pfc, "BANK_FEES"))
    && (classification == Refund <==> ordinary && amount < 0)
    && (classification == Expense <==> ordinary && amount >= 0)
  }

  /** The row is the payload's: its own fields, the merchant's name or else the descriptor, dollars when no currency is
      given, the direction of the money and its meaning; and it has a category exactly when the payload has a code. */
  ghost predicate Reads(row: Row, e: Entry) {
    && e.accountId == Some(row.accountId)
    && row.date == e.date && row.amount == e.amount && row.pending == e.pending
    && (e.merchantName.Some? && e.merchantName.value != "" ==> row.merchantName == e.merchantName)
    && (e.merchantName.None? || e.merchantName.value == "" ==> row.merchantName == e.name)
    && (e.currency.Some? && e.currency.value != "" ==> Some(row.currency) == e.currency)
    && (e.currency.None? || e.currency.value == "" ==> row.currency == "USD")
    && (row.kind == Credit <==> e.amount < 0)
    && Means(row.classification, e.pfc, e.amount)
    && (row.categoryId.Some? <==> exists code :: HasCode(e.pfc, code))
  }

  lemma ClassifyMeans(pfc: Option<Pfc>, amount: int)
    ensures Means(Classify(pfc, amount), pfc, amount)
    ensures PrimaryOf(pfc).Some? <==> exists code :: HasCode(pfc, code)
  {
    if PrimaryOf(pfc).Some? {
      assert HasCode(pfc, PrimaryOf(pfc).value);
    }
  }

  lemma NormalizedReads(e: Entry, c: Categories)
    requires c.Valid() && e.accountId.Some?
    ensures Reads(Normalized(e, e.accountId.value, ResolveIn(c, e.pfc).1), e)
  {
    hide Means, Classify;
    ClassifyMeans(e.pfc, e.amount);
    ResolveDerives(c, e.pfc);
  }

  lemma RowOfReads(e: Entry, c: Categories)
    requires e.accountId.Some? && Resolved(c, e.pfc)
    ensures Reads(RowOf(e, c), e)
  {
    hide Means, Classify;
    ClassifyMeans(e.pfc, e.amount);
  }

  /** In an account that is synced. */
  predicate InAccounts(e: Entry, accounts: set<string>) {
    exists a :: a in accounts && e.accountId == Some(a)
  }

  /** Whatever a window holds before it and whatever of other transactions after it, a synced payload leaves the row that
      reads it, and itself, processed; one that is not synced leaves no row of its own, and itself, skipped.  The raw
      payload stays with the item it came from first. */
  lemma PayloadIsApplied(t: Ledger, item: ItemId, accounts: set<string>, before: seq<Entry>, e: Entry, after: seq<Entry>)
    requires t.categories.Valid()
    requires forall x :: x in after ==> x.transactionId != e.transactionId
    ensures var id, t' := e.transactionId, ApplyChanges(t, item, accounts, before + [e] + after).ledger;
            && id in t'.raws && t'.raws[id].payload == e
            && (InAccounts(e, accounts) ==> t'.raws[id].status == Processed && id in t'.rows && Reads(t'.rows[id], e))
            && (!InAccounts(e, accounts) ==>
                  && t'.raws[id].status == Skipped
                  && var earlier := ApplyChanges(t, item, accounts, before).ledger;
                     && (id in t'.rows <==> id in earlier.rows) && (id in t'.rows ==> t'.rows[id] == earlier.rows[id]))
    ensures var id, raws := e.transactionId, ApplyChanges(t, item, accounts, before + [e] + after).ledger.raws;
            id in raws && (id in t.raws ==> raws[id].itemId == t.raws[id].itemId)
  {
    hide Reads, Normalized;
    var earlier := ApplyChanges(t, item, accounts, before).ledger;
    ApplyExtends(t, item, accounts, before);
    if e.accountId.Some? {
      NormalizedReads(e, earlier.categories);
    }
    var upTo := before + [e];
    assert upTo[..|before|] == before;
    ApplyConcat(t, item, accounts, upTo, after);
    var middle := ApplyChanges(t, item, accounts, upTo);
    LaterLeavesOthers(middle, item, accounts, after, e.transactionId);
    OwnerStays(t, item, accounts, upTo + after, e.transactionId);
  }

  function ApplyFrom(p: Progress, item: ItemId, accounts: set<string>, changed: seq<Entry>): Progress {
    if changed == [] then p
    else ApplyOne(ApplyFrom(p, item, accounts, changed[..|changed| - 1]), item, accounts, changed[|changed| - 1])
  }

  lemma {:induction false} ApplyConcat(t: Ledger, item: ItemId, accounts: set<string>, a: seq<Entry>, b: seq<Entry>)
    ensures ApplyChanges(t, item, accounts, a + b) == ApplyFrom(ApplyChanges(t, item, accounts, a), item, accounts, b)
  {
    hide ApplyOne;
    if b == [] {
      assert a + b == a;
    } else {
      assert (a + b)[..|a + b| - 1] == a + b[..|b| - 1];
      ApplyConcat(t, item, accounts, a, b[..|b| - 1]);
    }
  }

  lemma {:induction false} LaterLeavesOthers(p: Progress, item: ItemId, accounts: set<string>, changed: seq<Entry>, id: string)
    requires forall e :: e in changed ==> e.transactionId != id
    ensures SameAt(p.ledger, ApplyFrom(p, item, accounts, changed).ledger, id)
  {
    if changed != [] {
      assert changed[|changed| - 1] in changed;
      LaterLeavesOthers(p, item, accounts, changed[..|changed| - 1], id);
    }
  }

  lemma {:induction false} OwnerStays(t: Ledger, item: ItemId, accounts: set<string>, changed: seq<Entry>, id: string)
    ensures var raws := ApplyChanges(t, item, accounts, changed).ledger.raws;
            && (id in t.raws ==> id in raws && raws[id].itemId == t.raws[id].itemId)
            && (id !in t.raws && id in raws ==> raws[id].itemId == item)
  {
    if changed != [] {
      OwnerStays(t, item, accounts, changed[..|changed| - 1], id);
    }
  }

  /** In every run, right after a sync of an item has committed, each of its rows reads the live payload. */
  lemma CommittedRowsRead(env: Environment, worlds: seq<World>, steps: seq<Step>, k: nat, id: string)
    requires IsRun(env, worlds, steps) && k < |steps| && steps[k].SyncCommitted? && env.owner(id) == steps[k].item
    requires id in worlds[k + 1].tables.ledger.rows && steps[k].item in worlds[k + 1].providers
    ensures var live := Replay(map[], Covered(worlds[k + 1], steps[k].item));
            id in live && Reads(worlds[k + 1].tables.ledger.rows[id], live[id])
  {
    hide WellFormed, Takes, WorldOk, RawOk, RowOk, Reads, RowOf, Covered, Resolved;
    var step, w, w' := steps[k], worlds[k], worlds[k + 1];
    RunKeepsWorldOk(env, worlds, steps, k);
    assert Takes(env, w, step, w');
    CommittedWindowIsExact(env, w, step.item, step.next, step.tables, w', id);
    RowOfReads(Replay(map[], Covered(w', step.item))[id], w'.tables.ledger.categories);
  }

  /** The backfill gives a row without a category the one its stored payload derives, and a row of unknown meaning the
      payload's meaning; everything else about every row stays. */
  lemma BackfillFills(t: Ledger, accounts: set<string>, t': Ledger, id: string)
    requires Rederived(t, EnrichableIds(t, accounts), t') && id in t.rows
    ensures id in t'.rows && (id !in t.raws || t.rows[id].accountId !in accounts ==> t'.rows[id] == t.rows[id])
    ensures var row, row' := t.rows[id], t'.rows[id];
            && row' == row.(categoryId := row'.categoryId, classification := row'.classification)
            && (row.categoryId.Some? ==> row'.categoryId == row.categoryId)
            && (row.classification != Unknown ==> row'.classification == row.classification)
    ensures id in t.raws && t.rows[id].accountId in accounts ==>
              var row, row', pfc := t.rows[id], t'.rows[id], t.raws[id].payload.pfc;
              && (row.categoryId.None? ==> row'.categoryId == Derived(t'.categories, pfc)
                                           && (row'.categoryId.Some? <==> exists code :: HasCode(pfc, code)))
              && (row.classification == Unknown ==> Means(row'.classification, pfc, row.amount))
  {
    hide Means, Classify;
    assert id in EnrichableIds(t, accounts) <==> id in t.raws && t.rows[id].accountId in accounts;
    if id in t.raws {
      ClassifyMeans(t.raws[id].payload.pfc, t.rows[id].amount);
    }
  }

  // ----- what the counters count -----

  /** The payloads of no synced account. */
  function Strangers(changed: seq<Entry>, accounts: set<string>): nat {
    if changed == [] then 0
    else Strangers(changed[..|changed| - 1], accounts) +
         if changed[|changed| - 1].accountId.None? || changed[|changed| - 1].accountId.value !in accounts then 1 else 0
  }

  /** What one payload does to the rows and to the counters. */
  lemma OneCounts(p: Progress, item: ItemId, accounts: set<string>, e: Entry)
    ensures var q, id := ApplyOne(p, item, accounts, e), e.transactionId;
            var rows, rows' := p.ledger.rows, q.ledger.rows;
            && (forall other :: other != id ==> (other in rows' <==> other in rows)
                                                && (other in rows ==> rows'[other] == rows[other]))
            && (id in rows ==> id in rows')
            && q.added == p.added + (if id in rows' && id !in rows then 1 else 0)
            && q.modified == p.modified + (if id in rows && rows'[id] != rows[id] then 1 else 0)
            && q.skipped == p.skipped + Strangers([e], accounts)
  {
    hide Normalized, ResolveIn;
    assert [e][..0] == [];
    assert Strangers([], accounts) == 0;
  }

  lemma OneMoreStranger(init: seq<Entry>, last: Entry, accounts: set<string>)
    ensures Strangers(init + [last], accounts) == Strangers(init, accounts) + Strangers([last], accounts)
  {
    assert (init + [last])[..|init|] == init && [last][..0] == [];
    assert Strangers([], accounts) == 0;
  }

  lemma OneMoreKey(start: set<string>, before: set<string>, after: set<string>, id: string)
    requires start <= before && before <= after <= before + {id}
    ensures |after - start| == |before - start| + if id in after && id !in before then 1 else 0
  {
    if id in after && id !in before {
      assert after - start == before - start + {id};
    } else {
      assert after == before;
    }
  }

  /** `added` counts the rows that are new, `skipped` the payloads of no synced account. */
  lemma {:induction false} CountersCount(t: Ledger, item: ItemId, accounts: set<string>, changed: seq<Entry>)
    ensures var p := ApplyChanges(t, item, accounts, changed);
            && t.rows.Keys <= p.ledger.rows.Keys
            && p.added == |p.ledger.rows.Keys - t.rows.Keys| && p.skipped == Strangers(changed, accounts)
  {
    if changed == [] {
      assert t.rows.Keys - t.rows.Keys == {};
    } else {
      hide ApplyOne, Strangers;
      var init, last := changed[..|changed| - 1], changed[|changed| - 1];
      assert changed == init + [last];
      CountersCount(t, item, accounts, init);
      OneMoreCounted(t.rows.Keys, ApplyChanges(t, item, accounts, init), item, accounts, init, last);
    }
  }

  lemma OneMoreCounted(start: set<string>, p: Progress, item: ItemId, accounts: set<string>, init: seq<Entry>, last: Entry)
    requires start <= p.ledger.rows.Keys
    requires p.added == |p.ledger.rows.Keys - start| && p.skipped == Strangers(init, accounts)
    ensures var q := ApplyOne(p, item, accounts, last);
            && start <= q.ledger.rows.Keys
            && q.added == |q.ledger.rows.Keys - start| && q.skipped == Strangers(init + [last], accounts)
  {
    hide ApplyOne, Strangers;
    OneMoreStranger(init, last, accounts);
    OneCounts(p, item, accounts, last);
    OneMoreKey(start, p.ledger.rows.Keys, ApplyOne(p, item, accounts, last).ledger.rows.Keys, last.transactionId);
  }

  function Differing(before: map<string, Row>, after: map<string, Row>): set<string> {
    set id | id in before && id in after && after[id] != before[id]
  }

  lemma OneMoreDiffers(start: map<string, Row>, before: map<string, Row>, after: map<string, Row>, id: string)
    requires id in start ==> id in before && before[id] == start[id]
    requires id in before ==> id in after
    requires id in before ==> id in start
    requires forall other :: other != id ==> (other in after <==> other in before)
                                             && (other in before ==> after[other] == before[other])
    ensures |Differing(start, after)| == |Differing(start, before)| + if id in before && after[id] != before[id] then 1 else 0
  {
    assert id !in Differing(start, before);
    forall other | other != id
      ensures other in Differing(start, after) <==> other in Differing(start, before)
    {
    }
    if id in before && after[id] != before[id] {
      assert Differing(start, after) == Differing(start, before) + {id};
    } else {
      assert Differing(start, after) == Differing(start, before);
    }
  }

  /** In a window that mentions no transaction twice, `modified` counts the earlier rows that have changed. */
  lemma {:induction false} ModifiedCounts(t: Ledger, item: ItemId, accounts: set<string>, changed: seq<Entry>)
    requires forall i, j :: 0 <= i < j < |changed| ==> changed[i].transactionId != changed[j].transactionId
    ensures var p := ApplyChanges(t, item, accounts, changed); p.modified == |Differing(t.rows, p.ledger.rows)|
  {
    if changed == [] {
      assert Differing(t.rows, t.rows) == {};
    } else {
      hide ApplyOne, Differing;
      var init, last := changed[..|changed| - 1], changed[|changed| - 1];
      ModifiedCounts(t, item, accounts, init);
      ApplyLeavesOthers(t, item, accounts, init, last.transactionId);
      var p := ApplyChanges(t, item, accounts, init);
      OneCounts(p, item, accounts, last);
      OneMoreDiffers(t.rows, p.ledger.rows, ApplyOne(p, item, accounts, last).ledger.rows, last.transactionId);
    }
  }

  /** The report of a sync: rows that are new, rows that were deleted, payloads that were skipped, and its cursor. */
  lemma ReportCounts(t: Ledger, item: ItemId, accounts: set<string>, changed: seq<Entry>, removed: seq<string>, next: nat)
    ensures var report := SummaryOf(t, item, accounts, changed, removed, next);
            var rows := ApplyChanges(t, item, accounts, changed).ledger.rows;
            var after := ApplyWindow(t, item, accounts, changed, removed).rows;
            && report.added == |rows.Keys - t.rows.Keys| && report.skipped == Strangers(changed, accounts)
            && report.removed == |rows.Keys - after.Keys| && report.nextCursor == next
            && (forall id :: id in after <==> id in rows && id !in removed)
            && ((forall i, j :: 0 <= i < j < |changed| ==> changed[i].transactionId != changed[j].transactionId) ==>
                  report.modified == |Differing(t.rows, rows)|)
  {
    hide ApplyChanges, Strangers, Differing;
    CountersCount(t, item, accounts, changed);
    if forall i, j :: 0 <= i < j < |changed| ==> changed[i].transactionId != changed[j].transactionId {
      ModifiedCounts(t, item, accounts, changed);
    }
    var rows := ApplyChanges(t, item, accounts, changed).ledger.rows;
    var after := ApplyWindow(t, item, accounts, changed, removed).rows;
    assert rows.Keys - after.Keys == rows.Keys * Ids(removed);
  }
}
