/** The gateway's paging loop, run against a provider that may rewrite its feed or fail at any call. */
module PlaidService {
  import opened Wrappers
  import opened PlaidFeed

  datatype PlaidError = LoginRequired | MutationDuringPagination | OtherError

  datatype Page = Page(added: seq<Entry>, modified: seq<Entry>, removed: seq<string>, nextCursor: nat, hasMore: bool)

  datatype SyncResult = SyncResult(added: seq<Entry>, modified: seq<Entry>, removed: seq<string>, nextCursor: nat)

  datatype AccountInfo = AccountInfo(accountId: string, accountType: string)

  /** What the provider does at one call: perhaps rewrite its feed, perhaps fail, else serve up to `take` events. */
  datatype Turn = Turn(rewrite: Option<seq<Event>>, failure: Option<PlaidError>, take: nat, hasMore: bool)

  /** The three lists are exactly the events of `feed` from `lo` up to `hi`, by kind. */
  predicate IsSlice(feed: seq<Event>, lo: nat, hi: nat, added: seq<Entry>, modified: seq<Entry>, removed: seq<string>) {
    && lo <= hi <= |feed|
    && added == Added(feed[lo..hi])
    && modified == Modified(feed[lo..hi])
    && removed == Removed(feed[lo..hi])
  }

  /** The provider may change anything beyond the last position it handed out as a final cursor. */
  predicate Evolved(feed: seq<Event>, stable: nat, feed': seq<Event>, stable': nat) {
    stable <= stable' <= |feed'| && stable <= |feed| && feed'[..stable] == feed[..stable]
  }

  lemma EvolvedTwice(f0: seq<Event>, s0: nat, f1: seq<Event>, s1: nat, f2: seq<Event>, s2: nat)
    requires Evolved(f0, s0, f1, s1) && Evolved(f1, s1, f2, s2)
    ensures Evolved(f0, s0, f2, s2)
    ensures forall lo, hi :: 0 <= lo <= hi <= s1 ==> f2[lo..hi] == f1[lo..hi]
  {
    assert f2[..s0] == f2[..s1][..s0] == f1[..s1][..s0] == f1[..s0];
    forall lo, hi | 0 <= lo <= hi <= s1 ensures f2[lo..hi] == f1[lo..hi] {
      assert f2[lo..hi] == f2[..s1][lo..hi];
    }
  }

  class PlaidServer {
    const account: string -> Option<string>
    const owns: string -> bool
    const accounts: seq<AccountInfo>
    const turns: nat -> Turn
    var feed: seq<Event>
    var stable: nat       // final cursors handed out never exceed this position
    var open: Option<nat> // where the pass in progress continues
    var calls: nat
    var passes: nat       // calls that did not continue a pass

    predicate Legal(events: seq<Event>)
      reads this
    {
      && WellFormed(events, account)
      && forall i :: 0 <= i < |events| ==> owns(events[i].Id())
    }

    ghost predicate Valid()
      reads this
    {
      && stable <= |feed|
      && Legal(feed)
      && (open.Some? ==> open.value <= |feed|)
    }

    method TransactionsSync(cursor: nat) returns (r: Result<Page, PlaidError>)
      requires Valid() && (cursor <= stable || open == Some(cursor))
      modifies this
      ensures Valid() && Evolved(old(feed), old(stable), feed, stable)
      ensures r.Ok? && old(open) == Some(cursor) ==> feed == old(feed)
      ensures passes == old(passes) + if old(open) == Some(cursor) then 0 else 1
      ensures r.Ok? ==> var p := r.value;
              && IsSlice(feed, cursor, p.nextCursor, p.added, p.modified, p.removed)
              && (p.hasMore ==> cursor < p.nextCursor && open == Some(p.nextCursor))
              && (!p.hasMore ==> p.nextCursor <= stable)
    {
      var turn := turns(calls);
      calls := calls + 1;
      var continuing := open == Some(cursor);
      var mutated := Mutate(turn);
      if !continuing {
        passes := passes + 1;
      }
      if turn.failure.Some? {
        open := None;
        return Err(turn.failure.value);
      }
      if continuing && mutated {
        open := None;
        return Err(MutationDuringPagination);
      }
      var end := if turn.take <= |feed| - cursor then cursor + turn.take else |feed|;
      var more := turn.hasMore && cursor < end;
      if more {
        open := Some(end);
      } else {
        open := None;
        stable := if stable < end then end else stable;
      }
      var w := feed[cursor..end];
      r := Ok(Page(Added(w), Modified(w), Removed(w), end, more));
    }

    method GetAccounts() returns (r: Result<seq<AccountInfo>, PlaidError>)
      requires Valid()
      modifies this
      ensures Valid() && Evolved(old(feed), old(stable), feed, stable)
      ensures stable == old(stable)
      ensures r.Ok? ==> r.value == accounts
    {
      var turn := turns(calls);
      calls := calls + 1;
      var _ := Mutate(turn);
      r := if turn.failure.Some? then Err(turn.failure.value) else Ok(accounts);
    }

    method Mutate(turn: Turn) returns (mutated: bool)
      requires Valid()
      modifies this`feed, this`open
      ensures Valid() && Evolved(old(feed), old(stable), feed, stable)
      ensures !mutated ==> feed == old(feed) && open == old(open)
      ensures mutated ==> open == None
    {
      mutated := turn.rewrite.Some? && |turn.rewrite.value| >= stable &&
                 turn.rewrite.value[..stable] == feed[..stable] && Legal(turn.rewrite.value);
      if mutated {
        feed := turn.rewrite.value;
        open := None;
      }
    }
  }

  lemma SliceExtends(feed: seq<Event>, lo: nat, mid: nat, hi: nat)
    requires lo <= mid <= hi <= |feed|
    ensures Added(feed[lo..hi]) == Added(feed[lo..mid]) + Added(feed[mid..hi])
    ensures Modified(feed[lo..hi]) == Modified(feed[lo..mid]) + Modified(feed[mid..hi])
    ensures Removed(feed[lo..hi]) == Removed(feed[lo..mid]) + Removed(feed[mid..hi])
  {
    SplitConcat(feed[lo..mid], feed[mid..hi]);
    assert feed[lo..mid] + feed[mid..hi] == feed[lo..hi];
  }

  /** One pass: what it returns is a contiguous slice, from the given cursor to a final one, of a single version of
      the feed, however many pages it took. */
  method SyncFrom(server: PlaidServer, cursor: Option<nat>) returns (r: Result<SyncResult, PlaidError>)
    requires server.Valid() && cursor.GetOr(0) <= server.stable
    modifies server
    ensures server.Valid() && Evolved(old(server.feed), old(server.stable), server.feed, server.stable)
    ensures server.passes <= old(server.passes) + 1
    ensures r.Ok? ==>
            && r.value.nextCursor <= server.stable
            && IsSlice(server.feed, cursor.GetOr(0), r.value.nextCursor, r.value.added, r.value.modified, r.value.removed)
  {
    hide WellFormed;
    var added: seq<Entry>, modified: seq<Entry>, removed: seq<string> := [], [], [];
    var start := cursor.GetOr(0);
    var nextCursor := start;
    while true
      invariant server.Valid() && Evolved(old(server.feed), old(server.stable), server.feed, server.stable)
      invariant IsSlice(server.feed, start, nextCursor, added, modified, removed)
      invariant nextCursor == start || server.open == Some(nextCursor)
      invariant server.passes <= old(server.passes) + if nextCursor == start then 0 else 1
      decreases nextCursor == start, |server.feed| - nextCursor
    {
      var reply := server.TransactionsSync(nextCursor);
      if reply.Err? {
        return Err(reply.error);
      }
      var data := reply.value;
      SliceExtends(server.feed, start, nextCursor, data.nextCursor);
      added := added + data.added;
      modified := modified + data.modified;
      removed := removed + data.removed;
      nextCursor := data.nextCursor;
      if !data.hasMore {
        return Ok(SyncResult(added, modified, removed, nextCursor));
      }
    }
  }

  /** Restarts once from the original cursor when the feed mutated mid-pass; never a third pass. */
  method SyncTransactions(server: PlaidServer, cursor: Option<nat>) returns (r: Result<SyncResult, PlaidError>)
    requires server.Valid() && cursor.GetOr(0) <= server.stable
    modifies server
    ensures server.Valid() && Evolved(old(server.feed), old(server.stable), server.feed, server.stable)
    ensures server.passes <= old(server.passes) + 2
    ensures r.Ok? ==>
            && r.value.nextCursor <= server.stable
            && IsSlice(server.feed, cursor.GetOr(0), r.value.nextCursor, r.value.added, r.value.modified, r.value.removed)
  {
    var attempt := 1;
    while true
      invariant 1 <= attempt <= 2
      invariant server.Valid() && Evolved(old(server.feed), old(server.stable), server.feed, server.stable)
      invariant server.passes <= old(server.passes) + attempt - 1
      decreases 2 - attempt
    {
      r := SyncFrom(server, cursor);
      if r.Err? && r.error == MutationDuringPagination && attempt == 1 {
        attempt := attempt + 1;
      } else {
        return;
      }
    }
  }
}
