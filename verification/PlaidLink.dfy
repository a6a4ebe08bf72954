/** Connections to institutions: linking, retiring, breaking and reviving, and how many of them are live at once. */
module PlaidLink {
  import opened Wrappers
  import opened Store

  /** `institution` is empty while unknown.  The list of all items is in order of creation. */
  datatype Item = Item(id: ItemId, user: nat, institution: string, status: ItemStatus)

  datatype LinkError = Conflict | NotFound | LoginLost | PlaidFailed | CommitFailed

  function FindItem(items: seq<Item>, id: ItemId): (found: Option<nat>)
    ensures found.Some? ==> found.value < |items| && items[found.value].id == id
    ensures found.None? ==> forall i :: 0 <= i < |items| ==> items[i].id != id
  {
    if items == [] then None
    else if items[|items| - 1].id == id then Some(|items| - 1)
    else FindItem(items[..|items| - 1], id)
  }

  predicate SameBank(item: Item, user: nat, institution: string) {
    item.user == user && item.institution == institution
  }

  /** A working connection to the institution: it makes a fresh link a duplicate. */
  predicate Blocks(items: seq<Item>, user: nat, institution: string) {
    exists i :: 0 <= i < |items| && SameBank(items[i], user, institution) && items[i].status == Active
  }

  function Retire(items: seq<Item>, user: nat, institution: string): (r: seq<Item>)
    ensures |r| == |items|
    ensures forall i :: 0 <= i < |r| ==>
              r[i] == if SameBank(items[i], user, institution) then items[i].(status := Disconnected) else items[i]
  {
    seq(|items|, i requires 0 <= i < |items| =>
      if SameBank(items[i], user, institution) then items[i].(status := Disconnected) else items[i])
  }

  function Or(institution: string, other: string): string {
    if institution != "" then institution else other
  }

  /** What exchanging a public token does to the items. */
  function Exchanged(items: seq<Item>, user: nat, id: ItemId, institution: string): Result<seq<Item>, LinkError> {
    var found := FindItem(items, id);
    if found.Some? then
      var item := items[found.value];
      if item.user != user then Err(Conflict)
      else Ok(items[found.value := item.(institution := Or(institution, item.institution), status := Active)])
    else if institution != "" && Blocks(items, user, institution) then Err(Conflict)
    else Ok((if institution == "" then items else Retire(items, user, institution)) + [Item(id, user, institution, Active)])
  }

  /** What the provider answers when an item's accounts are fetched. */
  datatype Answer = Works | LoginNeeded | Fails

  function AnswerAt(answers: seq<Answer>, i: nat): Answer {
    if i < |answers| then answers[i] else Fails
  }

  /** One item's sync; None when it raises without touching the item. */
  function Synced(item: Item, answer: Answer): Option<Item> {
    match answer
    case Works => Some(item.(status := Active))
    case LoginNeeded => Some(item.(status := LoginRequired))
    case Fails => None
  }

  /** Syncing the user's items that are not retired, from position `i` on: stops at the first that does not work. */
  function SyncFrom(items: seq<Item>, user: nat, answers: seq<Answer>, i: nat): (seq<Item>, Answer)
    requires i <= |items|
    decreases |items| - i
  {
    if i == |items| then (items, Works)
    else if items[i].user != user || items[i].status == Disconnected then SyncFrom(items, user, answers, i + 1)
    else
      var answer := AnswerAt(answers, i);
      var synced := Synced(items[i], answer);
      if answer == Works then SyncFrom(items[i := synced.value], user, answers, i + 1)
      else (if synced.None? then items else items[i := synced.value], answer)
  }

  /** The items committed after a sync of one item. */
  function SyncedItem(items: seq<Item>, user: nat, id: ItemId, answer: Answer): seq<Item> {
    var found := FindItem(items, id);
    if found.None? || items[found.value].user != user || answer == Fails then items
    else items[found.value := Synced(items[found.value], answer).value]
  }

  /** The items committed after a sync of all items: a failure other than a lost login commits nothing. */
  function SyncedAll(items: seq<Item>, user: nat, answers: seq<Answer>): seq<Item> {
    var (after, answer) := SyncFrom(items, user, answers, 0);
    if answer == Fails then items else after
  }

  // ----- the services -----

  class PlaidLinkService {
    var committed: seq<Item>
    var session: seq<Item>

    constructor ()
      ensures committed == session == []
    {
      committed, session := [], [];
    }

    /** `id` and `institution` are what the provider says of the public token; `applies` whether the commit goes through. */
    method ExchangePublicToken(user: nat, id: ItemId, institution: string, applies: bool) returns (r: Result<Item, LinkError>)
      requires session == committed
      modifies this
      ensures session == committed
      ensures var after := Exchanged(old(committed), user, id, institution);
              if after.Err? then r == Err(Conflict) && committed == old(committed)
              else if !applies then r == Err(CommitFailed) && committed == old(committed)
              else committed == after.value && r.Ok? && r.value in committed && r.value.id == id && r.value.user == user
                   && r.value.status == Active
    {
      var k := |session|;
      var found := FindItem(session, id);
      if found.Some? {
        var item := session[found.value];
        if item.user != user {
          return Err(Conflict);
        }
        item := item.(institution := Or(institution, item.institution));
        item := item.(status := Active);
        k := found.value;
        session := session[k := item];
      } else {
        var duplicate := RejectDuplicateInstitution(user, institution);
        if duplicate {
          return Err(Conflict);
        }
        session := session + [Item(id, user, institution, Active)];
      }
      if !applies {
        session := committed;
        return Err(CommitFailed);
      }
      committed := session;
      r := Ok(session[k]);
    }

    /** Rejects a link to a bank that is already connected; otherwise retires its broken connections. */
    method RejectDuplicateInstitution(user: nat, institution: string) returns (duplicate: bool)
      modifies this`session
      ensures duplicate <==> institution != "" && Blocks(old(session), user, institution)
      ensures session == if institution == "" || duplicate then old(session) else Retire(old(session), user, institution)
    {
      if institution == "" {
        return false;
      }
      if Blocks(session, user, institution) {
        return true;
      }
      ghost var before := session;
      for i := 0 to |session|
        invariant |session| == |before|
        invariant forall j :: 0 <= j < i ==> session[j] == Retire(before, user, institution)[j]
        invariant forall j :: i <= j < |before| ==> session[j] == before[j]
      {
        if SameBank(session[i], user, institution) && session[i].status != Disconnected {
          session := session[i := session[i].(status := Disconnected)];
        }
      }
      duplicate := false;
    }

    method SyncItem(user: nat, id: ItemId, answer: Answer) returns (r: Result<(), LinkError>)
      requires session == committed
      modifies this
      ensures session == committed == SyncedItem(old(committed), user, id, answer)
      ensures var found := FindItem(old(committed), id);
              r == if found.None? || old(committed)[found.value].user != user then Err(NotFound)
                   else if answer == Works then Ok(()) else Err(if answer == LoginNeeded then LoginLost else PlaidFailed)
    {
      var found := FindItem(session, id);
      if found.None? || session[found.value].user != user {
        return Err(NotFound);
      }
      if answer == Fails {
        return Err(PlaidFailed);
      }
      if answer == LoginNeeded {
        session := session[found.value := session[found.value].(status := LoginRequired)];
        committed := session;
        return Err(LoginLost);
      }
      session := session[found.value := session[found.value].(status := Active)];
      committed := session;
      r := Ok(());
    }

    /** All items of a user that are not retired, oldest first. */
    method SyncItems(user: nat, answers: seq<Answer>) returns (r: Result<(), LinkError>)
      requires session == committed
      modifies this
      ensures session == committed == SyncedAll(old(committed), user, answers)
      ensures var answer := SyncFrom(old(committed), user, answers, 0).1;
              r == if answer == Works then Ok(()) else Err(if answer == LoginNeeded then LoginLost else PlaidFailed)
    {
      for i := 0 to |session|
        invariant |session| == |old(session)| && committed == old(committed)
        invariant SyncFrom(old(session), user, answers, 0) == SyncFrom(session, user, answers, i)
      {
        if session[i].user != user || session[i].status == Disconnected {
          continue;
        }
        var answer := AnswerAt(answers, i);
        if answer == Fails {
          session := committed;
          return Err(PlaidFailed);
        }
        if answer == LoginNeeded {
          session := session[i := session[i].(status := LoginRequired)];
          committed := session;
          return Err(LoginLost);
        }
        session := session[i := session[i].(status := Active)];
      }
      committed := session;
      r := Ok(());
    }
  }

  // ----- what each request does -----

  /** A link is refused when the connection is somebody else's, or is new and the user's bank is connected already;
      otherwise it becomes, or stays, the user's, active, of the institution told or else known; a new one retires the
      user's other connections to its bank, and nothing else changes. */
  lemma LinkDoes(items: seq<Item>, user: nat, id: ItemId, institution: string)
    requires UniqueIds(items)
    ensures var r := Exchanged(items, user, id, institution);
            var known := exists i :: 0 <= i < |items| && items[i].id == id;
            && (r.Err? <==>
                || (exists i :: 0 <= i < |items| && items[i].id == id && items[i].user != user)
                || (!known && institution != "" &&
                    exists i :: 0 <= i < |items| && items[i].user == user && items[i].institution == institution
                                && items[i].status == Active))
            && (r.Ok? ==>
                  var after := r.value;
                  && |after| == |items| + (if known then 0 else 1)
                  && (!known ==> after[|items|] == Item(id, user, institution, Active))
                  && forall i :: 0 <= i < |items| ==>
                       if items[i].id == id then
                         && after[i].id == id && after[i].user == user && after[i].status == Active
                         && after[i].institution == if institution != "" then institution else items[i].institution
                       else if !known && institution != "" && items[i].user == user && items[i].institution == institution then
                         after[i] == items[i].(status := Disconnected)
                       else after[i] == items[i])
  {
    var k := FindItem(items, id);
    if k.Some? {
      assert forall i :: 0 <= i < |items| && items[i].id == id ==> i == k.value;
    }
  }

  /** A sync of one item touches that item only, and only its status. */
  lemma SyncDoes(items: seq<Item>, user: nat, id: ItemId, answer: Answer, i: nat)
    requires UniqueIds(items) && i < |items|
    ensures var after := SyncedItem(items, user, id, answer);
            && |after| == |items|
            && if items[i].id == id && items[i].user == user && answer == Works then after[i] == items[i].(status := Active)
               else if items[i].id == id && items[i].user == user && answer == LoginNeeded then
                 after[i] == items[i].(status := LoginRequired)
               else after[i] == items[i]
  {
    var k := FindItem(items, id);
    if k.Some? {
      assert forall j :: 0 <= j < |items| && items[j].id == id ==> j == k.value;
    }
  }

  predicate IsSynced(item: Item, user: nat) {
    item.user == user && item.status != Disconnected
  }

  /** A sync of all of a user's items goes through those that are not retired, in order, up to the first that does not
      work (`k`): the earlier ones are active then, that one is marked if its login is lost, and nothing else changes. */
  lemma {:induction false} SyncAllDoes(items: seq<Item>, user: nat, answers: seq<Answer>, from: nat) returns (k: nat)
    requires from <= |items|
    ensures from <= k <= |items|
    ensures forall i :: from <= i < k && IsSynced(items[i], user) ==> AnswerAt(answers, i) == Works
    ensures var (after, answer) := SyncFrom(items, user, answers, from);
            && (k == |items| <==> answer == Works)
            && (k < |items| ==> IsSynced(items[k], user) && answer == AnswerAt(answers, k))
            && |after| == |items|
            && forall i :: 0 <= i < |items| ==>
                 if from <= i < k && IsSynced(items[i], user) then after[i] == items[i].(status := Active)
                 else if i == k && answer == LoginNeeded then after[i] == items[i].(status := LoginRequired)
                 else after[i] == items[i]
    decreases |items| - from
  {
    k := from;
    if from < |items| {
      if !IsSynced(items[from], user) {
        k := SyncAllDoes(items, user, answers, from + 1);
      } else if AnswerAt(answers, from) == Works {
        k := SyncAllDoes(items[from := items[from].(status := Active)], user, answers, from + 1);
      }
    }
  }

  /** That is committed, unless the one that does not work failed in another way: then nothing is. */
  lemma SyncedAllDoes(items: seq<Item>, user: nat, answers: seq<Answer>) returns (k: nat)
    ensures k <= |items| && forall i :: 0 <= i < k && IsSynced(items[i], user) ==> AnswerAt(answers, i) == Works
    ensures k < |items| ==> IsSynced(items[k], user) && AnswerAt(answers, k) != Works
    ensures var after := SyncedAll(items, user, answers);
            && |after| == |items|
            && forall i :: 0 <= i < |items| ==>
                 if k < |items| && AnswerAt(answers, k) == Fails then after[i] == items[i]
                 else if i < k && IsSynced(items[i], user) then after[i] == items[i].(status := Active)
                 else if i == k then after[i] == items[i].(status := LoginRequired)
                 else after[i] == items[i]
  {
    k := SyncAllDoes(items, user, answers, 0);
  }

  // ----- one live connection per bank -----

  predicate Live(item: Item) {
    item.status != Disconnected
  }

  ghost predicate Rivals(a: Item, b: Item) {
    a.user == b.user && a.institution == b.institution != "" && Live(a) && Live(b)
  }

  /** Each user has at most one live item per known institution. */
  ghost predicate OneLive(items: seq<Item>) {
    forall i, j :: 0 <= i < j < |items| ==> !Rivals(items[i], items[j])
  }

  ghost predicate UniqueIds(items: seq<Item>) {
    forall i, j :: 0 <= i < j < |items| ==> items[i].id != items[j].id
  }

  /** No other live item of the owner has this institution. */
  predicate NoLiveRival(items: seq<Item>, k: nat, institution: string)
    requires k < |items|
  {
    institution != "" ==>
      forall i :: 0 <= i < |items| && i != k ==> !(SameBank(items[i], items[k].user, institution) && Live(items[i]))
  }

  lemma ReplaceKeepsIff(items: seq<Item>, k: nat, item: Item)
    requires OneLive(items) && k < |items| && item.user == items[k].user && Live(item)
    ensures OneLive(items[k := item]) <==> NoLiveRival(items, k, item.institution)
  {
    var after := items[k := item];
    if OneLive(after) {
      forall i | 0 <= i < |items| && i != k
        ensures !Rivals(items[i], item)
      {
        assert after[i] == items[i] && after[k] == item;
        assert if i < k then !Rivals(after[i], after[k]) else !Rivals(after[k], after[i]);
      }
    }
    if NoLiveRival(items, k, item.institution) {
      forall i, j | 0 <= i < j < |after|
        ensures !Rivals(after[i], after[j])
      {
        assert i != k ==> after[i] == items[i];
        assert j != k ==> after[j] == items[j];
      }
    }
  }

  /** A fresh link always keeps the invariant. */
  lemma FreshLinkKeepsOneLive(items: seq<Item>, user: nat, id: ItemId, institution: string)
    requires OneLive(items) && FindItem(items, id).None? && Exchanged(items, user, id, institution).Ok?
    ensures OneLive(Exchanged(items, user, id, institution).value)
  {
    var kept := if institution == "" then items else Retire(items, user, institution);
    var item := Item(id, user, institution, Active);
    forall i, j | 0 <= i < j < |items|
      ensures !Rivals(kept[i], kept[j])
    {
      assert !Rivals(items[i], items[j]);
    }
    forall i | 0 <= i < |items|
      ensures !Rivals(kept[i], item)
    {
    }
  }

  /** Re-linking an item keeps the invariant if and only if no other live item of the owner has the institution the item
      ends up with. */
  lemma RelinkKeepsIff(items: seq<Item>, user: nat, id: ItemId, institution: string, k: nat)
    requires OneLive(items) && FindItem(items, id) == Some(k) && items[k].user == user
    ensures OneLive(Exchanged(items, user, id, institution).value)
            <==> NoLiveRival(items, k, Or(institution, items[k].institution))
  {
    ReplaceKeepsIff(items, k, items[k].(institution := Or(institution, items[k].institution), status := Active));
  }

  /** Syncing an item, with success or a lost login, keeps the invariant if and only if no other live item of the owner
      has its institution. */
  lemma SyncKeepsIff(items: seq<Item>, user: nat, id: ItemId, answer: Answer, k: nat)
    requires OneLive(items) && FindItem(items, id) == Some(k) && items[k].user == user && answer != Fails
    ensures OneLive(SyncedItem(items, user, id, answer)) <==> NoLiveRival(items, k, items[k].institution)
  {
    ReplaceKeepsIff(items, k, Synced(items[k], answer).value);
  }

  /** So an item that is live has no rival: it always may be synced, or re-linked under its own institution. */
  lemma LiveHasNoRival(items: seq<Item>, k: nat)
    requires OneLive(items) && k < |items| && Live(items[k])
    ensures NoLiveRival(items, k, items[k].institution)
  {
    forall i | 0 <= i < |items| && i != k
      ensures !Rivals(items[i], items[k])
    {
      assert if i < k then !Rivals(items[i], items[k]) else !Rivals(items[k], items[i]);
    }
  }

  lemma {:induction false} SyncAllKeepsOneLive(items: seq<Item>, user: nat, answers: seq<Answer>, i: nat)
    requires OneLive(items) && i <= |items|
    ensures OneLive(SyncFrom(items, user, answers, i).0) && SameOwners(items, SyncFrom(items, user, answers, i).0)
    decreases |items| - i
  {
    if i < |items| {
      if items[i].user != user || items[i].status == Disconnected {
        SyncAllKeepsOneLive(items, user, answers, i + 1);
      } else {
        LiveHasNoRival(items, i);
        ReplaceKeepsIff(items, i, items[i].(status := Active));
        ReplaceKeepsIff(items, i, items[i].(status := LoginRequired));
        if AnswerAt(answers, i) == Works {
          SyncAllKeepsOneLive(items[i := items[i].(status := Active)], user, answers, i + 1);
        }
      }
    }
  }

  // ----- every run -----

  /** `Syncs` is an explicit sync of one item, retired or not, of its accounts or of its transactions: the latter too marks
      an item whose login is lost as such and one whose accounts it fetches as active, and else leaves its status alone,
      as `Fails` does here.  Each item of a sync of all transactions is one such step. */
  datatype Step =
    | Links(user: nat, id: ItemId, institution: string, applies: bool)
    | Syncs(user: nat, id: ItemId, answer: Answer)
    | SyncsAll(user: nat, answers: seq<Answer>)

  function Take(items: seq<Item>, step: Step): seq<Item> {
    match step
    case Links(user, id, institution, applies) =>
      var after := Exchanged(items, user, id, institution);
      if applies && after.Ok? then after.value else items
    case Syncs(user, id, answer) => SyncedItem(items, user, id, answer)
    case SyncsAll(user, answers) => SyncedAll(items, user, answers)
  }

  /** What a caller can check before the step: an explicit sync or an update-mode link that will take effect is of an
      item whose owner has no other live item of the institution it ends up with. */
  predicate Allowed(items: seq<Item>, step: Step) {
    match step
    case Links(user, id, institution, applies) =>
      var k := FindItem(items, id);
      applies && k.Some? && items[k.value].user == user ==>
        NoLiveRival(items, k.value, Or(institution, items[k.value].institution))
    case Syncs(user, id, answer) =>
      var k := FindItem(items, id);
      answer != Fails && k.Some? && items[k.value].user == user ==>
        NoLiveRival(items, k.value, items[k.value].institution)
    case SyncsAll(_, _) => true
  }

  /** The later items are the earlier ones, same ids and owners, and possibly more. */
  ghost predicate SameOwners(before: seq<Item>, after: seq<Item>) {
    |before| <= |after| && forall i :: 0 <= i < |before| ==> after[i].id == before[i].id && after[i].user == before[i].user
  }

  /** A step keeps the invariant if and only if it is allowed. */
  lemma StepKeepsOneLiveIff(items: seq<Item>, step: Step)
    requires OneLive(items)
    ensures OneLive(Take(items, step)) <==> Allowed(items, step)
  {
    hide OneLive, NoLiveRival, Retire, Blocks;
    match step
    case Links(user, id, institution, _) =>
      var k := FindItem(items, id);
      if k.None? {
        if Exchanged(items, user, id, institution).Ok? {
          FreshLinkKeepsOneLive(items, user, id, institution);
        }
      } else if items[k.value].user == user {
        RelinkKeepsIff(items, user, id, institution, k.value);
      }
    case Syncs(user, id, answer) =>
      var k := FindItem(items, id);
      if k.Some? && items[k.value].user == user && answer != Fails {
        SyncKeepsIff(items, user, id, answer, k.value);
      }
    case SyncsAll(user, answers) => SyncAllKeepsOneLive(items, user, answers, 0);
  }

  /** Whatever the step, also the excluded ones: nobody's item becomes somebody else's, and none disappears. */
  lemma StepKeepsOwners(items: seq<Item>, step: Step)
    ensures SameOwners(items, Take(items, step))
    ensures UniqueIds(items) ==> UniqueIds(Take(items, step))
  {
    hide OneLive, Blocks;
    match step
    case Links(user, id, institution, _) =>
    case Syncs(user, id, answer) =>
    case SyncsAll(user, answers) => SyncAllKeepsOwners(items, user, answers, 0);
  }

  lemma {:induction false} SyncAllKeepsOwners(items: seq<Item>, user: nat, answers: seq<Answer>, i: nat)
    requires i <= |items|
    ensures SameOwners(items, SyncFrom(items, user, answers, i).0) && |SyncFrom(items, user, answers, i).0| == |items|
    decreases |items| - i
  {
    if i < |items| {
      SyncAllKeepsOwners(items, user, answers, i + 1);
      if AnswerAt(answers, i) == Works {
        SyncAllKeepsOwners(items[i := items[i].(status := Active)], user, answers, i + 1);
      }
    }
  }

  function After(run: seq<Step>): seq<Item> {
    if run == [] then [] else Take(After(run[..|run| - 1]), run[|run| - 1])
  }

  ghost predicate AllAllowed(run: seq<Step>) {
    run == [] || (AllAllowed(run[..|run| - 1]) && Allowed(After(run[..|run| - 1]), run[|run| - 1]))
  }

  /** At every moment of the run each user has at most one live item per known institution. */
  ghost predicate AlwaysOneLive(run: seq<Step>) {
    OneLive(After(run)) && (run != [] ==> AlwaysOneLive(run[..|run| - 1]))
  }

  /** That is so for exactly the runs of links, failures and syncs whose steps are all allowed. */
  lemma {:induction false} RunKeepsOneLiveIff(run: seq<Step>)
    ensures AlwaysOneLive(run) <==> AllAllowed(run)
  {
    if run != [] {
      hide OneLive, Allowed, Take;
      var init := run[..|run| - 1];
      RunKeepsOneLiveIff(init);
      if AlwaysOneLive(init) {
        StepKeepsOneLiveIff(After(init), run[|run| - 1]);
      }
    } else {
      assert OneLive(After(run));
    }
  }

  /** Explicit syncs and update-mode links of live items only, a link telling no other institution. */
  predicate TargetsLive(items: seq<Item>, step: Step) {
    match step
    case Links(user, id, institution, _) =>
      var k := FindItem(items, id);
      k.Some? ==> Live(items[k.value]) && Or(institution, items[k.value].institution) == items[k.value].institution
    case Syncs(_, id, _) =>
      var k := FindItem(items, id);
      k.Some? ==> Live(items[k.value])
    case SyncsAll(_, _) => true
  }

  /** Such steps are always allowed. */
  lemma LiveTargetsAreAllowed(items: seq<Item>, step: Step)
    requires OneLive(items) && TargetsLive(items, step)
    ensures Allowed(items, step)
  {
    hide OneLive, NoLiveRival;
    var k := if step.SyncsAll? then None else FindItem(items, step.id);
    if k.Some? {
      LiveHasNoRival(items, k.value);
    }
  }

  /** Over every run whatever, ids stay unique, and the owners of earlier items stay. */
  lemma {:induction false} RunKeepsOwners(run: seq<Step>, earlier: nat)
    requires earlier <= |run|
    ensures UniqueIds(After(run)) && SameOwners(After(run[..earlier]), After(run))
  {
    if run != [] {
      var init := run[..|run| - 1];
      RunKeepsOwners(init, if earlier < |run| then earlier else 0);
      StepKeepsOwners(After(init), run[|run| - 1]);
      if earlier < |run| {
        assert init[..earlier] == run[..earlier];
      } else {
        assert run[..earlier] == run;
      }
    }
  }

  /** The guard is needed for retired items: after a lost login and a fresh link to the same bank, an explicit sync of
      the retired item, or an update-mode link of it, leaves two live items. */
  lemma RevivingARetiredItemBreaks(items: seq<Item>, user: nat, first: ItemId, second: ItemId, bank: string)
    requires first != second && bank != ""
    requires items == [Item(first, user, bank, Disconnected), Item(second, user, bank, Active)]
    ensures OneLive(items)
    ensures items == Take(Take(Take([], Links(user, first, bank, true)), Syncs(user, first, LoginNeeded)),
                          Links(user, second, bank, true))
    ensures !OneLive(Take(items, Syncs(user, first, Works)))
    ensures !OneLive(Take(items, Links(user, first, bank, true)))
  {
    var linked, broken := [Item(first, user, bank, Active)], [Item(first, user, bank, LoginRequired)];
    assert Take([], Links(user, first, bank, true)) == linked;
    assert FindItem(linked, first) == Some(0);
    assert Take(linked, Syncs(user, first, LoginNeeded)) == broken;
    assert FindItem(broken, second).None? && !Blocks(broken, user, bank);
    assert Retire(broken, user, bank) == [Item(first, user, bank, Disconnected)];
    assert Take(broken, Links(user, second, bank, true)) == items;
    assert FindItem(items, first) == Some(0);
    var revived := [Item(first, user, bank, Active), Item(second, user, bank, Active)];
    assert Take(items, Syncs(user, first, Works)) == revived == Take(items, Links(user, first, bank, true));
    assert Rivals(revived[0], revived[1]);
  }

  /** It is needed for live items too: an item linked while its institution was unknown, and re-linked once it is known,
      leaves two live items when the bank has been linked meanwhile. */
  lemma LearningTheBankBreaks(user: nat, first: ItemId, second: ItemId, bank: string)
    requires first != second && bank != ""
    ensures var items := Take(Take([], Links(user, first, "", true)), Links(user, second, bank, true));
            && items == [Item(first, user, "", Active), Item(second, user, bank, Active)]
            && OneLive(items) && !OneLive(Take(items, Links(user, first, bank, true)))
  {
    var linked := [Item(first, user, "", Active)];
    assert Take([], Links(user, first, "", true)) == linked;
    assert FindItem(linked, second).None? && !Blocks(linked, user, bank);
    assert Retire(linked, user, bank) == linked;
    var items := [Item(first, user, "", Active), Item(second, user, bank, Active)];
    assert Take(linked, Links(user, second, bank, true)) == items;
    assert FindItem(items, first) == Some(0);
    var learnt := [Item(first, user, bank, Active), Item(second, user, bank, Active)];
    assert Take(items, Links(user, first, bank, true)) == learnt;
    assert Rivals(learnt[0], learnt[1]);
  }

  /** While it is harmless when no rival is live. */
  lemma LearningTheBankIsAllowed(user: nat, id: ItemId, bank: string)
    ensures Allowed([Item(id, user, "", Active)], Links(user, id, bank, true))
  {
    assert FindItem([Item(id, user, "", Active)], id) == Some(0);
  }
}
