/** Spending by category and by month.  Money is a whole number of ten-thousandths, as the column stores it. */
module Analytics {
  import opened Wrappers
  import opened Rollup

  datatype Month = Month(year: int, month: int)

  datatype Date = Date(year: int, month: int, day: int)

  datatype Transaction = Transaction(user: nat, accountId: nat, date: Date, amount: int, category: Option<nat>)

  /** A row of category_mappings. */
  datatype Mapping = Mapping(user: nat, category: nat, userCategory: nat)

  datatype Scope = Scope(user: nat, start: Option<Date>, end: Option<Date>, accountId: Option<nat>)

  predicate NotAfter(a: Date, b: Date) {
    a.year < b.year || (a.year == b.year && (a.month < b.month || (a.month == b.month && a.day <= b.day)))
  }

  predicate InScope(t: Transaction, s: Scope) {
    && t.user == s.user && (s.accountId.Some? ==> t.accountId == s.accountId.value)
    && (s.start.Some? ==> NotAfter(s.start.value, t.date)) && (s.end.Some? ==> NotAfter(t.date, s.end.value))
  }

  function Scoped(ts: seq<Transaction>, s: Scope): seq<Transaction> {
    if ts == [] then []
    else Scoped(ts[..|ts| - 1], s) + if InScope(ts[|ts| - 1], s) then [ts[|ts| - 1]] else []
  }

  function Outflow(t: Transaction): nat {
    if t.amount > 0 then t.amount else 0
  }

  /** Gross outflow of the period. */
  function Spending(ts: seq<Transaction>): nat {
    if ts == [] then 0 else Spending(ts[..|ts| - 1]) + Outflow(ts[|ts| - 1])
  }

  // ----- by month -----

  function MonthOf(d: Date): Month {
    Month(d.year, d.month)
  }

  function MonthLines(ts: seq<Transaction>): seq<Line<Month>> {
    if ts == [] then []
    else MonthLines(ts[..|ts| - 1]) + [Line(MonthOf(ts[|ts| - 1].date), Outflow(ts[|ts| - 1]))]
  }

  lemma {:induction false} MonthLinesSum(ts: seq<Transaction>)
    ensures Sum(MonthLines(ts)) == Spending(ts)
  {
    if ts != [] {
      MonthLinesSum(ts[..|ts| - 1]);
      var line := Line(MonthOf(ts[|ts| - 1].date), Outflow(ts[|ts| - 1]));
      Push(MonthLines(ts[..|ts| - 1]), line, line.group);
    }
  }

  // ----- by category, through the user's own mapping -----

  datatype Group = Custom(id: nat) | Plaid(id: nat) | Uncategorized

  /** The mapping rows a transaction joins with. */
  function Joins(mappings: seq<Mapping>, user: nat, category: Option<nat>): seq<nat> {
    if mappings == [] then []
    else
      var last := mappings[|mappings| - 1];
      Joins(mappings[..|mappings| - 1], user, category) +
      if last.user == user && category == Some(last.category) then [last.userCategory] else []
  }

  function CustomLines(ids: seq<nat>, amount: int): seq<Line<Group>> {
    if ids == [] then [] else CustomLines(ids[..|ids| - 1], amount) + [Line(Custom(ids[|ids| - 1]), amount)]
  }

  /** The outer join: one line per mapping row, or one line under its own category when there is none. */
  function LinesOf(t: Transaction, mappings: seq<Mapping>, user: nat): seq<Line<Group>> {
    var ids := Joins(mappings, user, t.category);
    if t.amount <= 0 then []
    else if ids != [] then CustomLines(ids, t.amount)
    else [Line(if t.category.Some? then Plaid(t.category.value) else Uncategorized, t.amount)]
  }

  function CategoryLines(ts: seq<Transaction>, mappings: seq<Mapping>, user: nat): seq<Line<Group>> {
    if ts == [] then []
    else CategoryLines(ts[..|ts| - 1], mappings, user) + LinesOf(ts[|ts| - 1], mappings, user)
  }

  /** The primary key of category_mappings. */
  ghost predicate KeyUnique(mappings: seq<Mapping>) {
    forall i, j :: 0 <= i < j < |mappings| ==>
                     !(mappings[i].user == mappings[j].user && mappings[i].category == mappings[j].category)
  }

  lemma {:induction false} SumConcat(a: seq<Line<Group>>, b: seq<Line<Group>>)
    ensures Sum(a + b) == Sum(a) + Sum(b)
  {
    if b == [] {
      assert a + b == a;
    } else {
      assert (a + b)[..|a + b| - 1] == a + b[..|b| - 1];
      SumConcat(a, b[..|b| - 1]);
    }
  }

  lemma {:induction false} CustomLinesSum(ids: seq<nat>, amount: nat)
    ensures Sum(CustomLines(ids, amount)) == |ids| * amount
  {
    if ids != [] {
      CustomLinesSum(ids[..|ids| - 1], amount);
      var line := Line(Custom(ids[|ids| - 1]), amount);
      Push(CustomLines(ids[..|ids| - 1], amount), line, line.group);
      assert (|ids| - 1) * amount + amount == |ids| * amount;
    }
  }

  /** The transaction counts once, or once more for every extra mapping row. */
  lemma LinesSum(t: Transaction, mappings: seq<Mapping>, user: nat)
    ensures var n := |Joins(mappings, user, t.category)|;
            Sum(LinesOf(t, mappings, user)) == Outflow(t) * (if n == 0 then 1 else n)
  {
    hide Joins, CustomLines;
    if t.amount > 0 {
      var ids := Joins(mappings, user, t.category);
      if ids == [] {
        assert LinesOf(t, mappings, user)[..0] == [];
      } else {
        CustomLinesSum(ids, t.amount);
        assert |ids| * t.amount == t.amount * |ids|;
      }
    }
  }

  /** No outflow's category is mapped twice. */
  ghost predicate SingleJoins(ts: seq<Transaction>, mappings: seq<Mapping>, user: nat) {
    forall i :: 0 <= i < |ts| && ts[i].amount > 0 ==> |Joins(mappings, user, ts[i].category)| <= 1
  }

  /** The lines sum to the outflow if and only if no outflow joins twice; otherwise they overstate it. */
  lemma {:induction false} LinesConserveIff(ts: seq<Transaction>, mappings: seq<Mapping>, user: nat)
    ensures Sum(CategoryLines(ts, mappings, user)) >= Spending(ts)
    ensures Sum(CategoryLines(ts, mappings, user)) == Spending(ts) <==> SingleJoins(ts, mappings, user)
  {
    if ts != [] {
      var init, last := ts[..|ts| - 1], ts[|ts| - 1];
      hide LinesOf, Joins, CategoryLines, SingleJoins;
      LinesConserveIff(init, mappings, user);
      LastLines(ts, mappings, user);
      LinesSum(last, mappings, user);
      SumConcat(CategoryLines(init, mappings, user), LinesOf(last, mappings, user));
      AtLeastOnce(Outflow(last), |Joins(mappings, user, last.category)|);
      SingleJoinsPush(ts, mappings, user);
    }
  }

  lemma SingleJoinsPush(ts: seq<Transaction>, mappings: seq<Mapping>, user: nat)
    requires ts != []
    ensures var last := ts[|ts| - 1];
            SingleJoins(ts, mappings, user)
            <==> SingleJoins(ts[..|ts| - 1], mappings, user)
                 && (last.amount > 0 ==> |Joins(mappings, user, last.category)| <= 1)
  {
    hide Joins;
    var init := ts[..|ts| - 1];
    assert forall i :: 0 <= i < |init| ==> init[i] == ts[i];
  }

  lemma LastLines(ts: seq<Transaction>, mappings: seq<Mapping>, user: nat)
    requires ts != []
    ensures CategoryLines(ts, mappings, user)
         == CategoryLines(ts[..|ts| - 1], mappings, user) + LinesOf(ts[|ts| - 1], mappings, user)
  {
  }

  lemma AtLeastOnce(amount: nat, n: nat)
    ensures amount * (if n == 0 then 1 else n) >= amount
    ensures amount * (if n == 0 then 1 else n) == amount <==> amount == 0 || n <= 1
  {
    if n >= 2 {
      assert amount * n == amount * 2 + amount * (n - 2);
    }
  }

  lemma {:induction false} KeyGivesOneJoin(mappings: seq<Mapping>, user: nat, category: Option<nat>)
    requires KeyUnique(mappings)
    ensures |Joins(mappings, user, category)| <= 1
    ensures Joins(mappings, user, category) != [] ==>
              exists i :: 0 <= i < |mappings| && mappings[i].user == user && category == Some(mappings[i].category)
  {
    if mappings != [] {
      var init := mappings[..|mappings| - 1];
      KeyGivesOneJoin(init, user, category);
      if Joins(init, user, category) != [] {
        var i :| 0 <= i < |init| && init[i].user == user && category == Some(init[i].category);
        assert mappings[i] == init[i];
      }
    }
  }

  /** Through any mapping with its primary key, the category totals add up to the period's gross outflow, and so do the
      monthly totals. */
  lemma RollupConserves(all: seq<Transaction>, s: Scope, mappings: seq<Mapping>, categories: seq<Row<Group>>,
                        months: seq<Row<Month>>)
    requires KeyUnique(mappings)
    requires IsGrouping(CategoryLines(Scoped(all, s), mappings, s.user), categories)
    requires IsGrouping(MonthLines(Scoped(all, s)), months)
    ensures SumTotals(categories) == Spending(Scoped(all, s)) == SumTotals(months)
  {
    var ts := Scoped(all, s);
    forall i | 0 <= i < |ts| && ts[i].amount > 0
      ensures |Joins(mappings, s.user, ts[i].category)| <= 1
    {
      KeyGivesOneJoin(mappings, s.user, ts[i].category);
    }
    LinesConserveIff(ts, mappings, s.user);
    GroupingConserves(CategoryLines(ts, mappings, s.user), categories);
    MonthLinesSum(ts);
    GroupingConserves(MonthLines(ts), months);
  }

  /** Without the key the rollup would double-count: exactly when some outflow's category is mapped twice. */
  lemma RollupDoubleCountsIff(all: seq<Transaction>, s: Scope, mappings: seq<Mapping>, categories: seq<Row<Group>>)
    requires IsGrouping(CategoryLines(Scoped(all, s), mappings, s.user), categories)
    ensures SumTotals(categories) > Spending(Scoped(all, s)) <==> !SingleJoins(Scoped(all, s), mappings, s.user)
  {
    LinesConserveIff(Scoped(all, s), mappings, s.user);
    GroupingConserves(CategoryLines(Scoped(all, s), mappings, s.user), categories);
  }

  // ----- what is counted, and where -----

  /** A date as a number that grows with time. */
  function DayNumber(d: Date): int {
    d.year * 10000 + d.month * 100 + d.day
  }

  predicate IsDate(d: Date) {
    1 <= d.month <= 12 && 1 <= d.day <= 31
  }

  /** Counted are the user's own transactions, of the account asked for, from the first day to the last, both included. */
  lemma {:induction false} ScopedAre(all: seq<Transaction>, s: Scope, t: Transaction)
    requires IsDate(t.date) && (s.start.Some? ==> IsDate(s.start.value)) && (s.end.Some? ==> IsDate(s.end.value))
    ensures t in Scoped(all, s) <==>
            && t in all && t.user == s.user && s.accountId in {None, Some(t.accountId)}
            && (s.start.Some? ==> DayNumber(s.start.value) <= DayNumber(t.date))
            && (s.end.Some? ==> DayNumber(t.date) <= DayNumber(s.end.value))
  {
    if all != [] {
      hide NotAfter, DayNumber;
      var init, last := all[..|all| - 1], all[|all| - 1];
      assert all == init + [last];
      ScopedAre(init, s, t);
      if s.start.Some? {
        NotAfterIs(s.start.value, t.date);
      }
      if s.end.Some? {
        NotAfterIs(t.date, s.end.value);
      }
    }
  }

  lemma NotAfterIs(a: Date, b: Date)
    requires IsDate(a) && IsDate(b)
    ensures NotAfter(a, b) <==> DayNumber(a) <= DayNumber(b)
  {
  }

  /** The group a transaction belongs to: the user category its own category is mapped to by this user, else its own
      category, else none. */
  ghost predicate Belongs(t: Transaction, mappings: seq<Mapping>, user: nat, group: Group) {
    match group
    case Custom(u) => exists m :: m in mappings && m.user == user && Some(m.category) == t.category && m.userCategory == u
    case Plaid(c) => t.category == Some(c) && forall m :: m in mappings && m.user == user ==> m.category != c
    case Uncategorized => t.category == None
  }

  /** The money that went out for a group. */
  ghost function SpentOn(ts: seq<Transaction>, mappings: seq<Mapping>, user: nat, group: Group): nat {
    if ts == [] then 0
    else
      var last := ts[|ts| - 1];
      SpentOn(ts[..|ts| - 1], mappings, user, group) +
      if last.amount > 0 && Belongs(last, mappings, user, group) then last.amount else 0
  }

  lemma {:induction false} JoinsAre(mappings: seq<Mapping>, user: nat, category: Option<nat>, u: nat)
    ensures u in Joins(mappings, user, category) <==>
            exists m :: m in mappings && m.user == user && Some(m.category) == category && m.userCategory == u
    ensures Joins(mappings, user, category) == [] <==>
            forall m :: m in mappings && m.user == user ==> Some(m.category) != category
  {
    if mappings != [] {
      var init, last := mappings[..|mappings| - 1], mappings[|mappings| - 1];
      assert mappings == init + [last];
      JoinsAre(init, user, category, u);
    }
  }

  lemma OneLine(line: Line<Group>, group: Group)
    ensures SumOf([line], group) == if line.group == group then line.amount else 0
  {
    assert [line] == [] + [line];
    assert SumOf<Group>([], group) == 0;
    Push([], line, group);
  }

  lemma OneCustomLine(id: nat, amount: int)
    ensures CustomLines([id], amount) == [Line(Custom(id), amount)]
  {
    assert [id][..0] == [];
    assert CustomLines([], amount) == [];
  }

  lemma LinesBelong(t: Transaction, mappings: seq<Mapping>, user: nat, group: Group)
    requires KeyUnique(mappings)
    ensures SumOf(LinesOf(t, mappings, user), group)
         == if t.amount > 0 && Belongs(t, mappings, user, group) then t.amount else 0
  {
    hide Joins, SumOf, CustomLines;
    NoLinesNoSum<Group>([], group);
    if t.amount > 0 {
      var ids := Joins(mappings, user, t.category);
      KeyGivesOneJoin(mappings, user, t.category);
      JoinsAre(mappings, user, t.category, if group.Custom? then group.id else if ids == [] then 0 else ids[0]);
      if ids == [] {
        OneLine(LinesOf(t, mappings, user)[0], group);
      } else {
        assert ids == [ids[0]];
        OneCustomLine(ids[0], t.amount);
        OneLine(Line(Custom(ids[0]), t.amount), group);
        JoinsAre(mappings, user, t.category, ids[0]);
      }
    }
  }

  lemma {:induction false} SumOfConcat(a: seq<Line<Group>>, b: seq<Line<Group>>, group: Group)
    ensures SumOf(a + b, group) == SumOf(a, group) + SumOf(b, group)
  {
    if b == [] {
      assert a + b == a;
    } else {
      assert (a + b)[..|a + b| - 1] == a + b[..|b| - 1];
      SumOfConcat(a, b[..|b| - 1], group);
    }
  }

  /** Each group of the breakdown totals exactly the outflow of the transactions that belong to it. */
  lemma {:induction false} GroupsTotal(ts: seq<Transaction>, mappings: seq<Mapping>, user: nat, group: Group)
    requires KeyUnique(mappings)
    ensures SumOf(CategoryLines(ts, mappings, user), group) == SpentOn(ts, mappings, user, group)
  {
    if ts != [] {
      hide LinesOf, Belongs, SumOf;
      GroupsTotal(ts[..|ts| - 1], mappings, user, group);
      LastLines(ts, mappings, user);
      LinesBelong(ts[|ts| - 1], mappings, user, group);
      SumOfConcat(CategoryLines(ts[..|ts| - 1], mappings, user), LinesOf(ts[|ts| - 1], mappings, user), group);
    } else {
      NoLinesNoSum<Group>([], group);
    }
  }

  // ----- rounding to cents -----

  /** Decimal.quantize to two places: half to even. */
  function Money(x: int): int {
    var q, r := x / 100, x % 100;
    if r < 50 || (r == 50 && q % 2 == 0) then q else q + 1
  }

  function Abs(x: int): nat {
    if x < 0 then -x else x
  }

  /** The nearest cent, and the even one of two nearest. */
  lemma MoneyIsNearest(x: int, cents: int)
    ensures Abs(100 * Money(x) - x) <= 50
    ensures cents != Money(x) ==> Abs(100 * cents - x) >= Abs(100 * Money(x) - x)
    ensures cents != Money(x) && Abs(100 * cents - x) == Abs(100 * Money(x) - x) ==> Money(x) % 2 == 0
  {
  }

  function SumMoney<G>(rows: seq<Row<G>>): int {
    if rows == [] then 0 else SumMoney(rows[..|rows| - 1]) + Money(rows[|rows| - 1].total)
  }

  lemma {:induction false} RoundedSum<G>(rows: seq<Row<G>>)
    ensures Abs(100 * SumMoney(rows) - SumTotals(rows)) <= 50 * |rows|
  {
    if rows != [] {
      RoundedSum(rows[..|rows| - 1]);
      MoneyIsNearest(rows[|rows| - 1].total, 0);
    }
  }

  /** The breakdown's lines and its total are rounded separately: they differ by at most half a cent for every line and
      half a cent for the total. */
  lemma BreakdownAddsUpNearly<G>(rows: seq<Row<G>>)
    ensures 2 * Abs(SumMoney(rows) - Money(SumTotals(rows))) <= |rows| + 1
  {
    RoundedSum(rows);
    MoneyIsNearest(SumTotals(rows), 0);
  }

  // ----- month over month -----

  function Index(m: Month): int {
    m.year * 12 + (m.month - 1)
  }

  predicate IsMonth(m: Month) {
    1 <= m.month <= 12
  }

  function ShiftMonth(anchor: Month, delta: int): Month {
    var total := anchor.year * 12 + (anchor.month - 1) + delta;
    Month(total / 12, total % 12 + 1)
  }

  /** Shifting moves exactly `delta` months, and a month is its position on the calendar. */
  lemma ShiftMoves(anchor: Month, delta: int, m: Month)
    requires IsMonth(m)
    ensures IsMonth(ShiftMonth(anchor, delta)) && Index(ShiftMonth(anchor, delta)) == Index(anchor) + delta
    ensures m == ShiftMonth(anchor, delta) <==> Index(m) == Index(anchor) + delta
  {
  }

  datatype Point = Point(month: Month, spending: int, change: Option<int>, percent: Option<real>)

  /** The dictionary of monthly spending, absent months as zero. */
  function SpendingIn(rows: seq<Row<Month>>, month: Month): int {
    if rows == [] then 0
    else if rows[|rows| - 1].group == month then rows[|rows| - 1].total
    else SpendingIn(rows[..|rows| - 1], month)
  }

  /** Dictionary construction: a later row of the same month would win. */
  method ByMonth(rows: seq<Row<Month>>) returns (spending: map<Month, int>)
    ensures forall m :: (if m in spending then spending[m] else 0) == SpendingIn(rows, m)
  {
    spending := map[];
    for i := 0 to |rows|
      invariant forall m :: (if m in spending then spending[m] else 0) == SpendingIn(rows[..i], m)
    {
      assert rows[..i + 1][..i] == rows[..i];
      spending := spending[rows[i].group := rows[i].total];
    }
    assert rows[..|rows|] == rows;
  }

  /** No change for the first month; afterwards the difference to the month before. */
  ghost predicate ChangesAreDifferences(points: seq<Point>) {
    && (points != [] ==> points[0].change == None)
    && forall i :: 0 < i < |points| ==> points[i].change == Some(points[i].spending - points[i - 1].spending)
  }

  /** There is a percentage exactly when the month before has spending other than zero, and then it leads from that
      spending to this one. */
  predicate LeadsTo(previous: int, percent: Option<real>, spending: int) {
    && (percent.Some? <==> previous != 0)
    && (percent.Some? ==> previous as real * (100.0 + percent.value) == 100.0 * spending as real)
  }

  ghost predicate PercentsAreRelative(points: seq<Point>) {
    && (points != [] ==> points[0].percent == None)
    && forall i :: 0 < i < |points| ==> LeadsTo(points[i - 1].spending, points[i].percent, points[i].spending)
  }

  /** The percentage before it is rounded for display. */
  function Percent(previous: Option<int>, spending: int): (percent: Option<real>)
    ensures if previous.None? then percent == None else LeadsTo(previous.value, percent, spending)
  {
    if previous.None? || previous.value == 0 then None
    else Some((spending - previous.value) as real / previous.value as real * 100.0)
  }

  method MonthOverMonth(rows: seq<Row<Month>>, current: Month, months: nat) returns (points: seq<Point>)
    requires IsMonth(current)
    ensures |points| == months
    ensures forall i :: 0 <= i < months ==>
              && IsMonth(points[i].month) && Index(points[i].month) == Index(current) - (months - 1) + i
              && points[i].spending == Money(SpendingIn(rows, points[i].month))
    ensures ChangesAreDifferences(points) && PercentsAreRelative(points)
  {
    hide Money, SpendingIn, Percent, LeadsTo;
    var windowStart := ShiftMonth(current, -(months - 1));
    var spendingByMonth := ByMonth(rows);
    points := [];
    var previous: Option<int> := None;
    for offset := 0 to months
      invariant |points| == offset
      invariant forall i :: 0 <= i < offset ==>
                  && IsMonth(points[i].month) && Index(points[i].month) == Index(current) - (months - 1) + i
                  && points[i].spending == Money(SpendingIn(rows, points[i].month))
      invariant ChangesAreDifferences(points) && PercentsAreRelative(points)
      invariant previous == if offset == 0 then None else Some(points[offset - 1].spending)
    {
      var key := ShiftMonth(windowStart, offset);
      ShiftMoves(current, -(months - 1), windowStart);
      ShiftMoves(windowStart, offset, key);
      var spending := Money(if key in spendingByMonth then spendingByMonth[key] else 0);
      var change := if previous.None? then None else Some(spending - previous.value);
      points := points + [Point(key, spending, change, Percent(previous, spending))];
      previous := Some(spending);
    }
  }

  function Changes(points: seq<Point>): int {
    if points == [] then 0 else Changes(points[..|points| - 1]) + points[|points| - 1].change.GetOr(0)
  }

  /** The changes telescope to last minus first. */
  lemma {:induction false} ChangesTelescope(points: seq<Point>)
    requires points != [] && ChangesAreDifferences(points)
    ensures Changes(points) == points[|points| - 1].spending - points[0].spending
  {
    var init := points[..|points| - 1];
    if |points| > 1 {
      ChangesTelescope(init);
    } else {
      assert init == [];
    }
  }

  /** The transactions dated in the `n` months from `first` on. */
  function SpendingFrom(ts: seq<Transaction>, first: int, n: nat): nat {
    if ts == [] then 0
    else
      var last := ts[|ts| - 1];
      SpendingFrom(ts[..|ts| - 1], first, n) +
      if first <= last.date.year * 12 + (last.date.month - 1) < first + n then Outflow(last) else 0
  }

  lemma {:induction false} OneMoreMonth(ts: seq<Transaction>, first: int, n: nat, month: Month)
    requires forall i :: 0 <= i < |ts| ==> IsMonth(MonthOf(ts[i].date))
    requires IsMonth(month) && Index(month) == first + n
    ensures SpendingFrom(ts, first, n + 1) == SpendingFrom(ts, first, n) + SumOf(MonthLines(ts), month)
  {
    if ts != [] {
      var init, last := ts[..|ts| - 1], ts[|ts| - 1];
      OneMoreMonth(init, first, n, month);
      Push(MonthLines(init), Line(MonthOf(last.date), Outflow(last)), month);
    }
  }

  lemma {:induction false} NoMonths(ts: seq<Transaction>, first: int)
    ensures SpendingFrom(ts, first, 0) == 0
  {
    if ts != [] {
      NoMonths(ts[..|ts| - 1], first);
    }
  }

  lemma {:induction false} SpendingInIs(lines: seq<Line<Month>>, rows: seq<Row<Month>>, upTo: nat, month: Month)
    requires IsGrouping(lines, rows) && upTo <= |rows|
    requires forall j :: upTo <= j < |rows| ==> rows[j].group != month
    ensures SpendingIn(rows[..upTo], month) == SumOf(lines, month)
  {
    if upTo == 0 {
      NoLinesNoSum(lines, month) by {
        forall line | line in lines
          ensures line.group != month
        {
          var i :| 0 <= i < |lines| && lines[i] == line;
          var j :| 0 <= j < |rows| && rows[j].group == lines[i].group;
        }
      }
    } else if rows[upTo - 1].group != month {
      assert rows[..upTo][..upTo - 1] == rows[..upTo - 1];
      SpendingInIs(lines, rows, upTo - 1, month);
    }
  }

  function SumSpending(points: seq<Point>): int {
    if points == [] then 0 else SumSpending(points[..|points| - 1]) + points[|points| - 1].spending
  }

  /** The points cover the window: their sum is the outflow of exactly those months, up to half a cent a month. */
  lemma {:induction false} PointsCoverTheWindow(ts: seq<Transaction>, rows: seq<Row<Month>>, points: seq<Point>, first: int)
    requires forall i :: 0 <= i < |ts| ==> IsMonth(MonthOf(ts[i].date))
    requires IsGrouping(MonthLines(ts), rows)
    requires forall i :: 0 <= i < |points| ==>
               && IsMonth(points[i].month) && Index(points[i].month) == first + i
               && points[i].spending == Money(SpendingIn(rows, points[i].month))
    ensures Abs(100 * SumSpending(points) - SpendingFrom(ts, first, |points|)) <= 50 * |points|
  {
    if points == [] {
      NoMonths(ts, first);
    } else {
      hide Money, SpendingIn, IsGrouping;
      var n := |points| - 1;
      PointsCoverTheWindow(ts, rows, points[..n], first);
      OneMoreMonth(ts, first, n, points[n].month);
      SpendingInIs(MonthLines(ts), rows, |rows|, points[n].month);
      assert rows[..|rows|] == rows;
      MoneyIsNearest(SpendingIn(rows, points[n].month), 0);
    }
  }
}
