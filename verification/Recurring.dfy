/** Recurring charges of one merchant: steady gaps in a known band, steady amounts.  Dates are day numbers, amounts whole
    ten-thousandths; medians of gaps are kept doubled so that halves stay whole. */
module Recurring {
  import opened Wrappers
  import opened Analytics

  datatype Charge = Charge(date: int, amount: int, currency: string)

  datatype Cadence = Weekly | Biweekly | Monthly | Quarterly | Yearly

  datatype Band = Band(low: int, high: int, cadence: Cadence)

  const CADENCE_BANDS := [Band(5, 9, Weekly), Band(12, 17, Biweekly), Band(26, 35, Monthly), Band(80, 100, Quarterly),
                          Band(350, 380, Yearly)]

  const GAP_TOLERANCE_DAYS := 4

  datatype Pattern = Pattern(cadence: Cadence, average: int, occurrences: nat, first: int, last: int, next: int)

  // ----- sorted lists -----

  function Insert(x: int, s: seq<int>): seq<int> {
    if s == [] || x <= s[0] then [x] + s else [s[0]] + Insert(x, s[1..])
  }

  function Sorted(s: seq<int>): seq<int> {
    if s == [] then [] else Insert(s[0], Sorted(s[1..]))
  }

  /** sorted(set(s)) */
  function SortedSet(s: seq<int>): seq<int> {
    if s == [] then []
    else
      var rest := SortedSet(s[1..]);
      if s[0] in rest then rest else Insert(s[0], rest)
  }

  ghost predicate AtLeast(x: int, s: seq<int>) {
    forall y :: y in s ==> x <= y
  }

  ghost predicate Ordered(s: seq<int>) {
    s == [] || (AtLeast(s[0], s[1..]) && Ordered(s[1..]))
  }

  /** Ordered, without repetition. */
  ghost predicate Ascending(s: seq<int>) {
    s == [] || (AtLeast(s[0] + 1, s[1..]) && Ascending(s[1..]))
  }

  lemma {:induction false} InsertIs(x: int, s: seq<int>)
    ensures multiset(Insert(x, s)) == multiset(s) + multiset{x}
    ensures |Insert(x, s)| == |s| + 1 && forall y :: y in Insert(x, s) <==> y in s || y == x
  {
    if s != [] && x > s[0] {
      InsertIs(x, s[1..]);
      assert s == [s[0]] + s[1..];
    }
  }

  lemma {:induction false} InsertKeepsOrder(x: int, s: seq<int>)
    requires Ordered(s)
    ensures Ordered(Insert(x, s))
  {
    if s != [] {
      if x <= s[0] {
        assert ([x] + s)[1..] == s && s == [s[0]] + s[1..];
      } else {
        InsertKeepsOrder(x, s[1..]);
        InsertIs(x, s[1..]);
        assert Insert(x, s)[1..] == Insert(x, s[1..]);
      }
    }
  }

  lemma {:induction false} InsertKeepsAscending(x: int, s: seq<int>)
    requires Ascending(s) && x !in s
    ensures Ascending(Insert(x, s))
  {
    if s != [] {
      assert s[0] in s;
      if x <= s[0] {
        assert ([x] + s)[1..] == s && s == [s[0]] + s[1..];
      } else {
        InsertKeepsAscending(x, s[1..]);
        InsertIs(x, s[1..]);
        assert Insert(x, s)[1..] == Insert(x, s[1..]);
      }
    }
  }

  lemma {:induction false} SortedIs(s: seq<int>)
    ensures Ordered(Sorted(s)) && multiset(Sorted(s)) == multiset(s) && |Sorted(s)| == |s|
  {
    if s != [] {
      SortedIs(s[1..]);
      InsertIs(s[0], Sorted(s[1..]));
      InsertKeepsOrder(s[0], Sorted(s[1..]));
      assert s == [s[0]] + s[1..];
    }
  }

  lemma {:induction false} SortedSetIs(s: seq<int>)
    ensures Ascending(SortedSet(s)) && forall x :: x in SortedSet(s) <==> x in s
  {
    if s != [] {
      SortedSetIs(s[1..]);
      if s[0] !in SortedSet(s[1..]) {
        InsertIs(s[0], SortedSet(s[1..]));
        InsertKeepsAscending(s[0], SortedSet(s[1..]));
      }
      assert s == [s[0]] + s[1..];
    }
  }

  lemma Front(s: seq<int>)
    requires s != []
    ensures s == [s[0]] + s[1..] && multiset(s) == multiset{s[0]} + multiset(s[1..])
    ensures forall x :: x in s <==> x == s[0] || x in s[1..]
  {
    assert s == [s[0]] + s[1..];
  }

  lemma SameHead(a: seq<int>, b: seq<int>)
    requires Ordered(a) && Ordered(b) && multiset(a) == multiset(b) && a != [] && b != []
    ensures a[0] == b[0]
  {
    Front(a);
    Front(b);
    assert a[0] in multiset(b) && b[0] in multiset(a);
    assert a[0] in b && b[0] in a;
  }

  lemma SameTails(a: seq<int>, b: seq<int>)
    requires multiset(a) == multiset(b) && a != [] && b != [] && a[0] == b[0]
    ensures multiset(a[1..]) == multiset(b[1..])
  {
    hide *;
    TailIs(a);
    TailIs(b);
  }

  lemma TailIs(s: seq<int>)
    requires s != []
    ensures multiset(s[1..]) == multiset(s) - multiset{s[0]}
  {
    assert s == [s[0]] + s[1..];
  }

  /** There is one way to sort. */
  lemma {:induction false} OrderedIsUnique(a: seq<int>, b: seq<int>)
    requires Ordered(a) && Ordered(b) && multiset(a) == multiset(b)
    ensures a == b
  {
    if a == [] || b == [] {
      assert |a| == |multiset(a)| == |multiset(b)| == |b|;
    } else {
      SameHead(a, b);
      SameTails(a, b);
      OrderedIsUnique(a[1..], b[1..]);
      assert a == [a[0]] + a[1..] && b == [b[0]] + b[1..];
    }
  }

  lemma {:induction false} AscendingIsUnique(a: seq<int>, b: seq<int>)
    requires Ascending(a) && Ascending(b) && forall x :: x in a <==> x in b
    ensures a == b
  {
    assert a != [] ==> a[0] in a && a[0] in b;
    assert b != [] ==> b[0] in b && b[0] in a;
    if a != [] && b != [] {
      Front(a);
      Front(b);
      assert a[0] == b[0];
      assert forall x :: x in a[1..] <==> x in a && x != a[0];
      assert forall x :: x in b[1..] <==> x in b && x != b[0];
      AscendingIsUnique(a[1..], b[1..]);
    }
  }

  // ----- detection -----

  function Dates(rows: seq<Charge>): (r: seq<int>)
    ensures |r| == |rows| && forall i :: 0 <= i < |r| ==> r[i] == rows[i].date
  {
    seq(|rows|, i requires 0 <= i < |rows| => rows[i].date)
  }

  function Amounts(rows: seq<Charge>): (r: seq<int>)
    ensures |r| == |rows| && forall i :: 0 <= i < |r| ==> r[i] == rows[i].amount
  {
    seq(|rows|, i requires 0 <= i < |rows| => rows[i].amount)
  }

  function Gaps(dates: seq<int>): (r: seq<int>)
    ensures |r| == if dates == [] then 0 else |dates| - 1
    ensures forall i :: 0 <= i < |r| ==> r[i] == dates[i + 1] - dates[i]
  {
    if |dates| <= 1 then [] else Gaps(dates[..|dates| - 1]) + [dates[|dates| - 1] - dates[|dates| - 2]]
  }

  /** Twice statistics.median. */
  function DoubleMedian(s: seq<int>): int
    requires s != []
  {
    var sorted, n := Sorted(s), |s|;
    SortedIs(s);
    if n % 2 == 1 then 2 * sorted[n / 2] else sorted[n / 2 - 1] + sorted[n / 2]
  }

  /** Rounds a / b half to even. */
  function RoundDiv(a: int, b: nat): int
    requires b > 0
  {
    var q, r := a / b, a % b;
    if 2 * r < b || (2 * r == b && q % 2 == 0) then q else q + 1
  }

  function CadenceOf(median2: int, bands: seq<Band>): Option<Cadence> {
    if bands == [] then None
    else if 2 * bands[0].low <= median2 <= 2 * bands[0].high then Some(bands[0].cadence)
    else CadenceOf(median2, bands[1..])
  }

  predicate SteadyGaps(gaps: seq<int>, median2: int) {
    forall i :: 0 <= i < |gaps| ==> Abs(2 * gaps[i] - median2) <= 2 * GAP_TOLERANCE_DAYS
  }

  /** Every amount within a fifth of the (upper) median. */
  predicate SteadyAmounts(amounts: seq<int>)
    requires amounts != []
  {
    var median := amounts[|amounts| / 2];
    forall i :: 0 <= i < |amounts| ==> 5 * Abs(amounts[i] - median) <= median
  }

  function Total(amounts: seq<int>): int {
    if amounts == [] then 0 else Total(amounts[..|amounts| - 1]) + amounts[|amounts| - 1]
  }

  /** The part that looks at dates only: the cadence and the doubled median gap. */
  function Timing(dates: seq<int>, minOccurrences: nat): Option<(Cadence, int)>
    requires minOccurrences >= 2
  {
    if |dates| < minOccurrences then None
    else
      var median2 := DoubleMedian(Gaps(dates));
      if !SteadyGaps(Gaps(dates), median2) then None
      else
        var cadence := CadenceOf(median2, CADENCE_BANDS);
        if cadence.None? then None else Some((cadence.value, median2))
  }

  function DetectPattern(rows: seq<Charge>, minOccurrences: nat): Option<Pattern>
    requires minOccurrences >= 2
  {
    var dates := SortedSet(Dates(rows));
    var timing := Timing(dates, minOccurrences);
    if timing.None? then None
    else
      var amounts := Sorted(Amounts(rows));
      DatesNeedRows(rows, minOccurrences);
      if !SteadyAmounts(amounts) then None
      else
        var last := dates[|dates| - 1];
        Some(Pattern(timing.value.0, RoundDiv(Total(amounts), 100 * |amounts|), |dates|, dates[0], last,
                     last + RoundDiv(timing.value.1, 2)))
  }

  lemma DatesNeedRows(rows: seq<Charge>, minOccurrences: nat)
    requires minOccurrences >= 2 && |SortedSet(Dates(rows))| >= minOccurrences
    ensures |Sorted(Amounts(rows))| == |rows| > 0
  {
    SortedIs(Amounts(rows));
  }

  // ----- a detected pattern is one -----

  lemma OneMoreGap(distance: int, gap: int, n: nat, median2: int)
    requires Abs(2 * distance - n * median2) <= 8 * n && Abs(2 * gap - median2) <= 8
    ensures Abs(2 * (distance + gap) - (n + 1) * median2) <= 8 * (n + 1)
  {
    assert (n + 1) * median2 == n * median2 + median2;
  }

  lemma {:induction false} GapsAddUp(dates: seq<int>, median2: int)
    requires dates != [] && SteadyGaps(Gaps(dates), median2)
    ensures Abs(2 * (dates[|dates| - 1] - dates[0]) - (|dates| - 1) * median2) <= 8 * (|dates| - 1)
  {
    if |dates| > 1 {
      hide Gaps, Abs;
      var init, n := dates[..|dates| - 1], |dates| - 1;
      assert Gaps(dates)[n - 1] == dates[n] - dates[n - 1];
      assert forall i :: 0 <= i < n - 1 ==> Gaps(init)[i] == Gaps(dates)[i];
      GapsAddUp(init, median2);
      OneMoreGap(dates[n - 1] - dates[0], dates[n] - dates[n - 1], n - 1, median2);
    } else {
      assert (|dates| - 1) * median2 == 0;
    }
  }

  lemma {:induction false} TotalBounds(amounts: seq<int>, low: int, high: int)
    requires forall i :: 0 <= i < |amounts| ==> low <= 5 * amounts[i] <= high
    ensures low * |amounts| <= 5 * Total(amounts) <= high * |amounts|
  {
    if amounts != [] {
      TotalBounds(amounts[..|amounts| - 1], low, high);
      assert low * |amounts| == low * (|amounts| - 1) + low && high * |amounts| == high * (|amounts| - 1) + high;
    }
  }

  lemma RoundDivIsNear(a: int, b: nat)
    requires b > 0
    ensures 2 * Abs(b * RoundDiv(a, b) - a) <= b
    ensures 2 * Abs(b * RoundDiv(a, b) - a) == b ==> RoundDiv(a, b) % 2 == 0
  {
    assert b * (a / b) + a % b == a;
    assert b * (a / b + 1) == b * (a / b) + b;
  }

  /** The rounded average stays within a fifth of the median, plus half a cent. */
  lemma AverageIsNear(total: int, n: nat, median: int)
    requires n > 0 && 4 * (n * median) <= 5 * total <= 6 * (n * median)
    ensures 5 * Abs(100 * RoundDiv(total, 100 * n) - median) <= median + 250
  {
    hide RoundDiv;
    var cents := RoundDiv(total, 100 * n);
    RoundDivIsNear(total, 100 * n);
    Regroup(n, cents, median);
    Cancel(n, 5 * (100 * cents - median), median + 250);
    Cancel(n, -5 * (100 * cents - median), median + 250);
  }

  lemma FactorOut(median: int, n: nat)
    ensures 4 * median * n == 4 * (n * median) && 6 * median * n == 6 * (n * median)
  {
  }

  lemma Regroup(n: nat, cents: int, median: int)
    ensures 100 * n * cents == n * (100 * cents)
    ensures n * (5 * (100 * cents - median)) == 5 * (n * (100 * cents)) - 5 * (n * median)
    ensures n * (-5 * (100 * cents - median)) == 5 * (n * median) - 5 * (n * (100 * cents))
    ensures n * (median + 250) == n * median + 250 * n
  {
  }

  lemma Cancel(n: nat, x: int, y: int)
    requires n > 0 && n * x <= n * y
    ensures x <= y
  {
    Multiple(n, x - y);
    assert n * (x - y) == n * x - n * y;
  }

  /** The bands do not overlap: a cadence is found if and only if the median is in its band. */
  lemma CadenceIsUnique(median2: int, band: Band)
    requires band in CADENCE_BANDS
    ensures CadenceOf(median2, CADENCE_BANDS) == Some(band.cadence) <==> 2 * band.low <= median2 <= 2 * band.high
  {
    hide CadenceOf;
    if 2 * band.low <= median2 <= 2 * band.high {
      BandExists(median2, CADENCE_BANDS, band);
    }
    if CadenceOf(median2, CADENCE_BANDS).Some? {
      BandFound(median2, CADENCE_BANDS);
    }
  }

  lemma {:induction false} BandExists(median2: int, bands: seq<Band>, band: Band)
    requires band in bands && 2 * band.low <= median2 <= 2 * band.high
    ensures CadenceOf(median2, bands).Some?
  {
    if bands[0] != band {
      assert bands == [bands[0]] + bands[1..];
      BandExists(median2, bands[1..], band);
    }
  }

  lemma CadenceHasBand(median2: int)
    requires CadenceOf(median2, CADENCE_BANDS).Some?
    ensures exists band :: band in CADENCE_BANDS && CadenceOf(median2, CADENCE_BANDS) == Some(band.cadence)
    ensures 10 <= median2 <= 760
  {
    BandFound(median2, CADENCE_BANDS);
  }

  lemma {:induction false} BandFound(median2: int, bands: seq<Band>)
    requires CadenceOf(median2, bands).Some?
    ensures exists band :: band in bands && CadenceOf(median2, bands) == Some(band.cadence)
                           && 2 * band.low <= median2 <= 2 * band.high
  {
    if 2 * bands[0].low <= median2 <= 2 * bands[0].high {
      assert bands[0] in bands;
    } else {
      BandFound(median2, bands[1..]);
      assert forall band :: band in bands[1..] ==> band in bands;
    }
  }

  /** What detection guarantees, stated without its steps: enough charge dates, evenly spread over the time between the
      first and the last, a median gap in the cadence's band, an average near a median amount, and a next date after the
      last by that gap. */
  lemma DetectedIsRecurring(rows: seq<Charge>, minOccurrences: nat)
    requires minOccurrences >= 2 && DetectPattern(rows, minOccurrences).Some?
    ensures var p := DetectPattern(rows, minOccurrences).value;
            var dates, amounts := SortedSet(Dates(rows)), Sorted(Amounts(rows));
            && p.occurrences == |dates| >= minOccurrences && p.first == dates[0] && p.last == dates[|dates| - 1]
            && var median2 := DoubleMedian(Gaps(dates));
               && Abs(2 * (p.last - p.first) - (p.occurrences - 1) * median2) <= 8 * (p.occurrences - 1)
               && (forall band :: band in CADENCE_BANDS ==>
                     (band.cadence == p.cadence <==> 2 * band.low <= median2 <= 2 * band.high))
               && 5 <= p.next - p.last <= 380 && Abs(2 * (p.next - p.last) - median2) <= 1
               && |amounts| == |rows| > 0
               && 5 * Abs(100 * p.average - amounts[|rows| / 2]) <= amounts[|rows| / 2] + 250
  {
    hide SortedSet, Sorted, Gaps, DoubleMedian, CADENCE_BANDS;
    var dates, amounts := SortedSet(Dates(rows)), Sorted(Amounts(rows));
    var median2 := DoubleMedian(Gaps(dates));
    DatesNeedRows(rows, minOccurrences);
    GapsAddUp(dates, median2);
    CadenceHasBand(median2);
    RoundDivIsNear(median2, 2);
    forall band | band in CADENCE_BANDS
      ensures band.cadence == CadenceOf(median2, CADENCE_BANDS).value <==> 2 * band.low <= median2 <= 2 * band.high
    {
      CadenceIsUnique(median2, band);
    }
    var median := amounts[|amounts| / 2];
    TotalBounds(amounts, 4 * median, 6 * median);
    FactorOut(median, |amounts|);
    AverageIsNear(Total(amounts), |amounts|, median);
  }

  // ----- what detection does not depend on -----

  lemma TakeOut<T>(s: seq<T>, k: nat)
    requires k < |s|
    ensures multiset(s[..k] + s[k + 1..]) == multiset(s) - multiset{s[k]}
  {
    assert s == s[..k] + [s[k]] + s[k + 1..];
  }

  lemma {:induction false} AmountsMultiset(a: seq<Charge>, b: seq<Charge>)
    requires multiset(a) == multiset(b)
    ensures multiset(Amounts(a)) == multiset(Amounts(b))
    decreases |a|
  {
    hide Amounts;
    if a == [] {
      assert |b| == |multiset(b)| == |multiset(a)| == 0;
    } else {
      var k := PickSame(a, b);
      AmountsMultiset(a[..0] + a[1..], b[..k] + b[k + 1..]);
      AmountsWithout(a, 0);
      AmountsWithout(b, k);
    }
  }

  lemma PickSame(a: seq<Charge>, b: seq<Charge>) returns (k: nat)
    requires multiset(a) == multiset(b) && a != []
    ensures k < |b| && b[k] == a[0]
    ensures multiset(a[..0] + a[1..]) == multiset(b[..k] + b[k + 1..])
  {
    assert a[0] in multiset(b);
    k :| 0 <= k < |b| && b[k] == a[0];
    TakeOut(a, 0);
    TakeOut(b, k);
  }

  lemma AmountsWithout(s: seq<Charge>, k: nat)
    requires k < |s|
    ensures multiset(Amounts(s)) == multiset(Amounts(s[..k] + s[k + 1..])) + multiset{s[k].amount}
  {
    TakeOut(Amounts(s), k);
    assert Amounts(s[..k] + s[k + 1..]) == Amounts(s)[..k] + Amounts(s)[k + 1..];
    assert Amounts(s)[k] in multiset(Amounts(s));
  }

  /** The order of the rows does not matter. */
  lemma DetectIgnoresOrder(a: seq<Charge>, b: seq<Charge>, minOccurrences: nat)
    requires minOccurrences >= 2 && multiset(a) == multiset(b)
    ensures DetectPattern(a, minOccurrences) == DetectPattern(b, minOccurrences)
  {
    hide Timing, SortedSet, Sorted, SteadyAmounts, RoundDiv;
    AmountsMultiset(a, b);
    SortedIs(Amounts(a));
    SortedIs(Amounts(b));
    OrderedIsUnique(Sorted(Amounts(a)), Sorted(Amounts(b)));
    SameDates(a, b);
  }

  lemma SameDates(a: seq<Charge>, b: seq<Charge>)
    requires multiset(a) == multiset(b)
    ensures SortedSet(Dates(a)) == SortedSet(Dates(b))
  {
    SortedSetIs(Dates(a));
    SortedSetIs(Dates(b));
    DatesWithin(a, b);
    DatesWithin(b, a);
    AscendingIsUnique(SortedSet(Dates(a)), SortedSet(Dates(b)));
  }

  lemma DatesWithin(a: seq<Charge>, b: seq<Charge>)
    requires multiset(a) == multiset(b)
    ensures forall x :: x in Dates(a) ==> x in Dates(b)
  {
    forall x | x in Dates(a)
      ensures x in Dates(b)
    {
      var i :| 0 <= i < |a| && a[i].date == x;
      assert a[i] in multiset(b);
      var k :| 0 <= k < |b| && b[k] == a[i];
      assert Dates(b)[k] == x;
    }
  }

  /** Another charge on a day that has one changes neither the dates nor, therefore, the timing. */
  lemma SameDayKeepsDates(rows: seq<Charge>, extra: Charge)
    requires extra.date in Dates(rows)
    ensures SortedSet(Dates(rows + [extra])) == SortedSet(Dates(rows))
  {
    SortedSetIs(Dates(rows + [extra]));
    SortedSetIs(Dates(rows));
    assert Dates(rows + [extra]) == Dates(rows) + [extra.date];
    AscendingIsUnique(SortedSet(Dates(rows + [extra])), SortedSet(Dates(rows)));
  }

  /** So whether the pattern is still detected depends on the amounts alone; if it is, everything but the average is as
      before. */
  lemma SameDayChargeIff(rows: seq<Charge>, extra: Charge, minOccurrences: nat)
    requires minOccurrences >= 2 && extra.date in Dates(rows)
    requires DetectPattern(rows, minOccurrences).Some?
    ensures var after := DetectPattern(rows + [extra], minOccurrences);
            && |Sorted(Amounts(rows + [extra]))| == |rows| + 1
            && (after.Some? <==> SteadyAmounts(Sorted(Amounts(rows + [extra]))))
            && (after.Some? ==>
                  after.value == DetectPattern(rows, minOccurrences).value.(average := after.value.average))
  {
    hide Timing, SortedSet, Sorted, SteadyAmounts, RoundDiv;
    SortedIs(Amounts(rows + [extra]));
    SameDayKeepsDates(rows, extra);
  }

  /** Any two amounts are within a fifth of the smaller one. */
  ghost predicate Tight(amounts: seq<int>) {
    forall x, y :: x in amounts && y in amounts ==> 5 * (x - y) <= y
  }

  lemma {:induction false} TightIsSteady(amounts: seq<int>)
    requires Tight(amounts) && amounts != []
    ensures |Sorted(amounts)| == |amounts| && SteadyAmounts(Sorted(amounts))
  {
    var sorted := Sorted(amounts);
    SortedIs(amounts);
    var median := sorted[|sorted| / 2];
    assert median in multiset(amounts);
    forall i | 0 <= i < |sorted|
      ensures 5 * Abs(sorted[i] - median) <= median
    {
      assert sorted[i] in multiset(amounts);
      assert sorted[i] in amounts && median in amounts;
      assert 5 * (sorted[i] - median) <= median && 5 * (median - sorted[i]) <= sorted[i];
      assert 0 <= 5 * (median - median) <= median;
    }
  }

  /** A same-day duplicate of equal amount is harmless when the amounts are tight. */
  lemma TightIgnoresDuplicates(rows: seq<Charge>, k: nat, minOccurrences: nat)
    requires minOccurrences >= 2 && k < |rows| && Tight(Amounts(rows))
    requires DetectPattern(rows, minOccurrences).Some?
    ensures var after := DetectPattern(rows + [rows[k]], minOccurrences);
            && after.Some?
            && after.value == DetectPattern(rows, minOccurrences).value.(average := after.value.average)
  {
    hide Sorted, SteadyAmounts, DetectPattern;
    assert Dates(rows)[k] == rows[k].date && Amounts(rows)[k] in Amounts(rows);
    assert Amounts(rows + [rows[k]]) == Amounts(rows) + [rows[k].amount];
    SameDayChargeIff(rows, rows[k], minOccurrences);
    TightIsSteady(Amounts(rows + [rows[k]]));
  }

  /** Not in general: the duplicate moves the median amount. */
  lemma DuplicateMayHidePattern(rows: seq<Charge>)
    requires rows == [Charge(0, 100, "USD"), Charge(30, 120, "USD"), Charge(60, 144, "USD")]
    ensures DetectPattern(rows, 3).Some? && DetectPattern(rows + [rows[2]], 3).None?
  {
    hide Timing, SortedSet, Sorted, SteadyAmounts, DetectPattern;
    ThreeMonthly(rows);
    assert Amounts(rows) == [100, 120, 144] && Amounts(rows + [rows[2]]) == [100, 120, 144, 144];
    SortedLiterals();
    MedianMoves();
    DetectedWhen(rows, 3);
    assert Dates(rows)[2] == 60;
    SameDayChargeIff(rows, rows[2], 3);
  }

  lemma SortedLiterals()
    ensures Sorted([100, 120, 144]) == [100, 120, 144] && Sorted([100, 120, 144, 144]) == [100, 120, 144, 144]
  {
    assert [100, 120, 144][1..] == [120, 144] && [120, 144][1..] == [144] && [144][1..] == [];
    assert [100, 120, 144, 144][1..] == [120, 144, 144] && [120, 144, 144][1..] == [144, 144] && [144, 144][1..] == [144];
    assert Ordered([144, 144]);
    AlreadySorted([100, 120, 144]);
    AlreadySorted([100, 120, 144, 144]);
  }

  lemma AlreadySorted(s: seq<int>)
    requires Ordered(s)
    ensures Sorted(s) == s
  {
    SortedIs(s);
    OrderedIsUnique(Sorted(s), s);
  }

  lemma MedianMoves()
    ensures SteadyAmounts([100, 120, 144]) && !SteadyAmounts([100, 120, 144, 144])
  {
    assert 5 * Abs([100, 120, 144, 144][0] - 144) > 144;
  }

  lemma DetectedWhen(rows: seq<Charge>, minOccurrences: nat)
    requires minOccurrences >= 2 && Timing(SortedSet(Dates(rows)), minOccurrences).Some?
    ensures Sorted(Amounts(rows)) != []
    ensures DetectPattern(rows, minOccurrences).Some? <==> SteadyAmounts(Sorted(Amounts(rows)))
  {
    hide SortedSet, Sorted, SteadyAmounts, RoundDiv;
    DatesNeedRows(rows, minOccurrences);
  }

  lemma ThreeMonthly(rows: seq<Charge>)
    requires |rows| == 3 && rows[0].date == 0 && rows[1].date == 30 && rows[2].date == 60
    ensures Timing(SortedSet(Dates(rows)), 3) == Some((Monthly, 60))
  {
    SortedSetIs(Dates(rows));
    assert Dates(rows) == Progression(0, 30, 3);
    ProgressionTiming(0, 30, 3, 3, Band(26, 35, Monthly));
    ProgressionIs(0, 30, 3);
    AscendingIsUnique(SortedSet(Dates(rows)), Progression(0, 30, 3));
  }

  // ----- every periodic constant charge is detected -----

  function Progression(start: int, period: int, n: nat): (r: seq<int>)
    ensures |r| == n && forall i :: 0 <= i < n ==> r[i] == start + i * period
  {
    seq(n, i => start + i * period)
  }

  lemma {:induction false} ProgressionIs(start: int, period: int, n: nat)
    requires period > 0
    ensures Ascending(Progression(start, period, n))
    decreases n
  {
    if n > 0 {
      var all, rest := Progression(start, period, n), Progression(start + period, period, n - 1);
      ProgressionIs(start + period, period, n - 1);
      forall i | 0 <= i < n - 1
        ensures all[1..][i] == rest[i] && all[0] + 1 <= rest[i]
      {
        assert (i + 1) * period == i * period + period && i * period >= 0 && 0 * period == 0;
      }
      assert all[1..] == rest;
    }
  }

  lemma {:induction false} ConstantIsOrdered(s: seq<int>, x: int)
    requires forall i :: 0 <= i < |s| ==> s[i] == x
    ensures Ordered(s)
  {
    if s != [] {
      ConstantIsOrdered(s[1..], x);
    }
  }

  lemma ConstantMedian(s: seq<int>, x: int)
    requires s != [] && forall i :: 0 <= i < |s| ==> s[i] == x
    ensures DoubleMedian(s) == 2 * x
  {
    ConstantIsOrdered(s, x);
    AlreadySorted(s);
  }

  lemma ProgressionGaps(start: int, period: int, n: nat)
    ensures forall i :: 0 <= i < |Gaps(Progression(start, period, n))| ==> Gaps(Progression(start, period, n))[i] == period
  {
    hide Gaps, Progression;
    var dates := Progression(start, period, n);
    forall i | 0 <= i < |Gaps(dates)|
      ensures Gaps(dates)[i] == period
    {
      assert dates[i + 1] == start + (i + 1) * period && dates[i] == start + i * period;
      assert (i + 1) * period == i * period + period;
    }
  }

  lemma ProgressionTiming(start: int, period: int, n: nat, minOccurrences: nat, band: Band)
    requires n >= minOccurrences >= 2 && band in CADENCE_BANDS && band.low <= period <= band.high
    ensures Timing(Progression(start, period, n), minOccurrences) == Some((band.cadence, 2 * period))
  {
    hide Gaps, Progression, DoubleMedian, CADENCE_BANDS;
    ProgressionGaps(start, period, n);
    ConstantMedian(Gaps(Progression(start, period, n)), period);
    CadenceIsUnique(2 * period, band);
  }

  lemma {:induction false} ConstantTotal(amounts: seq<int>, x: int)
    requires forall i :: 0 <= i < |amounts| ==> amounts[i] == x
    ensures Total(amounts) == |amounts| * x
  {
    if amounts != [] {
      ConstantTotal(amounts[..|amounts| - 1], x);
      assert |amounts| * x == (|amounts| - 1) * x + x;
    }
  }

  lemma RoundDivScales(n: nat, x: int, b: nat)
    requires n > 0 && b > 0
    ensures n * b > 0 && RoundDiv(n * x, n * b) == RoundDiv(x, b)
  {
    var q, r := x / b, x % b;
    assert x == b * q + r;
    Distribute(n, b, q, r);
    QuotientIs(n * x, n * b, q, n * r);
  }

  lemma Distribute(n: nat, b: nat, q: int, r: nat)
    requires n > 0 && r < b
    ensures n * (b * q + r) == (n * b) * q + n * r
    ensures 0 <= n * r < n * b
    ensures 2 * (n * r) < n * b <==> 2 * r < b
    ensures 2 * (n * r) == n * b <==> 2 * r == b
  {
    assert n * r + n * (b - r) == n * b;
    Multiple(n, b - r);
    Multiple(n, b - 2 * r);
    assert n * (b - 2 * r) == n * b - 2 * (n * r);
    assert n * r >= 0;
  }

  lemma QuotientIs(a: int, b: nat, q: int, r: int)
    requires b > 0 && a == b * q + r && 0 <= r < b
    ensures a / b == q && a % b == r
  {
    assert b * (a / b) + a % b == a;
    assert b * (a / b - q) == b * (a / b) - b * q;
    Multiple(b, a / b - q);
  }

  lemma Multiple(b: int, x: int)
    requires b > 0
    ensures x >= 1 ==> b * x >= b
    ensures x <= -1 ==> b * x <= -b
  {
    if x >= 1 {
      assert b * x == b + b * (x - 1) && b * (x - 1) >= 0;
    } else if x <= -1 {
      assert b * x == -b - b * (-x - 1) && b * (-x - 1) >= 0;
    }
  }

  /** Completeness: charges of one amount on exactly the days of a progression whose period is in a band are detected,
      in whatever order the rows come and however many fall on one day. */
  lemma PeriodicIsDetected(rows: seq<Charge>, start: int, period: int, n: nat, amount: nat, minOccurrences: nat, band: Band)
    requires n >= minOccurrences >= 2 && amount > 0
    requires band in CADENCE_BANDS && band.low <= period <= band.high
    requires forall x :: x in Dates(rows) <==> x in Progression(start, period, n)
    requires forall i :: 0 <= i < |rows| ==> rows[i].amount == amount
    ensures DetectPattern(rows, minOccurrences)
         == Some(Pattern(band.cadence, Money(amount), n, start, start + (n - 1) * period,
                      start + (n - 1) * period + period))
  {
    hide Timing, SortedSet, Sorted, Total, RoundDiv, Money, Progression, CADENCE_BANDS;
    var dates, amounts := SortedSet(Dates(rows)), Sorted(Amounts(rows));
    SortedSetIs(Dates(rows));
    assert period > 0 by {
      PeriodIsPositive(period, band);
    }
    ProgressionIs(start, period, n);
    AscendingIsUnique(dates, Progression(start, period, n));
    ProgressionTiming(start, period, n, minOccurrences, band);
    DatesNeedRows(rows, minOccurrences);
    SortedIs(Amounts(rows));
    ConstantIsOrdered(Amounts(rows), amount);
    AlreadySorted(Amounts(rows));
    ConstantTotal(amounts, amount);
    RoundDivScales(|rows|, amount, 100);
    RoundsToMoney(amount);
    RoundsToPeriod(period);
    assert 0 * period == 0;
    AllWithinFifth(amounts, amount);
  }

  lemma PeriodIsPositive(period: int, band: Band)
    requires band in CADENCE_BANDS && band.low <= period
    ensures period > 0
  {
  }

  lemma AllWithinFifth(amounts: seq<int>, amount: nat)
    requires amounts != [] && forall i :: 0 <= i < |amounts| ==> amounts[i] == amount
    ensures SteadyAmounts(amounts)
  {
  }

  lemma RoundsToMoney(x: int)
    ensures RoundDiv(x, 100) == Money(x)
  {
  }

  lemma RoundsToPeriod(period: int)
    ensures RoundDiv(2 * period, 2) == period
  {
  }

  // ----- every steady charge is detected, however its days drift -----

  /** The gaps of each cadence, in days. */
  predicate InBand(cadence: Cadence, gap: int) {
    match cadence
    case Weekly => 5 <= gap <= 9
    case Biweekly => 12 <= gap <= 17
    case Monthly => 26 <= gap <= 35
    case Quarterly => 80 <= gap <= 100
    case Yearly => 350 <= gap <= 380
  }

  lemma BandOfCadence(cadence: Cadence) returns (band: Band)
    ensures band in CADENCE_BANDS && band.cadence == cadence
    ensures forall gap :: band.low <= gap <= band.high <==> InBand(cadence, gap)
  {
    match cadence
    case Weekly => band := CADENCE_BANDS[0];
    case Biweekly => band := CADENCE_BANDS[1];
    case Monthly => band := CADENCE_BANDS[2];
    case Quarterly => band := CADENCE_BANDS[3];
    case Yearly => band := CADENCE_BANDS[4];
  }

  lemma {:induction false} IncreasingIsAscending(days: seq<int>)
    requires forall i, j :: 0 <= i < j < |days| ==> days[i] < days[j]
    ensures Ascending(days)
  {
    if days != [] {
      IncreasingIsAscending(days[1..]);
    }
  }

  /** The median is the middle of the sorted list, or halfway between the two in the middle. */
  lemma MedianIsMiddle(s: seq<int>, sorted: seq<int>, k: nat)
    requires multiset(s) == multiset(sorted) && forall i, j :: 0 <= i < j < |sorted| ==> sorted[i] <= sorted[j]
    ensures |s| == |sorted|
    ensures |sorted| == 2 * k + 1 ==> DoubleMedian(s) == 2 * sorted[k]
    ensures |sorted| == 2 * k > 0 ==> DoubleMedian(s) == sorted[k - 1] + sorted[k]
  {
    hide Sorted, Ordered;
    assert |s| == |multiset(s)| == |multiset(sorted)| == |sorted|;
    SortedIs(s);
    IncreasingIsOrdered(sorted);
    OrderedIsUnique(Sorted(s), sorted);
  }

  lemma {:induction false} IncreasingIsOrdered(s: seq<int>)
    requires forall i, j :: 0 <= i < j < |s| ==> s[i] <= s[j]
    ensures Ordered(s)
  {
    if s != [] {
      IncreasingIsOrdered(s[1..]);
    }
  }

  lemma MedianWithin(s: seq<int>, low: int, high: int)
    requires s != [] && forall i :: 0 <= i < |s| ==> low <= s[i] <= high
    ensures 2 * low <= DoubleMedian(s) <= 2 * high
  {
    hide Sorted;
    var sorted := Sorted(s);
    SortedIs(s);
    forall i | 0 <= i < |sorted|
      ensures low <= sorted[i] <= high
    {
      assert sorted[i] in multiset(s);
    }
  }

  lemma DriftingTiming(days: seq<int>, low: int, high: int, cadence: Cadence, minOccurrences: nat)
    requires |days| >= minOccurrences >= 2
    requires high <= low + 4 && InBand(cadence, low) && InBand(cadence, high)
    requires forall i :: 0 <= i < |days| - 1 ==> low <= days[i + 1] - days[i] <= high
    ensures Timing(days, minOccurrences) == Some((cadence, DoubleMedian(Gaps(days))))
    ensures 2 * low <= DoubleMedian(Gaps(days)) <= 2 * high
  {
    hide Gaps, DoubleMedian, CADENCE_BANDS;
    var gaps := Gaps(days);
    forall i | 0 <= i < |gaps|
      ensures low <= gaps[i] <= high
    {
      assert gaps[i] == days[i + 1] - days[i];
    }
    MedianWithin(gaps, low, high);
    var band := BandOfCadence(cadence);
    CadenceIsUnique(DoubleMedian(gaps), band);
  }

  /** Completeness: charges on enough days whose gaps drift by at most four days within a cadence's band, of amounts within
      a fifth of each other, are detected with that cadence, whatever their order and however many fall on one day; the
      next one is expected a gap after the last. */
  lemma DriftingIsDetected(rows: seq<Charge>, days: seq<int>, low: int, high: int, cadence: Cadence, minOccurrences: nat)
    requires |days| >= minOccurrences >= 2
    requires forall i, j :: 0 <= i < j < |days| ==> days[i] < days[j]
    requires forall x :: x in days <==> x in Dates(rows)
    requires high <= low + 4 && InBand(cadence, low) && InBand(cadence, high)
    requires forall i :: 0 <= i < |days| - 1 ==> low <= days[i + 1] - days[i] <= high
    requires Tight(Amounts(rows))
    ensures var found := DetectPattern(rows, minOccurrences);
            && found.Some? && found.value.cadence == cadence && found.value.occurrences == |days|
            && found.value.first == days[0] && found.value.last == days[|days| - 1]
            && low <= found.value.next - found.value.last <= high
  {
    hide Timing, SortedSet, Sorted, Total, RoundDiv, Gaps, DoubleMedian, Dates, Amounts;
    SortedSetIs(Dates(rows));
    IncreasingIsAscending(days);
    AscendingIsUnique(SortedSet(Dates(rows)), days);
    DriftingTiming(days, low, high, cadence, minOccurrences);
    DatesNeedRows(rows, minOccurrences);
    TightIsSteady(Amounts(rows));
    RoundsWithin(DoubleMedian(Gaps(days)), low, high);
  }

  lemma RoundsWithin(twice: int, low: int, high: int)
    requires 2 * low <= twice <= 2 * high
    ensures low <= RoundDiv(twice, 2) <= high
  {
  }

  /** In particular a charge on a fixed day of every month, its gaps being 28 to 31 days. */
  lemma EveryMonthIsDetected(rows: seq<Charge>, days: seq<int>, minOccurrences: nat)
    requires |days| >= minOccurrences >= 2
    requires forall i, j :: 0 <= i < j < |days| ==> days[i] < days[j]
    requires forall x :: x in days <==> x in Dates(rows)
    requires forall i :: 0 <= i < |days| - 1 ==> 28 <= days[i + 1] - days[i] <= 31
    requires Tight(Amounts(rows))
    ensures DetectPattern(rows, minOccurrences).Some? && DetectPattern(rows, minOccurrences).value.cadence == Monthly
  {
    hide DetectPattern, Dates, Amounts;
    DriftingIsDetected(rows, days, 28, 31, Monthly, minOccurrences);
  }

  // ----- all merchants of a user -----

  datatype Candidate = Candidate(merchant: string, charge: Charge)

  datatype Item = Item(merchant: string, currency: string, pattern: Pattern)

  function ChargesOf(rows: seq<Candidate>, merchant: string): seq<Charge> {
    if rows == [] then []
    else ChargesOf(rows[..|rows| - 1], merchant) +
         if rows[|rows| - 1].merchant == merchant then [rows[|rows| - 1].charge] else []
  }

  function ItemOf(rows: seq<Candidate>, merchant: string, minOccurrences: nat): seq<Item>
    requires minOccurrences >= 2
  {
    var charges := ChargesOf(rows, merchant);
    var pattern := DetectPattern(charges, minOccurrences);
    if pattern.None? || charges == [] then [] else [Item(merchant, charges[|charges| - 1].currency, pattern.value)]
  }

  function ItemsOf(rows: seq<Candidate>, merchants: seq<string>, minOccurrences: nat): seq<Item>
    requires minOccurrences >= 2
  {
    if merchants == [] then []
    else ItemsOf(rows, merchants[..|merchants| - 1], minOccurrences) +
         ItemOf(rows, merchants[|merchants| - 1], minOccurrences)
  }

  /** A merchant's charges are its rows', in their order. */
  lemma {:induction false} ChargesAre(rows: seq<Candidate>, merchant: string, charge: Charge)
    ensures charge in ChargesOf(rows, merchant) <==> Candidate(merchant, charge) in rows
    ensures (forall row :: row in rows ==> row.merchant == merchant) ==>
              |ChargesOf(rows, merchant)| == |rows|
              && forall i :: 0 <= i < |rows| ==> ChargesOf(rows, merchant)[i] == rows[i].charge
  {
    if rows != [] {
      var init, last := rows[..|rows| - 1], rows[|rows| - 1];
      assert rows == init + [last];
      ChargesAre(init, merchant, charge);
    }
  }

  lemma {:induction false} OthersAreNotCharged(a: seq<Candidate>, row: Candidate, b: seq<Candidate>, merchant: string)
    requires row.merchant != merchant
    ensures ChargesOf(a + [row] + b, merchant) == ChargesOf(a + b, merchant)
  {
    if b == [] {
      assert a + [row] + b == a + [row] && a + b == a && (a + [row])[..|a|] == a;
      assert ChargesOf(a, merchant) + [] == ChargesOf(a, merchant);
    } else {
      assert (a + [row] + b)[..|a + [row] + b| - 1] == a + [row] + b[..|b| - 1];
      assert (a + b)[..|a + b| - 1] == a + b[..|b| - 1];
      OthersAreNotCharged(a, row, b[..|b| - 1], merchant);
    }
  }

  /** Listed are exactly the merchants with a pattern, each with it and the currency of its last charge. */
  lemma {:induction false} ItemsAre(rows: seq<Candidate>, merchants: seq<string>, minOccurrences: nat, item: Item)
    requires minOccurrences >= 2
    ensures item in ItemsOf(rows, merchants, minOccurrences) <==>
            var charges := ChargesOf(rows, item.merchant);
            && item.merchant in merchants && DetectPattern(charges, minOccurrences) == Some(item.pattern)
            && charges != [] && item.currency == charges[|charges| - 1].currency
  {
    hide DetectPattern, ChargesOf;
    if merchants != [] {
      var init, last := merchants[..|merchants| - 1], merchants[|merchants| - 1];
      assert merchants == init + [last];
      ItemsAre(rows, init, minOccurrences, item);
    }
  }

  ghost predicate Distinct(names: seq<string>) {
    forall i, j :: 0 <= i < j < |names| ==> names[i] != names[j]
  }

  /** Each merchant with all its charges, and the merchants named once. */
  ghost predicate Grouped(rows: seq<Candidate>, byMerchant: map<string, seq<Charge>>, merchants: seq<string>) {
    && Distinct(merchants) && (forall m :: m in merchants <==> m in byMerchant)
    && (forall m :: m in byMerchant <==> ChargesOf(rows, m) != [])
    && (forall m :: m in byMerchant ==> byMerchant[m] == ChargesOf(rows, m))
  }

  lemma NothingGrouped()
    ensures Grouped([], map[], [])
  {
  }

  lemma GroupedOneMore(rows: seq<Candidate>, row: Candidate, byMerchant: map<string, seq<Charge>>, merchants: seq<string>)
    requires Grouped(rows, byMerchant, merchants)
    ensures var name := row.merchant;
            if name in byMerchant then Grouped(rows + [row], byMerchant[name := byMerchant[name] + [row.charge]], merchants)
            else Grouped(rows + [row], byMerchant[name := [row.charge]], merchants + [name])
  {
    hide Distinct;
    var name := row.merchant;
    forall m: string
      ensures ChargesOf(rows + [row], m) == ChargesOf(rows, m) + if m == name then [row.charge] else []
    {
      assert (rows + [row])[..|rows|] == rows;
    }
    if name !in byMerchant {
      DistinctOneMore(merchants, name);
      assert [] + [row.charge] == [row.charge];
    }
  }

  lemma DistinctOneMore(names: seq<string>, name: string)
    requires Distinct(names) && name !in names
    ensures Distinct(names + [name])
  {
  }

  /** The dictionary and the order of its keys. */
  method GroupByMerchant(rows: seq<Candidate>) returns (byMerchant: map<string, seq<Charge>>, merchants: seq<string>)
    ensures Grouped(rows, byMerchant, merchants)
  {
    hide Grouped;
    byMerchant, merchants := map[], [];
    NothingGrouped();
    assert rows[..0] == [];
    for i := 0 to |rows|
      invariant Grouped(rows[..i], byMerchant, merchants)
    {
      GroupedOneMore(rows[..i], rows[i], byMerchant, merchants);
      assert rows[..i + 1] == rows[..i] + [rows[i]];
      var name, charge := rows[i].merchant, rows[i].charge;
      assert [] + [charge] == [charge] && byMerchant[name := []][name := [charge]] == byMerchant[name := [charge]];
      if name !in byMerchant {
        byMerchant, merchants := byMerchant[name := []], merchants + [name];
      }
      byMerchant := byMerchant[name := byMerchant[name] + [charge]];
    }
    assert rows[..|rows|] == rows;
  }

  // ----- largest first -----

  ghost predicate Descending(items: seq<Item>) {
    forall i, j :: 0 <= i < j < |items| ==> items[i].pattern.average >= items[j].pattern.average
  }

  /** The items of one average, in order. */
  function WithAverage(items: seq<Item>, average: int): seq<Item> {
    if items == [] then []
    else
      var last := items[|items| - 1];
      WithAverage(items[..|items| - 1], average) + if last.pattern.average == average then [last] else []
  }

  /** Sorted by average, largest first; equal averages keep their order, and nothing is lost. */
  ghost predicate IsSorting(items: seq<Item>, sorted: seq<Item>) {
    Descending(sorted) && forall average :: WithAverage(sorted, average) == WithAverage(items, average)
  }

  /** Where the item goes: behind everything that is not smaller. */
  function Place(items: seq<Item>, item: Item): (k: nat)
    ensures k <= |items|
    ensures forall i :: k <= i < |items| ==> items[i].pattern.average < item.pattern.average
    ensures k > 0 ==> items[k - 1].pattern.average >= item.pattern.average
  {
    if items == [] then 0
    else if items[|items| - 1].pattern.average >= item.pattern.average then |items|
    else Place(items[..|items| - 1], item)
  }

  method SortByAverage(items: seq<Item>) returns (sorted: seq<Item>)
    ensures IsSorting(items, sorted)
  {
    hide WithAverage;
    sorted := [];
    for i := 0 to |items|
      invariant IsSorting(items[..i], sorted)
    {
      var k := Place(sorted, items[i]);
      Placed(items[..i], sorted, items[i], k);
      assert items[..i + 1] == items[..i] + [items[i]];
      sorted := sorted[..k] + [items[i]] + sorted[k..];
    }
    assert items[..|items|] == items;
  }

  lemma Placed(items: seq<Item>, sorted: seq<Item>, item: Item, k: nat)
    requires IsSorting(items, sorted) && k == Place(sorted, item)
    ensures IsSorting(items + [item], sorted[..k] + [item] + sorted[k..])
  {
    hide WithAverage, Descending;
    PlacedInOrder(sorted, item, k);
    forall average
      ensures WithAverage(sorted[..k] + [item] + sorted[k..], average) == WithAverage(items + [item], average)
    {
      PlacedLast(items, sorted, item, k, average);
    }
  }

  lemma PlacedInOrder(sorted: seq<Item>, item: Item, k: nat)
    requires Descending(sorted) && k == Place(sorted, item)
    ensures Descending(sorted[..k] + [item] + sorted[k..])
  {
    hide Place;
    var after := sorted[..k] + [item] + sorted[k..];
    assert forall i :: 0 <= i < k ==> after[i] == sorted[i] && sorted[i].pattern.average >= item.pattern.average;
    assert forall i :: k < i < |after| ==> after[i] == sorted[i - 1];
  }

  /** Among the items of its average it comes last. */
  lemma PlacedLast(items: seq<Item>, sorted: seq<Item>, item: Item, k: nat, average: int)
    requires k == Place(sorted, item) && WithAverage(sorted, average) == WithAverage(items, average)
    ensures WithAverage(sorted[..k] + [item] + sorted[k..], average) == WithAverage(items + [item], average)
  {
    hide WithAverage, Place;
    WithAverageConcat(items, [item], average);
    WithAverageConcat(sorted[..k], sorted[k..], average);
    assert sorted[..k] + sorted[k..] == sorted;
    WithAverageConcat(sorted[..k] + [item], sorted[k..], average);
    WithAverageConcat(sorted[..k], [item], average);
    OnlyItem(item, average);
    if average == item.pattern.average {
      NoneWithAverage(sorted[k..], average);
    }
  }

  lemma {:induction false} WithAverageConcat(a: seq<Item>, b: seq<Item>, average: int)
    ensures WithAverage(a + b, average) == WithAverage(a, average) + WithAverage(b, average)
  {
    if b == [] {
      assert a + b == a;
    } else {
      assert (a + b)[..|a + b| - 1] == a + b[..|b| - 1];
      WithAverageConcat(a, b[..|b| - 1], average);
    }
  }

  lemma OnlyItem(item: Item, average: int)
    ensures WithAverage([item], average) == if item.pattern.average == average then [item] else []
  {
    assert [item][..0] == [];
  }

  lemma {:induction false} NoneWithAverage(items: seq<Item>, average: int)
    requires forall i :: 0 <= i < |items| ==> items[i].pattern.average < average
    ensures WithAverage(items, average) == []
  {
    if items != [] {
      NoneWithAverage(items[..|items| - 1], average);
    }
  }

  /** Every merchant's charges are judged once, together; `merchants` names those with any, once each.  The items come
      largest first. */
  method GetRecurring(rows: seq<Candidate>, minOccurrences: nat) returns (sorted: seq<Item>, merchants: seq<string>)
    requires minOccurrences >= 2
    ensures Distinct(merchants) && forall m :: m in merchants <==> ChargesOf(rows, m) != []
    ensures IsSorting(ItemsOf(rows, merchants, minOccurrences), sorted)
  {
    hide DetectPattern, ChargesOf, Distinct, IsSorting;
    var items := [];
    var byMerchant, names := GroupByMerchant(rows);
    for i := 0 to |names|
      invariant items == ItemsOf(rows, names[..i], minOccurrences)
    {
      assert names[..i + 1][..i] == names[..i];
      assert names[i] in byMerchant;
      var charges := byMerchant[names[i]];
      var pattern := DetectPattern(charges, minOccurrences);
      if pattern.Some? {
        items := items + [Item(names[i], charges[|charges| - 1].currency, pattern.value)];
      }
    }
    assert names[..|names|] == names;
    merchants := names;
    sorted := SortByAverage(items);
  }

  lemma {:induction false} FewerDatesThanRows(s: seq<int>)
    ensures |SortedSet(s)| <= |s|
  {
    if s != [] {
      FewerDatesThanRows(s[1..]);
      InsertIs(s[0], SortedSet(s[1..]));
    }
  }

  /** The query's narrowing to merchants with enough rows loses no pattern. */
  lemma NarrowingLosesNothing(charges: seq<Charge>, minOccurrences: nat)
    requires minOccurrences >= 2 && |charges| < minOccurrences
    ensures DetectPattern(charges, minOccurrences).None?
  {
    FewerDatesThanRows(Dates(charges));
  }
}
