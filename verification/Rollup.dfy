/** GROUP BY with SUM: lines in, one row per group out, in any order; nothing is lost and nothing counted twice. */
module Rollup {
  datatype Line<G> = Line(group: G, amount: int)

  /** One result row: the group, its total and its number of lines. */
  datatype Row<G> = Row(group: G, total: int, count: nat)

  function Sum<G>(lines: seq<Line<G>>): int {
    if lines == [] then 0 else Sum(lines[..|lines| - 1]) + lines[|lines| - 1].amount
  }

  function SumOf<G(==)>(lines: seq<Line<G>>, group: G): int {
    if lines == [] then 0
    else
      var last := lines[|lines| - 1];
      SumOf(lines[..|lines| - 1], group) + if last.group == group then last.amount else 0
  }

  function CountOf<G(==)>(lines: seq<Line<G>>, group: G): nat {
    if lines == [] then 0
    else CountOf(lines[..|lines| - 1], group) + if lines[|lines| - 1].group == group then 1 else 0
  }

  function SumTotals<G>(rows: seq<Row<G>>): int {
    if rows == [] then 0 else SumTotals(rows[..|rows| - 1]) + rows[|rows| - 1].total
  }

  function SumCounts<G>(rows: seq<Row<G>>): nat {
    if rows == [] then 0 else SumCounts(rows[..|rows| - 1]) + rows[|rows| - 1].count
  }

  ghost predicate DistinctGroups<G(!new)>(rows: seq<Row<G>>) {
    forall i, j :: 0 <= i < j < |rows| ==> rows[i].group != rows[j].group
  }

  ghost predicate HasRow<G(!new)>(rows: seq<Row<G>>, group: G) {
    exists j :: 0 <= j < |rows| && rows[j].group == group
  }

  ghost predicate TotalsOf<G>(lines: seq<Line<G>>, row: Row<G>) {
    row.total == SumOf(lines, row.group) && row.count == CountOf(lines, row.group)
  }

  /** What the database promises of a grouped query. */
  ghost predicate IsGrouping<G(!new)>(lines: seq<Line<G>>, rows: seq<Row<G>>) {
    && DistinctGroups(rows)
    && (forall i :: 0 <= i < |rows| ==> TotalsOf(lines, rows[i]))
    && (forall i :: 0 <= i < |lines| ==> HasRow(rows, lines[i].group))
  }

  /** The lines of other groups. */
  function Without<G(==)>(lines: seq<Line<G>>, group: G): seq<Line<G>> {
    if lines == [] then []
    else
      var last := lines[|lines| - 1];
      Without(lines[..|lines| - 1], group) + if last.group == group then [] else [last]
  }

  lemma Push<G>(lines: seq<Line<G>>, line: Line<G>, group: G)
    ensures Sum(lines + [line]) == Sum(lines) + line.amount
    ensures SumOf(lines + [line], group) == SumOf(lines, group) + if line.group == group then line.amount else 0
    ensures CountOf(lines + [line], group) == CountOf(lines, group) + if line.group == group then 1 else 0
  {
    assert (lines + [line])[..|lines|] == lines;
  }

  lemma {:induction false} SetAside<G>(lines: seq<Line<G>>, group: G)
    ensures Sum(lines) == SumOf(lines, group) + Sum(Without(lines, group))
    ensures |lines| == CountOf(lines, group) + |Without(lines, group)|
    ensures forall line :: line in Without(lines, group) ==> line in lines && line.group != group
  {
    if lines != [] {
      var init, last := lines[..|lines| - 1], lines[|lines| - 1];
      SetAside(init, group);
      if last.group == group {
        assert Without(init, group) + [] == Without(init, group);
      } else {
        Push(Without(init, group), last, group);
      }
    }
  }

  lemma {:induction false} OthersStay<G>(lines: seq<Line<G>>, group: G, other: G)
    requires other != group
    ensures SumOf(Without(lines, group), other) == SumOf(lines, other)
    ensures CountOf(Without(lines, group), other) == CountOf(lines, other)
  {
    if lines != [] {
      var init, last := lines[..|lines| - 1], lines[|lines| - 1];
      OthersStay(init, group, other);
      if last.group == group {
        assert Without(init, group) + [] == Without(init, group);
      } else {
        Push(Without(init, group), last, other);
      }
    }
  }

  /** However the rows come, their totals add up to the lines, and so do their counts. */
  lemma {:induction false} GroupingConserves<G(!new)>(lines: seq<Line<G>>, rows: seq<Row<G>>)
    requires IsGrouping(lines, rows)
    ensures SumTotals(rows) == Sum(lines) && SumCounts(rows) == |lines|
    decreases |rows|
  {
    assert lines != [] ==> HasRow(rows, lines[0].group);
    if rows != [] {
      var last := rows[|rows| - 1];
      SetAside(lines, last.group);
      GroupingWithout(lines, rows);
      GroupingConserves(Without(lines, last.group), rows[..|rows| - 1]);
    }
  }

  lemma GroupingWithout<G(!new)>(lines: seq<Line<G>>, rows: seq<Row<G>>)
    requires IsGrouping(lines, rows) && rows != []
    ensures IsGrouping(Without(lines, rows[|rows| - 1].group), rows[..|rows| - 1])
  {
    hide SumOf, CountOf, Without;
    var init, group := rows[..|rows| - 1], rows[|rows| - 1].group;
    var rest := Without(lines, group);
    SetAside(lines, group);
    forall i | 0 <= i < |init|
      ensures TotalsOf(rest, init[i])
    {
      assert TotalsOf(lines, rows[i]) && rows[i].group != group;
      OthersStay(lines, group, init[i].group);
    }
    forall i | 0 <= i < |rest|
      ensures HasRow(init, rest[i].group)
    {
      assert rest[i] in lines && rest[i].group != group;
      RowOf(lines, rows, rest[i]);
    }
  }

  lemma RowOf<G(!new)>(lines: seq<Line<G>>, rows: seq<Row<G>>, line: Line<G>)
    requires IsGrouping(lines, rows) && rows != [] && line in lines && line.group != rows[|rows| - 1].group
    ensures HasRow(rows[..|rows| - 1], line.group)
  {
    hide TotalsOf;
    var k :| 0 <= k < |lines| && lines[k] == line;
    assert HasRow(rows, lines[k].group);
    var j :| 0 <= j < |rows| && rows[j].group == line.group;
    assert rows[..|rows| - 1][j] == rows[j];
  }

  /** What one group contributes is what its row says; a group without a row contributes nothing. */
  lemma {:induction false} NoLinesNoSum<G(!new)>(lines: seq<Line<G>>, group: G)
    requires forall line :: line in lines ==> line.group != group
    ensures SumOf(lines, group) == 0
  {
    if lines != [] {
      NoLinesNoSum(lines[..|lines| - 1], group);
    }
  }
}
