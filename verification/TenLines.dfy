/** Ten lines of a cent each, one pool of five: the calculation leaves a line at five times its amount. */
module TenLines {
  import opened Calendar
  import opened Standing
  import opened Sums
  import opened Sorting
  import opened CashModel
  import opened ForecastMatching
  import opened ForecastRemainders
  import opened UnattributedSpread
  import opened RemainingForecast

  const JANUARY: Date := Ymd(2024, 1, 1)

  function LineOf(id: int): Line {
    Line(id, JANUARY, ConstructionPlanKind, Construction, Outflow, 1, None, Some(id))
  }

  const LINES: seq<Line> := seq(10, i => LineOf(i + 1))

  const POOL: map<Date, int> := map[JANUARY := 5]

  lemma TenLinesAreLines()
    ensures DistinctLines(LINES) && NonNegativeLines(LINES) && Lists([], map[])
    ensures |LINES| == 10 && forall i :: 0 <= i < 10 ==> LINES[i] == LineOf(i + 1)
  {
  }

  /** With no actuals to match, every line keeps its amount. */
  lemma NothingMatches(lines: seq<Line>, line: Line)
    requires DistinctLines(lines) && NonNegativeLines(lines) && line in lines && !General(line)
    ensures line.id in AfterMatching(lines, [], map[]) && AfterMatching(lines, [], map[])[line.id] == line.amount
  {
    hide AfterTurns, SortBy, Sum;
    var order := TurnOrder(lines);
    TurnOrderIsSound(lines);
    assert line in multiset(order);
    var j :| 0 <= j < |order| && order[j] == line;
    AfterTurnsAt(order, |order|, [], map[], j);
    if GrainOf(line).Some? {
      NonNegativeDemand(order, j, OwnDemand(Key(line.period, GrainOf(line).value)));
    }
  }

  lemma EachKeepsItsCent(i: nat)
    requires i < 10
    ensures LINES[i] in LINES && LINES[i].id in AfterMatching(LINES, [], map[])
    ensures AfterMatching(LINES, [], map[])[LINES[i].id] == 1
  {
    hide AfterMatching;
    TenLinesAreLines();
    NothingMatches(LINES, LINES[i]);
  }

  lemma AllAreOpen(before: map<int, int>)
    requires before == AfterMatching(LINES, [], map[])
    ensures var codes := OpenLinesOf(LINES, before, JANUARY);
            && |codes| == 10 && codes[9] == LINES[9]
            && PartsOf(codes, before) == [1, 1, 1, 1, 1, 1, 1, 1, 1, 1]
  {
    hide AfterMatching, SortBy, IsLeap, DaysIn, DistinctLines, NonNegativeLines, LINES;
    TenLinesAreLines();
    forall line | line in LINES ensures OpenIn(before, JANUARY)(line) && line.id <= 10 && before[line.id] == 1 {
      var i :| 0 <= i < |LINES| && LINES[i] == line;
      EachKeepsItsCent(i);
    }
    FilterAll(LINES, OpenIn(before, JANUARY));
    var codes := OpenLinesOf(LINES, before, JANUARY);
    assert TotalPreorder(ById);
    SortIsSorted(Filter(LINES, OpenIn(before, JANUARY)), ById);
    OpenCodes(LINES, before, JANUARY);
    TheLastIsTheTenth(codes);
    forall k | 0 <= k < 10 ensures PartsOf(codes, before)[k] == 1 { assert codes[k] in codes; }
  }

  lemma TheLastIsTheTenth(codes: seq<Line>)
    requires |codes| == 10 && SortedBy(codes, ById) && forall line :: line in codes <==> line in LINES
    ensures codes[9] == LINES[9]
  {
    TenLinesAreLines();
    assert LINES[9] in codes && codes[9] in LINES;
    var k :| 0 <= k < 10 && codes[k] == LINES[9];
    assert k < 9 ==> ById(codes[k], codes[9]);
  }

  lemma {:induction false} FilterAll(lines: seq<Line>, p: Line -> bool)
    requires forall line :: line in lines ==> p(line)
    ensures Filter(lines, p) == lines
  {
    if lines != [] {
      var n := |lines| - 1;
      assert lines == lines[..n] + [lines[n]];
      forall line | line in lines[..n] ensures p(line) { assert line in lines; }
      FilterAll(lines[..n], p);
    }
  }

  /** Whatever the calculation returns for them, the tenth line is left at five cents. */
  lemma TheTenthIsLeftAtFive(remaining: map<int, int>)
    requires IsSpread(remaining, AfterMatching(LINES, [], map[]), LINES, POOL)
    ensures DistinctLines(LINES) && NonNegativeLines(LINES) && Lists([], map[])
    ensures LINES[9].amount == 1 && LINES[9].id in remaining && remaining[LINES[9].id] == 5
  {
    hide AfterMatching, OpenLinesOf, AfterSpread, IsSpread, IsLeap, DaysIn;
    TenLinesAreLines();
    EachKeepsItsCent(9);
    var before := AfterMatching(LINES, [], map[]);
    AllAreOpen(before);
    var i := RemainderOf(remaining, before, LINES, POOL, LINES[9]);
    OpenCodes(LINES, before, JANUARY);
    SameLineSamePlace(OpenLinesOf(LINES, before, JANUARY), i, 9);
    LastLineMayGrow();
  }
}
