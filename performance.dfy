/** The talent radar of src/views/Performance.tsx: `processGameData`
    attributes every result row to one category by keywords of its
    `recommended_career`, averages the scores per category and names the
    best one. This mapping is independent of the catalog weights the
    student dashboard uses. */
module Performance {
  import opened Wrappers
  import opened Catalog
  import opened Js

  /** A `game_results` row as `processGameData` reads it; either column
      may be null. */
  datatype ResultRow = ResultRow(recommendedCareer: Option<string>, score: Option<int>)

  /** The categories in the order the `stats` object lists them, which is
      the order of the chart. */
  const ChartOrder: seq<Category> := [Creative, Analytical, Technical, Social, Practical]

  /** The chart before any data arrives (this file's own
      `INITIAL_RADAR_DATA`, in chart order). */
  const InitialChart: seq<RadarPoint> := [
    RadarPoint(Creative, 0, 100),
    RadarPoint(Analytical, 0, 100),
    RadarPoint(Technical, 0, 100),
    RadarPoint(Social, 0, 100),
    RadarPoint(Practical, 0, 100)
  ]

  const DefaultTopCareer: string := "Explore Games"
  const DefaultTalentType: string := "Undiscovered"

  /** `row.recommended_career?.includes(word)` */
  predicate Mentions(career: Option<string>, word: string)
  {
    career.Some? && Contains(career.value, word)
  }

  /** With no career the optional chain yields `undefined`, which is falsy;
      otherwise `includes` is `indexOf(word) !== -1`. */
  lemma {:induction false} MentionsIffFound(career: Option<string>, word: string)
    ensures Mentions(career, word) <==> career.Some? && IndexOf(career.value, word) != -1
  {
    if career.Some? {
      var _ := IndexOf(career.value, word);
    }
  }

  /** The keyword tests of `processGameData`, first match wins, with
      Practical as the default. */
  function Attribute(career: Option<string>): (c: Category)
    ensures c == Creative <==> Mentions(career, "Design") || Mentions(career, "Art")
    ensures c == Technical <==>
      !(Mentions(career, "Design") || Mentions(career, "Art")) &&
      (Mentions(career, "Engineer") || Mentions(career, "Code"))
    ensures c == Analytical <==>
      !(Mentions(career, "Design") || Mentions(career, "Art")) &&
      !(Mentions(career, "Engineer") || Mentions(career, "Code")) &&
      (Mentions(career, "Puzzle") || Mentions(career, "Logic"))
    ensures c == Social <==>
      !(Mentions(career, "Design") || Mentions(career, "Art")) &&
      !(Mentions(career, "Engineer") || Mentions(career, "Code")) &&
      !(Mentions(career, "Puzzle") || Mentions(career, "Logic")) &&
      (Mentions(career, "Teacher") || Mentions(career, "Nurse"))
    ensures career.None? ==> c == Practical
  {
    if Mentions(career, "Design") || Mentions(career, "Art") then Creative
    else if Mentions(career, "Engineer") || Mentions(career, "Code") then Technical
    else if Mentions(career, "Puzzle") || Mentions(career, "Logic") then Analytical
    else if Mentions(career, "Teacher") || Mentions(career, "Nurse") then Social
    else Practical
  }

  /** `row.score || 0`: a falsy score (null or 0) reads as 0, any other
      score as itself. */
  function ScoreOf(row: ResultRow): (v: int)
    ensures v == 0 <==> row.score.None? || row.score.value == 0
    ensures v != 0 ==> row.score == Some(v)
  {
    match row.score
    case None => 0
    case Some(s) => s
  }

  /** `stats[c]` after the loop: the scores of the rows attributed to `c`. */
  function Sum(rows: seq<ResultRow>, c: Category): int
  {
    if rows == [] then 0
    else
      var r := rows[|rows| - 1];
      Sum(rows[..|rows| - 1], c) + (if Attribute(r.recommendedCareer) == c then ScoreOf(r) else 0)
  }

  /** `counts[c]` after the loop: the number of rows attributed to `c`. */
  function Cnt(rows: seq<ResultRow>, c: Category): nat
  {
    if rows == [] then 0
    else
      var r := rows[|rows| - 1];
      Cnt(rows[..|rows| - 1], c) + (if Attribute(r.recommendedCareer) == c then 1 else 0)
  }

  /** `counts[k] > 0 ? Math.round(stats[k] / counts[k]) : 0` */
  function AverageOf(sum: int, count: int): (avg: int)
    ensures count > 0 ==> 2 * count * avg - count <= 2 * sum < 2 * count * avg + count
    ensures count <= 0 ==> avg == 0
    ensures 0 <= sum <= 100 * count ==> 0 <= avg <= 100
  {
    if count > 0 then
      var avg := Round(sum, count);
      assert 0 <= sum <= 100 * count ==> 0 <= avg <= 100 by {
        if 0 <= sum <= 100 * count {
          RoundWithin(sum, count, 0, 100);
        }
      }
      avg
    else 0
  }

  /** The chart `processGameData` computes for `rows`. */
  function Chart(rows: seq<ResultRow>): (data: seq<RadarPoint>)
    ensures |data| == 5
    ensures forall i :: 0 <= i < 5 ==> data[i].subject == ChartOrder[i] && data[i].fullMark == 100
  {
    seq(5, i requires 0 <= i < 5 =>
      RadarPoint(ChartOrder[i], AverageOf(Sum(rows, ChartOrder[i]), Cnt(rows, ChartOrder[i])), 100))
  }

  /** `data.reduce((prev, current) => (prev.A > current.A) ? prev : current)`:
      the largest value, the later entry winning a tie. */
  function Best(data: seq<RadarPoint>): (b: RadarPoint)
    requires |data| > 0
    ensures forall i :: 0 <= i < |data| ==> data[i].a <= b.a
    ensures exists i :: 0 <= i < |data| && data[i] == b && forall j :: i < j < |data| ==> data[j].a < b.a
  {
    if |data| == 1 then data[0]
    else
      var prev := Best(data[..|data| - 1]);
      var current := data[|data| - 1];
      if prev.a > current.a then prev else current
  }

  /** The `results.forEach` loop that fills `stats` and `counts`. */
  method Tally(rows: seq<ResultRow>) returns (stats: map<Category, int>, counts: map<Category, int>)
    ensures forall c :: c in stats && stats[c] == Sum(rows, c)
    ensures forall c :: c in counts && counts[c] == Cnt(rows, c)
  {
    stats := map[Creative := 0, Analytical := 0, Technical := 0, Social := 0, Practical := 0];
    counts := stats;
    forall c: Category
      ensures c in stats
    {
      match c
      case Creative =>
      case Analytical =>
      case Technical =>
      case Social =>
      case Practical =>
    }
    for i := 0 to |rows|
      invariant forall c :: c in stats && stats[c] == Sum(rows[..i], c)
      invariant forall c :: c in counts && counts[c] == Cnt(rows[..i], c)
    {
      var row := rows[i];
      assert rows[..i + 1][..i] == rows[..i];
      var category := Attribute(row.recommendedCareer);
      stats := stats[category := stats[category] + ScoreOf(row)];
      counts := counts[category := counts[category] + 1];
    }
    assert rows[..|rows|] == rows;
  }

  /** `processGameData`: the chart data and the best entry. */
  method ProcessGameData(rows: seq<ResultRow>) returns (data: seq<RadarPoint>, best: RadarPoint)
    ensures data == Chart(rows)
    ensures best == Best(Chart(rows))
  {
    var stats, counts := Tally(rows);
    data := [];
    for i := 0 to |ChartOrder|
      invariant |data| == i
      invariant forall k :: 0 <= k < i ==> data[k] == Chart(rows)[k]
    {
      var key := ChartOrder[i];
      var a := if counts[key] > 0 then Round(stats[key], counts[key]) else 0;
      data := data + [RadarPoint(key, a, 100)];
    }
    best := data[0];
    for i := 1 to |data|
      invariant best == Best(data[..i])
    {
      assert data[..i + 1][..i] == data[..i];
      if !(best.a > data[i].a) {
        best := data[i];
      }
    }
    assert data[..|data|] == data;
  }

  // ---------------------------------------------------------------------
  // Properties

  /** Every row goes to exactly one category: the five counts add up to
      the number of rows. */
  lemma {:induction false} CountsCoverRows(rows: seq<ResultRow>)
    ensures Cnt(rows, Creative) + Cnt(rows, Analytical) + Cnt(rows, Technical) +
      Cnt(rows, Social) + Cnt(rows, Practical) == |rows|
  {
    if rows != [] {
      CountsCoverRows(rows[..|rows| - 1]);
    }
  }

  predicate ScoresInRange(rows: seq<ResultRow>)
  {
    forall i :: 0 <= i < |rows| ==> 0 <= ScoreOf(rows[i]) <= 100
  }

  lemma {:induction false} SumBounded(rows: seq<ResultRow>, c: Category)
    requires ScoresInRange(rows)
    ensures 0 <= Sum(rows, c) <= 100 * Cnt(rows, c)
  {
    if rows != [] {
      SumBounded(rows[..|rows| - 1], c);
    }
  }

  /** With scores in [0, 100] every chart value is in [0, 100]. */
  lemma {:induction false} ChartBounded(rows: seq<ResultRow>)
    requires ScoresInRange(rows)
    ensures forall i :: 0 <= i < 5 ==> 0 <= Chart(rows)[i].a <= 100
  {
    forall i | 0 <= i < 5
      ensures 0 <= Chart(rows)[i].a <= 100
    {
      var c := ChartOrder[i];
      SumBounded(rows, c);
      if Cnt(rows, c) > 0 {
        RoundWithin(Sum(rows, c), Cnt(rows, c), 0, 100);
      }
    }
  }

  /** A category no row was attributed to shows 0. */
  lemma {:induction false} UnusedCategoryIsZero(rows: seq<ResultRow>, i: int)
    requires 0 <= i < 5
    requires forall k :: 0 <= k < |rows| ==> Attribute(rows[k].recommendedCareer) != ChartOrder[i]
    ensures Chart(rows)[i].a == 0
  {
    if rows != [] {
      assert Cnt(rows, ChartOrder[i]) == Cnt(rows[..|rows| - 1], ChartOrder[i]);
      UnusedCategoryIsZero(rows[..|rows| - 1], i);
    }
  }

  /** A row with a null score is still counted, so it pulls the average
      of its category down. */
  lemma {:induction false} NullScoreCounts(rows: seq<ResultRow>, career: Option<string>)
    ensures Sum(rows + [ResultRow(career, None)], Attribute(career)) == Sum(rows, Attribute(career))
    ensures Cnt(rows + [ResultRow(career, None)], Attribute(career)) == Cnt(rows, Attribute(career)) + 1
  {
    assert (rows + [ResultRow(career, None)])[..|rows|] == rows;
  }

  /** The keywords are plain case-sensitive substrings, tested in order:
      "Design Engineer" is Creative, and so is "Artificial Intelligence
      Engineer" because it contains "Art". */
  lemma {:induction false} KeywordPriority()
    ensures Attribute(Some("Design Engineer")) == Creative
    ensures Attribute(Some("Artificial Intelligence Engineer")) == Creative
  {
    assert OccursAt("Design Engineer", "Design", 0);
    assert OccursAt("Artificial Intelligence Engineer", "Art", 0);
  }

  // ---------------------------------------------------------------------
  // The component state

  class PerformanceView {
    var chartData: seq<RadarPoint>
    var topCareer: string
    var talentType: string

    constructor ()
      ensures chartData == InitialChart
      ensures topCareer == DefaultTopCareer && talentType == DefaultTalentType
    {
      chartData := InitialChart;
      topCareer, talentType := DefaultTopCareer, DefaultTalentType;
    }

    /** The end of `fetchData`: the rows the query returned (`None` when it
        failed or returned null) are processed only when there is at least
        one; the labels change only when the best value is positive. */
    method Load(results: Option<seq<ResultRow>>)
      modifies this
      ensures results.None? || results.value == [] ==>
        chartData == old(chartData) && topCareer == old(topCareer) && talentType == old(talentType)
      ensures results.Some? && results.value != [] ==>
        var best := Best(Chart(results.value));
        chartData == Chart(results.value) &&
        if best.a > 0 then
          topCareer == CategoryName(best.subject) + " Specialist" &&
          talentType == CategoryName(best.subject) + " Learner"
        else
          topCareer == old(topCareer) && talentType == old(talentType)
    {
      if results.Some? && |results.value| > 0 {
        var data, best := ProcessGameData(results.value);
        chartData := data;
        if best.a > 0 {
          topCareer := CategoryName(best.subject) + " Specialist";
          talentType := CategoryName(best.subject) + " Learner";
        }
      }
    }
  }
}
