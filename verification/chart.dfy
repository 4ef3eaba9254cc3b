/** The non-drawing part of the renderer (scripts/make_chart.py): the colour
    table, the ascending sort of the records, the colour per bar, the x-axis
    limits and the placement of the value labels. The records arrive as the
    values of the stored JSON object, in file order. */
module Chart {
  import opened Wrappers
  import opened Scores

  const DefaultColors: map<string, string> := map[
    "OpenAI" := "#0b70ff",
    "Google" := "#e59b0f",
    "xAI" := "#1a1a1a",
    "Anthropic" := "#8c4bff",
    "Unknown" := "#5c6b73"
  ]

  /** Where the x axis starts. */
  const XMin: real := 60.0
  /** The smallest value the x axis may end at. */
  const XMaxFloor: real := 92.0
  /** How far past the highest score the x axis extends at least. */
  const Headroom: real := 2.0
  /** Horizontal distance from the end of a bar to its label. */
  const LabelOffset: real := 0.4

  /** The colour of a provider; providers outside the table get the "Unknown" colour. */
  function ColorFor(provider: string): (color: string)
    ensures color in DefaultColors.Values
    ensures provider in DefaultColors ==> color == DefaultColors[provider]
    ensures provider !in DefaultColors ==> color == "#5c6b73"
  {
    if provider in DefaultColors then DefaultColors[provider] else DefaultColors["Unknown"]
  }

  /** The table, entry by entry. */
  lemma ColorTable()
    ensures ColorFor("OpenAI") == "#0b70ff"
    ensures ColorFor("Google") == "#e59b0f"
    ensures ColorFor("xAI") == "#1a1a1a"
    ensures ColorFor("Anthropic") == "#8c4bff"
    ensures ColorFor("Unknown") == "#5c6b73"
    ensures ColorFor("Meta") == "#5c6b73"
  {
  }

  /** The order of an ascending sort on the score column: a missing score sorts
      after every present one, as a missing value does in the data frame. */
  predicate ScoreLe(a: Option<real>, b: Option<real>) {
    match b
    case None => true
    case Some(y) => a.Some? && a.value <= y
  }

  predicate SortedByScore(rows: seq<Record>) {
    forall i, j :: 0 <= i < j < |rows| ==> ScoreLe(rows[i].score, rows[j].score)
  }

  /** No record of `rows` sorts before score `s`. */
  predicate LowerBound(s: Option<real>, rows: seq<Record>) {
    forall k :: 0 <= k < |rows| ==> ScoreLe(s, rows[k].score)
  }

  /** Puts `r` in front of the first record that does not sort below it. */
  function Insert(r: Record, rows: seq<Record>): (res: seq<Record>)
    decreases |rows|
    ensures multiset(res) == multiset(rows) + multiset{r}
    ensures |res| == |rows| + 1
  {
    if |rows| == 0 then [r]
    else if ScoreLe(r.score, rows[0].score) then [r] + rows
    else
      assert rows == [rows[0]] + rows[1..];
      [rows[0]] + Insert(r, rows[1..])
  }

  /** A lower bound of the rows and of `r` is a lower bound of the rows with `r` inserted. */
  lemma {:induction false} InsertBounded(r: Record, rows: seq<Record>, s: Option<real>)
    requires LowerBound(s, rows) && ScoreLe(s, r.score)
    ensures LowerBound(s, Insert(r, rows))
    decreases |rows|
  {
    if |rows| > 0 && !ScoreLe(r.score, rows[0].score) {
      InsertBounded(r, rows[1..], s);
    }
  }

  /** Inserting into sorted rows keeps them sorted. */
  lemma {:induction false} InsertSorted(r: Record, rows: seq<Record>)
    requires SortedByScore(rows)
    ensures SortedByScore(Insert(r, rows))
    decreases |rows|
  {
    if |rows| > 0 && !ScoreLe(r.score, rows[0].score) {
      InsertSorted(r, rows[1..]);
      assert LowerBound(rows[0].score, rows[1..]);
      InsertBounded(r, rows[1..], rows[0].score);
    }
  }

  /** The records in ascending order of score; the order among equal scores is
      not specified by the renderer and is not promised here. */
  function SortByScore(rows: seq<Record>): (sorted: seq<Record>)
    decreases |rows|
    ensures SortedByScore(sorted)
    ensures multiset(sorted) == multiset(rows)
    ensures |sorted| == |rows|
  {
    if |rows| == 0 then []
    else
      var init := SortByScore(rows[..|rows| - 1]);
      assert rows == rows[..|rows| - 1] + [rows[|rows| - 1]];
      InsertSorted(rows[|rows| - 1], init);
      Insert(rows[|rows| - 1], init)
  }

  /** The highest score among the records, skipping missing ones; None when no
      record has a score. */
  function MaxScore(rows: seq<Record>): (m: Option<real>)
    decreases |rows|
    ensures m.None? <==> forall i :: 0 <= i < |rows| ==> rows[i].score.None?
    ensures m.Some? ==> forall i :: 0 <= i < |rows| && rows[i].score.Some? ==> rows[i].score.value <= m.value
    ensures m.Some? ==> exists i :: 0 <= i < |rows| && rows[i].score == m
  {
    if |rows| == 0 then None
    else
      var last := rows[|rows| - 1].score;
      match MaxScore(rows[..|rows| - 1])
      case None => last
      case Some(x) =>
        if last.Some? && last.value > x then last else Some(x)
  }

  /** A value label: the row it belongs to and its x position, None for a record
      without a score. */
  datatype Label = Label(row: nat, x: Option<real>)

  /** Everything the renderer computes before drawing. */
  datatype Layout = Layout(rows: seq<Record>, colors: seq<string>, xMin: real, xMax: real, labels: seq<Label>)

  datatype ChartError = NoScores

  /** The x position of a label: just past the end of its bar. */
  function LabelX(score: Option<real>): Option<real> {
    match score
    case None => None
    case Some(s) => Some(s + LabelOffset)
  }

  /** Every record lacks a score. */
  predicate Unscored(rows: seq<Record>) {
    forall i :: 0 <= i < |rows| ==> rows[i].score.None?
  }

  /** One colour per row, the colour of that row's provider. */
  predicate ColorsAligned(rows: seq<Record>, colors: seq<string>) {
    && |colors| == |rows|
    && forall i :: 0 <= i < |rows| ==> colors[i] == ColorFor(rows[i].provider)
  }

  /** One label per row, on that row's index, 0.4 past the end of its bar. */
  predicate LabelsPlaced(rows: seq<Record>, labels: seq<Label>) {
    && |labels| == |rows|
    && (forall i :: 0 <= i < |rows| ==> labels[i].row == i)
    && (forall i :: 0 <= i < |rows| && rows[i].score.Some? ==> labels[i].x == Some(rows[i].score.value + 0.4))
    && (forall i :: 0 <= i < |rows| && rows[i].score.None? ==> labels[i].x.None?)
  }

  /** Every score ends at least 2 below the upper limit, and the limit is at least 92. */
  predicate ClearsEveryScore(rows: seq<Record>, xMax: real) {
    && xMax >= 92.0
    && forall i :: 0 <= i < |rows| && rows[i].score.Some? ==> rows[i].score.value + 2.0 <= xMax
  }

  /** The upper limit is the floor 92 or exactly 2 above some record's score. */
  predicate FloorOrTopPlusTwo(rows: seq<Record>, xMax: real) {
    xMax == 92.0 || exists i :: 0 <= i < |rows| && rows[i].score == Some(xMax - 2.0)
  }

  function Colors(rows: seq<Record>): (colors: seq<string>)
    ensures ColorsAligned(rows, colors)
  {
    seq(|rows|, i requires 0 <= i < |rows| => ColorFor(rows[i].provider))
  }

  function Labels(rows: seq<Record>): (labels: seq<Label>)
    ensures LabelsPlaced(rows, labels)
  {
    seq(|rows|, i requires 0 <= i < |rows| => Label(i, LabelX(rows[i].score)))
  }

  /** The upper x limit for a highest score `top`: the larger of top + 2 and 92. */
  function XMax(top: real): (x: real)
    ensures x >= 92.0 && x >= top + 2.0
    ensures x == 92.0 || x == top + 2.0
  {
    if top + Headroom > XMaxFloor then top + Headroom else XMaxFloor
  }

  /** The layout of the chart for the stored records, or NoScores when no record
      has a score, where the renderer fails too. The rows are the
      records sorted ascending by score; colours and labels follow the rows;
      the x axis runs from 60 to the larger of the top score + 2 and 92. */
  function ComputeLayout(payload: seq<Record>): (r: Result<Layout, ChartError>)
    ensures r.Failure? <==> Unscored(payload)
    ensures r.Success? ==> && SortedByScore(r.value.rows)
                           && multiset(r.value.rows) == multiset(payload)
                           && ColorsAligned(r.value.rows, r.value.colors)
                           && LabelsPlaced(r.value.rows, r.value.labels)
                           && r.value.xMin == 60.0
                           && ClearsEveryScore(r.value.rows, r.value.xMax)
                           && FloorOrTopPlusTwo(r.value.rows, r.value.xMax)
  {
    var rows := SortByScore(payload);
    NoScoresInPermutation(payload, rows);
    match MaxScore(rows)
    case None => Failure(NoScores)
    case Some(top) =>
      UpperLimitAttained(rows, top);
      Success(Layout(rows, Colors(rows), XMin, XMax(top), Labels(rows)))
  }

  /** Unless the floor of 92 applies, the upper limit sits exactly 2 above some record's score. */
  lemma UpperLimitAttained(rows: seq<Record>, top: real)
    requires MaxScore(rows) == Some(top)
    ensures FloorOrTopPlusTwo(rows, XMax(top))
  {
    var i :| 0 <= i < |rows| && rows[i].score == Some(top);
    assert XMax(top) == 92.0 || rows[i].score == Some(XMax(top) - 2.0);
  }

  /** Two sequences with the same elements agree on whether every score is missing. */
  lemma NoScoresInPermutation(a: seq<Record>, b: seq<Record>)
    requires multiset(a) == multiset(b)
    ensures Unscored(a) <==> Unscored(b)
  {
    if exists i :: 0 <= i < |a| && a[i].score.Some? {
      var i :| 0 <= i < |a| && a[i].score.Some?;
      assert a[i] in multiset(b);
    }
    if exists i :: 0 <= i < |b| && b[i].score.Some? {
      var i :| 0 <= i < |b| && b[i].score.Some?;
      assert b[i] in multiset(a);
    }
  }

  lemma SortTwo(low: Record, high: Record)
    requires ScoreLe(low.score, high.score) && !ScoreLe(high.score, low.score)
    ensures SortByScore([high, low]) == [low, high]
  {
    assert [high, low][..1] == [high] && [high][..0] == [];
    assert SortByScore([high]) == [high];
    assert Insert(low, [high]) == [low, high];
  }

  lemma MaxOfTwo(low: Record, high: Record, x: real, y: real)
    requires low.score == Some(x) && high.score == Some(y) && x < y
    ensures MaxScore([low, high]) == Some(y)
  {
    assert [low, high][..1] == [low] && [low][..0] == [];
    assert MaxScore([low]) == Some(x);
  }

  /** Two scored records, the higher one stored first: the lower one becomes the
      first bar and the upper limit depends on the higher score only. */
  lemma TwoRecordLayout(low: Record, high: Record, x: real, y: real)
    requires low.score == Some(x) && high.score == Some(y) && x < y
    ensures var r := ComputeLayout([high, low]);
      && r.Success?
      && r.value.rows == [low, high]
      && r.value.xMax == XMax(y)
      && r.value.colors == [ColorFor(low.provider), ColorFor(high.provider)]
  {
    SortTwo(low, high);
    MaxOfTwo(low, high, x, y);
    var rows := [low, high];
    assert Colors(rows) == [ColorFor(low.provider), ColorFor(high.provider)];
  }

  /** The worked example: scores 85.6 and 91.9 give bars in that order and an
      upper x limit of 93.9. */
  lemma TwoRecordExample()
    ensures var gem := Record("Gemini 3.0", "Google", Some(91.9), "2025-11-20", "seed");
      var gpt := Record("GPT-5", "OpenAI", Some(85.6), "2025-11-20", "seed");
      var r := ComputeLayout([gem, gpt]);
      && r.Success?
      && r.value.rows == [gpt, gem]
      && r.value.xMax == 93.9
      && r.value.colors == ["#0b70ff", "#e59b0f"]
  {
    var gem := Record("Gemini 3.0", "Google", Some(91.9), "2025-11-20", "seed");
    var gpt := Record("GPT-5", "OpenAI", Some(85.6), "2025-11-20", "seed");
    TwoRecordLayout(gpt, gem, 85.6, 91.9);
    assert XMax(91.9) == 93.9;
    ColorTable();
  }
}
