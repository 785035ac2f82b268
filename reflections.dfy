/**
 * The reflections page (src/pages/Reflections.tsx): the per-skill filter,
 * the skill-name lookup, the confidence chart that folds repeated dates by
 * halving, the average clarity card and the field mapping of the export.
 */
module Reflections {
  import opened Wrappers
  import Seqs
  import Text
  import Api
  import DateGroups

  /** The reflection list shown: all of them with no skill chosen, else those of the chosen skill. */
  function FilteredReflections(reflections: seq<Api.LearningOutcome>, selected: Option<string>)
    : (r: seq<Api.LearningOutcome>)
    ensures selected.None? || selected == Some("") ==> r == reflections
    ensures selected.Some? && selected.value != "" ==>
      forall o :: o in r <==> o in reflections && o.skillId == selected.value
    ensures selected.Some? && selected.value != "" ==>
      r == Seqs.Filter(reflections, (o: Api.LearningOutcome) => o.skillId == selected.value)
    ensures |r| <= |reflections|
  {
    if selected.Some? && selected.value != "" then
      Seqs.Filter(reflections, (o: Api.LearningOutcome) => o.skillId == selected.value)
    else reflections
  }

  /** `skills.find(s => s.id === skillId)`: the first skill with that id. */
  function FindSkill(skills: seq<Api.Skill>, id: string): (r: Option<Api.Skill>)
    ensures r.None? <==> forall k :: 0 <= k < |skills| ==> skills[k].id != id
    ensures r.Some? ==> exists k :: 0 <= k < |skills| && skills[k] == r.value && r.value.id == id
                                    && forall j :: 0 <= j < k ==> skills[j].id != id
  {
    if skills == [] then None
    else if skills[0].id == id then Some(skills[0])
    else
      var r := FindSkill(skills[1..], id);
      assert forall k :: 0 < k < |skills| ==> skills[1..][k - 1] == skills[k];
      r
  }

  /** `getSkillName`: the found skill's name, or "Unknown Skill" when none is found or its name is empty. */
  function SkillName(skills: seq<Api.Skill>, id: string): (r: string)
    ensures r != ""
    ensures (forall k :: 0 <= k < |skills| ==> skills[k].id != id) ==> r == "Unknown Skill"
    ensures r != "Unknown Skill" ==>
      exists k :: 0 <= k < |skills| && skills[k].id == id && r == skills[k].name
                  && forall j :: 0 <= j < k ==> skills[j].id != id
    ensures FindSkill(skills, id).Some? && FindSkill(skills, id).value.name != "" ==>
      r == FindSkill(skills, id).value.name
    ensures FindSkill(skills, id).Some? && FindSkill(skills, id).value.name == "" ==> r == "Unknown Skill"
  {
    match FindSkill(skills, id)
    case Some(s) => if s.name != "" then s.name else "Unknown Skill"
    case None => "Unknown Skill"
  }

  // ---------------------------------------------------------------- chart

  /** A point of the reflections chart. */
  datatype ChartPoint = ChartPoint(date: string, score: real)

  /** The score the chart keeps for one date: the first value, then `(previous + next) / 2` for each later one. */
  function Halving(s: seq<int>): (r: real)
    requires s != []
    ensures (forall k :: 0 <= k < |s| ==> s[k] == s[0]) ==> r == s[0] as real
  {
    if |s| == 1 then s[0] as real else (Halving(s[..|s| - 1]) + s[|s| - 1] as real) / 2.0
  }

  /** The halved score stays within the bounds of the values it folds. */
  lemma {:induction false} HalvingBounds(s: seq<int>, lo: int, hi: int)
    requires s != [] && forall k :: 0 <= k < |s| ==> lo <= s[k] <= hi
    ensures lo as real <= Halving(s) <= hi as real
  {
    if |s| > 1 {
      HalvingBounds(s[..|s| - 1], lo, hi);
    }
  }

  /** Two values halve to their mean; three need not, and the order of arrival matters. */
  lemma HalvingVersusMean()
    ensures Halving([4, 6]) == Seqs.Mean([4, 6])
    ensures Halving([0, 0, 3]) == 1.5 && Seqs.Mean([0, 0, 3]) == 1.0
    ensures Halving([3, 0, 0]) == 0.75
  {
    assert [0, 0, 3][..2] == [0, 0] && [0, 0][..1] == [0];
    assert [3, 0, 0][..2] == [3, 0] && [3, 0][..1] == [3];
    assert [4, 6][..1] == [4] && [4][..0] == [];
    assert [0, 0, 3][..2][..1][..0] == [];
  }

  /** The points carry the given dates, one each, in order. */
  ghost predicate DatesMatch(acc: seq<ChartPoint>, dates: seq<string>) {
    |acc| == |dates| && forall k :: 0 <= k < |acc| ==> acc[k].date == dates[k]
  }

  /** Each point carries the halved score of the values of its date. */
  ghost predicate HalvedMatch(acc: seq<ChartPoint>, data: seq<Api.ConfidencePoint>) {
    forall k :: 0 <= k < |acc| ==> HalvedFrom(acc[k], DateGroups.ScoresOn(data, acc[k].date))
  }

  /** The chart, stated of a whole list: one point per distinct date carrying the halved score. */
  ghost predicate Charted(acc: seq<ChartPoint>, data: seq<Api.ConfidencePoint>) {
    DatesMatch(acc, Seqs.Distinct(DateGroups.DatesOf(data))) && HalvedMatch(acc, data)
  }

  /** The point carries the halved score of the values `s`. */
  ghost predicate HalvedFrom(p: ChartPoint, s: seq<int>) {
    s != [] && p.score == Halving(s)
  }

  /** Over distinct dates, no other point shares the date of point `j`. */
  lemma OnlyPointOfDate(acc: seq<ChartPoint>, dates: seq<string>, j: nat)
    requires DatesMatch(acc, dates) && j < |acc|
    requires forall a, b :: 0 <= a < b < |dates| ==> dates[a] != dates[b]
    ensures forall k :: 0 <= k < |acc| && k != j ==> acc[k].date != acc[j].date
  {
    forall k | 0 <= k < |acc| && k != j ensures acc[k].date != acc[j].date {
      if k < j {
        assert dates[k] != dates[j];
      } else {
        assert dates[j] != dates[k];
      }
    }
  }

  /** Averaging a later value into the one point of its date halves it into that date's values. */
  lemma HalveScores(acc: seq<ChartPoint>, data: seq<Api.ConfidencePoint>, x: Api.ConfidencePoint, j: nat)
    requires HalvedMatch(acc, data) && j < |acc| && acc[j].date == x.date
    requires forall k :: 0 <= k < |acc| && k != j ==> acc[k].date != x.date
    ensures HalvedMatch(acc[j := ChartPoint(x.date, (acc[j].score + x.score as real) / 2.0)], data + [x])
  {
    var acc' := acc[j := ChartPoint(x.date, (acc[j].score + x.score as real) / 2.0)];
    forall k | 0 <= k < |acc'|
      ensures HalvedFrom(acc'[k], DateGroups.ScoresOn(data + [x], acc'[k].date))
    {
      var s := DateGroups.ScoresOn(data + [x], acc'[k].date);
      DateGroups.ScoresOnSnoc(data, x, acc'[k].date);
      if k == j {
        var p := DateGroups.ScoresOn(data, x.date);
        assert HalvedFrom(acc[j], p);
        assert s == p + [x.score];
        assert s[..|s| - 1] == p;
      } else {
        assert acc[k].date != x.date;
        assert s == DateGroups.ScoresOn(data, acc[k].date);
      }
    }
  }

  lemma {:induction false} HalveStep(acc: seq<ChartPoint>, data: seq<Api.ConfidencePoint>, x: Api.ConfidencePoint, j: nat)
    requires Charted(acc, data) && j < |acc| && acc[j].date == x.date
    ensures Charted(acc[j := ChartPoint(x.date, (acc[j].score + x.score as real) / 2.0)], data + [x])
  {
    var dates := Seqs.Distinct(DateGroups.DatesOf(data));
    assert dates[j] in dates;
    assert x.date in DateGroups.DatesOf(data);
    DateGroups.SeenDateKeepsDates(data, x);
    OnlyPointOfDate(acc, dates, j);
    HalveScores(acc, data, x, j);
  }

  /** A first point of a new date charts its own score, and the other points keep theirs. */
  lemma StartScores(acc: seq<ChartPoint>, data: seq<Api.ConfidencePoint>, x: Api.ConfidencePoint)
    requires HalvedMatch(acc, data) && x.date !in Seqs.Distinct(DateGroups.DatesOf(data))
    requires forall m :: 0 <= m < |acc| ==> acc[m].date != x.date
    ensures HalvedMatch(acc + [ChartPoint(x.date, x.score as real)], data + [x])
  {
    var acc' := acc + [ChartPoint(x.date, x.score as real)];
    NewPointHalved(data, x);
    forall k | 0 <= k < |acc'|
      ensures HalvedFrom(acc'[k], DateGroups.ScoresOn(data + [x], acc'[k].date))
    {
      if k < |acc| {
        DateGroups.ScoresOnSnoc(data, x, acc[k].date);
        assert acc'[k] == acc[k] && acc[k].date != x.date;
        assert HalvedFrom(acc[k], DateGroups.ScoresOn(data, acc[k].date));
        assert DateGroups.ScoresOn(data + [x], acc[k].date) == DateGroups.ScoresOn(data, acc[k].date);
      } else {
        assert acc'[k] == ChartPoint(x.date, x.score as real);
      }
    }
  }

  lemma {:induction false} StartStep(acc: seq<ChartPoint>, data: seq<Api.ConfidencePoint>, x: Api.ConfidencePoint)
    requires Charted(acc, data) && forall m :: 0 <= m < |acc| ==> acc[m].date != x.date
    ensures Charted(acc + [ChartPoint(x.date, x.score as real)], data + [x])
  {
    var e := ChartPoint(x.date, x.score as real);
    var dates := Seqs.Distinct(DateGroups.DatesOf(data));
    forall m | 0 <= m < |dates| ensures dates[m] != x.date {
      assert acc[m].date == dates[m];
    }
    assert x.date !in dates;
    DateGroups.NewDateAddsDate(data, x);
    StartScores(acc, data, x);
    assert DatesMatch(acc + [e], dates + [x.date]);
  }

  /** The first point of a date charts its own score. */
  lemma NewPointHalved(data: seq<Api.ConfidencePoint>, x: Api.ConfidencePoint)
    requires x.date !in Seqs.Distinct(DateGroups.DatesOf(data))
    ensures HalvedFrom(ChartPoint(x.date, x.score as real), DateGroups.ScoresOn(data + [x], x.date))
  {
    Seqs.DistinctSnoc(DateGroups.DatesOf(data), x.date);
    DateGroups.ScoresOnAbsent(data, x.date);
    DateGroups.ScoresOnSnoc(data, x, x.date);
    assert DateGroups.ScoresOn(data + [x], x.date) == [x.score];
  }

  /**
   * The `chartData` reduce: the first point of a date opens an entry with
   * its score; each later one replaces the score by the average of the
   * entry's score and its own.
   */
  method ChartData(data: seq<Api.ConfidencePoint>) returns (acc: seq<ChartPoint>)
    ensures |acc| == |Seqs.Distinct(DateGroups.DatesOf(data))|
    ensures forall k :: 0 <= k < |acc| ==> acc[k].date == Seqs.Distinct(DateGroups.DatesOf(data))[k]
    ensures forall k :: 0 <= k < |acc| ==> HalvedFrom(acc[k], DateGroups.ScoresOn(data, acc[k].date))
  {
    acc := [];
    var i := 0;
    while i < |data|
      invariant 0 <= i <= |data|
      invariant Charted(acc, data[..i])
    {
      var curr := data[i];
      assert data[..i + 1] == data[..i] + [curr];
      var j := 0;
      while j < |acc| && acc[j].date != curr.date
        invariant 0 <= j <= |acc|
        invariant forall m :: 0 <= m < j ==> acc[m].date != curr.date
      {
        j := j + 1;
      }
      if j < |acc| {
        HalveStep(acc, data[..i], curr, j);
        acc := acc[j := ChartPoint(curr.date, (acc[j].score + curr.score as real) / 2.0)];
      } else {
        StartStep(acc, data[..i], curr);
        acc := acc + [ChartPoint(curr.date, curr.score as real)];
      }
      i := i + 1;
    }
    assert data[..i] == data;
  }

  // ---------------------------------------------------------------- average clarity

  /** The clarity gains of the reflections, in order. */
  function Clarities(reflections: seq<Api.LearningOutcome>): (r: seq<int>)
    ensures |r| == |reflections| && forall k :: 0 <= k < |r| ==> r[k] == reflections[k].clarityGain
  {
    seq(|reflections|, k requires 0 <= k < |reflections| => reflections[k].clarityGain)
  }

  /** The "Avg Clarity Gain" card: the mean clarity, shown as 0 for no reflections. */
  function AverageClarity(reflections: seq<Api.LearningOutcome>): (avg: real)
    ensures reflections == [] ==> avg == 0.0
    ensures reflections != [] && (forall k :: 0 <= k < |reflections| ==> 1 <= reflections[k].clarityGain <= 5)
      ==> 1.0 <= avg <= 5.0
  {
    if |reflections| > 0 then
      var c := Clarities(reflections);
      Seqs.MeanBounds(c, 1, 5);
      Seqs.Mean(c)
    else 0.0
  }

  // ---------------------------------------------------------------- export

  /** The label of a clarity level, or `Level n` outside the table: never empty. */
  function ClarityText(n: int): (t: string)
    ensures t != ""
  {
    if n == 1 then "Still confused"
    else if n == 2 then "A bit clearer"
    else if n == 3 then "Understanding"
    else if n == 4 then "Getting confident"
    else if n == 5 then "Mastered!"
    else "Level " + Text.IntToString(n)
  }

  /** The texts `Level n` that levels outside the table export as. */
  predicate IsLevelText(t: string) {
    |t| >= 6 && t[..6] == "Level "
  }

  lemma ClarityTextLevel(n: int)
    ensures IsLevelText(ClarityText(n)) <==> !(1 <= n <= 5)
  {
    var t := ClarityText(n);
    if !(1 <= n <= 5) {
      assert t == "Level " + Text.IntToString(n);
      assert t[..6] == "Level ";
    } else {
      assert |t| >= 6 && t[..6][0] == t[0] != 'L';
    }
  }

  /** Different clarity levels export as different texts. */
  lemma ClarityTextInjective(m: int, n: int)
    requires ClarityText(m) == ClarityText(n)
    ensures m == n
  {
    ClarityTextLevel(m);
    ClarityTextLevel(n);
    if !(1 <= m <= 5) && !(1 <= n <= 5) {
      var a, b := Text.IntToString(m), Text.IntToString(n);
      assert ("Level " + a)[6..] == a && ("Level " + b)[6..] == b;
      Text.IntToStringInjective(m, n);
    }
  }

  /** The difficulty text: its label for a known tag, "N/A" when there is none, undefined (None) for another tag. */
  function DifficultyText(feeling: Option<string>): (r: Option<string>)
    ensures r == Some("N/A") <==> feeling.None? || feeling == Some("")
    ensures r.None? <==> feeling.Some? && feeling.value != ""
                         && feeling.value != "too_easy" && feeling.value != "just_right" && feeling.value != "too_hard"
    ensures feeling == Some("too_easy") ==> r == Some("Too Easy")
    ensures feeling == Some("just_right") ==> r == Some("Just Right")
    ensures feeling == Some("too_hard") ==> r == Some("Too Hard")
  {
    if feeling.None? || feeling.value == "" then Some("N/A")
    else if feeling.value == "too_easy" then Some("Too Easy")
    else if feeling.value == "just_right" then Some("Just Right")
    else if feeling.value == "too_hard" then Some("Too Hard")
    else None
  }

  /** An exported reflection; `difficulty` is None where the page would print `undefined`. */
  datatype ExportRow = ExportRow(date: string, skill: string, clarity: string, difficulty: Option<string>, notes: string)

  /** The notes text: the confusion note, or "No notes" when there is none. */
  function NotesText(note: Option<string>): (r: string)
    ensures r != ""
    ensures note.Some? && note.value != "" ==> r == note.value
    ensures note.None? || note.value == "" ==> r == "No notes"
  {
    if note.Some? && note.value != "" then note.value else "No notes"
  }

  /** The export's mapping of one reflection; the locale date formatting is a parameter. */
  function ExportOf(r: Api.LearningOutcome, skills: seq<Api.Skill>, formatDate: string -> string): ExportRow {
    ExportRow(formatDate(r.createdAt), SkillName(skills, r.skillId), ClarityText(r.clarityGain),
              DifficultyText(r.difficultyFeeling), NotesText(r.confusionNote))
  }

  /** `handleExportPDF`'s content: one row per shown reflection, in order. */
  function ExportRows(shown: seq<Api.LearningOutcome>, skills: seq<Api.Skill>, formatDate: string -> string)
    : (rows: seq<ExportRow>)
    ensures |rows| == |shown|
    ensures forall k :: 0 <= k < |rows| ==> rows[k] == ExportOf(shown[k], skills, formatDate)
  {
    seq(|shown|, k requires 0 <= k < |shown| => ExportOf(shown[k], skills, formatDate))
  }

  /** The printed page includes a notes block exactly when the notes text is not "No notes". */
  predicate PrintsNotes(row: ExportRow) {
    row.notes != "No notes"
  }

  /** A note typed as "No notes" is dropped from the print just like a missing or empty one. */
  lemma PrintsNotesIff(r: Api.LearningOutcome, skills: seq<Api.Skill>, formatDate: string -> string)
    ensures PrintsNotes(ExportOf(r, skills, formatDate)) <==>
      r.confusionNote.Some? && r.confusionNote.value != "" && r.confusionNote.value != "No notes"
  {
  }
}
