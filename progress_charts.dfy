/**
 * The analytics charts of the dashboard
 * (src/components/dashboard/ProgressCharts.tsx): the confidence curve
 * averaged per day, the time-invested totals, the last fourteen streak bars
 * and the hours-and-minutes tooltip.
 */
module ProgressCharts {
  import Seqs
  import Text
  import Api
  import DateGroups

  /** A point of the averaged confidence curve: the day, the mean, and the scores it averages. */
  datatype DayScore = DayScore(date: string, score: real, scores: seq<int>)

  /** The number of scores gathered over all days. */
  function TotalScores(acc: seq<DayScore>): nat {
    if acc == [] then 0 else TotalScores(acc[..|acc| - 1]) + |acc[|acc| - 1].scores|
  }

  lemma {:induction false} TotalScoresUpdate(acc: seq<DayScore>, k: nat, e: DayScore)
    requires k < |acc|
    ensures TotalScores(acc[k := e]) == TotalScores(acc) - |acc[k].scores| + |e.scores|
    decreases |acc|
  {
    var last := |acc| - 1;
    if k == last {
      assert acc[k := e][..last] == acc[..last];
    } else {
      assert acc[k := e][..last] == acc[..last][k := e];
      TotalScoresUpdate(acc[..last], k, e);
    }
  }

  /** Each entry holds every score of its date, in input order. */
  ghost predicate ScoresMatch(acc: seq<DayScore>, data: seq<Api.ConfidencePoint>) {
    forall k :: 0 <= k < |acc| ==> acc[k].scores == DateGroups.ScoresOn(data, acc[k].date)
  }

  /** Each entry's score is the mean of its non-empty scores. */
  ghost predicate MeansKept(acc: seq<DayScore>) {
    forall k :: 0 <= k < |acc| ==> acc[k].scores != [] && acc[k].score == Seqs.Mean(acc[k].scores)
  }

  /** The entries carry the given dates, one each, in order. */
  ghost predicate DatesMatch(acc: seq<DayScore>, dates: seq<string>) {
    |acc| == |dates| && forall k :: 0 <= k < |acc| ==> acc[k].date == dates[k]
  }

  /** The aggregation, stated of a whole list: one entry per distinct date holding its scores and their mean. */
  ghost predicate Aggregates(acc: seq<DayScore>, data: seq<Api.ConfidencePoint>) {
    && DatesMatch(acc, Seqs.Distinct(DateGroups.DatesOf(data)))
    && ScoresMatch(acc, data)
    && MeansKept(acc)
    && TotalScores(acc) == |data|
  }

  /** Over distinct dates, no other entry shares the date of entry `j`. */
  lemma OnlyEntryOfDate(acc: seq<DayScore>, dates: seq<string>, j: nat)
    requires DatesMatch(acc, dates) && j < |acc|
    requires forall a, b :: 0 <= a < b < |dates| ==> dates[a] != dates[b]
    ensures forall k :: 0 <= k < |acc| && k != j ==> acc[k].date != acc[j].date
  {
    forall k | 0 <= k < |acc| && k != j ensures acc[k].date != acc[j].date {
      if k < j {
        assert dates[k] != dates[j];
      } else {
        assert dates[j] != dates[k];
      }
    }
  }

  /** Replacing an entry by one of the same date keeps the dates. */
  lemma JoinDates(acc: seq<DayScore>, dates: seq<string>, j: nat, e: DayScore)
    requires DatesMatch(acc, dates) && j < |acc| && e.date == acc[j].date
    ensures DatesMatch(acc[j := e], dates)
  {
  }

  /** Opening an entry for a new date adds that date at the end. */
  lemma OpenDates(acc: seq<DayScore>, dates: seq<string>, e: DayScore)
    requires DatesMatch(acc, dates)
    ensures DatesMatch(acc + [e], dates + [e.date])
  {
  }

  /** Appending a point's score to the one entry of its date keeps every entry's scores those of its date. */
  lemma JoinScores(acc: seq<DayScore>, data: seq<Api.ConfidencePoint>, x: Api.ConfidencePoint, j: nat, e: DayScore)
    requires ScoresMatch(acc, data) && j < |acc| && acc[j].date == x.date
    requires forall k :: 0 <= k < |acc| && k != j ==> acc[k].date != x.date
    requires e.date == x.date && e.scores == acc[j].scores + [x.score]
    ensures ScoresMatch(acc[j := e], data + [x])
  {
    var acc' := acc[j := e];
    forall k | 0 <= k < |acc'| ensures acc'[k].scores == DateGroups.ScoresOn(data + [x], acc'[k].date) {
      DateGroups.ScoresOnSnoc(data, x, acc'[k].date);
    }
  }

  /** Replacing an entry by one whose score is the mean of its scores keeps every score a mean. */
  lemma JoinMeans(acc: seq<DayScore>, j: nat, e: DayScore)
    requires MeansKept(acc) && j < |acc|
    requires e.scores != [] && e.score == Seqs.Mean(e.scores)
    ensures MeansKept(acc[j := e])
  {
  }

  /** A point whose date already has an entry joins that entry. */
  lemma {:induction false} JoinStep(acc: seq<DayScore>, data: seq<Api.ConfidencePoint>, x: Api.ConfidencePoint, j: nat)
    requires Aggregates(acc, data) && j < |acc| && acc[j].date == x.date
    ensures var scores := acc[j].scores + [x.score];
      Aggregates(acc[j := DayScore(x.date, Seqs.Mean(scores), scores)], data + [x])
  {
    var scores := acc[j].scores + [x.score];
    var e := DayScore(x.date, Seqs.Mean(scores), scores);
    var dates := Seqs.Distinct(DateGroups.DatesOf(data));
    assert dates[j] in dates;
    assert x.date in DateGroups.DatesOf(data);
    DateGroups.SeenDateKeepsDates(data, x);
    OnlyEntryOfDate(acc, dates, j);
    JoinScores(acc, data, x, j, e);
    JoinMeans(acc, j, e);
    TotalScoresUpdate(acc, j, e);
    JoinDates(acc, dates, j, e);
  }

  /** A new entry for a new date holds that date's one score, and the other entries keep theirs. */
  lemma OpenScores(acc: seq<DayScore>, data: seq<Api.ConfidencePoint>, x: Api.ConfidencePoint)
    requires ScoresMatch(acc, data) && x.date !in DateGroups.DatesOf(data)
    requires forall m :: 0 <= m < |acc| ==> acc[m].date != x.date
    ensures ScoresMatch(acc + [DayScore(x.date, x.score as real, [x.score])], data + [x])
  {
    var acc' := acc + [DayScore(x.date, x.score as real, [x.score])];
    DateGroups.ScoresOnAbsent(data, x.date);
    forall k | 0 <= k < |acc'| ensures acc'[k].scores == DateGroups.ScoresOn(data + [x], acc'[k].date) {
      DateGroups.ScoresOnSnoc(data, x, acc'[k].date);
    }
  }

  /** The new entry's score is the mean of its one score. */
  lemma OpenMeans(acc: seq<DayScore>, x: Api.ConfidencePoint)
    requires MeansKept(acc)
    ensures MeansKept(acc + [DayScore(x.date, x.score as real, [x.score])])
  {
    Seqs.MeanSingle(x.score);
  }

  /** A point with a new date opens an entry at the end. */
  lemma {:induction false} OpenStep(acc: seq<DayScore>, data: seq<Api.ConfidencePoint>, x: Api.ConfidencePoint)
    requires Aggregates(acc, data) && forall m :: 0 <= m < |acc| ==> acc[m].date != x.date
    ensures Aggregates(acc + [DayScore(x.date, x.score as real, [x.score])], data + [x])
  {
    var e := DayScore(x.date, x.score as real, [x.score]);
    var acc' := acc + [e];
    var dates := Seqs.Distinct(DateGroups.DatesOf(data));
    forall m | 0 <= m < |dates| ensures dates[m] != x.date {
      assert acc[m].date == dates[m];
    }
    assert x.date !in dates;
    DateGroups.NewDateAddsDate(data, x);
    OpenScores(acc, data, x);
    OpenMeans(acc, x);
    OpenDates(acc, dates, e);
    assert acc'[..|acc|] == acc;
    assert TotalScores(acc') == TotalScores(acc) + 1;
  }

  /** `acc.find(d => d.date === date)`, as the index of the first entry of that date (`|acc|` when none). */
  method FindDate(acc: seq<DayScore>, date: string) returns (j: nat)
    ensures j <= |acc| && forall m :: 0 <= m < j ==> acc[m].date != date
    ensures j < |acc| ==> acc[j].date == date
  {
    j := 0;
    while j < |acc| && acc[j].date != date
      invariant j <= |acc|
      invariant forall m :: 0 <= m < j ==> acc[m].date != date
    {
      j := j + 1;
    }
  }

  /**
   * The reduce's callback: the point joins the entry of its date (found by
   * `find`), whose score becomes the mean of its scores, or opens a new
   * entry at the end.
   */
  method AddPoint(acc: seq<DayScore>, curr: Api.ConfidencePoint, ghost seen: seq<Api.ConfidencePoint>)
    returns (next: seq<DayScore>)
    requires Aggregates(acc, seen)
    ensures Aggregates(next, seen + [curr])
  {
    var j := FindDate(acc, curr.date);
    if j < |acc| {
      JoinStep(acc, seen, curr, j);
      var scores := acc[j].scores + [curr.score];
      next := acc[j := DayScore(curr.date, Seqs.Mean(scores), scores)];
    } else {
      OpenStep(acc, seen, curr);
      next := acc + [DayScore(curr.date, curr.score as real, [curr.score])];
    }
  }

  /**
   * The `aggregatedConfidence` reduce: one entry per distinct date, in the
   * order dates first appear, holding that date's scores and their mean.
   */
  method AggregateConfidence(data: seq<Api.ConfidencePoint>) returns (acc: seq<DayScore>)
    ensures |acc| == |Seqs.Distinct(DateGroups.DatesOf(data))|
    ensures forall k :: 0 <= k < |acc| ==> acc[k].date == Seqs.Distinct(DateGroups.DatesOf(data))[k]
    ensures forall k :: 0 <= k < |acc| ==> acc[k].scores == DateGroups.ScoresOn(data, acc[k].date)
    ensures forall k :: 0 <= k < |acc| ==> acc[k].scores != [] && acc[k].score == Seqs.Mean(acc[k].scores)
    ensures TotalScores(acc) == |data|
  {
    acc := [];
    var i := 0;
    while i < |data|
      invariant 0 <= i <= |data|
      invariant Aggregates(acc, data[..i])
    {
      assert data[..i + 1] == data[..i] + [data[i]];
      acc := AddPoint(acc, data[i], data[..i]);
      i := i + 1;
    }
    assert data[..i] == data;
  }

  /** A date seen once keeps the score it came with. */
  lemma SingleScoreKept(e: DayScore)
    requires |e.scores| == 1 && e.score == Seqs.Mean(e.scores)
    ensures e.score == e.scores[0] as real
  {
    assert e.scores == [e.scores[0]];
    Seqs.MeanSingle(e.scores[0]);
  }

  /** `timeInvestedData.reduce((acc, curr) => acc + curr.minutes, 0)`. */
  function TotalMinutes(data: seq<Api.TimeInvested>): (total: int)
    ensures (forall k :: 0 <= k < |data| ==> data[k].minutes >= 0) ==> total >= 0
  {
    if data == [] then 0 else TotalMinutes(data[..|data| - 1]) + data[|data| - 1].minutes
  }

  /** `Math.floor(totalMinutes / 60)`: the whole hours in the total. */
  function TotalHours(data: seq<Api.TimeInvested>): (h: int)
    ensures 60 * h <= TotalMinutes(data) < 60 * (h + 1)
  {
    TotalMinutes(data) / 60
  }

  /** The days practised over all skills, null read as 0. */
  function TotalDays(skills: seq<Api.Skill>): int {
    if skills == [] then 0 else TotalDays(skills[..|skills| - 1]) + Api.OrZero(skills[|skills| - 1].daysPracticed)
  }

  /** On the analytics service's data, the total is half an hour per practised day. */
  lemma {:induction false} TotalMinutesOfSkills(skills: seq<Api.Skill>)
    ensures TotalMinutes(Api.TimeInvestedBySkill(skills)) == 30 * TotalDays(skills)
  {
    if skills != [] {
      var p := skills[..|skills| - 1];
      assert Api.TimeInvestedBySkill(skills)[..|p|] == Api.TimeInvestedBySkill(p);
      TotalMinutesOfSkills(p);
    }
  }

  /** `streakData.slice(-14)`: the last fourteen bars, or all when there are fewer. */
  function RecentStreak(data: seq<Api.StreakPoint>): (r: seq<Api.StreakPoint>)
    ensures |r| == if |data| < 14 then |data| else 14
    ensures forall k :: 0 <= k < |r| ==> r[k] == data[|data| - |r| + k]
  {
    if |data| <= 14 then data else data[|data| - 14..]
  }

  /** JavaScript's `a % b` for b > 0: the remainder takes the sign of `a`. */
  function JsRem(a: int, b: int): int
    requires b > 0
  {
    if a >= 0 then a % b else -((-a) % b)
  }

  /** The tooltip's split of `v` minutes: `Math.floor(value / 60)` hours and `value % 60` minutes. */
  function TooltipParts(v: int): (parts: (int, int))
    ensures -60 < parts.1 < 60
    ensures v >= 0 ==> parts.1 >= 0
    ensures v <= 0 ==> parts.1 <= 0
  {
    (v / 60, JsRem(v, 60))
  }

  /** The tooltip text `${h}h ${m}m`. */
  function TooltipText(v: int): string {
    Text.IntToString(TooltipParts(v).0) + "h " + Text.IntToString(TooltipParts(v).1) + "m"
  }

  /** For a non-negative total the split is exact: whole hours and 0..59 minutes that add back to it. */
  lemma TooltipSplitExact(v: int)
    requires v >= 0
    ensures 60 * TooltipParts(v).0 + TooltipParts(v).1 == v
    ensures 0 <= TooltipParts(v).1 < 60
  {
  }

  /** A negative total that is not whole hours is shown an hour short: floor and truncation disagree. */
  lemma TooltipNegative(v: int)
    requires v < 0 && v % 60 != 0
    ensures 60 * TooltipParts(v).0 + TooltipParts(v).1 == v - 60
  {
    var q, r := v / 60, v % 60;
    assert -v == 60 * (-q - 1) + (60 - r);
    assert (-v) % 60 == 60 - r;
  }
}
