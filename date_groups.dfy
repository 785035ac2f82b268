/**
 * Grouping dated chart points by calendar day, shared by the two charts
 * that reduce confidence points per date (the dashboard's averaged curve
 * and the reflections page's running halving).
 */
module DateGroups {
  import Api
  import Seqs

  /** The dates of the points, in order. */
  function DatesOf(data: seq<Api.ConfidencePoint>): (r: seq<string>)
    ensures |r| == |data| && forall k :: 0 <= k < |data| ==> r[k] == data[k].date
  {
    seq(|data|, k requires 0 <= k < |data| => data[k].date)
  }

  /** The scores of the points dated `d`, in input order. */
  function ScoresOn(data: seq<Api.ConfidencePoint>, d: string): seq<int> {
    if data == [] then []
    else ScoresOn(data[..|data| - 1], d) + (if data[|data| - 1].date == d then [data[|data| - 1].score] else [])
  }

  /** A date that occurs has at least one score. */
  lemma {:induction false} ScoresOnOccurring(data: seq<Api.ConfidencePoint>, d: string)
    requires d in DatesOf(data)
    ensures ScoresOn(data, d) != []
  {
    var p := data[..|data| - 1];
    if data[|data| - 1].date != d {
      assert d in DatesOf(p) by {
        var k :| 0 <= k < |data| && data[k].date == d;
        assert p[k].date == d;
      }
      ScoresOnOccurring(p, d);
    }
  }

  lemma ScoresOnSnoc(data: seq<Api.ConfidencePoint>, x: Api.ConfidencePoint, d: string)
    ensures ScoresOn(data + [x], d) == ScoresOn(data, d) + (if x.date == d then [x.score] else [])
  {
    assert (data + [x])[..|data|] == data;
  }

  /** A date that does not occur has no scores. */
  lemma {:induction false} ScoresOnAbsent(data: seq<Api.ConfidencePoint>, d: string)
    requires d !in DatesOf(data)
    ensures ScoresOn(data, d) == []
  {
    if data != [] {
      var p := data[..|data| - 1];
      assert DatesOf(p) == DatesOf(data)[..|p|];
      ScoresOnAbsent(p, d);
    }
  }

  /** A point of a date already seen adds no new date. */
  lemma SeenDateKeepsDates(data: seq<Api.ConfidencePoint>, x: Api.ConfidencePoint)
    requires x.date in DatesOf(data)
    ensures Seqs.Distinct(DatesOf(data + [x])) == Seqs.Distinct(DatesOf(data))
  {
    assert DatesOf(data + [x]) == DatesOf(data) + [x.date];
    Seqs.DistinctSnoc(DatesOf(data), x.date);
  }

  /** A point of a new date adds that date at the end. */
  lemma NewDateAddsDate(data: seq<Api.ConfidencePoint>, x: Api.ConfidencePoint)
    requires x.date !in DatesOf(data)
    ensures Seqs.Distinct(DatesOf(data + [x])) == Seqs.Distinct(DatesOf(data)) + [x.date]
  {
    assert DatesOf(data + [x]) == DatesOf(data) + [x.date];
    Seqs.DistinctSnoc(DatesOf(data), x.date);
  }
}
