/**
 * The learning-resource library of the dashboard
 * (src/components/dashboard/ResourceLibrary.tsx): the category buttons
 * drawn from the fetched rows, the category filter and its count badge,
 * the duration text and the cost badge.
 */
module ResourceLibrary {
  import opened Wrappers
  import Seqs
  import Text

  /** A resource row, with the fields the library computes with. */
  datatype Resource = Resource(
    id: string,
    title: string,
    url: string,
    kind: string,
    skillCategory: string,
    cost: string,
    durationMinutes: Option<int>)

  /** The outcome of the resources query. */
  datatype FetchResult = FetchError | NoData | Rows(rows: seq<Resource>)

  /** The category of each row, in order. */
  function CategoryColumn(resources: seq<Resource>): (r: seq<string>)
    ensures |r| == |resources| && forall k :: 0 <= k < |r| ==> r[k] == resources[k].skillCategory
  {
    seq(|resources|, k requires 0 <= k < |resources| => resources[k].skillCategory)
  }

  /** `[...new Set(data.map(r => r.skill_category))]`: each category once, by first appearance. */
  function Categories(resources: seq<Resource>): (r: seq<string>)
    ensures forall i, j :: 0 <= i < j < |r| ==> r[i] != r[j]
    ensures forall c :: c in r <==> exists k :: 0 <= k < |resources| && resources[k].skillCategory == c
  {
    var cats := CategoryColumn(resources);
    var r := Seqs.Distinct(cats);
    assert forall c :: c in cats <==> exists k :: 0 <= k < |resources| && resources[k].skillCategory == c by {
      forall c ensures c in cats <==> exists k :: 0 <= k < |resources| && resources[k].skillCategory == c {
        if c in cats {
          var k :| 0 <= k < |cats| && cats[k] == c;
        }
      }
    }
    r
  }

  /** The buttons list categories in the order they first occur among the rows. */
  lemma CategoriesInFirstOrder(resources: seq<Resource>)
    ensures forall i, j :: 0 <= i < j < |Categories(resources)| ==>
      Seqs.FirstIndex(CategoryColumn(resources), Categories(resources)[i])
        < Seqs.FirstIndex(CategoryColumn(resources), Categories(resources)[j])
  {
    Seqs.DistinctFirstAppearance(CategoryColumn(resources));
  }

  /** The rows shown: all for "all", else those of the selected category, in order. */
  function FilteredResources(resources: seq<Resource>, selected: string): (r: seq<Resource>)
    ensures selected == "all" ==> r == resources
    ensures selected != "all" ==> forall x :: x in r <==> x in resources && x.skillCategory == selected
    ensures selected != "all" ==> r == Seqs.Filter(resources, (x: Resource) => x.skillCategory == selected)
  {
    if selected == "all" then resources
    else Seqs.Filter(resources, (x: Resource) => x.skillCategory == selected)
  }

  /** Every row can be reached through the button of its own category. */
  lemma EveryResourceReachable(resources: seq<Resource>, x: Resource)
    requires x in resources
    ensures x.skillCategory in Categories(resources)
    ensures x in FilteredResources(resources, x.skillCategory)
  {
    var k :| 0 <= k < |resources| && resources[k] == x;
  }

  /** The count badge counts the rows of the selected category (all rows for "all"). */
  lemma CountBadge(resources: seq<Resource>, selected: string)
    ensures |FilteredResources(resources, selected)|
      == if selected == "all" then |resources| else Seqs.Count(resources, (x: Resource) => x.skillCategory == selected)
    ensures |FilteredResources(resources, selected)| <= |resources|
  {
  }

  /** `Math.floor(minutes / 60)` and `minutes % 60` for a duration of an hour or more. */
  function HourSplit(minutes: int): (hm: (int, int))
    requires minutes >= 60
    ensures hm.0 >= 1 && 0 <= hm.1 < 60 && hm.0 * 60 + hm.1 == minutes
  {
    (minutes / 60, minutes % 60)
  }

  /** `formatDuration`: nothing for a missing or zero duration, "Nm" below an hour, else "Hh" or "Hh Mm". */
  function FormatDuration(minutes: Option<int>): (r: Option<string>)
    ensures r.None? <==> minutes.None? || minutes.value == 0
    ensures minutes.Some? && minutes.value != 0 && minutes.value < 60 ==> r == Some(Text.IntToString(minutes.value) + "m")
    ensures minutes.Some? && minutes.value >= 60 && HourSplit(minutes.value).1 == 0 ==>
      r == Some(Text.IntToString(HourSplit(minutes.value).0) + "h")
    ensures minutes.Some? && minutes.value >= 60 && HourSplit(minutes.value).1 > 0 ==>
      r == Some(Text.IntToString(HourSplit(minutes.value).0) + "h " + Text.IntToString(HourSplit(minutes.value).1) + "m")
  {
    if minutes.None? || minutes.value == 0 then None
    else if minutes.value < 60 then Some(Text.IntToString(minutes.value) + "m")
    else
      var hm := HourSplit(minutes.value);
      if hm.1 > 0 then Some(Text.IntToString(hm.0) + "h " + Text.IntToString(hm.1) + "m")
      else Some(Text.IntToString(hm.0) + "h")
  }

  /** A non-empty all-digit text read as a number. */
  function ParseDigits(s: string): Option<int> {
    if s != [] && forall k :: 0 <= k < |s| ==> Text.IsDigit(s[k]) then Some(Text.ParseNat(s)) else None
  }

  /** Reads a duration text back: "Hh", "Hh Mm" or "Mm". */
  function ParseDuration(t: string): Option<int> {
    if |t| >= 2 && t[|t| - 1] == 'h' then
      var h := ParseDigits(t[..|t| - 1]);
      if h.Some? then Some(60 * h.value) else None
    else if |t| >= 2 && t[|t| - 1] == 'm' then
      var body := t[..|t| - 1];
      var hs := Text.BeforeFirst(body, 'h');
      if |hs| == |body| then ParseDigits(body)
      else if |body| >= |hs| + 2 && body[|hs| + 1] == ' ' then
        var h, m := ParseDigits(hs), ParseDigits(body[|hs| + 2..]);
        if h.Some? && m.Some? then Some(60 * h.value + m.value) else None
      else None
    else None
  }

  /** Digits read back as the number they render. */
  lemma ParseDigitsOf(n: nat)
    ensures ParseDigits(Text.NatToString(n)) == Some(n)
    ensures 'h' !in Text.NatToString(n)
  {
    Text.ParseNatToString(n);
  }

  /** "Mm" reads back as M minutes. */
  lemma MinutesTextRoundTrip(n: nat)
    ensures ParseDuration(Text.NatToString(n) + "m") == Some(n)
  {
    var d := Text.NatToString(n);
    var t := d + "m";
    ParseDigitsOf(n);
    assert t[..|t| - 1] == d;
    assert Text.BeforeFirst(d, 'h') == d;
  }

  /** "Hh" reads back as H hours. */
  lemma HoursTextRoundTrip(n: nat)
    ensures ParseDuration(Text.NatToString(n) + "h") == Some(60 * n)
  {
    var d := Text.NatToString(n);
    var t := d + "h";
    ParseDigitsOf(n);
    assert t[..|t| - 1] == d;
  }

  /** A text "Ah Bm" reads as A hours and B minutes when A and B are digit runs. */
  lemma HoursMinutesParse(a: string, b: string, x: int, y: int)
    requires ParseDigits(a) == Some(x) && ParseDigits(b) == Some(y) && 'h' !in a
    ensures ParseDuration(a + "h " + b + "m") == Some(60 * x + y)
  {
    var t := a + "h " + b + "m";
    var body := t[..|t| - 1];
    assert body == a + ['h'] + (" " + b);
    Text.BeforeFirstAppend(a, 'h', " " + b);
    assert t[|t| - 1] == 'm';
    assert body[|a| + 1] == ' ';
    assert body[|a| + 2..] == b;
  }

  /** "Hh Mm" reads back as H hours and M minutes. */
  lemma HoursMinutesTextRoundTrip(h: nat, m: nat)
    ensures ParseDuration(Text.NatToString(h) + "h " + Text.NatToString(m) + "m") == Some(60 * h + m)
  {
    ParseDigitsOf(h);
    ParseDigitsOf(m);
    HoursMinutesParse(Text.NatToString(h), Text.NatToString(m), h, m);
  }

  /** The duration text of a positive duration reads back as that duration: no two durations share a text. */
  lemma DurationRoundTrip(minutes: int)
    requires minutes > 0
    ensures FormatDuration(Some(minutes)).Some?
    ensures ParseDuration(FormatDuration(Some(minutes)).value) == Some(minutes)
  {
    if minutes < 60 {
      MinutesTextRoundTrip(minutes);
    } else {
      var hm := HourSplit(minutes);
      if hm.1 > 0 {
        HoursMinutesTextRoundTrip(hm.0, hm.1);
      } else {
        HoursTextRoundTrip(hm.0);
      }
    }
  }

  /** The cost badge: "Free" for the cost "free", else the cost as stored. */
  function CostLabel(cost: string): (r: string)
    ensures r == "Free" <==> cost == "free" || cost == "Free"
    ensures cost != "free" ==> r == cost
  {
    if cost == "free" then "Free" else cost
  }

  /** Labelling a label changes nothing. */
  lemma CostLabelIdempotent(cost: string)
    ensures CostLabel(CostLabel(cost)) == CostLabel(cost)
  {
  }

  /** The library's state: the fetched rows, the loading flag, the selected category and the category buttons. */
  class Library {
    var resources: seq<Resource>
    var loading: bool
    var selectedCategory: string
    var categories: seq<string>

    /** The buttons are always those of the rows held. */
    ghost predicate Valid()
      reads this
    {
      categories == Categories(resources)
    }

    constructor ()
      ensures Valid() && resources == [] && loading && selectedCategory == "all"
    {
      resources := [];
      loading := true;
      selectedCategory := "all";
      categories := Seqs.Distinct(CategoryColumn([]));
    }

    /** `fetchResources`: rows replace the list and its buttons; an error or no data keeps them. Loading ends. */
    method Fetch(result: FetchResult)
      requires Valid()
      modifies this`resources, this`categories, this`loading
      ensures Valid() && !loading
      ensures result.Rows? ==> resources == result.rows
      ensures !result.Rows? ==> resources == old(resources)
    {
      if result.Rows? {
        resources := result.rows;
        categories := Categories(result.rows);
      }
      loading := false;
    }

    /** The "All" button or a category button. */
    method SelectCategory(c: string)
      requires Valid() && (c == "all" || c in categories)
      modifies this`selectedCategory
      ensures Valid() && selectedCategory == c
    {
      selectedCategory := c;
    }

    /** The rows on screen. */
    function Shown(): (r: seq<Resource>)
      reads this
      ensures |r| <= |resources|
    {
      FilteredResources(resources, selectedCategory)
    }
  }
}
