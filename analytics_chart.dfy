/** The analytics chart of the dashboard: four summary totals and a line
    chart over the daily, weekly or monthly points. The chart data flatten
    each point into four typed entries; the x axis is the dates of the view
    entries, and each of the four series reads one field of the points. */
module AnalyticsChart {
  import opened Lists

  /** One point of a dataset. */
  datatype Point = Point(date: string, views: int, comments: int, newUsers: int, episodes: int)

  /** One entry of the transformed chart data; `kind` is its `type`. */
  datatype Entry = Entry(date: string, value: int, kind: string)

  datatype Datasets = Datasets(daily: seq<Point>, weekly: seq<Point>, monthly: seq<Point>)

  /** The four measured fields, in the order of the legend. */
  datatype Field = Views | Comments | NewUsers | Episodes

  function FieldValue(p: Point, f: Field): int {
    match f
    case Views => p.views
    case Comments => p.comments
    case NewUsers => p.newUsers
    case Episodes => p.episodes
  }

  /** The entry type of each field. */
  function KindName(f: Field): string {
    match f
    case Views => "İzlenme"
    case Comments => "Yorumlar"
    case NewUsers => "Yeni Kullanıcılar"
    case Episodes => "Yeni Bölümler"
  }

  /** The four types are distinct. */
  lemma KindNamesDistinct(f: Field, g: Field)
    ensures KindName(f) == KindName(g) ==> f == g
  {
  }

  const FieldOrder: seq<Field> := [Views, Comments, NewUsers, Episodes]

  predicate KnownPeriod(period: string) {
    period == "daily" || period == "weekly" || period == "monthly"
  }

  /** The dataset `getChartData` reads: the named one, else the daily one. */
  function RawData(d: Datasets, period: string): (ps: seq<Point>)
    ensures period == "weekly" ==> ps == d.weekly
    ensures period == "monthly" ==> ps == d.monthly
    ensures period != "weekly" && period != "monthly" ==> ps == d.daily
  {
    if period == "weekly" then d.weekly
    else if period == "monthly" then d.monthly
    else d.daily
  }

  // ---------------------------------------------------------------- chart data

  function EntryOf(p: Point, f: Field): (e: Entry)
    ensures e.date == p.date && e.value == FieldValue(p, f) && e.kind == KindName(f)
  {
    Entry(p.date, FieldValue(p, f), KindName(f))
  }

  /** The four entries pushed for one point. */
  function EntriesOf(p: Point): (es: seq<Entry>)
    ensures |es| == 4 && forall j :: 0 <= j < 4 ==> es[j] == EntryOf(p, FieldOrder[j])
  {
    [EntryOf(p, Views), EntryOf(p, Comments), EntryOf(p, NewUsers), EntryOf(p, Episodes)]
  }

  /** The transformed data of a dataset. */
  function Transform(ps: seq<Point>): (es: seq<Entry>)
    ensures |es| == 4 * |ps|
    decreases |ps|
  {
    if |ps| == 0 then [] else Transform(ps[..|ps| - 1]) + EntriesOf(ps[|ps| - 1])
  }

  /** Entry `4 * i + j` is field `j` of point `i`: four entries per point,
      in point order and in the order views, comments, new users, episodes,
      each carrying the point's date. */
  lemma {:induction false} TransformShape(ps: seq<Point>)
    ensures forall i, j :: 0 <= i < |ps| && 0 <= j < 4 ==> Transform(ps)[4 * i + j] == EntryOf(ps[i], FieldOrder[j])
    decreases |ps|
  {
    if |ps| > 0 {
      var init := ps[..|ps| - 1];
      TransformShape(init);
      var es := Transform(ps);
      assert es == Transform(init) + EntriesOf(ps[|ps| - 1]);
      forall i, j | 0 <= i < |ps| && 0 <= j < 4 ensures es[4 * i + j] == EntryOf(ps[i], FieldOrder[j]) {
        if i < |ps| - 1 {
          assert es[4 * i + j] == Transform(init)[4 * i + j];
          assert init[i] == ps[i];
        } else {
          assert es[4 * i + j] == EntriesOf(ps[|ps| - 1])[j];
        }
      }
    }
  }

  /** `getChartData(period)`: the `forEach` that pushes four entries per
      point of the selected dataset. */
  method GetChartData(d: Datasets, period: string) returns (out: seq<Entry>)
    ensures out == Transform(RawData(d, period))
    ensures |out| == 4 * |RawData(d, period)|
  {
    var raw := RawData(d, period);
    out := [];
    var i := 0;
    while i < |raw|
      invariant 0 <= i <= |raw|
      invariant out == Transform(raw[..i])
    {
      assert raw[..i + 1][..i] == raw[..i];
      out := out + EntriesOf(raw[i]);
      i := i + 1;
    }
    assert raw[..|raw|] == raw;
  }

  /** `data.filter(d => d.type === kind)`. */
  function OfKind(es: seq<Entry>, kind: string): (r: seq<Entry>)
    ensures forall k :: 0 <= k < |r| ==> r[k].kind == kind && r[k] in es
  {
    Filter(es, (e: Entry) => e.kind == kind)
  }

  lemma {:induction false} OfKindAppend(a: seq<Entry>, b: seq<Entry>, kind: string)
    ensures OfKind(a + b, kind) == OfKind(a, kind) + OfKind(b, kind)
  {
    FilterAppend(a, b, (e: Entry) => e.kind == kind);
  }

  /** Of the four entries of a point, one has the type of `f`. */
  lemma {:induction false} OfKindEntries(p: Point, f: Field)
    ensures OfKind(EntriesOf(p), KindName(f)) == [EntryOf(p, f)]
  {
    var es := EntriesOf(p);
    var k := KindName(f);
    forall g ensures (EntryOf(p, g).kind == k) == (g == f) {
      KindNamesDistinct(f, g);
    }
    assert es == [EntryOf(p, Views)] + ([EntryOf(p, Comments)] + ([EntryOf(p, NewUsers)] + [EntryOf(p, Episodes)]));
    OfKindAppend([EntryOf(p, Views)], [EntryOf(p, Comments)] + ([EntryOf(p, NewUsers)] + [EntryOf(p, Episodes)]), k);
    OfKindAppend([EntryOf(p, Comments)], [EntryOf(p, NewUsers)] + [EntryOf(p, Episodes)], k);
    OfKindAppend([EntryOf(p, NewUsers)], [EntryOf(p, Episodes)], k);
  }

  /** Field `f`'s entry of each point, built point by point as the
      transform is. */
  function FieldEntries(ps: seq<Point>, f: Field): (r: seq<Entry>)
    ensures |r| == |ps|
    decreases |ps|
  {
    if |ps| == 0 then [] else FieldEntries(ps[..|ps| - 1], f) + [EntryOf(ps[|ps| - 1], f)]
  }

  lemma {:induction false} FieldEntriesAt(ps: seq<Point>, f: Field)
    ensures forall i :: 0 <= i < |ps| ==> FieldEntries(ps, f)[i] == EntryOf(ps[i], f)
    decreases |ps|
  {
    if |ps| > 0 {
      var init := ps[..|ps| - 1];
      FieldEntriesAt(init, f);
      assert forall i :: 0 <= i < |init| ==> init[i] == ps[i];
    }
  }

  lemma {:induction false} OfKindTransformSnoc(ps: seq<Point>, f: Field)
    ensures OfKind(Transform(ps), KindName(f)) == FieldEntries(ps, f)
    decreases |ps|
  {
    if |ps| > 0 {
      var init := ps[..|ps| - 1];
      var last := ps[|ps| - 1];
      OfKindTransformSnoc(init, f);
      OfKindAppend(Transform(init), EntriesOf(last), KindName(f));
      OfKindEntries(last, f);
    }
  }

  /** The entries of one type are that field's entries, one per point, in
      point order. */
  lemma {:induction false} OfKindTransform(ps: seq<Point>, f: Field)
    ensures OfKind(Transform(ps), KindName(f)) == seq(|ps|, i requires 0 <= i < |ps| => EntryOf(ps[i], f))
  {
    OfKindTransformSnoc(ps, f);
    FieldEntriesAt(ps, f);
  }

  /** The x axis: the dates of the view entries. */
  function AxisDates(d: Datasets, period: string): (dates: seq<string>)
  {
    var es := OfKind(Transform(RawData(d, period)), KindName(Views));
    seq(|es|, i requires 0 <= i < |es| => es[i].date)
  }

  /** The axis has one date per point of the dataset, in its order. */
  lemma {:induction false} AxisDatesOfPoints(d: Datasets, period: string)
    ensures var ps := RawData(d, period);
      AxisDates(d, period) == seq(|ps|, i requires 0 <= i < |ps| => ps[i].date)
  {
    OfKindTransform(RawData(d, period), Views);
  }

  // ---------------------------------------------------------------- series

  /** The dataset the series read: the named one, else the monthly one. */
  function SeriesSource(d: Datasets, tab: string): (ps: seq<Point>)
    ensures tab == "daily" ==> ps == d.daily
    ensures tab == "weekly" ==> ps == d.weekly
    ensures tab != "daily" && tab != "weekly" ==> ps == d.monthly
  {
    if tab == "daily" then d.daily
    else if tab == "weekly" then d.weekly
    else d.monthly
  }

  /** `source.map(d => d.field)`. */
  function Series(d: Datasets, tab: string, f: Field): (values: seq<int>)
    ensures |values| == |SeriesSource(d, tab)|
    ensures forall i :: 0 <= i < |values| ==> values[i] == FieldValue(SeriesSource(d, tab)[i], f)
  {
    var ps := SeriesSource(d, tab);
    seq(|ps|, i requires 0 <= i < |ps| => FieldValue(ps[i], f))
  }

  /** For the three tabs, each series is the values of its field's entries
      in the chart data, so it lines up with the axis. */
  lemma {:induction false} SeriesMatchesChartData(d: Datasets, tab: string, f: Field)
    requires KnownPeriod(tab)
    ensures var es := OfKind(Transform(RawData(d, tab)), KindName(f));
      Series(d, tab, f) == seq(|es|, i requires 0 <= i < |es| => es[i].value)
    ensures |Series(d, tab, f)| == |AxisDates(d, tab)|
  {
    OfKindTransform(RawData(d, tab), f);
    AxisDatesOfPoints(d, tab);
  }

  // ---------------------------------------------------------------- summary

  datatype Summary = Summary(totalViews: int, totalComments: int, totalUsers: int, totalEpisodes: int)

  /** The sum of one field over the points. */
  function Sum(ps: seq<Point>, f: Field): int
    decreases |ps|
  {
    if |ps| == 0 then 0 else Sum(ps[..|ps| - 1], f) + FieldValue(ps[|ps| - 1], f)
  }

  function Totals(ps: seq<Point>): (s: Summary)
    ensures s.totalViews == Sum(ps, Views) && s.totalComments == Sum(ps, Comments)
    ensures s.totalUsers == Sum(ps, NewUsers) && s.totalEpisodes == Sum(ps, Episodes)
  {
    Summary(Sum(ps, Views), Sum(ps, Comments), Sum(ps, NewUsers), Sum(ps, Episodes))
  }

  /** What `getChartSummary` returns: the totals of the named dataset, and
      zeros for any other period. */
  function SummaryOf(d: Datasets, period: string): (s: Summary)
    ensures KnownPeriod(period) ==> s == Totals(RawData(d, period))
    ensures !KnownPeriod(period) ==> s == Summary(0, 0, 0, 0)
  {
    if KnownPeriod(period) then Totals(RawData(d, period)) else Summary(0, 0, 0, 0)
  }

  /** `getChartSummary(period)`: four running totals over the selected
      dataset. */
  method GetChartSummary(d: Datasets, period: string) returns (s: Summary)
    ensures s == SummaryOf(d, period)
  {
    var views, comments, users, episodes := 0, 0, 0, 0;
    if KnownPeriod(period) {
      var ps := RawData(d, period);
      var i := 0;
      while i < |ps|
        invariant 0 <= i <= |ps|
        invariant views == Sum(ps[..i], Views) && comments == Sum(ps[..i], Comments)
        invariant users == Sum(ps[..i], NewUsers) && episodes == Sum(ps[..i], Episodes)
      {
        assert ps[..i + 1][..i] == ps[..i];
        views := views + ps[i].views;
        comments := comments + ps[i].comments;
        users := users + ps[i].newUsers;
        episodes := episodes + ps[i].episodes;
        i := i + 1;
      }
      assert ps[..|ps|] == ps;
    }
    s := Summary(views, comments, users, episodes);
  }

  /** Each total is the sum of that field's entries in the chart data. */
  lemma {:induction false} SumOfEntries(ps: seq<Point>, f: Field)
    ensures Sum(ps, f) == SumValues(OfKind(Transform(ps), KindName(f)))
  {
    OfKindTransform(ps, f);
    SumValuesOfField(ps, f);
  }

  function SumValues(es: seq<Entry>): int
    decreases |es|
  {
    if |es| == 0 then 0 else SumValues(es[..|es| - 1]) + es[|es| - 1].value
  }

  lemma {:induction false} SumValuesOfField(ps: seq<Point>, f: Field)
    ensures SumValues(seq(|ps|, i requires 0 <= i < |ps| => EntryOf(ps[i], f))) == Sum(ps, f)
    decreases |ps|
  {
    if |ps| > 0 {
      var init := ps[..|ps| - 1];
      SumValuesOfField(init, f);
      var es := seq(|ps|, i requires 0 <= i < |ps| => EntryOf(ps[i], f));
      assert es[..|es| - 1] == seq(|init|, i requires 0 <= i < |init| => EntryOf(init[i], f));
    }
  }

  /** A period other than the three tabs is read three ways: the axis and
      the chart data fall back to the daily points, the series to the
      monthly points, and the summary to zeros. */
  lemma {:induction false} UnknownPeriod(d: Datasets, period: string)
    requires !KnownPeriod(period)
    ensures RawData(d, period) == d.daily
    ensures |AxisDates(d, period)| == |d.daily|
    ensures forall f :: |Series(d, period, f)| == |d.monthly|
    ensures SummaryOf(d, period) == Summary(0, 0, 0, 0)
  {
    AxisDatesOfPoints(d, period);
  }
}
