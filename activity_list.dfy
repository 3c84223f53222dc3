/** The activity card of the dashboard: five rows read from the statistics
    object, four counters and the date of the last update. A counter may
    arrive as a number, as an object holding `value` or `count`, as an
    array or as numeric text; `SafeValue` turns each into a number. */
module ActivityList {
  import opened Wrappers
  import opened Text
  import opened Js
  import DashboardStore

  /** `getSafeValue(val)`. */
  function SafeValue(v: Value): (r: int)
    ensures v.Num? ==> r == v.n
    ensures v.Obj? && Field(v, "value").Num? ==> r == Field(v, "value").n
    ensures v.Obj? && !Field(v, "value").Num? && Field(v, "count").Num? ==> r == Field(v, "count").n
    ensures v.Obj? && !Field(v, "value").Num? && !Field(v, "count").Num? ==> r == 0
    ensures v.Arr? ==> r == |v.items|
    ensures v.Str? ==> r == ParseNumber(v.s).GetOr(0)
    ensures v.Undefined? || v.Null? || v.Bool? ==> r == 0
  {
    match v
    case Num(n) => n
    case Obj(_) =>
      if Field(v, "value").Num? then Field(v, "value").n
      else if Field(v, "count").Num? then Field(v, "count").n
      else 0
    case Arr(items) => |items|
    case Str(s) => if ParseNumber(s).Some? then ParseNumber(s).value else 0
    case _ => 0
  }

  /** A counter sent as decimal text reads as the number itself. */
  lemma {:induction false} SafeValueOfDecimal(n: int)
    ensures SafeValue(Str(IntToString(n))) == SafeValue(Num(n)) == n
  {
    ParseNumberOfIntToString(n);
  }

  /** A counter wrapped as `{ value: n }` or `{ count: n }` reads as `n`,
      and `value` wins when both are numbers. */
  lemma {:induction false} SafeValueOfWrapped(n: int, m: int)
    ensures SafeValue(Obj(map["value" := Num(n)])) == n
    ensures SafeValue(Obj(map["count" := Num(n)])) == n
    ensures SafeValue(Obj(map["value" := Num(n), "count" := Num(m)])) == n
  {
    assert Field(Obj(map["count" := Num(n)]), "value") == Undefined;
  }

  /** What a row shows: a number, or text. */
  datatype Shown = Count(n: int) | Text(s: string)

  datatype Row = Row(color: string, caption: string, shown: Shown)

  /** `stats?.[key]`. */
  function StatField(stats: Option<Value>, key: string): (v: Value)
    ensures stats.None? ==> v == Undefined
    ensures stats.Some? ==> v == Field(stats.value, key)
  {
    if stats.Some? then Field(stats.value, key) else Undefined
  }

  /** The activities list; `dateText` is `lastUpdated` formatted as a
      Turkish date. */
  function Activities(stats: Option<Value>, dateText: string): (rows: seq<Row>)
    ensures |rows| == 5
    ensures rows[0] == Row("purple", "Toplam yorum", Count(SafeValue(StatField(stats, "totalComments"))))
    ensures rows[1] == Row("red", "Toplam rapor", Count(SafeValue(StatField(stats, "totalReports"))))
    ensures rows[2] == Row("green", "Bekleyen rapor", Count(SafeValue(StatField(stats, "pendingReports"))))
    ensures rows[3] == Row("blue", "Toplam izlenme", Count(SafeValue(StatField(stats, "totalViews"))))
    ensures Truthy(StatField(stats, "lastUpdated")) ==> rows[4] == Row("orange", "Son güncelleme", Text(dateText))
    ensures !Truthy(StatField(stats, "lastUpdated")) ==> rows[4] == Row("orange", "Son güncelleme", Text("N/A"))
  {
    [Row("purple", "Toplam yorum", Count(SafeValue(StatField(stats, "totalComments")))),
     Row("red", "Toplam rapor", Count(SafeValue(StatField(stats, "totalReports")))),
     Row("green", "Bekleyen rapor", Count(SafeValue(StatField(stats, "pendingReports")))),
     Row("blue", "Toplam izlenme", Count(SafeValue(StatField(stats, "totalViews")))),
     Row("orange", "Son güncelleme",
       Text(if Truthy(StatField(stats, "lastUpdated")) then dateText else "N/A"))]
  }

  /** Without statistics every counter is 0 and the date is "N/A". */
  lemma {:induction false} ActivitiesWithoutStats(dateText: string)
    ensures var rows := Activities(None, dateText);
      && (forall k :: 0 <= k < 4 ==> rows[k].shown == Count(0))
      && rows[4].shown == Text("N/A")
  {
  }

  /** The default statistics the store falls back to show zero counters
      and their time stamp. */
  lemma {:induction false} ActivitiesOfDefault(now: string, dateText: string)
    requires now != ""
    ensures var rows := Activities(Some(DashboardStore.DefaultStats(now)), dateText);
      && (forall k :: 0 <= k < 4 ==> rows[k].shown == Count(0))
      && rows[4].shown == Text(dateText)
  {
    var v := DashboardStore.DefaultStats(now);
    assert DashboardStore.CounterKeys[4] == "totalComments";
    assert DashboardStore.CounterKeys[5] == "totalReports";
    assert DashboardStore.CounterKeys[6] == "totalViews";
    assert DashboardStore.CounterKeys[7] == "pendingReports";
  }
}
