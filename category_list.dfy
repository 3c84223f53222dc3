/** The category card of the dashboard: five counters read from the
    statistics object with the same `getSafeValue` as the activity card,
    which `ActivityList.SafeValue` models for both. */
module CategoryList {
  import opened Wrappers
  import opened Js
  import opened ActivityList
  import DashboardStore

  /** The categories list. */
  function Categories(stats: Option<Value>): (rows: seq<Row>)
    ensures |rows| == 5
    ensures rows[0] == Row("blue", "Anime", Count(SafeValue(StatField(stats, "totalAnimes"))))
    ensures rows[1] == Row("green", "Aktif Kullanıcı", Count(SafeValue(StatField(stats, "activeUsers"))))
    ensures rows[2] == Row("purple", "Toplam Kullanıcı", Count(SafeValue(StatField(stats, "totalUsers"))))
    ensures rows[3] == Row("orange", "Yasaklı Kullanıcı", Count(SafeValue(StatField(stats, "bannedUsers"))))
    ensures rows[4] == Row("pink", "Toplam İzlenme", Count(SafeValue(StatField(stats, "totalViews"))))
  {
    [Row("blue", "Anime", Count(SafeValue(StatField(stats, "totalAnimes")))),
     Row("green", "Aktif Kullanıcı", Count(SafeValue(StatField(stats, "activeUsers")))),
     Row("purple", "Toplam Kullanıcı", Count(SafeValue(StatField(stats, "totalUsers")))),
     Row("orange", "Yasaklı Kullanıcı", Count(SafeValue(StatField(stats, "bannedUsers")))),
     Row("pink", "Toplam İzlenme", Count(SafeValue(StatField(stats, "totalViews"))))]
  }

  /** Without statistics every counter is 0. */
  lemma {:induction false} CategoriesWithoutStats()
    ensures forall k :: 0 <= k < 5 ==> Categories(None)[k].shown == Count(0)
  {
  }

  /** The default statistics the store falls back to show zero counters. */
  lemma {:induction false} CategoriesOfDefault(now: string)
    ensures forall k :: 0 <= k < 5 ==> Categories(Some(DashboardStore.DefaultStats(now)))[k].shown == Count(0)
  {
    var v := DashboardStore.DefaultStats(now);
    assert DashboardStore.CounterKeys[0] == "totalUsers";
    assert DashboardStore.CounterKeys[1] == "activeUsers";
    assert DashboardStore.CounterKeys[2] == "bannedUsers";
    assert DashboardStore.CounterKeys[3] == "totalAnimes";
    assert DashboardStore.CounterKeys[6] == "totalViews";
  }
}
