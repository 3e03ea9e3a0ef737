/** The administrator dashboard: summary counts over all reports, the
    per-category chart built by counting in a map, the status tabs, and
    assignment from a pending report's card. */
module AdminDashboard {
  import opened Wrappers
  import opened Types
  import opened ReportLogic
  import opened DashboardViews
  import StatusFlow
  import ReportStore

  datatype AdminStats = AdminStats(total: nat, pendingCount: nat, assignedCount: nat, inProgressCount: nat, resolvedCount: nat,
                                   byType: seq<TypeSlice>)

  const InitialStats: AdminStats := AdminStats(0, 0, 0, 0, 0, [])

  /** The statuses behind each tab; "all" and any other tab show every report. */
  function AdminTabBucket(tab: string): (b: Option<set<ReportStatus>>)
    ensures b.Some? ==> b.value != {} && b.value <= AllStatuses
  {
    match tab
    case "pending" => Some({Pending})
    case "assigned" => Some({Assigned})
    case "inProgress" => Some({Dispatched, InProgress})
    case "resolved" => Some({Resolved})
    case _ => None
  }

  /** The tab names that filter by status; every other name, "all" among
      them, shows the whole list. */
  lemma AdminTabBucketNames(tab: string)
    ensures AdminTabBucket(tab).Some? <==> tab == "pending" || tab == "assigned" || tab == "inProgress" || tab == "resolved"
  {
  }

  /** The chart entries: one per category present, in order of first
      appearance, with that category's count. */
  function TypeSlices(s: seq<Report>): (slices: seq<TypeSlice>)
    ensures |slices| == |FirstAppearance(s)|
  {
    var ts := FirstAppearance(s);
    seq(|ts|, j requires 0 <= j < |ts| => TypeSlice(ts[j], TypeCount(s, ts[j])))
  }

  /** One more report of a category already present bumps that entry. */
  lemma TypeSlicesSnocPresent(s: seq<Report>, x: Report, k: nat)
    requires k < |FirstAppearance(s)| && FirstAppearance(s)[k] == x.disasterType
    ensures TypeSlices(s + [x]) == TypeSlices(s)[k := TypeSlice(x.disasterType, TypeSlices(s)[k].value + 1)]
  {
    var s' := s + [x];
    assert s'[..|s'| - 1] == s;
    var ts := FirstAppearance(s);
    assert FirstAppearance(s') == ts;
    var lhs := TypeSlices(s');
    var rhs := TypeSlices(s)[k := TypeSlice(x.disasterType, TypeSlices(s)[k].value + 1)];
    forall j | 0 <= j < |ts| ensures lhs[j] == rhs[j] {
      TypeCountSnoc(s, x, ts[j]);
    }
  }

  /** One more report of a new category appends an entry with count one. */
  lemma TypeSlicesSnocAbsent(s: seq<Report>, x: Report)
    requires x.disasterType !in FirstAppearance(s)
    ensures TypeSlices(s + [x]) == TypeSlices(s) + [TypeSlice(x.disasterType, 1)]
  {
    var s' := s + [x];
    assert s'[..|s'| - 1] == s;
    var ts := FirstAppearance(s);
    assert FirstAppearance(s') == ts + [x.disasterType];
    var lhs := TypeSlices(s');
    var rhs := TypeSlices(s) + [TypeSlice(x.disasterType, 1)];
    forall j | 0 <= j < |ts| ensures lhs[j] == rhs[j] {
      TypeCountSnoc(s, x, ts[j]);
    }
    TypeCountSnoc(s, x, x.disasterType);
    TypeCountAbsent(s, x.disasterType);
  }

  lemma SumValuesUpdate(slices: seq<TypeSlice>, k: nat, v: nat)
    requires k < |slices|
    ensures SumValues(slices[k := slices[k].(value := v)]) == SumValues(slices) - slices[k].value + v
  {
    if k > 0 {
      assert slices[k := slices[k].(value := v)][1..] == slices[1..][k - 1 := slices[k].(value := v)];
      SumValuesUpdate(slices[1..], k - 1, v);
    }
  }

  lemma SumValuesAppend(slices: seq<TypeSlice>, x: TypeSlice)
    ensures SumValues(slices + [x]) == SumValues(slices) + x.value
  {
    if slices != [] {
      assert (slices + [x])[1..] == slices[1..] + [x];
      SumValuesAppend(slices[1..], x);
    }
  }

  /** The chart's counts add up to the number of reports. */
  lemma {:induction false} TypeSlicesSum(s: seq<Report>)
    ensures SumValues(TypeSlices(s)) == |s|
    decreases |s|
  {
    if s != [] {
      var prior := s[..|s| - 1];
      var x := s[|s| - 1];
      assert s == prior + [x];
      TypeSlicesSum(prior);
      var ts := FirstAppearance(prior);
      if x.disasterType in ts {
        var k :| 0 <= k < |ts| && ts[k] == x.disasterType;
        TypeSlicesSnocPresent(prior, x, k);
        SumValuesUpdate(TypeSlices(prior), k, TypeSlices(prior)[k].value + 1);
      } else {
        TypeSlicesSnocAbsent(prior, x);
        SumValuesAppend(TypeSlices(prior), TypeSlice(x.disasterType, 1));
      }
    }
  }

  /** The `typeMap` loop: counts reports per category in a map that keeps
      first-insertion order, then lists its entries. */
  method BuildTypeCounts(reports: seq<Report>) returns (byType: seq<TypeSlice>)
    ensures byType == TypeSlices(reports)
    ensures SumValues(byType) == |reports|
    ensures forall j :: 0 <= j < |byType| ==> byType[j].value == TypeCount(reports, byType[j].name) > 0
  {
    byType := [];
    var i := 0;
    while i < |reports|
      invariant 0 <= i <= |reports|
      invariant byType == TypeSlices(reports[..i])
    {
      var x := reports[i];
      assert reports[..i + 1] == reports[..i] + [x];
      ghost var ts := FirstAppearance(reports[..i]);
      var k := 0;
      while k < |byType| && byType[k].name != x.disasterType
        invariant 0 <= k <= |byType|
        invariant forall j :: 0 <= j < k ==> byType[j].name != x.disasterType
      {
        k := k + 1;
      }
      if k < |byType| {
        TypeSlicesSnocPresent(reports[..i], x, k);
        byType := byType[k := TypeSlice(x.disasterType, byType[k].value + 1)];
      } else {
        assert forall j :: 0 <= j < |ts| ==> ts[j] == byType[j].name;
        TypeSlicesSnocAbsent(reports[..i], x);
        byType := byType + [TypeSlice(x.disasterType, 1)];
      }
      i := i + 1;
    }
    assert reports[..i] == reports;
    TypeSlicesSum(reports);
    forall j | 0 <= j < |byType| ensures byType[j].value == TypeCount(reports, byType[j].name) > 0 {
      var t := byType[j].name;
      assert t in FirstAppearance(reports);
      var n :| 0 <= n < |reports| && reports[n].disasterType == t;
      TypeCountPositive(reports, n);
    }
  }

  lemma {:induction false} TypeCountPositive(s: seq<Report>, n: nat)
    requires n < |s|
    ensures TypeCount(s, s[n].disasterType) > 0
  {
    if n > 0 {
      TypeCountPositive(s[1..], n - 1);
    }
  }

  /** The summary counts the dashboard shows for a non-empty report list. */
  function StatsOf(s: seq<Report>): (st: AdminStats)
    ensures st.total == |s|
    ensures st.pendingCount <= st.total && st.assignedCount <= st.total
      && st.inProgressCount <= st.total && st.resolvedCount <= st.total
  {
    AdminStats(|s|, Count(s, {Pending}), Count(s, {Assigned}), Count(s, {Dispatched, InProgress}),
               Count(s, {Resolved}), TypeSlices(s))
  }

  /** The stats effect: the four status counts and the category chart of a
      non-empty list. */
  method ComputeStats(reports: seq<Report>) returns (st: AdminStats)
    ensures st == StatsOf(reports)
  {
    var byType := BuildTypeCounts(reports);
    var pending := Count(reports, {Pending});
    var assignedCount := Count(reports, {Assigned});
    var active := Count(reports, {Dispatched, InProgress});
    var resolved := Count(reports, {Resolved});
    st := AdminStats(|reports|, pending, assignedCount, active, resolved, byType);
  }

  /** The four status counts add up to the total, and the "In Progress"
      card (in-progress plus assigned) counts every report that is assigned
      but not yet resolved. */
  lemma StatsPartition(s: seq<Report>)
    ensures var st := StatsOf(s);
      st.pendingCount + st.assignedCount + st.inProgressCount + st.resolvedCount == st.total
      && st.inProgressCount + st.assignedCount == Count(s, {Assigned, Dispatched, InProgress})
      && SumValues(st.byType) == st.total
  {
    SelectPartition(s, {Pending}, {Assigned}, {Dispatched, InProgress}, {Resolved});
    SelectUnion(s, {Assigned}, {Dispatched, InProgress});
    assert {Assigned} + {Dispatched, InProgress} == {Assigned, Dispatched, InProgress};
    TypeSlicesSum(s);
  }

  /** The four status tabs together list every report exactly once. */
  lemma TabsPartition(s: seq<Report>)
    ensures multiset(TabList(s, AdminTabBucket("pending"))) + multiset(TabList(s, AdminTabBucket("assigned")))
          + multiset(TabList(s, AdminTabBucket("inProgress"))) + multiset(TabList(s, AdminTabBucket("resolved")))
         == multiset(TabList(s, AdminTabBucket("all")))
  {
    assert AdminTabBucket("pending") == Some({Pending});
    assert AdminTabBucket("assigned") == Some({Assigned});
    assert AdminTabBucket("inProgress") == Some({Dispatched, InProgress});
    assert AdminTabBucket("resolved") == Some({Resolved});
    assert AdminTabBucket("all") == None;
    TabListSameReports(s, {Pending});
    TabListSameReports(s, {Assigned});
    TabListSameReports(s, {Dispatched, InProgress});
    TabListSameReports(s, {Resolved});
    SelectPartition(s, {Pending}, {Assigned}, {Dispatched, InProgress}, {Resolved});
  }

  class AdminDashboardPage {
    const store: ReportStore.Store
    var activeTab: string
    var filteredReports: seq<Report>
    var stats: AdminStats

    constructor (store: ReportStore.Store)
      ensures this.store == store && activeTab == "all" && filteredReports == [] && stats == InitialStats
    {
      this.store := store;
      activeTab, filteredReports, stats := "all", [], InitialStats;
    }

    /** The two effects on `reports` (and the tab): both recompute only for
        a non-empty list, so an empty list leaves the previous figures. */
    method Refresh()
      modifies this`filteredReports, this`stats
      ensures |store.reports| == 0 ==> stats == old(stats) && filteredReports == old(filteredReports)
      ensures |store.reports| > 0 ==> stats == StatsOf(store.reports)
      ensures |store.reports| > 0 ==> filteredReports == TabList(store.reports, AdminTabBucket(activeTab))
    {
      RefreshStats();
      RefreshTab();
    }

    /** The stats effect. */
    method RefreshStats()
      modifies this`stats
      ensures |store.reports| == 0 ==> stats == old(stats)
      ensures |store.reports| > 0 ==> stats == StatsOf(store.reports)
    {
      var reports := store.reports;
      if |reports| > 0 {
        stats := ComputeStats(reports);
      }
    }

    /** The tab effect. */
    method RefreshTab()
      modifies this`filteredReports
      ensures |store.reports| == 0 ==> filteredReports == old(filteredReports)
      ensures |store.reports| > 0 ==> filteredReports == TabList(store.reports, AdminTabBucket(activeTab))
    {
      var reports := store.reports;
      if |reports| > 0 {
        filteredReports := TabList(reports, AdminTabBucket(activeTab));
      }
    }

    method SetTab(tab: string)
      modifies this`activeTab
      ensures activeTab == tab
    {
      activeTab := tab;
    }

    /** `handleAssign` from a card: assigns without a user id and, for a
        team target, then marks the report assigned, in the store and in
        both local lists. */
    method HandleAssign(reportId: string, target: AssignedTo, now: nat) returns (r: Outcome)
      requires store.Valid()
      modifies store`db, store`reports, store`userReports
      ensures store.Valid()
      ensures r.Fail? ==> (store.db == old(store.db)
        || store.db == Patch(old(store.db), reportId, RemoteAssignEdit(target, None, now)))
      ensures r.Fail? ==>
        (store.db == old(store.db) && store.reports == old(store.reports)
         && store.userReports == old(store.userReports))
        || (store.db == Patch(old(store.db), reportId, RemoteAssignEdit(target, None, now))
            && store.reports == Patch(old(store.reports), reportId, LocalAssignEdit(target, None, now))
            && store.userReports == Patch(old(store.userReports), reportId, LocalAssignEdit(target, None, now)))
      ensures r.Pass? ==> reportId in Ids(old(store.db))
      ensures r.Pass? ==> var reassigned := Patch(old(store.db), reportId, RemoteAssignEdit(target, None, now));
        store.db == if target != Unassigned then Patch(reassigned, reportId, StatusEdit(Assigned, now)) else reassigned
      ensures r.Pass? ==>
        var local := Patch(old(store.reports), reportId, LocalAssignEdit(target, None, now));
        var localUser := Patch(old(store.userReports), reportId, LocalAssignEdit(target, None, now));
        store.reports == (if target != Unassigned then Patch(local, reportId, StatusEdit(Assigned, now)) else local)
        && store.userReports == (if target != Unassigned then Patch(localUser, reportId, StatusEdit(Assigned, now)) else localUser)
      ensures r.Pass? ==> var found := Find(store.db, reportId);
        found.Some? && found.value.assignedTo == target
        && found.value.status == StatusFlow.DashboardAssignStatus(Find(old(store.db), reportId).value.status, target)
    {
      r := store.AssignReport(reportId, target, None, now);
      if r.Fail? {
        return;
      }
      FindAfterPatch(old(store.db), reportId, RemoteAssignEdit(target, None, now));
      if target != Unassigned {
        ghost var afterAssign := store.db;
        r := store.UpdateReportStatus(reportId, Assigned, now);
        if r.Pass? {
          FindAfterPatch(afterAssign, reportId, StatusEdit(Assigned, now));
        }
      }
    }
  }
}
