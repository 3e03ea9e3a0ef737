/** The NDRF dashboard: counts and tabs over the NDRF-scoped report list,
    and dispatching a team from a newly assigned report's card. */
module NdrfDashboard {
  import opened Wrappers
  import opened Types
  import opened ReportLogic
  import opened DashboardViews
  import StatusFlow
  import ReportStore

  datatype NdrfStats = NdrfStats(total: nat, assignedCount: nat, dispatchedCount: nat,
                                 inProgressCount: nat, resolvedCount: nat)

  const ZeroStats: NdrfStats := NdrfStats(0, 0, 0, 0, 0)

  /** The statuses behind each tab; "all" and any other tab show every report. */
  function NdrfTabBucket(tab: string): (b: Option<set<ReportStatus>>)
    ensures b.Some? ==> b.value != {} && Pending !in b.value
  {
    match tab
    case "assigned" => Some({Assigned})
    case "active" => Some({Dispatched, InProgress})
    case "resolved" => Some({Resolved})
    case _ => None
  }

  /** The tab names that filter by status; every other name, "all" among
      them, shows the whole list. */
  lemma NdrfTabBucketNames(tab: string)
    ensures NdrfTabBucket(tab).Some? <==> tab == "assigned" || tab == "active" || tab == "resolved"
  {
  }

  function StatsOf(s: seq<Report>): (st: NdrfStats)
    ensures st.total == |s|
    ensures st.assignedCount <= st.total && st.dispatchedCount <= st.total
      && st.inProgressCount <= st.total && st.resolvedCount <= st.total
  {
    NdrfStats(|s|, Count(s, {Assigned}), Count(s, {Dispatched}), Count(s, {InProgress}), Count(s, {Resolved}))
  }

  /** The four cards count every report except pending ones, so they reach
      the total exactly when no listed report is pending. */
  lemma StatsCoverNonPending(s: seq<Report>)
    ensures var st := StatsOf(s);
      st.assignedCount + st.dispatchedCount + st.inProgressCount + st.resolvedCount == st.total - Count(s, {Pending})
      && st.assignedCount + st.dispatchedCount + st.inProgressCount + st.resolvedCount <= st.total
  {
    SelectPartition(s, {Pending}, {Assigned}, {Dispatched, InProgress}, {Resolved});
    SelectUnion(s, {Dispatched}, {InProgress});
    assert {Dispatched} + {InProgress} == {Dispatched, InProgress};
  }

  /** The three status tabs together with the pending reports hold every
      listed report exactly once; the "active" tab is the dispatched and the
      in-progress reports. */
  lemma TabsPartition(s: seq<Report>)
    ensures multiset(TabList(s, NdrfTabBucket("assigned"))) + multiset(TabList(s, NdrfTabBucket("active")))
          + multiset(TabList(s, NdrfTabBucket("resolved"))) + multiset(Select(s, {Pending}))
         == multiset(TabList(s, NdrfTabBucket("all")))
    ensures |TabList(s, NdrfTabBucket("active"))| == StatsOf(s).dispatchedCount + StatsOf(s).inProgressCount
  {
    assert NdrfTabBucket("assigned") == Some({Assigned});
    assert NdrfTabBucket("active") == Some({Dispatched, InProgress});
    assert NdrfTabBucket("resolved") == Some({Resolved});
    assert NdrfTabBucket("all") == None;
    TeamTabsCover(s, {Assigned}, {Dispatched, InProgress}, {Resolved});
    TabListSameReports(s, {Dispatched, InProgress});
    SelectUnion(s, {Dispatched}, {InProgress});
    assert {Dispatched} + {InProgress} == {Dispatched, InProgress};
  }

  /** Built from an NDRF-scoped list, every tab shows only reports assigned
      to NDRF. */
  lemma TabsShowOnlyNdrfReports(s: seq<Report>, u: User, tab: string)
    requires u.role == "ndrf"
    ensures forall r :: r in TabList(RoleView(s, u), NdrfTabBucket(tab)) ==> r.assignedTo == NdrfTeam
  {
    TabListSpec(RoleView(s, u), NdrfTabBucket(tab));
  }

  /** The card's "Dispatch Team" button appears on assigned reports and does
      what the detail page's header button does for them. */
  lemma DispatchMatchesDetailPage()
    ensures StatusFlow.HeaderAction(Ndrf, Assigned) == Some(StatusFlow.SetStatus(Dispatched))
  {
  }

  class NdrfDashboardPage {
    const store: ReportStore.Store
    var activeTab: string
    var filteredReports: seq<Report>
    var stats: NdrfStats

    constructor (store: ReportStore.Store)
      ensures this.store == store && activeTab == "all" && filteredReports == [] && stats == ZeroStats
    {
      this.store := store;
      activeTab, filteredReports, stats := "all", [], ZeroStats;
    }

    /** The effect on `userReports` and the tab: an empty list resets the
        page, otherwise tab list and counts are recomputed. */
    method Refresh()
      modifies this`filteredReports, this`stats
      ensures |store.userReports| == 0 ==> filteredReports == [] && stats == ZeroStats
      ensures |store.userReports| > 0 ==> stats == StatsOf(store.userReports)
      ensures |store.userReports| > 0 ==> filteredReports == TabList(store.userReports, NdrfTabBucket(activeTab))
    {
      var reports := store.userReports;
      if |reports| > 0 {
        var assignedCount := Count(reports, {Assigned});
        var dispatchedCount := Count(reports, {Dispatched});
        var inProgressCount := Count(reports, {InProgress});
        var resolvedCount := Count(reports, {Resolved});
        stats := NdrfStats(|reports|, assignedCount, dispatchedCount, inProgressCount, resolvedCount);
        assert stats == StatsOf(reports);
        filteredReports := TabList(reports, NdrfTabBucket(activeTab));
      } else {
        filteredReports := [];
        stats := ZeroStats;
      }
    }

    method SetTab(tab: string)
      modifies this`activeTab
      ensures activeTab == tab
    {
      activeTab := tab;
    }

    /** `handleDispatch`: marks the report dispatched. */
    method HandleDispatch(reportId: string, now: nat) returns (r: Outcome)
      requires store.Valid()
      modifies store`db, store`reports, store`userReports
      ensures store.Valid()
      ensures r.Fail? ==> (store.db == old(store.db) && store.reports == old(store.reports)
        && store.userReports == old(store.userReports))
      ensures r.Pass? ==> (reportId in Ids(old(store.db))
        && store.db == Patch(old(store.db), reportId, StatusEdit(Dispatched, now))
        && store.reports == Patch(old(store.reports), reportId, StatusEdit(Dispatched, now))
        && store.userReports == Patch(old(store.userReports), reportId, StatusEdit(Dispatched, now)))
    {
      r := store.UpdateReportStatus(reportId, Dispatched, now);
    }
  }
}
