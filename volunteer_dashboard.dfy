/** The volunteer dashboard: counts and tabs over the volunteer-scoped
    report list, and taking responsibility for a newly assigned report. */
module VolunteerDashboard {
  import opened Wrappers
  import opened Types
  import opened ReportLogic
  import opened DashboardViews
  import StatusFlow
  import ReportStore

  datatype VolunteerStats = VolunteerStats(total: nat, assignedCount: nat, inProgressCount: nat, resolvedCount: nat)

  const ZeroStats: VolunteerStats := VolunteerStats(0, 0, 0, 0)

  /** The statuses behind each tab; "all" and any other tab show every report. */
  function VolunteerTabBucket(tab: string): (b: Option<set<ReportStatus>>)
    ensures b.Some? ==> b.value != {} && Pending !in b.value
  {
    match tab
    case "assigned" => Some({Assigned})
    case "inProgress" => Some({InProgress, Dispatched})
    case "resolved" => Some({Resolved})
    case _ => None
  }

  /** The tab names that filter by status; every other name, "all" among
      them, shows the whole list. */
  lemma VolunteerTabBucketNames(tab: string)
    ensures VolunteerTabBucket(tab).Some? <==> tab == "assigned" || tab == "inProgress" || tab == "resolved"
  {
  }

  function StatsOf(s: seq<Report>): (st: VolunteerStats)
    ensures st.total == |s|
    ensures st.assignedCount <= st.total && st.inProgressCount <= st.total && st.resolvedCount <= st.total
  {
    VolunteerStats(|s|, Count(s, {Assigned}), Count(s, {InProgress, Dispatched}), Count(s, {Resolved}))
  }

  /** The three cards count every report except pending ones; the "In
      Progress" card and tab include dispatched reports. */
  lemma StatsCoverNonPending(s: seq<Report>)
    ensures var st := StatsOf(s);
      st.assignedCount + st.inProgressCount + st.resolvedCount == st.total - Count(s, {Pending})
      && |TabList(s, VolunteerTabBucket("inProgress"))| == st.inProgressCount
  {
    assert VolunteerTabBucket("inProgress") == Some({InProgress, Dispatched});
    assert {InProgress, Dispatched} == {Dispatched, InProgress};
    SelectPartition(s, {Pending}, {Assigned}, {Dispatched, InProgress}, {Resolved});
  }

  /** The three status tabs together with the pending reports hold every
      listed report exactly once. */
  lemma TabsPartition(s: seq<Report>)
    ensures multiset(TabList(s, VolunteerTabBucket("assigned"))) + multiset(TabList(s, VolunteerTabBucket("inProgress")))
          + multiset(TabList(s, VolunteerTabBucket("resolved"))) + multiset(Select(s, {Pending}))
         == multiset(TabList(s, VolunteerTabBucket("all")))
  {
    assert VolunteerTabBucket("assigned") == Some({Assigned});
    assert VolunteerTabBucket("inProgress") == Some({InProgress, Dispatched});
    assert VolunteerTabBucket("resolved") == Some({Resolved});
    assert VolunteerTabBucket("all") == None;
    assert {InProgress, Dispatched} == {Dispatched, InProgress};
    TeamTabsCover(s, {Assigned}, {Dispatched, InProgress}, {Resolved});
  }

  /** Built from a volunteer-scoped list, every tab shows only volunteer
      reports that are open to all volunteers or assigned to this one. */
  lemma TabsShowOnlyOwnReports(s: seq<Report>, u: User, tab: string)
    requires u.role == "volunteer"
    ensures forall r :: r in TabList(RoleView(s, u), VolunteerTabBucket(tab)) ==>
      r.assignedTo == VolunteerTeam && (r.assignedUserId == AssigneeId(u.id) || r.assignedUserId == NoAssignee)
  {
    TabListSpec(RoleView(s, u), VolunteerTabBucket(tab));
  }

  /** The card's "Take Responsibility" button appears on assigned reports and
      does what the detail page's header button does for them. */
  lemma TakeResponsibilityMatchesDetailPage()
    ensures StatusFlow.HeaderAction(Volunteer, Assigned) == Some(StatusFlow.SetStatus(InProgress))
  {
  }

  class VolunteerDashboardPage {
    const store: ReportStore.Store
    var activeTab: string
    var filteredReports: seq<Report>
    var stats: VolunteerStats

    constructor (store: ReportStore.Store)
      ensures this.store == store && activeTab == "all" && filteredReports == [] && stats == ZeroStats
    {
      this.store := store;
      activeTab, filteredReports, stats := "all", [], ZeroStats;
    }

    /** The effect on `userReports` and the tab: an empty list resets the
        page, otherwise tab list and counts are recomputed. */
    method Refresh()
      modifies this`filteredReports, this`stats
      ensures |store.userReports| == 0 ==> filteredReports == [] && stats == ZeroStats
      ensures |store.userReports| > 0 ==> stats == StatsOf(store.userReports)
      ensures |store.userReports| > 0 ==> filteredReports == TabList(store.userReports, VolunteerTabBucket(activeTab))
    {
      var reports := store.userReports;
      if |reports| > 0 {
        var assignedCount := Count(reports, {Assigned});
        var activeCount := Count(reports, {InProgress, Dispatched});
        var resolvedCount := Count(reports, {Resolved});
        stats := VolunteerStats(|reports|, assignedCount, activeCount, resolvedCount);
        assert stats == StatsOf(reports);
        filteredReports := TabList(reports, VolunteerTabBucket(activeTab));
      } else {
        filteredReports := [];
        stats := ZeroStats;
      }
    }

    method SetTab(tab: string)
      modifies this`activeTab
      ensures activeTab == tab
    {
      activeTab := tab;
    }

    /** `handleTakeResponsibility`: marks the report in progress. */
    method HandleTakeResponsibility(reportId: string, now: nat) returns (r: Outcome)
      requires store.Valid()
      modifies store`db, store`reports, store`userReports
      ensures store.Valid()
      ensures r.Fail? ==> (store.db == old(store.db) && store.reports == old(store.reports)
        && store.userReports == old(store.userReports))
      ensures r.Pass? ==> (reportId in Ids(old(store.db))
        && store.db == Patch(old(store.db), reportId, StatusEdit(InProgress, now))
        && store.reports == Patch(old(store.reports), reportId, StatusEdit(InProgress, now))
        && store.userReports == Patch(old(store.userReports), reportId, StatusEdit(InProgress, now)))
    {
      r := store.UpdateReportStatus(reportId, InProgress, now);
    }
  }
}
