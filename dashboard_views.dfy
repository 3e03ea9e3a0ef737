/** What the three dashboards compute from a list of reports: the reports of
    a status bucket in list order, how many there are, the tab lists sorted
    newest first and the per-category counts. */
module DashboardViews {
  import opened Wrappers
  import opened Types
  import Ordering

  /** The reports whose status is in `bucket`, in list order. */
  function Select(s: seq<Report>, bucket: set<ReportStatus>): (r: seq<Report>)
    ensures |r| <= |s|
    ensures forall x :: x in r <==> x in s && x.status in bucket
    ensures multiset(r) <= multiset(s)
  {
    if s == [] then []
    else
      assert s == [s[0]] + s[1..];
      (if s[0].status in bucket then [s[0]] else []) + Select(s[1..], bucket)
  }

  /** `filter(...).length` for a status bucket: at most the list's length,
      and zero exactly when no report's status is in the bucket. */
  function Count(s: seq<Report>, bucket: set<ReportStatus>): (n: nat)
    ensures n <= |s|
    ensures n == 0 <==> forall x :: x in s ==> x.status !in bucket
  {
    var r := Select(s, bucket);
    assert |r| > 0 ==> r[0] in r;
    |r|
  }

  const AllStatuses: set<ReportStatus> := {Pending, Assigned, Dispatched, InProgress, Resolved}

  /** Selecting by two disjoint buckets is selecting by each and combining. */
  lemma {:induction false} SelectUnion(s: seq<Report>, a: set<ReportStatus>, b: set<ReportStatus>)
    requires a !! b
    ensures multiset(Select(s, a + b)) == multiset(Select(s, a)) + multiset(Select(s, b))
    ensures Count(s, a + b) == Count(s, a) + Count(s, b)
  {
    if s != [] {
      SelectUnion(s[1..], a, b);
    }
  }

  /** Four disjoint buckets covering every status split the list: their
      selections together hold each report exactly once. */
  lemma SelectPartition(s: seq<Report>, a: set<ReportStatus>, b: set<ReportStatus>,
                                           c: set<ReportStatus>, d: set<ReportStatus>)
    requires a !! b && a !! c && a !! d && b !! c && b !! d && c !! d
    requires a + b + c + d == AllStatuses
    ensures multiset(Select(s, a)) + multiset(Select(s, b)) + multiset(Select(s, c)) + multiset(Select(s, d))
      == multiset(s)
    ensures Count(s, a) + Count(s, b) + Count(s, c) + Count(s, d) == |s|
  {
    SelectUnion(s, a, b);
    SelectUnion(s, a + b, c);
    SelectUnion(s, a + b + c, d);
    SelectAll(s);
  }

  /** Every report is in the bucket of all statuses. */
  lemma {:induction false} SelectAll(s: seq<Report>)
    ensures Select(s, AllStatuses) == s
  {
    if s != [] {
      SelectAll(s[1..]);
      assert s[0].status in AllStatuses by {
        match s[0].status
        case Pending => case Assigned => case Dispatched => case InProgress => case Resolved =>
      }
      assert s == [s[0]] + s[1..];
    }
  }

  /** Buckets are monotone: a larger bucket never counts fewer reports. */
  lemma {:induction false} CountMonotone(s: seq<Report>, a: set<ReportStatus>, b: set<ReportStatus>)
    requires a <= b
    ensures Count(s, a) <= Count(s, b)
  {
    if s != [] {
      CountMonotone(s[1..], a, b);
    }
  }

  function CreatedAt(r: Report): int
  {
    r.createdAt
  }

  /** A tab's list: the bucket (every report for "all"), newest first. */
  function TabList(s: seq<Report>, bucket: Option<set<ReportStatus>>): (r: seq<Report>)
  {
    Ordering.SortDesc(if bucket.None? then s else Select(s, bucket.value), CreatedAt)
  }

  /** A tab holds the same reports as its bucket's selection. */
  lemma TabListSameReports(s: seq<Report>, bucket: set<ReportStatus>)
    ensures multiset(TabList(s, Some(bucket))) == multiset(Select(s, bucket))
  {
  }

  /** Three status tabs whose buckets, with the pending status, split every
      status hold, with the pending reports, every report of the "all" tab
      exactly once. */
  lemma TeamTabsCover(s: seq<Report>, a: set<ReportStatus>, b: set<ReportStatus>, c: set<ReportStatus>)
    requires Pending !in a && Pending !in b && Pending !in c && a !! b && a !! c && b !! c
    requires {Pending} + a + b + c == AllStatuses
    ensures multiset(TabList(s, Some(a))) + multiset(TabList(s, Some(b))) + multiset(TabList(s, Some(c)))
          + multiset(Select(s, {Pending})) == multiset(TabList(s, None))
  {
    TabListSameReports(s, a);
    TabListSameReports(s, b);
    TabListSameReports(s, c);
    SelectPartition(s, {Pending}, a, b, c);
  }

  /** A tab lists exactly its bucket's reports, as a permutation of the
      selection, newest first. */
  lemma TabListSpec(s: seq<Report>, bucket: Option<set<ReportStatus>>)
    ensures var r := TabList(s, bucket);
      multiset(r) == multiset(if bucket.None? then s else Select(s, bucket.value))
      && (forall x :: x in r <==> x in s && (bucket.None? || x.status in bucket.value))
      && (forall i, j :: 0 <= i < j < |r| ==> r[i].createdAt >= r[j].createdAt)
  {
    var sel := if bucket.None? then s else Select(s, bucket.value);
    Ordering.SortDescSameElements(sel, CreatedAt);
    Ordering.SortDescSorted(sel, CreatedAt);
    var r := TabList(s, bucket);
    forall i, j | 0 <= i < j < |r| ensures r[i].createdAt >= r[j].createdAt {
      assert CreatedAt(r[i]) >= CreatedAt(r[j]);
    }
  }

  /** How many reports fall in category `t`. */
  function TypeCount(s: seq<Report>, t: DisasterType): (n: nat)
    ensures n <= |s|
  {
    if s == [] then 0 else (if s[0].disasterType == t then 1 else 0) + TypeCount(s[1..], t)
  }

  /** The categories of `s`, each once, in order of first appearance. */
  function FirstAppearance(s: seq<Report>): (ts: seq<DisasterType>)
    ensures forall t :: t in ts <==> exists i :: 0 <= i < |s| && s[i].disasterType == t
    ensures forall i, j :: 0 <= i < j < |ts| ==> ts[i] != ts[j]
  {
    if s == [] then []
    else
      var prior := FirstAppearance(s[..|s| - 1]);
      assert forall i :: 0 <= i < |s| - 1 ==> s[..|s| - 1][i] == s[i];
      if s[|s| - 1].disasterType in prior then prior else prior + [s[|s| - 1].disasterType]
  }

  /** Counting one more report adds one to its own category only. */
  lemma {:induction false} TypeCountSnoc(s: seq<Report>, x: Report, t: DisasterType)
    ensures TypeCount(s + [x], t) == TypeCount(s, t) + (if x.disasterType == t then 1 else 0)
  {
    if s != [] {
      assert (s + [x])[1..] == s[1..] + [x];
      TypeCountSnoc(s[1..], x, t);
    } else {
      assert [x][1..] == [];
    }
  }

  /** A category that does not occur counts zero. */
  lemma {:induction false} TypeCountAbsent(s: seq<Report>, t: DisasterType)
    requires forall i :: 0 <= i < |s| ==> s[i].disasterType != t
    ensures TypeCount(s, t) == 0
  {
    if s != [] {
      TypeCountAbsent(s[1..], t);
    }
  }

  /** A pie-chart entry: a category and its count. */
  datatype TypeSlice = TypeSlice(name: DisasterType, value: nat)

  function SumValues(slices: seq<TypeSlice>): nat
  {
    if slices == [] then 0 else slices[0].value + SumValues(slices[1..])
  }
}
