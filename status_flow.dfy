/** The status lifecycle as each role's report page presents it: the options
    of the status selector, the single header button, the timeline steps
    shown as completed, and the status an assignment leaves behind. */
module StatusFlow {
  import opened Wrappers
  import opened Types

  /** The statuses the detail page's selector lists, in display order. */
  function StatusOptions(role: Role): (opts: seq<ReportStatus>)
    ensures role == Admin ==> opts == Lifecycle
    ensures forall i, j :: 0 <= i < j < |opts| ==> Rank(opts[i]) < Rank(opts[j])
  {
    match role
    case Admin => Lifecycle
    case Ndrf => [Assigned, Dispatched, InProgress, Resolved]
    case Volunteer => [Assigned, InProgress, Resolved]
  }

  /** The NDRF selector offers every status but pending, the volunteer
      selector every status but pending and dispatched. */
  lemma OptionsByRole(role: Role, s: ReportStatus)
    ensures s in StatusOptions(role) <==>
      role == Admin || (s != Pending && (role == Ndrf || s != Dispatched))
  {
    var opts := StatusOptions(role);
    match role
    case Admin =>
    case Ndrf =>
      if s == Pending {
        assert forall i :: 0 <= i < |opts| ==> opts[i] != Pending;
      }
    case Volunteer =>
      if s == Pending || s == Dispatched {
        assert forall i :: 0 <= i < |opts| ==> opts[i] != s;
      }
  }

  /** Whether the selector can be used: the volunteer page locks it while
      the report is pending. */
  predicate SelectorEnabled(role: Role, s: ReportStatus)
    ensures role != Volunteer ==> SelectorEnabled(role, s)
    ensures !SelectorEnabled(role, s) ==> s !in StatusOptions(role)
  {
    OptionsByRole(role, s);
    !(role == Volunteer && s == Pending)
  }

  /** What the page header offers for a report in status `s`. */
  datatype PageAction = SetStatus(to: ReportStatus) | DownloadReport

  function HeaderAction(role: Role, s: ReportStatus): (a: Option<PageAction>)
    ensures a.Some? ==> role != Admin && s != Pending
    ensures a.Some? && a.value.SetStatus? ==> Rank(s) < Rank(a.value.to)
  {
    match role
    case Admin => None
    case Ndrf =>
      (match s
       case Assigned => Some(SetStatus(Dispatched))
       case Dispatched => Some(SetStatus(InProgress))
       case InProgress => Some(SetStatus(Resolved))
       case Resolved => Some(DownloadReport)
       case Pending => None)
    case Volunteer =>
      (match s
       case Assigned => Some(SetStatus(InProgress))
       case InProgress => Some(SetStatus(Resolved))
       case _ => None)
  }

  /** A header button only ever moves a report forward, to a status its own
      selector also offers; the NDRF buttons move exactly one step. */
  lemma HeaderActionAdvances(role: Role, s: ReportStatus)
    ensures HeaderAction(role, s).Some? ==> role != Admin && s != Pending
    ensures HeaderAction(role, s) == Some(DownloadReport) <==> role == Ndrf && s == Resolved
    ensures match HeaderAction(role, s)
      case Some(SetStatus(t)) =>
        Rank(s) < Rank(t) && t in StatusOptions(role) && (role == Ndrf ==> Rank(t) == Rank(s) + 1)
      case _ => true
  {
  }

  /** The status reached by pressing the header's status button up to
      `presses` times. */
  function FollowButtons(role: Role, s: ReportStatus, presses: nat): (r: ReportStatus)
    ensures r != s ==> presses > 0 && HeaderAction(role, s).Some? && HeaderAction(role, s).value.SetStatus?
    decreases presses
  {
    if presses == 0 then s
    else match HeaderAction(role, s)
      case Some(SetStatus(t)) => FollowButtons(role, t, presses - 1)
      case _ => s
  }

  /** Pressing buttons never moves a report backwards. */
  lemma {:induction false} FollowButtonsForward(role: Role, s: ReportStatus, presses: nat)
    ensures Rank(s) <= Rank(FollowButtons(role, s, presses))
    decreases presses
  {
    if presses > 0 {
      HeaderActionAdvances(role, s);
      match HeaderAction(role, s)
      case Some(SetStatus(t)) => FollowButtonsForward(role, t, presses - 1);
      case _ =>
    }
  }

  /** From any assigned, non-pending status the buttons alone take an NDRF
      report to resolved within three presses; a volunteer report gets there
      too, except from dispatched, where the volunteer page shows no button. */
  lemma ButtonsReachResolved(role: Role, s: ReportStatus)
    requires role != Admin && s != Pending
    ensures role == Ndrf ==> FollowButtons(role, s, 3) == Resolved
    ensures role == Volunteer && s != Dispatched ==> FollowButtons(role, s, 2) == Resolved
    ensures role == Volunteer && s == Dispatched ==> forall n: nat :: FollowButtons(role, s, n) == Dispatched
  {
  }

  /** The timeline steps each page marks as completed, top to bottom. */
  function Timeline(role: Role, s: ReportStatus): (steps: seq<bool>)
    ensures |steps| == if role == Ndrf then 5 else 4
  {
    match role
    case Admin =>
      [s != Pending, s != Pending, s == Dispatched || s == InProgress || s == Resolved, s == Resolved]
    case Ndrf =>
      [true, s != Pending, s == Dispatched || s == InProgress || s == Resolved,
       s == InProgress || s == Resolved, s == Resolved]
    case Volunteer =>
      [true, s != Pending, s == InProgress || s == Resolved, s == Resolved]
  }

  /** The rank a report must have reached for each timeline step to show as
      completed. */
  function StepThresholds(role: Role): (ranks: seq<nat>)
    ensures forall i, j :: 0 <= i < j < |ranks| ==> ranks[i] <= ranks[j]
  {
    match role
    case Admin => [1, 1, 2, 4]
    case Ndrf => [0, 1, 2, 3, 4]
    case Volunteer => [0, 1, 3, 4]
  }

  /** Each step shows as completed exactly when the report has reached that
      step's rank; on the NDRF page step i stands for the i-th lifecycle
      status. */
  lemma TimelineThresholds(role: Role, s: ReportStatus)
    ensures |Timeline(role, s)| == |StepThresholds(role)|
    ensures forall i :: 0 <= i < |Timeline(role, s)| ==>
      (Timeline(role, s)[i] <==> StepThresholds(role)[i] <= Rank(s))
    ensures role == Ndrf ==> StepThresholds(role) == seq(5, i => i)
  {
  }

  /** Completed steps always form a prefix of the timeline, a resolved
      report completes all of it, and a pending one completes at most the
      first step. */
  lemma TimelineIsPrefix(role: Role, s: ReportStatus)
    ensures var t := Timeline(role, s);
      (forall i, j :: 0 <= i < j < |t| && t[j] ==> t[i])
      && (s == Resolved <==> forall i :: 0 <= i < |t| ==> t[i])
      && (s == Pending ==> forall i :: 1 <= i < |t| ==> !t[i])
  {
    TimelineThresholds(role, s);
    var t := Timeline(role, s);
    if s != Resolved {
      assert !t[|t| - 1];
    }
  }

  /** A report further along the lifecycle shows every step completed that
      an earlier one shows, and the volunteer page shows a dispatched report
      exactly as an assigned one. */
  lemma TimelineMonotone(role: Role, a: ReportStatus, b: ReportStatus)
    requires Rank(a) <= Rank(b)
    ensures forall i :: 0 <= i < |Timeline(role, a)| && Timeline(role, a)[i] ==> Timeline(role, b)[i]
    ensures Timeline(Volunteer, Dispatched) == Timeline(Volunteer, Assigned)
  {
    TimelineThresholds(role, a);
    TimelineThresholds(role, b);
  }

  /** The status after assigning from the detail page: a pending report
      becomes assigned whatever the target, others keep their status. */
  function DetailAssignStatus(prior: ReportStatus): (s: ReportStatus)
    ensures Rank(prior) <= Rank(s)
    ensures s == prior || (prior == Pending && s == Assigned)
  {
    if prior == Pending then Assigned else prior
  }

  /** The status after assigning from the dashboard: any team target sets
      the report to assigned, unassigning keeps the status. */
  function DashboardAssignStatus(prior: ReportStatus, target: AssignedTo): (s: ReportStatus)
    ensures target == Unassigned ==> s == prior
    ensures target != Unassigned ==> s == Assigned
  {
    if target != Unassigned then Assigned else prior
  }

  /** The dashboard offers assignment only on pending reports and only to a
      team; there the two rules agree. */
  lemma AssignRulesAgree(prior: ReportStatus, target: AssignedTo)
    requires prior == Pending && target != Unassigned
    ensures DashboardAssignStatus(prior, target) == DetailAssignStatus(prior) == Assigned
  {
  }

  /** Choosing "unassigned" on the detail page for a pending report still
      marks it assigned while its target becomes unassigned. */
  lemma DetailUnassignOfPending()
    ensures DetailAssignStatus(Pending) == Assigned
    ensures DashboardAssignStatus(Pending, Unassigned) == Pending
  {
  }
}
