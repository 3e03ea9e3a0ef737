/** The status progress bar: a percentage and a colour class for a status
    name. The component takes any string; names outside the lifecycle get
    an empty grey bar. */
module StatusProgress {
  import opened Wrappers
  import opened Types

  /** `getProgress`: the bar's fill, in percent. */
  function Progress(status: string): (p: nat)
    ensures p <= 100
    ensures p == 0 <==> ParseStatus(status).None?
    ensures ParseStatus(status).Some? ==> p == 20 * (Rank(ParseStatus(status).value) + 1)
  {
    match status
    case "pending" => 20
    case "assigned" => 40
    case "dispatched" => 60
    case "in-progress" => 80
    case "resolved" => 100
    case _ => 0
  }

  /** `getProgressColor`: the bar's colour class. */
  function ProgressColor(status: string): (c: string)
    ensures ParseStatus(status).None? ==> c == "bg-gray-300"
  {
    if status == "pending" then "bg-status-pending"
    else if status == "assigned" || status == "dispatched" then "bg-status-in-progress"
    else if status == "in-progress" then "bg-blue-600"
    else if status == "resolved" then "bg-status-completed"
    else "bg-gray-300"
  }

  /** Every lifecycle status fills one fifth more than the one before it,
      so progress strictly follows the lifecycle order. */
  lemma ProgressFollowsLifecycle(a: ReportStatus, b: ReportStatus)
    ensures Progress(StatusName(a)) == 20 * (Rank(a) + 1)
    ensures Rank(a) < Rank(b) <==> Progress(StatusName(a)) < Progress(StatusName(b))
  {
    StatusNameRoundTrip(a);
    StatusNameRoundTrip(b);
  }

  /** Only a resolved report shows a full bar, and only a name outside the
      lifecycle shows an empty one. */
  lemma FullOnlyWhenResolved(status: string)
    ensures Progress(status) == 100 <==> status == StatusName(Resolved)
    ensures Progress(status) == 0 <==> forall s :: StatusName(s) != status
  {
  }

  /** Assigned and dispatched share a colour; every other lifecycle status
      has a colour of its own and none of them is the grey of an unknown name. */
  lemma ColorsByStatus(a: ReportStatus, b: ReportStatus)
    ensures ProgressColor(StatusName(a)) != "bg-gray-300"
    ensures ProgressColor(StatusName(a)) == ProgressColor(StatusName(b))
      <==> a == b || ({a, b} == {Assigned, Dispatched})
  {
  }
}
