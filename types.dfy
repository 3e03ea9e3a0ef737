/** The records and closed enumerations of the disaster-management system:
    disaster categories, the report lifecycle states, assignment targets,
    user roles, users, disaster reports and response notes. Timestamps are
    natural numbers read from a clock the caller supplies. */
module Types {
  import opened Wrappers

  /** Disaster categories; the schema has ten of them. */
  datatype DisasterType =
    | Flood | Fire | Earthquake | Hurricane | Tsunami | Landslide
    | Chemical | Biological | Nuclear | Other

  /** The five lifecycle states of a report. */
  datatype ReportStatus = Pending | Assigned | Dispatched | InProgress | Resolved

  /** Who owns a report: nobody, the volunteer pool, or the NDRF unit. */
  datatype AssignedTo = Unassigned | VolunteerTeam | NdrfTeam

  /** The three roles a profile can hold. */
  datatype Role = Admin | Volunteer | Ndrf

  /** The optional `assignedUserId` field as it is held: a field that is not
      there (`undefined`), a field holding `null`, or a user id. The store
      distinguishes the first two and so does the client's visibility test. */
  datatype Assignee = NoAssignee | NullAssignee | AssigneeId(uid: string)

  /** A user profile. The role is kept as the stored string: profiles are read
      from the document store without checking it, and every consumer of the
      role has a branch for an unrecognised value. */
  datatype User = User(id: string, name: string, email: string, role: string)

  /** A disaster report; `assignedUserId` and `responseImages` are optional. */
  datatype Report = Report(
    id: string,
    disasterType: DisasterType,
    location: string,
    description: string,
    imageUrls: seq<string>,
    status: ReportStatus,
    assignedTo: AssignedTo,
    assignedUserId: Assignee,
    createdAt: nat,
    updatedAt: nat,
    responseImages: Option<seq<string>>)

  /** A note attached to a report, with its author denormalised. */
  datatype ResponseNote = ResponseNote(
    id: string,
    reportId: string,
    userId: string,
    userName: string,
    text: string,
    timestamp: nat)

  /** An image file chosen by a user; only its name matters to the model. */
  datatype ImageFile = ImageFile(name: string)

  /** The lifecycle in its single linear order. */
  const Lifecycle: seq<ReportStatus> := [Pending, Assigned, Dispatched, InProgress, Resolved]

  /** The position of a status in the lifecycle. */
  function Rank(s: ReportStatus): (k: nat)
    ensures k < |Lifecycle| && Lifecycle[k] == s
  {
    match s
    case Pending => 0
    case Assigned => 1
    case Dispatched => 2
    case InProgress => 3
    case Resolved => 4
  }

  /** Every status occurs in the lifecycle exactly once. */
  lemma LifecycleIsExactlyTheStatuses()
    ensures |Lifecycle| == 5
    ensures forall s: ReportStatus :: s in Lifecycle
    ensures forall i, j :: 0 <= i < j < |Lifecycle| ==> Lifecycle[i] != Lifecycle[j]
  {
    forall s: ReportStatus ensures s in Lifecycle {
      assert Lifecycle[Rank(s)] == s;
    }
  }

  /** The wire names of the statuses. */
  function StatusName(s: ReportStatus): string
  {
    match s
    case Pending => "pending"
    case Assigned => "assigned"
    case Dispatched => "dispatched"
    case InProgress => "in-progress"
    case Resolved => "resolved"
  }

  /** Reads a wire name back; any other string is no status. */
  function ParseStatus(name: string): (r: Option<ReportStatus>)
    ensures r.Some? ==> StatusName(r.value) == name
    ensures r.None? ==> forall s :: StatusName(s) != name
  {
    if name == "pending" then Some(Pending)
    else if name == "assigned" then Some(Assigned)
    else if name == "dispatched" then Some(Dispatched)
    else if name == "in-progress" then Some(InProgress)
    else if name == "resolved" then Some(Resolved)
    else None
  }

  /** Status names are distinct, so a status survives the round trip. */
  lemma StatusNameRoundTrip(s: ReportStatus)
    ensures ParseStatus(StatusName(s)) == Some(s)
  {
  }

  function RoleName(r: Role): string
  {
    match r
    case Admin => "admin"
    case Volunteer => "volunteer"
    case Ndrf => "ndrf"
  }

  /** Recognises a stored role string; there are exactly three. */
  function ParseRole(name: string): (r: Option<Role>)
    ensures r.Some? ==> RoleName(r.value) == name
    ensures r.None? ==> forall role :: RoleName(role) != name
  {
    if name == "admin" then Some(Admin)
    else if name == "volunteer" then Some(Volunteer)
    else if name == "ndrf" then Some(Ndrf)
    else None
  }

  lemma RoleNameRoundTrip(r: Role)
    ensures ParseRole(RoleName(r)) == Some(r)
  {
  }

  function AssignedToName(a: AssignedTo): string
  {
    match a
    case Unassigned => "unassigned"
    case VolunteerTeam => "volunteer"
    case NdrfTeam => "ndrf"
  }

  /** The ten disaster categories. */
  const AllDisasterTypes: seq<DisasterType> :=
    [Flood, Fire, Earthquake, Hurricane, Tsunami, Landslide, Chemical, Biological, Nuclear, Other]

  lemma DisasterTypesAreTen()
    ensures |AllDisasterTypes| == 10
    ensures forall t: DisasterType :: t in AllDisasterTypes
    ensures forall i, j :: 0 <= i < j < |AllDisasterTypes| ==> AllDisasterTypes[i] != AllDisasterTypes[j]
  {
    forall t: DisasterType ensures t in AllDisasterTypes {
      match t
      case Flood => assert AllDisasterTypes[0] == t;
      case Fire => assert AllDisasterTypes[1] == t;
      case Earthquake => assert AllDisasterTypes[2] == t;
      case Hurricane => assert AllDisasterTypes[3] == t;
      case Tsunami => assert AllDisasterTypes[4] == t;
      case Landslide => assert AllDisasterTypes[5] == t;
      case Chemical => assert AllDisasterTypes[6] == t;
      case Biological => assert AllDisasterTypes[7] == t;
      case Nuclear => assert AllDisasterTypes[8] == t;
      case Other => assert AllDisasterTypes[9] == t;
    }
  }
}
