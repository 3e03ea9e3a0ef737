/** The value-level rules of the report store: which reports a profile sees,
    how a report document becomes a local record, how updates by id patch a
    list of reports, and how notes are selected and ordered. */
module ReportLogic {
  import opened Wrappers
  import opened Types
  import Ordering

  // ---------------------------------------------------------------------
  // Lookup by id

  /** The ids held by a list of reports. */
  function Ids(s: seq<Report>): set<string>
  {
    set r | r in s :: r.id
  }

  /** No two documents share an id. */
  ghost predicate DistinctIds(s: seq<Report>)
  {
    forall i, j :: 0 <= i < j < |s| ==> s[i].id != s[j].id
  }

  /** The first report with the given id. */
  function Find(s: seq<Report>, id: string): (r: Option<Report>)
    ensures r.Some? <==> id in Ids(s)
    ensures r.Some? ==> r.value in s && r.value.id == id
  {
    if s == [] then None
    else if s[0].id == id then Some(s[0])
    else
      assert forall x :: x in s[1..] ==> x in s;
      assert s == [s[0]] + s[1..];
      Find(s[1..], id)
  }

  /** A document written under a fresh id is found again under that id. */
  lemma {:induction false} FindAppended(s: seq<Report>, rec: Report)
    requires rec.id !in Ids(s)
    ensures Find(s + [rec], rec.id) == Some(rec)
  {
    if s == [] {
    } else {
      assert (s + [rec])[1..] == s[1..] + [rec];
      assert s[0].id != rec.id;
      assert Ids(s[1..]) <= Ids(s);
      FindAppended(s[1..], rec);
    }
  }

  // ---------------------------------------------------------------------
  // Records

  /** A document read from the store as a local record: a missing
      `responseImages` field reads as the empty list. */
  function Materialize(doc: Report): (r: Report)
    ensures r.responseImages == Some(doc.responseImages.GetOr([]))
    ensures r.(responseImages := doc.responseImages) == doc
  {
    doc.(responseImages := Some(doc.responseImages.GetOr([])))
  }

  /** The reports as `fetchReports` and `fetchReportDetails` build them from
      the documents, one record per document, in query order. */
  function Snapshot(docs: seq<Report>): (r: seq<Report>)
    ensures |r| == |docs|
    ensures forall i :: 0 <= i < |docs| ==> r[i] == Materialize(docs[i])
  {
    seq(|docs|, i requires 0 <= i < |docs| => Materialize(docs[i]))
  }

  /** What `createReport` writes and appends: a new report that is pending,
      unassigned, created and updated at the same instant, with no assignee
      and no response images. */
  function NewReport(id: string, disasterType: DisasterType, location: string,
                     description: string, imageUrls: seq<string>, now: nat): (r: Report)
    ensures r.status == Pending && r.createdAt == r.updatedAt == now
    ensures Materialize(r).responseImages == Some([])
    ensures forall u: User :: VisibleTo(u, r) <==> u.role == "admin"
  {
    Report(id, disasterType, location, description, imageUrls,
           Pending, Unassigned, NoAssignee, now, now, None)
  }

  /** A report written by `createReport` and read back by id is pending,
      unassigned, carries the uploaded image URLs in order, and has an empty
      response-image list. */
  lemma CreateThenReadBack(db: seq<Report>, id: string, disasterType: DisasterType,
                           location: string, description: string, urls: seq<string>, now: nat)
    requires id !in Ids(db)
    ensures var found := Find(db + [NewReport(id, disasterType, location, description, urls, now)], id);
      found.Some?
      && var r := Materialize(found.value);
      r.id == id && r.status == Pending && r.assignedTo == Unassigned && r.assignedUserId == NoAssignee
      && r.disasterType == disasterType && r.location == location && r.description == description
      && r.imageUrls == urls && r.createdAt == r.updatedAt == now && r.responseImages == Some([])
  {
    FindAppended(db, NewReport(id, disasterType, location, description, urls, now));
  }

  // ---------------------------------------------------------------------
  // Updates by id

  /** The field updates the store applies to one report. */
  datatype Edit =
      /** `updateReportStatus`, remotely and locally. */
    | StatusEdit(status: ReportStatus, now: nat)
      /** `assignReport` as written to the document store: unassigning
          without an id stores null. */
    | RemoteAssignEdit(target: AssignedTo, userId: Option<string>, now: nat)
      /** The store write `assignReport` was meant to make: unassigning
          without an id removes the field. */
    | IntendedAssignEdit(target: AssignedTo, userId: Option<string>, now: nat)
      /** `assignReport` as applied to the local lists. */
    | LocalAssignEdit(target: AssignedTo, userId: Option<string>, now: nat)
      /** `addResponseImage` as written to the document store: the list read
          from the document with the new URL after it. */
    | ImagesEdit(images: seq<string>, now: nat)
      /** `addResponseImage` as applied to the local lists. */
    | AppendImageEdit(url: string, now: nat)

  /** `if (userId)`: an id is given and is not the empty string. */
  predicate Truthy(userId: Option<string>)
  {
    userId.Some? && userId.value != ""
  }

  /** The `assignedUserId` written by `assignReport`: the given id, else
      `null` when unassigning, else the field is left as it was. */
  function RemoteAssignee(prior: Assignee, target: AssignedTo, userId: Option<string>): (a: Assignee)
    ensures Truthy(userId) ==> a == AssigneeId(userId.value)
    ensures !Truthy(userId) && target == Unassigned ==> a == NullAssignee
    ensures !Truthy(userId) && target != Unassigned ==> a == prior
  {
    if Truthy(userId) then AssigneeId(userId.value)
    else if target == Unassigned then NullAssignee
    else prior
  }

  /** The assignee the remote write was meant to leave: as `RemoteAssignee`,
      except that unassigning without an id removes the field instead of
      storing null. */
  function RemoteAssigneeIntended(prior: Assignee, target: AssignedTo, userId: Option<string>): (a: Assignee)
    ensures Truthy(userId) ==> a == AssigneeId(userId.value)
    ensures !Truthy(userId) && target == Unassigned ==> a == NoAssignee
    ensures !Truthy(userId) && target != Unassigned ==> a == prior
    ensures a != NullAssignee || prior == NullAssignee
  {
    if Truthy(userId) then AssigneeId(userId.value)
    else if target == Unassigned then NoAssignee
    else prior
  }

  /** The `assignedUserId` the local patch sets: the argument as given,
      absent when none was given (even an empty string is kept). */
  function LocalAssignee(userId: Option<string>): (a: Assignee)
    ensures userId.None? <==> a == NoAssignee
    ensures userId.Some? ==> a == AssigneeId(userId.value)
  {
    match userId
    case None => NoAssignee
    case Some(u) => AssigneeId(u)
  }

  function EditTime(e: Edit): nat
  {
    e.now
  }

  /** One edit applied to one report. A status edit touches only the status;
      an assignment touches only the team and the assignee; an image edit
      touches only the response images. */
  function Apply(e: Edit, r: Report): (r': Report)
    ensures r'.(status := r.status, assignedTo := r.assignedTo, assignedUserId := r.assignedUserId,
                responseImages := r.responseImages, updatedAt := r.updatedAt) == r
    ensures r'.updatedAt == EditTime(e)
    ensures e.StatusEdit? ==> r'.status == e.status && r'.(status := r.status, updatedAt := r.updatedAt) == r
    ensures e.RemoteAssignEdit? || e.IntendedAssignEdit? || e.LocalAssignEdit? ==>
      r'.assignedTo == e.target
      && r'.(assignedTo := r.assignedTo, assignedUserId := r.assignedUserId, updatedAt := r.updatedAt) == r
    ensures e.ImagesEdit? || e.AppendImageEdit? ==>
      r'.responseImages.Some? && r'.(responseImages := r.responseImages, updatedAt := r.updatedAt) == r
  {
    match e
    case StatusEdit(s, now) => r.(status := s, updatedAt := now)
    case RemoteAssignEdit(t, u, now) =>
      r.(assignedTo := t, assignedUserId := RemoteAssignee(r.assignedUserId, t, u), updatedAt := now)
    case IntendedAssignEdit(t, u, now) =>
      r.(assignedTo := t, assignedUserId := RemoteAssigneeIntended(r.assignedUserId, t, u), updatedAt := now)
    case LocalAssignEdit(t, u, now) =>
      r.(assignedTo := t, assignedUserId := LocalAssignee(u), updatedAt := now)
    case ImagesEdit(images, now) => r.(responseImages := Some(images), updatedAt := now)
    case AppendImageEdit(url, now) =>
      r.(responseImages := Some(r.responseImages.GetOr([]) + [url]), updatedAt := now)
  }

  /** No update touches a report's identity, its category, location,
      description, submitted images or creation time; every update stamps
      `updatedAt`, so with a clock that has not gone back past the creation
      time the report stays updated no earlier than it was created. */
  lemma EditKeepsSubmission(e: Edit, r: Report)
    ensures var r' := Apply(e, r);
      r'.id == r.id && r'.disasterType == r.disasterType && r'.location == r.location
      && r'.description == r.description && r'.imageUrls == r.imageUrls
      && r'.createdAt == r.createdAt && r'.updatedAt == EditTime(e)
    ensures EditTime(e) >= r.createdAt ==> Apply(e, r).updatedAt >= Apply(e, r).createdAt
  {
  }

  /** A status update changes the status and the update time and nothing else;
      applying the same status twice yields what the second update alone
      yields. */
  lemma StatusEditOnlyStatus(s: ReportStatus, now: nat, later: nat, r: Report)
    ensures Apply(StatusEdit(s, now), r).status == s
    ensures Apply(StatusEdit(s, now), r).(status := r.status, updatedAt := r.updatedAt) == r
    ensures Apply(StatusEdit(s, later), Apply(StatusEdit(s, now), r)) == Apply(StatusEdit(s, later), r)
  {
  }

  /** Assignment, remote, intended or local, sets the team and never changes
      the status. */
  lemma AssignKeepsStatus(t: AssignedTo, userId: Option<string>, now: nat, r: Report)
    ensures Apply(RemoteAssignEdit(t, userId, now), r).status == r.status
    ensures Apply(IntendedAssignEdit(t, userId, now), r).status == r.status
    ensures Apply(LocalAssignEdit(t, userId, now), r).status == r.status
    ensures Apply(RemoteAssignEdit(t, userId, now), r).assignedTo == t
    ensures Apply(IntendedAssignEdit(t, userId, now), r).assignedTo == t
    ensures Apply(LocalAssignEdit(t, userId, now), r).assignedTo == t
  {
  }

  /** Response images only grow: adding an image keeps the earlier ones in
      place and puts exactly one new URL last. */
  lemma AppendImageKeepsEarlier(url: string, now: nat, r: Report)
    ensures var imgs := Apply(AppendImageEdit(url, now), r).responseImages;
      imgs.Some? && |imgs.value| == |r.responseImages.GetOr([])| + 1
      && imgs.value[..|imgs.value| - 1] == r.responseImages.GetOr([])
      && imgs.value[|imgs.value| - 1] == url
  {
    var prior := r.responseImages.GetOr([]);
    assert (prior + [url])[..|prior|] == prior;
  }

  /** The list with every report whose id is `id` updated by `e`. */
  function Patch(s: seq<Report>, id: string, e: Edit): (r: seq<Report>)
    ensures |r| == |s|
    ensures forall i :: 0 <= i < |s| ==> r[i] == if s[i].id == id then Apply(e, s[i]) else s[i]
  {
    seq(|s|, i requires 0 <= i < |s| => if s[i].id == id then Apply(e, s[i]) else s[i])
  }

  /** Patching keeps every id in its position. */
  lemma PatchKeepsIds(s: seq<Report>, id: string, e: Edit)
    ensures forall i :: 0 <= i < |s| ==> Patch(s, id, e)[i].id == s[i].id
    ensures Ids(Patch(s, id, e)) == Ids(s)
    ensures DistinctIds(s) ==> DistinctIds(Patch(s, id, e))
  {
    var p := Patch(s, id, e);
    forall i | 0 <= i < |s| ensures p[i].id == s[i].id {
      EditKeepsSubmission(e, s[i]);
    }
    forall k ensures k in Ids(p) <==> k in Ids(s) {
      if k in Ids(p) {
        var i :| 0 <= i < |p| && p[i].id == k;
        assert s[i] in s;
      }
      if k in Ids(s) {
        var i :| 0 <= i < |s| && s[i].id == k;
        assert p[i] in p;
      }
    }
  }

  /** After a patch by id, looking the id up finds the patched report. */
  lemma {:induction false} FindAfterPatch(s: seq<Report>, id: string, e: Edit)
    ensures Find(Patch(s, id, e), id) ==
      (if id in Ids(s) then Some(Apply(e, Find(s, id).value)) else None)
  {
    PatchKeepsIds(s, id, e);
    if s != [] && s[0].id != id {
      var p := Patch(s, id, e);
      assert p[1..] == Patch(s[1..], id, e);
      FindAfterPatch(s[1..], id, e);
      assert Find(s, id) == Find(s[1..], id);
      assert Find(p, id) == Find(p[1..], id);
    }
  }

  // ---------------------------------------------------------------------
  // Visibility by role

  /** Whether the role-scoped view of profile `u` includes report `r`. Only
      administrators see unassigned reports, an unrecognised role sees
      nothing, and a stored null assignee hides a report from every
      volunteer. */
  predicate VisibleTo(u: User, r: Report)
    ensures VisibleTo(u, r) && u.role != "admin" ==> r.assignedTo != Unassigned
    ensures ParseRole(u.role).None? ==> !VisibleTo(u, r)
    ensures u.role == "volunteer" && r.assignedUserId == NullAssignee ==> !VisibleTo(u, r)
  {
    if u.role == "admin" then true
    else if u.role == "volunteer" then
      r.assignedTo == VolunteerTeam && (r.assignedUserId == AssigneeId(u.id) || r.assignedUserId == NoAssignee)
    else if u.role == "ndrf" then r.assignedTo == NdrfTeam
    else false
  }

  function KeepVisible(s: seq<Report>, u: User): (v: seq<Report>)
    ensures |v| <= |s|
    ensures multiset(v) <= multiset(s)
    ensures forall r :: r in v <==> r in s && VisibleTo(u, r)
  {
    if s == [] then []
    else
      assert s == [s[0]] + s[1..];
      (if VisibleTo(u, s[0]) then [s[0]] else []) + KeepVisible(s[1..], u)
  }

  /** `userReports` for profile `u`: every report for an administrator; for a
      volunteer, those assigned to the volunteer pool whose assignee is the
      caller or absent; for an NDRF member, those assigned to NDRF whatever
      the assignee; nothing for any other role. */
  function RoleView(s: seq<Report>, u: User): (v: seq<Report>)
    ensures u.role == "admin" ==> v == s
    ensures u.role == "volunteer" ==> forall r :: r in v <==>
      r in s && r.assignedTo == VolunteerTeam
      && (r.assignedUserId == AssigneeId(u.id) || r.assignedUserId == NoAssignee)
    ensures u.role == "ndrf" ==> forall r :: r in v <==> r in s && r.assignedTo == NdrfTeam
    ensures ParseRole(u.role).None? ==> v == []
    ensures multiset(v) <= multiset(s)
  {
    if u.role == "admin" then s
    else if u.role == "volunteer" || u.role == "ndrf" then KeepVisible(s, u)
    else []
  }

  /** No report leaks across roles: a volunteer's view holds only reports
      assigned to the volunteer pool and an NDRF view only reports assigned
      to NDRF. */
  lemma {:induction false} NoCrossRoleLeak(s: seq<Report>, u: User)
    ensures u.role == "volunteer" ==> forall r :: r in RoleView(s, u) ==> r.assignedTo == VolunteerTeam
    ensures u.role == "ndrf" ==> forall r :: r in RoleView(s, u) ==> r.assignedTo == NdrfTeam
    ensures u.role != "admin" ==> forall r :: r in RoleView(s, u) ==> r.assignedTo != Unassigned
  {
  }

  // ---------------------------------------------------------------------
  // Notes

  function NoteTime(n: ResponseNote): int
  {
    n.timestamp
  }

  /** The notes of one report, in collection order. */
  function NotesOf(notes: seq<ResponseNote>, reportId: string): (r: seq<ResponseNote>)
    ensures forall n :: n in r <==> n in notes && n.reportId == reportId
  {
    if notes == [] then []
    else
      assert notes == [notes[0]] + notes[1..];
      (if notes[0].reportId == reportId then [notes[0]] else []) + NotesOf(notes[1..], reportId)
  }

  /** Selecting notes distributes over concatenation. */
  lemma {:induction false} NotesOfAppend(a: seq<ResponseNote>, b: seq<ResponseNote>, reportId: string)
    ensures NotesOf(a + b, reportId) == NotesOf(a, reportId) + NotesOf(b, reportId)
  {
    if a != [] {
      assert (a + b)[0] == a[0];
      assert (a + b)[1..] == a[1..] + b;
      NotesOfAppend(a[1..], b, reportId);
    } else {
      assert a + b == b;
    }
  }

  /** `reportNotes` after `fetchReportNotes(reportId)`: that report's notes,
      latest first. */
  function NewestNotes(notes: seq<ResponseNote>, reportId: string): (r: seq<ResponseNote>)
    ensures multiset(r) == multiset(NotesOf(notes, reportId))
  {
    Ordering.SortDesc(NotesOf(notes, reportId), NoteTime)
  }

  /** The fetched notes are exactly the report's notes, ordered by
      non-increasing timestamp. */
  lemma NewestNotesSpec(notes: seq<ResponseNote>, reportId: string)
    ensures var r := NewestNotes(notes, reportId);
      (forall n :: n in r <==> n in notes && n.reportId == reportId)
      && (forall i, j :: 0 <= i < j < |r| ==> r[i].timestamp >= r[j].timestamp)
  {
    var sel := NotesOf(notes, reportId);
    Ordering.SortDescSameElements(sel, NoteTime);
    Ordering.SortDescSorted(sel, NoteTime);
    var r := NewestNotes(notes, reportId);
    forall i, j | 0 <= i < j < |r| ensures r[i].timestamp >= r[j].timestamp {
      assert NoteTime(r[i]) >= NoteTime(r[j]);
    }
  }

  // ---------------------------------------------------------------------
  // Unassigning writes null

  /** As written, an admin who unassigns a report (no user id) and later hands
      it to the volunteer team (the admin pages never pass an id) leaves a
      stored null assignee, and the re-fetched report is then visible to no
      volunteer at all, because the volunteer filter admits only a matching id
      or an absent field. */
  lemma {:induction false} AsWrittenReassignHidesReport(r: Report, u: User, t1: nat, t2: nat)
    requires u.role == "volunteer"
    ensures var r' := Apply(RemoteAssignEdit(VolunteerTeam, None, t2), Apply(RemoteAssignEdit(Unassigned, None, t1), r));
      r'.assignedTo == VolunteerTeam && r'.assignedUserId == NullAssignee && !VisibleTo(u, Materialize(r'))
  {
    var r1 := Apply(RemoteAssignEdit(Unassigned, None, t1), r);
    assert r1.assignedUserId == NullAssignee;
  }

  /** The same sequence on the document store: after the two writes by id,
      the report found under that id belongs to the volunteer team and is
      hidden from every volunteer. */
  lemma AsWrittenStoreHidesReassigned(db: seq<Report>, id: string, u: User, t1: nat, t2: nat)
    requires u.role == "volunteer" && id in Ids(db)
    ensures var db' := Patch(Patch(db, id, RemoteAssignEdit(Unassigned, None, t1)), id,
                             RemoteAssignEdit(VolunteerTeam, None, t2));
      var found := Find(db', id);
      found.Some? && found.value.assignedTo == VolunteerTeam && !VisibleTo(u, Materialize(found.value))
  {
    var db1 := Patch(db, id, RemoteAssignEdit(Unassigned, None, t1));
    FindAfterPatch(db, id, RemoteAssignEdit(Unassigned, None, t1));
    PatchKeepsIds(db, id, RemoteAssignEdit(Unassigned, None, t1));
    FindAfterPatch(db1, id, RemoteAssignEdit(VolunteerTeam, None, t2));
    AsWrittenReassignHidesReport(Find(db, id).value, u, t1, t2);
  }

  /** As written, the stored assignee after unassigning differs from the
      local copy the same call produces (absent), so a page shows the report
      as open to volunteers until the next fetch. */
  lemma AsWrittenRemoteDiffersFromLocal(prior: Assignee)
    ensures RemoteAssignee(prior, Unassigned, None) == NullAssignee
    ensures RemoteAssignee(prior, Unassigned, None) != LocalAssignee(None)
  {
  }

  /** With the write that removes the field, unassigning and then handing the
      report to the volunteer team without an id opens it to every volunteer,
      whatever its assignee was before. */
  lemma {:induction false} IntendedReassignOpensReport(r: Report, u: User, t1: nat, t2: nat)
    requires u.role == "volunteer"
    ensures var r' := Apply(IntendedAssignEdit(VolunteerTeam, None, t2), Apply(IntendedAssignEdit(Unassigned, None, t1), r));
      r'.assignedTo == VolunteerTeam && r'.assignedUserId == NoAssignee && VisibleTo(u, Materialize(r'))
  {
    var r1 := Apply(IntendedAssignEdit(Unassigned, None, t1), r);
    assert r1.assignedUserId == NoAssignee;
  }

  /** With the intended write, the stored record and the local copy agree
      exactly when the call passes a non-empty id, or passes none and either
      unassigns or finds the field already absent, or passes the empty
      string (which the store ignores and the local copy keeps) to a team
      while the field already holds it. The pages never pass an id, so on a
      store whose records have no assignee (which the intended write keeps)
      every assignment they make leaves the two copies equal. */
  lemma IntendedRemoteMatchesLocal(r: Report, t: AssignedTo, userId: Option<string>, now: nat)
    ensures Apply(IntendedAssignEdit(t, userId, now), r) == Apply(LocalAssignEdit(t, userId, now), r)
      <==> (Truthy(userId)
            || (userId.None? && (r.assignedUserId == NoAssignee || t == Unassigned))
            || (userId == Some("") && t != Unassigned && r.assignedUserId == AssigneeId("")))
    ensures r.assignedUserId == NoAssignee && userId.None? ==>
      Apply(IntendedAssignEdit(t, userId, now), r).assignedUserId == NoAssignee
  {
    var remote := Apply(IntendedAssignEdit(t, userId, now), r);
    var local := Apply(LocalAssignEdit(t, userId, now), r);
    assert remote == local <==> remote.assignedUserId == local.assignedUserId;
  }

}
