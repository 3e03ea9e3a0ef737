/** The report detail page shared by the three roles: it loads one report
    and its notes, and drives status changes, assignment (administrators),
    notes and response images (teams) through the report store. The page
    keeps its own copy of the report, which it patches itself after a
    successful call. */
module ReportDetailsPage {
  import opened Wrappers
  import opened Types
  import opened ReportLogic
  import opened StatusFlow
  import Text
  import ReportStore

  class DetailsPage {
    const store: ReportStore.Store
    const role: Role
    var report: Option<Report>
    var loading: bool
    var noteText: string
    var submittingNote: bool
    var uploadingImage: bool
    /** The route the page has navigated to, if any. */
    var navigatedTo: Option<string>

    constructor (store: ReportStore.Store, role: Role)
      ensures this.store == store && this.role == role
      ensures report.None? && loading && noteText == "" && !submittingNote && !uploadingImage
      ensures navigatedTo.None?
    {
      this.store, this.role := store, role;
      report, loading, noteText := None, true, "";
      submittingNote, uploadingImage, navigatedTo := false, false, None;
    }

    /** Loads the report named in the URL and its notes. Without an id nothing
        happens and the spinner stays; an unknown id sends the user back to
        their dashboard. */
    method Load(id: string) returns (found: bool)
      modifies this`report, this`loading, this`navigatedTo, store`reportNotes
      ensures id == "" ==> (!found && report == old(report) && loading == old(loading)
        && navigatedTo == old(navigatedTo) && store.reportNotes == old(store.reportNotes))
      ensures id != "" ==> !loading
      ensures id !in Ids(store.db) ==> !found
      ensures found ==> id in Ids(store.db) && report == Some(Materialize(Find(store.db, id).value))
      ensures found ==> navigatedTo == old(navigatedTo)
      ensures found ==> store.reportNotes == NewestNotes(store.noteDb, id) || store.reportNotes == old(store.reportNotes)
      ensures id != "" && !found ==> (report == old(report) && navigatedTo == Some("/" + RoleName(role))
        && store.reportNotes == old(store.reportNotes))
    {
      found := false;
      if id == "" {
        return;
      }
      loading := true;
      var data := store.FetchReportDetails(id);
      if data.Some? {
        report := data;
        found := true;
        var _ := store.FetchReportNotes(id);
      } else {
        navigatedTo := Some("/" + RoleName(role));
      }
      loading := false;
    }

    /** `handleStatusChange`: writes the chosen status and, once written, sets
        it on the page's copy; the stored record then carries that status. */
    method HandleStatusChange(status: ReportStatus, now: nat) returns (r: HandlerResult)
      requires store.Valid()
      modifies this`report, store`db, store`reports, store`userReports
      ensures store.Valid()
      ensures old(report).None? ==> r == Skipped
      ensures r != Done ==> report == old(report)
      ensures r != Done ==> (store.db == old(store.db) && store.reports == old(store.reports)
        && store.userReports == old(store.userReports))
      ensures r == Done ==> old(report).Some? && report == Some(old(report).value.(status := status))
      ensures r == Done ==> store.db == Patch(old(store.db), old(report).value.id, StatusEdit(status, now))
      ensures r == Done ==> (store.reports == Patch(old(store.reports), old(report).value.id, StatusEdit(status, now))
        && store.userReports == Patch(old(store.userReports), old(report).value.id, StatusEdit(status, now)))
      ensures r == Done ==> Find(store.db, report.value.id).Some? && Find(store.db, report.value.id).value.status == status
    {
      if report.None? {
        return Skipped;
      }
      var current := report.value;
      var written := store.UpdateReportStatus(current.id, status, now);
      if written.Fail? {
        return Failed;
      }
      FindAfterPatch(old(store.db), current.id, StatusEdit(status, now));
      report := Some(current.(status := status));
      r := Done;
    }

    /** `handleAssign` (administrators): assigns the report to `target`
        without a user id, marks a pending report assigned, and only then
        updates the page's copy. A failed status write leaves the assignment
        written and the page's copy as it was. */
    method HandleAssign(target: AssignedTo, now: nat) returns (r: HandlerResult)
      requires role == Admin && store.Valid()
      modifies this`report, store`db, store`reports, store`userReports
      ensures store.Valid()
      ensures old(report).None? ==> r == Skipped && store.db == old(store.db)
      ensures r == Skipped ==> (store.db == old(store.db) && store.reports == old(store.reports)
        && store.userReports == old(store.userReports))
      ensures r != Done ==> report == old(report)
      ensures r == Failed ==> old(report).Some?
      ensures r == Failed ==> (store.db == old(store.db)
        || store.db == Patch(old(store.db), old(report).value.id, RemoteAssignEdit(target, None, now)))
      ensures r == Failed ==> var id := old(report).value.id;
        (store.db == old(store.db) && store.reports == old(store.reports)
         && store.userReports == old(store.userReports))
        || (store.db == Patch(old(store.db), id, RemoteAssignEdit(target, None, now))
            && store.reports == Patch(old(store.reports), id, LocalAssignEdit(target, None, now))
            && store.userReports == Patch(old(store.userReports), id, LocalAssignEdit(target, None, now)))
      ensures r == Done ==> (old(report).Some?
        && report == Some(old(report).value.(assignedTo := target, status := DetailAssignStatus(old(report).value.status))))
      ensures r == Done ==> var id := old(report).value.id;
        var reassigned := Patch(old(store.db), id, RemoteAssignEdit(target, None, now));
        store.db == if old(report).value.status == Pending then Patch(reassigned, id, StatusEdit(Assigned, now)) else reassigned
      ensures r == Done ==> var id := old(report).value.id;
        var pending := old(report).value.status == Pending;
        var local := Patch(old(store.reports), id, LocalAssignEdit(target, None, now));
        var localUser := Patch(old(store.userReports), id, LocalAssignEdit(target, None, now));
        store.reports == (if pending then Patch(local, id, StatusEdit(Assigned, now)) else local)
        && store.userReports == (if pending then Patch(localUser, id, StatusEdit(Assigned, now)) else localUser)
      ensures r == Done && old(report).value.status == Pending ==>
        Find(store.db, report.value.id).Some? && Find(store.db, report.value.id).value.status == Assigned
        && Find(store.db, report.value.id).value.assignedTo == target
    {
      if report.None? {
        return Skipped;
      }
      var current := report.value;
      var assignOutcome := store.AssignReport(current.id, target, None, now);
      if assignOutcome.Fail? {
        return Failed;
      }
      if current.status == Pending {
        ghost var afterAssign := store.db;
        var bumped := store.UpdateReportStatus(current.id, Assigned, now);
        if bumped.Fail? {
          return Failed;
        }
        FindAfterPatch(old(store.db), current.id, RemoteAssignEdit(target, None, now));
        FindAfterPatch(afterAssign, current.id, StatusEdit(Assigned, now));
      }
      report := Some(current.(assignedTo := target, status := DetailAssignStatus(current.status)));
      r := Done;
    }

    method SetNoteText(text: string)
      modifies this`noteText
      ensures noteText == text
    {
      noteText := text;
    }

    /** `handleAddNote`: a blank note (only whitespace) or a missing report
        does nothing; otherwise the note is added as typed, and the text box
        is cleared once it has been written. */
    method HandleAddNote(profile: Option<User>, now: nat) returns (r: HandlerResult)
      modifies this`noteText, this`submittingNote, store`noteDb, store`reportNotes
      ensures !submittingNote || r == Skipped
      ensures old(report).None? || Text.Trim(old(noteText)) == "" ==>
        r == Skipped && store.noteDb == old(store.noteDb) && noteText == old(noteText)
      ensures r == Failed ==> noteText == old(noteText) && store.noteDb == old(store.noteDb)
      ensures r == Done ==> report.Some? && !Text.AllWhitespace(old(noteText)) && noteText == ""
      ensures r == Done ==> (profile.Some? && |store.noteDb| == |old(store.noteDb)| + 1
        && store.noteDb[..|old(store.noteDb)|] == old(store.noteDb))
      ensures r == Done ==> var n := store.noteDb[|store.noteDb| - 1];
        n.reportId == report.value.id && n.text == old(noteText) && n.userId == profile.value.id
        && n.userName == profile.value.name && n.timestamp == now
      ensures r == Done ==> (store.reportNotes == NewestNotes(store.noteDb, report.value.id)
        || store.reportNotes == old(store.reportNotes))
    {
      Text.TrimEmptyIffBlank(noteText);
      if report.None? || Text.Trim(noteText) == "" {
        return Skipped;
      }
      submittingNote := true;
      var added := store.AddNote(report.value.id, noteText, profile, now);
      if added.Pass? {
        noteText := "";
        r := Done;
      } else {
        r := Failed;
      }
      submittingNote := false;
    }

    /** `handleImageUpload` (team pages): with no report or no file it does
        nothing; otherwise it adds the first chosen file as a response image
        and reloads the page's copy from the store. */
    method HandleImageUpload(files: seq<ImageFile>, now: nat) returns (r: HandlerResult, ghost url: string)
      requires role != Admin && store.Valid()
      modifies this`report, this`uploadingImage, store`db, store`reports, store`userReports, store`blobs
      ensures store.Valid()
      ensures r == Skipped ==> uploadingImage == old(uploadingImage)
      ensures r != Skipped ==> !uploadingImage
      ensures old(report).None? || files == [] ==> r == Skipped && store.db == old(store.db)
      ensures r != Done ==> report == old(report) && store.db == old(store.db)
      ensures r != Done ==> store.reports == old(store.reports) && store.userReports == old(store.userReports)
      ensures r == Done ==> old(report).Some? && files != []
      ensures r == Done ==> (store.reports == Patch(old(store.reports), old(report).value.id, AppendImageEdit(url, now))
        && store.userReports == Patch(old(store.userReports), old(report).value.id, AppendImageEdit(url, now)))
      ensures r == Done ==> var id := old(report).value.id;
        id in Ids(old(store.db))
        && store.db == Patch(old(store.db), id, ImagesEdit(Find(old(store.db), id).value.responseImages.GetOr([]) + [url], now))
        && url in store.blobs && store.blobs[url].file == files[0]
      ensures r == Done ==> (report == old(report)
        || report == Some(Materialize(Find(store.db, old(report).value.id).value)))
    {
      url := "";
      if report.None? || files == [] {
        return Skipped, url;
      }
      var id := report.value.id;
      uploadingImage := true;
      var added, u, _ := store.AddResponseImage(id, files[0], now);
      url := u;
      if added.Fail? {
        uploadingImage := false;
        return Failed, url;
      }
      var updated := store.FetchReportDetails(id);
      if updated.Some? {
        report := updated;
      }
      uploadingImage := false;
      r := Done;
    }
  }
}
