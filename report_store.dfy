/** The report provider: the hosted report and note collections and the blob
    store, together with the provider's local state (`reports`,
    `userReports`, `reportNotes`, `loading`). Every remote call may fail; a
    failure leaves the local lists as they were and is passed on to the
    caller. The local lists are patched only after the remote write has
    returned. */
module ReportStore {
  import opened Wrappers
  import opened Types
  import opened ReportLogic
  import Ordering
  import Text
  import Remote

  /** A stored object: the path it was uploaded under and the file. */
  datatype Blob = Blob(path: string, file: ImageFile)

  /** The namespaces of submitted and response-phase images. */
  const DisasterImagesFolder: string := "disaster-images/"
  const ResponseImagesFolder: string := "response-images/"

  /** The error `addNote` throws without a loaded profile. */
  const NotLoggedIn: string := "User must be logged in to add notes"
  /** The error `addResponseImage` throws for a missing document. */
  const ReportNotFound: string := "Report not found"
  /** The error the document store reports for an update of a missing document. */
  const NoSuchDocument: string := "not-found"

  /** The `forEach` of `fetchReports`: one local record per document. */
  method ReadReports(docs: seq<Report>) returns (fetched: seq<Report>)
    ensures fetched == Snapshot(docs)
  {
    fetched := [];
    var i := 0;
    while i < |docs|
      invariant 0 <= i <= |docs|
      invariant fetched == Snapshot(docs[..i])
    {
      fetched := fetched + [Materialize(docs[i])];
      i := i + 1;
    }
    assert docs[..i] == docs;
  }

  /** The query and `forEach` of `fetchReportNotes`: the notes whose
      `reportId` matches, in collection order. */
  method ReadNotes(docs: seq<ResponseNote>, reportId: string) returns (notes: seq<ResponseNote>)
    ensures notes == NotesOf(docs, reportId)
  {
    notes := [];
    var i := 0;
    while i < |docs|
      invariant 0 <= i <= |docs|
      invariant notes == NotesOf(docs[..i], reportId)
    {
      NotesOfAppend(docs[..i], [docs[i]], reportId);
      assert docs[..i + 1] == docs[..i] + [docs[i]];
      if docs[i].reportId == reportId {
        notes := notes + [docs[i]];
      }
      i := i + 1;
    }
    assert docs[..i] == docs;
  }

  function NoteIds(notes: seq<ResponseNote>): set<string>
  {
    set n | n in notes :: n.id
  }

  class Store {
    /** The hosted "reports" collection, in creation order, which stands
        for the order an unordered query returns it in. */
    var db: seq<Report>
    /** The hosted "notes" collection. */
    var noteDb: seq<ResponseNote>
    /** The blob store, by download URL. */
    var blobs: map<string, Blob>

    var reports: seq<Report>
    var userReports: seq<Report>
    var reportNotes: seq<ResponseNote>
    var loading: bool

    /** Document ids are unique within the collection. */
    ghost predicate Valid()
      reads this
    {
      DistinctIds(db)
    }

    /** A provider mounted over existing hosted data: empty lists, loading. */
    constructor (docs: seq<Report>, notes: seq<ResponseNote>, stored: map<string, Blob>)
      requires DistinctIds(docs)
      ensures Valid()
      ensures db == docs && noteDb == notes && blobs == stored
      ensures reports == [] && userReports == [] && reportNotes == [] && loading
    {
      db, noteDb, blobs := docs, notes, stored;
      reports, userReports, reportNotes := [], [], [];
      loading := true;
    }

    /** `fetchReports`: reads every document, then, when a profile is loaded,
        recomputes the role-scoped view; a failed read changes neither list. */
    method FetchReports(profile: Option<User>) returns (ok: bool)
      modifies this`reports, this`userReports, this`loading
      ensures !loading
      ensures ok ==> reports == Snapshot(db)
      ensures ok ==> userReports == if profile.Some? then RoleView(reports, profile.value) else old(userReports)
      ensures !ok ==> reports == old(reports) && userReports == old(userReports)
    {
      loading := true;
      ok := Remote.Call();
      if ok {
        var fetched := ReadReports(db);
        reports := fetched;
        if profile.Some? {
          userReports := RoleView(fetched, profile.value);
        }
      }
      loading := false;
    }

    /** Uploads one file under `folder` (`uploadBytes`) and then resolves its
        download URL (`getDownloadURL`). `key` is where the file was stored,
        if the upload went through; when only the URL lookup fails the file
        stays stored and no URL is returned. */
    method Upload(folder: string, file: ImageFile) returns (ok: bool, url: string, ghost key: Option<string>)
      modifies this`blobs
      ensures ok ==> url !in old(blobs) && blobs.Keys == old(blobs).Keys + {url}
      ensures ok ==> blobs[url].file == file && Text.StartsWith(blobs[url].path, folder)
      ensures ok ==> key == Some(url)
      ensures key.Some? ==> (key.value !in old(blobs) && blobs.Keys == old(blobs).Keys + {key.value}
        && blobs[key.value].file == file && Text.StartsWith(blobs[key.value].path, folder))
      ensures key.None? ==> !ok && blobs == old(blobs)
      ensures forall u :: u in old(blobs) ==> u in blobs && blobs[u] == old(blobs)[u]
    {
      ok, url, key := false, "", None;
      var uploaded := Remote.Call();
      if !uploaded {
        return;
      }
      var randomId: string := *;
      var path := folder + randomId + "-" + file.name;
      assert path[..|folder|] == folder;
      var stored := Remote.FreshName(blobs.Keys);
      blobs := blobs[stored := Blob(path, file)];
      key := Some(stored);
      var resolved := Remote.Call();
      if resolved {
        ok, url := true, stored;
      }
    }

    /** `createReport`: uploads the images in order, then writes a pending,
        unassigned report and appends it to `reports`; `userReports` is left
        alone. An upload or write that fails stops the operation before the
        report is written. */
    method CreateReport(disasterType: DisasterType, location: string, description: string,
                        images: seq<ImageFile>, now: nat)
      returns (r: Result<string>, ghost urls: seq<string>)
      requires Valid()
      modifies this`db, this`reports, this`blobs
      ensures Valid()
      ensures r.Success? ==> r.value !in Ids(old(db))
      ensures r.Success? ==> db == old(db) + [NewReport(r.value, disasterType, location, description, urls, now)]
      ensures r.Success? ==> reports == old(reports) + [NewReport(r.value, disasterType, location, description, urls, now)]
      ensures r.Success? ==> |urls| == |images|
      ensures r.Success? ==> forall j, k :: 0 <= j < k < |urls| ==> urls[j] != urls[k]
      ensures r.Success? ==> forall k :: 0 <= k < |urls| ==>
        urls[k] !in old(blobs) && urls[k] in blobs && blobs[urls[k]].file == images[k]
        && Text.StartsWith(blobs[urls[k]].path, DisasterImagesFolder)
      ensures r.Failure? ==> db == old(db) && reports == old(reports)
      ensures forall u :: u in old(blobs) ==> u in blobs && blobs[u] == old(blobs)[u]
    {
      var imageUrls: seq<string> := [];
      var i := 0;
      while i < |images|
        invariant 0 <= i <= |images| && |imageUrls| == i
        invariant db == old(db) && reports == old(reports)
        invariant forall u :: u in old(blobs) ==> u in blobs && blobs[u] == old(blobs)[u]
        invariant forall k :: 0 <= k < i ==>
          imageUrls[k] !in old(blobs) && imageUrls[k] in blobs && blobs[imageUrls[k]].file == images[k]
          && Text.StartsWith(blobs[imageUrls[k]].path, DisasterImagesFolder)
        invariant forall j, k :: 0 <= j < k < i ==> imageUrls[j] != imageUrls[k]
      {
        var ok, url, _ := Upload(DisasterImagesFolder, images[i]);
        if !ok {
          var code := Remote.ErrorCode();
          r, urls := Failure(code), imageUrls;
          return;
        }
        imageUrls := imageUrls + [url];
        i := i + 1;
      }
      urls := imageUrls;
      var written := Remote.Call();
      if !written {
        var code := Remote.ErrorCode();
        r := Failure(code);
        return;
      }
      var id := Remote.FreshName(Ids(db));
      var record := NewReport(id, disasterType, location, description, imageUrls, now);
      assert Ids(db + [record]) == Ids(db) + {id};
      db := db + [record];
      reports := reports + [record];
      r := Success(id);
    }

    /** `updateReportStatus`: writes the status and update time, then sets
        the same two fields of the report with that id in both local lists. */
    method UpdateReportStatus(id: string, status: ReportStatus, now: nat) returns (r: Outcome)
      requires Valid()
      modifies this`db, this`reports, this`userReports
      ensures Valid()
      ensures r.Pass? ==> id in Ids(old(db))
      ensures r.Pass? ==> db == Patch(old(db), id, StatusEdit(status, now))
      ensures r.Pass? ==> reports == Patch(old(reports), id, StatusEdit(status, now))
      ensures r.Pass? ==> userReports == Patch(old(userReports), id, StatusEdit(status, now))
      ensures r.Fail? ==> db == old(db) && reports == old(reports) && userReports == old(userReports)
    {
      var ok := Remote.Call();
      if !ok {
        var code := Remote.ErrorCode();
        return Fail(code);
      }
      if id !in Ids(db) {
        return Fail(NoSuchDocument);
      }
      PatchKeepsIds(db, id, StatusEdit(status, now));
      db := Patch(db, id, StatusEdit(status, now));
      reports := Patch(reports, id, StatusEdit(status, now));
      userReports := Patch(userReports, id, StatusEdit(status, now));
      r := Pass;
    }

    /** `assignReport`: writes the target, the update time and the assignee
        as the code does (`RemoteAssignee`: null when unassigning without an
        id); then sets target, assignee (the argument as given) and update
        time locally. The status is never touched. */
    method AssignReport(id: string, target: AssignedTo, userId: Option<string>, now: nat) returns (r: Outcome)
      requires Valid()
      modifies this`db, this`reports, this`userReports
      ensures Valid()
      ensures r.Pass? ==> id in Ids(old(db))
      ensures r.Pass? ==> db == Patch(old(db), id, RemoteAssignEdit(target, userId, now))
      ensures r.Pass? ==> reports == Patch(old(reports), id, LocalAssignEdit(target, userId, now))
      ensures r.Pass? ==> userReports == Patch(old(userReports), id, LocalAssignEdit(target, userId, now))
      ensures r.Fail? ==> db == old(db) && reports == old(reports) && userReports == old(userReports)
    {
      var ok := Remote.Call();
      if !ok {
        var code := Remote.ErrorCode();
        return Fail(code);
      }
      if id !in Ids(db) {
        return Fail(NoSuchDocument);
      }
      PatchKeepsIds(db, id, RemoteAssignEdit(target, userId, now));
      db := Patch(db, id, RemoteAssignEdit(target, userId, now));
      reports := Patch(reports, id, LocalAssignEdit(target, userId, now));
      userReports := Patch(userReports, id, LocalAssignEdit(target, userId, now));
      r := Pass;
    }

    /** `fetchReportNotes`: the report's notes, latest first; a failed query
        is swallowed and leaves `reportNotes` as it was. */
    method FetchReportNotes(reportId: string) returns (ok: bool)
      modifies this`reportNotes
      ensures ok ==> reportNotes == NewestNotes(noteDb, reportId)
      ensures !ok ==> reportNotes == old(reportNotes)
    {
      ok := Remote.Call();
      if ok {
        var notes := ReadNotes(noteDb, reportId);
        reportNotes := Ordering.SortDesc(notes, NoteTime);
      }
    }

    /** `addNote`: refuses without a profile; otherwise writes a note carrying
        the profile's id and name and reloads the report's notes. */
    method AddNote(reportId: string, text: string, profile: Option<User>, now: nat) returns (r: Outcome)
      modifies this`noteDb, this`reportNotes
      ensures profile.None? ==> r == Fail(NotLoggedIn)
      ensures r.Fail? ==> noteDb == old(noteDb) && reportNotes == old(reportNotes)
      ensures r.Pass? ==> profile.Some? && |noteDb| == |old(noteDb)| + 1 && noteDb[..|old(noteDb)|] == old(noteDb)
      ensures r.Pass? ==> var n := noteDb[|noteDb| - 1];
        n.id !in NoteIds(old(noteDb)) && n.reportId == reportId && n.userId == profile.value.id
        && n.userName == profile.value.name && n.text == text && n.timestamp == now
      ensures r.Pass? ==> reportNotes == NewestNotes(noteDb, reportId) || reportNotes == old(reportNotes)
    {
      if profile.None? {
        return Fail(NotLoggedIn);
      }
      var ok := Remote.Call();
      if !ok {
        var code := Remote.ErrorCode();
        return Fail(code);
      }
      var noteId := Remote.FreshName(NoteIds(noteDb));
      var note := ResponseNote(noteId, reportId, profile.value.id, profile.value.name, text, now);
      noteDb := noteDb + [note];
      assert noteDb[..|noteDb| - 1] == old(noteDb);
      var _ := FetchReportNotes(reportId);
      r := Pass;
    }

    /** `addResponseImage`: uploads the file, reads the document (failing
        with "Report not found" when it is missing, before any document
        write), writes its response images with the new URL last, then
        appends the URL to the local copies. `fetched` records that the
        upload and the read both succeeded, the point past which a missing
        document fails with that message. */
    method AddResponseImage(id: string, image: ImageFile, now: nat)
      returns (r: Outcome, ghost url: string, ghost fetched: bool)
      requires Valid()
      modifies this`db, this`reports, this`userReports, this`blobs
      ensures Valid()
      ensures id !in Ids(old(db)) ==> r.Fail?
      ensures fetched && id !in Ids(old(db)) ==> r == Fail(ReportNotFound)
      ensures r.Pass? ==> fetched
      ensures r.Fail? ==> db == old(db) && reports == old(reports) && userReports == old(userReports)
      ensures r.Pass? ==> id in Ids(old(db))
      ensures r.Pass? ==> db == Patch(old(db), id,
        ImagesEdit(Find(old(db), id).value.responseImages.GetOr([]) + [url], now))
      ensures r.Pass? ==> reports == Patch(old(reports), id, AppendImageEdit(url, now))
      ensures r.Pass? ==> userReports == Patch(old(userReports), id, AppendImageEdit(url, now))
      ensures r.Pass? ==> url !in old(blobs) && url in blobs && blobs[url].file == image
      ensures r.Pass? ==> Text.StartsWith(blobs[url].path, ResponseImagesFolder)
      ensures forall u :: u in old(blobs) ==> u in blobs && blobs[u] == old(blobs)[u]
    {
      var uploaded, u, _ := Upload(ResponseImagesFolder, image);
      url, fetched := u, false;
      if !uploaded {
        var code := Remote.ErrorCode();
        return Fail(code), url, fetched;
      }
      var read := Remote.Call();
      if !read {
        var code := Remote.ErrorCode();
        return Fail(code), url, fetched;
      }
      fetched := true;
      var doc := Find(db, id);
      if doc.None? {
        return Fail(ReportNotFound), url, fetched;
      }
      var written := Remote.Call();
      if !written {
        var code := Remote.ErrorCode();
        return Fail(code), url, fetched;
      }
      var edit := ImagesEdit(doc.value.responseImages.GetOr([]) + [u], now);
      PatchKeepsIds(db, id, edit);
      db := Patch(db, id, edit);
      reports := Patch(reports, id, AppendImageEdit(u, now));
      userReports := Patch(userReports, id, AppendImageEdit(u, now));
      r := Pass;
    }

    /** `fetchReportDetails`: the document as a local record, or nothing when
        it is missing or the read fails. */
    method FetchReportDetails(id: string) returns (r: Option<Report>)
      ensures id !in Ids(db) ==> r.None?
      ensures r.Some? ==> id in Ids(db) && r.value == Materialize(Find(db, id).value)
    {
      var ok := Remote.Call();
      if !ok {
        return None;
      }
      var doc := Find(db, id);
      if doc.None? {
        return None;
      }
      r := Some(Materialize(doc.value));
    }
  }
}
