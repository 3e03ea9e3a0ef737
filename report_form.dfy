/** The public "report a disaster" form: its fields and defaults, the
    image list it accumulates, the checks run before submission and the
    hand-off to the report store. */
module ReportForm {
  import opened Wrappers
  import opened Types
  import opened ReportLogic
  import Text
  import ReportStore

  const LocationRequired: string := "Please provide the location of the disaster"
  const DescriptionRequired: string := "Please provide details about the disaster"
  const SubmissionError: string := "There was a problem submitting your report. Please try again."

  datatype FormData = FormData(disasterType: DisasterType, location: string, description: string,
                               images: seq<ImageFile>)

  const InitialForm: FormData := FormData(Flood, "", "", [])

  /** The categories the form's radio group offers. */
  const OfferedTypes: seq<DisasterType> := [Flood, Fire, Earthquake, Hurricane, Tsunami, Landslide, Other]

  /** The form offers seven of the ten categories: the chemical, biological
      and nuclear ones cannot be chosen, and the default is among those
      offered. */
  lemma OfferedTypesAreSeven(t: DisasterType)
    ensures |OfferedTypes| == 7 && InitialForm.disasterType in OfferedTypes
    ensures t in OfferedTypes <==> t !in {Chemical, Biological, Nuclear}
    ensures forall i :: 0 <= i < |OfferedTypes| ==> OfferedTypes[i] in AllDisasterTypes
  {
    DisasterTypesAreTen();
    if t !in {Chemical, Biological, Nuclear} {
      match t
      case Flood => assert OfferedTypes[0] == t;
      case Fire => assert OfferedTypes[1] == t;
      case Earthquake => assert OfferedTypes[2] == t;
      case Hurricane => assert OfferedTypes[3] == t;
      case Tsunami => assert OfferedTypes[4] == t;
      case Landslide => assert OfferedTypes[5] == t;
      case Other => assert OfferedTypes[6] == t;
    }
  }

  /** `removeImage`: keeps every file whose position differs from `index`;
      an index outside the list removes nothing. */
  function RemoveAt<T>(s: seq<T>, index: int): (r: seq<T>)
    ensures 0 <= index < |s| ==> r == s[..index] + s[index + 1..]
    ensures !(0 <= index < |s|) ==> r == s
    decreases s
  {
    if s == [] then []
    else (if index == 0 then [] else [s[0]]) + RemoveAt(s[1..], index - 1)
  }

  /** The submit-time checks: the location first, then the description; only
      emptiness is rejected. */
  function ValidateReport(f: FormData): (r: Outcome)
    ensures r.Pass? <==> f.location != "" && f.description != ""
    ensures f.location == "" ==> r == Fail(LocationRequired)
    ensures f.location != "" && f.description == "" ==> r == Fail(DescriptionRequired)
  {
    if f.location == "" then Fail(LocationRequired)
    else if f.description == "" then Fail(DescriptionRequired)
    else Pass
  }

  datatype TextField = LocationField | DescriptionField

  class ReportFormPage {
    const store: ReportStore.Store
    var formData: FormData
    var isSubmitting: bool
    var success: bool
    /** The description of the last error toast, if any. */
    var toast: Option<string>

    constructor (store: ReportStore.Store)
      ensures this.store == store && formData == InitialForm && !isSubmitting && !success && toast.None?
    {
      this.store := store;
      formData, isSubmitting, success, toast := InitialForm, false, false, None;
    }

    method HandleDisasterTypeChange(t: DisasterType)
      modifies this`formData
      ensures formData == old(formData).(disasterType := t)
    {
      formData := formData.(disasterType := t);
    }

    method HandleChange(field: TextField, value: string)
      modifies this`formData
      ensures field == LocationField ==> formData == old(formData).(location := value)
      ensures field == DescriptionField ==> formData == old(formData).(description := value)
    {
      match field
      case LocationField => formData := formData.(location := value);
      case DescriptionField => formData := formData.(description := value);
    }

    /** `handleImageChange`: newly chosen files go after those already
        chosen; a missing file list changes nothing. */
    method HandleImageChange(files: Option<seq<ImageFile>>)
      modifies this`formData
      ensures files.None? ==> formData == old(formData)
      ensures files.Some? ==> formData == old(formData).(images := old(formData).images + files.value)
    {
      if files.Some? {
        formData := formData.(images := formData.images + files.value);
      }
    }

    method RemoveImage(index: int)
      modifies this`formData
      ensures formData == old(formData).(images := RemoveAt(old(formData).images, index))
    {
      formData := formData.(images := RemoveAt(formData.images, index));
    }

    /** `handleSubmit`: a form failing a check shows that check's message and
        writes nothing; otherwise the report is created from the form's
        fields and images, and success or the submission error is shown. */
    method HandleSubmit(now: nat) returns (r: Outcome, ghost id: string, ghost urls: seq<string>)
      requires store.Valid()
      modifies this`isSubmitting, this`success, this`toast, store`db, store`reports, store`blobs
      ensures store.Valid()
      ensures ValidateReport(formData).Fail? ==> (r == ValidateReport(formData) && toast == Some(r.error)
        && store.db == old(store.db) && success == old(success) && isSubmitting == old(isSubmitting))
      ensures ValidateReport(formData).Pass? ==> !isSubmitting
      ensures r.Fail? && ValidateReport(formData).Pass? ==> (toast == Some(SubmissionError)
        && store.db == old(store.db) && success == old(success))
      ensures r.Pass? ==> (success && |store.db| == |old(store.db)| + 1
        && store.db[..|old(store.db)|] == old(store.db))
      ensures r.Pass? ==> var rec := store.db[|store.db| - 1];
        rec.id !in Ids(old(store.db)) && rec.status == Pending && rec.assignedTo == Unassigned
        && rec.disasterType == formData.disasterType && rec.location == formData.location
        && rec.description == formData.description && |rec.imageUrls| == |formData.images|
        && rec.createdAt == now
      ensures r.Pass? ==> (id !in Ids(old(store.db))
        && store.db == old(store.db) + [NewReport(id, formData.disasterType, formData.location,
                                                  formData.description, urls, now)]
        && store.reports == old(store.reports) + [NewReport(id, formData.disasterType, formData.location,
                                                            formData.description, urls, now)])
      ensures r.Pass? ==> (|urls| == |formData.images|
        && (forall k :: 0 <= k < |urls| ==>
              urls[k] !in old(store.blobs) && urls[k] in store.blobs && store.blobs[urls[k]].file == formData.images[k]
              && Text.StartsWith(store.blobs[urls[k]].path, ReportStore.DisasterImagesFolder))
        && (forall j, k :: 0 <= j < k < |urls| ==> urls[j] != urls[k]))
      ensures r.Fail? ==> store.db == old(store.db) && store.reports == old(store.reports)
      ensures forall u :: u in old(store.blobs) ==> u in store.blobs && store.blobs[u] == old(store.blobs)[u]
    {
      var check := ValidateReport(formData);
      if check.Fail? {
        toast := Some(check.error);
        return check, "", [];
      }
      isSubmitting := true;
      var created;
      created, urls := store.CreateReport(formData.disasterType, formData.location,
                                          formData.description, formData.images, now);
      id := "";
      if created.Success? {
        id := created.value;
        success := true;
        r := Pass;
        assert store.db[..|old(store.db)|] == old(store.db);
      } else {
        toast := Some(SubmissionError);
        r := Fail(SubmissionError);
      }
      isSubmitting := false;
    }
  }
}
