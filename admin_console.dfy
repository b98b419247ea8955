/** The admin console: gated by the `isAdmin` flag in local storage, it
    lists every submission, splits each one's photos into originals and
    processed results, and sends the PATCH requests that mark a submission
    as processing or upload its processed photos and complete it. */
module AdminConsole {
  import opened Wrappers
  import opened Text
  import opened Multipart
  import opened Records
  import opened Browser
  import AdminLogin

  const LoginPath: string := "/admin/login"
  const AdminFlagOn: string := "true"
  const SubmissionApiPath: string := "/api/submissions/"
  const StatusKey: string := "status"
  const ProcessedKeyPrefix: string := "processed-"
  const CompletedStatus: string := "completed"
  const ProcessingStatus: string := "processing"

  /** A PATCH to one submission: its URL and its multipart body. */
  datatype PatchRequest = PatchRequest(url: string, form: Form)

  /** `getStatusBadge`'s label table; a status outside the table (for
      example `awaiting_photo`) gets an empty badge. */
  function StatusLabel(status: string): (r: Option<string>)
    ensures r.Some? <==> status == "pending" || status == "processing" || status == "completed"
  {
    if status == "pending" then Some("Pendente")
    else if status == "processing" then Some("Processando")
    else if status == "completed" then Some("Concluído")
    else None
  }

  /** Different statuses in the table get different labels. */
  lemma StatusLabelsDistinct(s: string, t: string)
    requires StatusLabel(s).Some? && StatusLabel(t).Some? && s != t
    ensures StatusLabel(s) != StatusLabel(t)
  {
  }

  /** The body `handleUploadProcessed` sends: `status = completed`, then
      `processed-0`, `processed-1`, ... in selection order. */
  function UploadForm(photos: seq<File>): Form {
    [Entry(StatusKey, TextValue(CompletedStatus))] + IndexedEntries(ProcessedKeyPrefix, photos)
  }

  /** The `forEach` that builds the upload body. */
  method BuildUploadForm(photos: seq<File>) returns (form: Form)
    ensures form == UploadForm(photos)
    ensures |form| == 1 + |photos|
  {
    form := [Entry(StatusKey, TextValue(CompletedStatus))];
    form := AppendIndexed(form, ProcessedKeyPrefix, photos);
  }

  /** The upload body carries `completed` under `status` and the i-th
      selected file under `processed-i`. */
  lemma UploadFormReadsBack(photos: seq<File>, i: nat)
    requires i < |photos|
    ensures Get(UploadForm(photos), StatusKey) == Some(TextValue(CompletedStatus))
    ensures Get(UploadForm(photos), ProcessedKeyPrefix + NatToString(i)) == Some(FileValue(photos[i]))
  {
    var head := [Entry(StatusKey, TextValue(CompletedStatus))];
    GetFirstMatch(UploadForm(photos), 0);
    DistinctPrefixedKeys(StatusKey, ProcessedKeyPrefix, 0, "", NatToString(i));
    assert StatusKey + "" == StatusKey;
    GetIndexed(head, ProcessedKeyPrefix, photos, i);
  }

  /** The request `updateStatus` sends: a body with the one `status` field. */
  function UpdateStatusRequest(submissionId: string, status: string): (r: PatchRequest)
    ensures r.url == SubmissionApiPath + submissionId
    ensures |r.form| == 1 && Get(r.form, StatusKey) == Some(TextValue(status))
  {
    PatchRequest(SubmissionApiPath + submissionId, [Entry(StatusKey, TextValue(status))])
  }

  /** The details button: closes the card that is open, opens any other
      (closing the one that was open). */
  function Toggle(selected: Option<string>, id: string): (r: Option<string>)
    ensures (r == Some(id)) <==> selected != Some(id)
    ensures r.None? || r == Some(id)
  {
    if selected == Some(id) then None else Some(id)
  }

  /** What one submission's card shows. */
  datatype CardView = CardView(
    badge: Option<string>,
    detailsOpen: bool,
    originals: seq<Photo>,
    processed: seq<Photo>,
    processingDisabled: bool,
    uploadDisabled: bool)

  /** One card: badge label, whether its details are open, the photo
      lists, and the two buttons' disabled states. */
  function Card(s: Submission, selected: Option<string>, selection: seq<File>, isUploading: bool): (c: CardView)
    ensures c.detailsOpen <==> selected == Some(s.id)
    ensures c.originals == PhotosOfKind(s.photos, OriginalKind)
    ensures c.processed == PhotosOfKind(s.photos, ProcessedKind)
    ensures c.processingDisabled <==> s.status == ProcessingStatus
    ensures c.uploadDisabled <==> |selection| == 0 || isUploading
  {
    CardView(
      StatusLabel(s.status),
      selected == Some(s.id),
      PhotosOfKind(s.photos, OriginalKind),
      PhotosOfKind(s.photos, ProcessedKind),
      s.status == ProcessingStatus,
      |selection| == 0 || isUploading)
  }

  /** How the list fetch ended: the `submissions` field of the JSON answer
      (absent on an error answer), or a thrown error. */
  datatype ListOutcome = ListAnswered(submissions: Option<seq<Submission>>) | ListThrew

  /** How the upload PATCH ended. */
  datatype UploadOutcome = UploadAnswered(ok: bool) | UploadThrew

  /** The console page's state; `storage` is the browser's local storage. */
  class ConsolePage {
    var isAuthenticated: bool
    var submissions: seq<Submission>
    var loading: bool
    var selectedSubmission: Option<string>
    var uploadingPhotos: seq<File>
    var isUploading: bool
    /** The last `router.push` target, if any. */
    var route: Option<string>
    const storage: LocalStorage

    constructor (storage: LocalStorage)
      ensures this.storage == storage
      ensures !isAuthenticated && submissions == [] && loading && selectedSubmission == None
      ensures uploadingPhotos == [] && !isUploading && route == None
    {
      this.storage := storage;
      isAuthenticated := false;
      submissions := [];
      loading := true;
      selectedSubmission := None;
      uploadingPhotos := [];
      isUploading := false;
      route := None;
    }

    /** The gate effect: unless the stored flag is exactly "true" the page
        navigates to the admin login; otherwise it is authenticated. */
    method CheckAdmin()
      modifies this
      ensures storage.isAdmin == Some(AdminFlagOn) ==> isAuthenticated && route == old(route)
      ensures storage.isAdmin != Some(AdminFlagOn) ==>
        isAuthenticated == old(isAuthenticated) && route == Some(LoginPath)
      ensures submissions == old(submissions) && selectedSubmission == old(selectedSubmission)
      ensures uploadingPhotos == old(uploadingPhotos) && isUploading == old(isUploading) && loading == old(loading)
    {
      if storage.isAdmin != Some(AdminFlagOn) {
        route := Some(LoginPath);
      } else {
        isAuthenticated := true;
      }
    }

    /** `handleLogout`: removes the flag and navigates to the login. */
    method HandleLogout()
      modifies this, storage
      ensures storage.isAdmin == None && route == Some(LoginPath)
      ensures isAuthenticated == old(isAuthenticated) && submissions == old(submissions) && loading == old(loading)
      ensures selectedSubmission == old(selectedSubmission) && uploadingPhotos == old(uploadingPhotos)
      ensures isUploading == old(isUploading)
    {
      storage.isAdmin := None;
      route := Some(LoginPath);
    }

    /** `fetchSubmissions`: an answer replaces the list (by the empty list
        when the answer has none); a thrown error keeps it. Loading ends. */
    method FetchSubmissions(outcome: ListOutcome)
      modifies this
      ensures !loading
      ensures submissions == if outcome.ListAnswered? then outcome.submissions.GetOr([]) else old(submissions)
      ensures isAuthenticated == old(isAuthenticated) && selectedSubmission == old(selectedSubmission)
      ensures uploadingPhotos == old(uploadingPhotos) && isUploading == old(isUploading) && route == old(route)
    {
      if outcome.ListAnswered? {
        submissions := outcome.submissions.GetOr([]);
      }
      loading := false;
    }

    /** `handleFileSelect`: a new selection replaces the previous one. */
    method HandleFileSelect(files: Option<seq<File>>)
      modifies this
      ensures uploadingPhotos == files.GetOr(old(uploadingPhotos))
      ensures isAuthenticated == old(isAuthenticated) && submissions == old(submissions) && loading == old(loading)
      ensures selectedSubmission == old(selectedSubmission) && isUploading == old(isUploading) && route == old(route)
    {
      if files.Some? {
        uploadingPhotos := files.value;
      }
    }

    /** The "Ver Detalhes" / "Ocultar" button of a card. */
    method ToggleDetails(id: string)
      modifies this
      ensures selectedSubmission == Toggle(old(selectedSubmission), id)
      ensures isAuthenticated == old(isAuthenticated) && submissions == old(submissions) && loading == old(loading)
      ensures uploadingPhotos == old(uploadingPhotos) && isUploading == old(isUploading) && route == old(route)
    {
      selectedSubmission := if selectedSubmission == Some(id) then None else Some(id);
    }

    /** `handleUploadProcessed`: with nothing selected it returns at once
        and sends nothing. Otherwise it sends the upload body; an ok answer
        empties the selection and closes the card. The uploading flag is
        down afterwards whether the upload succeeded or failed. */
    method HandleUploadProcessed(submissionId: string, outcome: UploadOutcome) returns (request: Option<PatchRequest>)
      modifies this
      ensures |old(uploadingPhotos)| == 0 ==>
        request == None && uploadingPhotos == old(uploadingPhotos) &&
        selectedSubmission == old(selectedSubmission) && isUploading == old(isUploading)
      ensures |old(uploadingPhotos)| > 0 ==>
        && request == Some(PatchRequest(SubmissionApiPath + submissionId, UploadForm(old(uploadingPhotos))))
        && !isUploading
        && (outcome == UploadAnswered(true) ==> uploadingPhotos == [] && selectedSubmission == None)
        && (outcome != UploadAnswered(true) ==>
              uploadingPhotos == old(uploadingPhotos) && selectedSubmission == old(selectedSubmission))
      ensures isAuthenticated == old(isAuthenticated) && submissions == old(submissions)
      ensures loading == old(loading) && route == old(route)
    {
      if |uploadingPhotos| == 0 {
        return None;
      }
      isUploading := true;
      var form := BuildUploadForm(uploadingPhotos);
      request := Some(PatchRequest(SubmissionApiPath + submissionId, form));
      if outcome == UploadAnswered(true) {
        uploadingPhotos := [];
        selectedSubmission := None;
      }
      isUploading := false;
    }
  }

  /** The login page and the console share the stored flag: typing the
      right password and logging in lets the console's gate through. */
  method LoginOpensConsole() returns (console: ConsolePage)
    ensures console.isAuthenticated && console.route == None
  {
    var storage := new LocalStorage(None);
    var login := new AdminLogin.LoginPage(storage);
    login.OnPasswordChange(AdminLogin.AdminPassword);
    login.HandleLogin();
    console := new ConsolePage(storage);
    console.CheckAdmin();
  }

  /** After a logout the gate of a freshly opened console sends it back to
      the login, whatever the flag was before. */
  method LogoutClosesConsole(flag: Option<string>) returns (console: ConsolePage)
    ensures !console.isAuthenticated && console.route == Some(LoginPath)
  {
    var storage := new LocalStorage(flag);
    var page := new ConsolePage(storage);
    page.HandleLogout();
    console := new ConsolePage(storage);
    console.CheckAdmin();
  }
}
