/** The results page: it loads one submission, shows a waiting screen while
    the submission is queued or being processed, and otherwise shows the
    processed photos, of which only the first is free; clicking a locked
    one opens the paywall. */
module ResultsPage {
  import opened Wrappers
  import opened Records

  const Pending: string := "pending"
  const Processing: string := "processing"
  const PendingDriveLink: string := "pending_drive_link"
  const SubmissionApiPath: string := "/api/submissions/"

  /** `isWaitingOrProcessing`. */
  predicate IsWaitingOrProcessing(status: string) {
    status == Pending || status == Processing || status == PendingDriveLink
  }

  /** The heading of the waiting screen. */
  function WaitingTitle(status: string): string {
    if status == PendingDriveLink then "Enviando Fotos..."
    else if status == Pending then "Suas Fotos Estão na Fila!"
    else "Processando suas Fotos"
  }

  /** The "Status:" line of the waiting screen. */
  function WaitingStatusLine(status: string): string {
    if status == PendingDriveLink then "Enviando..."
    else if status == Pending then "Aguardando processamento"
    else "Em processamento"
  }

  /** The heading and the status line split the statuses the same way:
      two statuses share a heading exactly when they share a status line,
      and the three waiting statuses get three different headings. */
  lemma WaitingTextsAgree(s: string, t: string)
    ensures WaitingTitle(s) == WaitingTitle(t) <==> WaitingStatusLine(s) == WaitingStatusLine(t)
    ensures WaitingTitle(Pending) != WaitingTitle(Processing)
    ensures WaitingTitle(Pending) != WaitingTitle(PendingDriveLink)
    ensures WaitingTitle(Processing) != WaitingTitle(PendingDriveLink)
  {
  }

  /** `isLocked = index > 0`: only the first processed photo is free. */
  predicate IsLocked(index: int) {
    index > 0
  }

  /** Among n gallery photos the free ones are none when the gallery is
      empty and exactly the first one otherwise. */
  lemma OnlyFirstPhotoIsFree(n: nat)
    ensures (set i | 0 <= i < n && !IsLocked(i)) == if n == 0 then {} else {0}
  {
    if n > 0 {
      assert 0 in (set i | 0 <= i < n && !IsLocked(i));
    }
  }

  /** What the page renders. A gallery lists the processed photos with a
      lock flag each and says whether the paywall card is open. */
  datatype View =
    | Spinner
    | NotFound
    | Waiting(title: string, statusLine: string)
    | Gallery(photos: seq<Photo>, locked: seq<bool>, paywall: bool)

  /** The page's rendering decision, in the order of its early returns:
      spinner while loading, "not found" without a submission, the waiting
      screen for the three waiting statuses, the gallery for any other
      status (`completed`, `awaiting_photo`, or anything else). */
  function Render(loading: bool, submission: Option<Submission>, showPaywall: bool): (v: View)
    ensures loading <==> v.Spinner?
    ensures v.NotFound? <==> !loading && submission.None?
    ensures v.Waiting? <==> !loading && submission.Some? && IsWaitingOrProcessing(submission.value.status)
    ensures v.Waiting? ==>
      v.title == WaitingTitle(submission.value.status) && v.statusLine == WaitingStatusLine(submission.value.status)
    ensures v.Gallery? ==>
      && v.photos == PhotosOfKind(submission.value.photos, ProcessedKind)
      && |v.locked| == |v.photos|
      && (forall i :: 0 <= i < |v.locked| ==> (v.locked[i] <==> i > 0))
      && (v.paywall <==> showPaywall && |v.photos| > 0)
  {
    if loading then Spinner
    else if submission.None? then NotFound
    else
      var s := submission.value;
      var processed := PhotosOfKind(s.photos, ProcessedKind);
      if IsWaitingOrProcessing(s.status) then
        Waiting(WaitingTitle(s.status), WaitingStatusLine(s.status))
      else
        Gallery(processed, seq(|processed|, i => IsLocked(i)), showPaywall && |processed| > 0)
  }

  /** How the fetch of `/api/submissions/<id>` ended: an answer (whether
      it was ok, and the `submission` of its JSON body, if any), or a
      thrown error (network failure, unreadable body). */
  datatype FetchOutcome = Responded(ok: bool, body: Option<Submission>) | Threw

  /** `if (submissionId)`: a present, non-empty `id` query parameter. */
  predicate HasId(submissionId: Option<string>) {
    submissionId.Some? && submissionId.value != ""
  }

  /** The submission a finished fetch leaves on the page. */
  function Fetched(outcome: FetchOutcome): (r: Option<Submission>)
    ensures r.Some? ==> outcome.Responded? && outcome.ok && outcome.body == r
  {
    if outcome.Responded? && outcome.ok then outcome.body else None
  }

  /** The page's state. */
  class ResultsState {
    var loading: bool
    var submission: Option<Submission>
    var showPaywall: bool

    constructor ()
      ensures loading && submission == None && !showPaywall
    {
      loading := true;
      submission := None;
      showPaywall := false;
    }

    /** What the page shows now. */
    function CurrentView(): View
      reads this
    {
      Render(loading, submission, showPaywall)
    }

    /** The mount effect with `fetchSubmission`: without an `id` the page
        stops loading and fetches nothing; with one it fetches that
        submission, keeps it on an ok answer and clears it on a failed
        answer or a thrown error. Loading is over in every case. */
    method Load(submissionId: Option<string>, outcome: FetchOutcome) returns (requested: Option<string>)
      modifies this
      ensures !loading
      ensures requested == if HasId(submissionId) then Some(SubmissionApiPath + submissionId.value) else None
      ensures submission == if HasId(submissionId) then Fetched(outcome) else old(submission)
      ensures showPaywall == old(showPaywall)
    {
      if HasId(submissionId) {
        loading := true;
        requested := Some(SubmissionApiPath + submissionId.value);
        if outcome.Responded? && outcome.ok {
          submission := outcome.body;
        } else {
          submission := None;
        }
        loading := false;
      } else {
        requested := None;
        loading := false;
      }
    }

    /** `handlePhotoClick`: a locked photo opens the paywall, the free one
        changes nothing. */
    method HandlePhotoClick(locked: bool)
      modifies this
      ensures showPaywall == (old(showPaywall) || locked)
      ensures loading == old(loading) && submission == old(submission)
    {
      if locked {
        showPaywall := true;
      }
    }

    /** The call-to-action button: opens the paywall. */
    method OpenPaywall()
      modifies this
      ensures showPaywall
      ensures loading == old(loading) && submission == old(submission)
    {
      showPaywall := true;
    }

    /** The paywall's close button. */
    method ClosePaywall()
      modifies this
      ensures !showPaywall
      ensures loading == old(loading) && submission == old(submission)
    {
      showPaywall := false;
    }
  }

  /** A whole visit: the page loads a submission that is no longer
      waiting, then the visitor clicks the gallery photo at `index` (locked
      exactly when it is not the first). What the page then shows is the
      gallery, with the paywall card open exactly when that photo was
      locked. */
  method FirstClickOpensPaywallIffLocked(id: string, submission: Submission, index: nat) returns (v: View)
    requires id != ""
    requires !IsWaitingOrProcessing(submission.status)
    requires index < |PhotosOfKind(submission.photos, ProcessedKind)|
    ensures v.Gallery? && index < |v.locked|
    ensures v.locked[index] <==> index > 0
    ensures v.paywall <==> index > 0
  {
    var page := new ResultsState();
    var requested := page.Load(Some(id), Responded(true, Some(submission)));
    page.HandlePhotoClick(IsLocked(index));
    v := page.CurrentView();
  }
}
