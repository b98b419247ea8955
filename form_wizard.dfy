/** The three-step submission wizard of the form page: personal details,
    photo selection, confirmation. The form contents are a value that every
    edit replaces (`setFormData({ ...formData, ... })`); the page's state
    (current step, form, drag highlight, navigation) is the class `FormPage`. */
module FormWizard {
  import opened Wrappers
  import opened Text
  import opened Multipart
  import opened Sequences

  /** `type FormStep = 1 | 2 | 3`. */
  type FormStep = s: int | 1 <= s <= 3 witness 1

  const MaxDesiredElements: nat := 500
  const MinPhotos: nat := 5
  const ThumbnailLimit: nat := 8
  const ImageTypePrefix: string := "image/"
  const PhotoKeyPrefix: string := "photo-"
  const ResultsPath: string := "/results?id="

  datatype FormData = FormData(
    name: string,
    email: string,
    profession: string,
    specialty: string,
    desiredElements: string,
    photos: seq<File>)

  const EmptyForm: FormData := FormData("", "", "", "", "", [])

  /** `canProceedStep1`: every text field is truthy, that is non-empty. */
  predicate CanProceedStep1(d: FormData) {
    d.name != "" && d.email != "" && d.profession != "" && d.specialty != "" && d.desiredElements != ""
  }

  /** `canProceedStep2`: at least five photos are selected. */
  predicate CanProceedStep2(d: FormData) {
    |d.photos| >= MinPhotos
  }

  /** The step `handleNext` moves to: one step forward when the current
      step's guard holds, otherwise (and always at step 3) no move. */
  function NextStep(step: FormStep, d: FormData): (r: FormStep)
    ensures r == step || r == step + 1
    ensures r == step + 1 <==> (step == 1 && CanProceedStep1(d)) || (step == 2 && CanProceedStep2(d))
    ensures step == 3 ==> r == 3
  {
    if step == 1 && CanProceedStep1(d) then 2
    else if step == 2 && CanProceedStep2(d) then 3
    else step
  }

  /** The drop filter `file => file.type.startsWith("image/")`. */
  function IsImage(): File -> bool {
    (f: File) => StartsWith(f.mimeType, ImageTypePrefix)
  }

  /** The "Faltam k fotos" note of step 2: it sits inside the block shown
      only when some photo is selected, and only below five photos. */
  function MissingPhotosHint(count: nat): (r: Option<nat>)
    ensures r.Some? <==> 0 < count < MinPhotos
    ensures r.Some? ==> count + r.value == MinPhotos && 1 <= r.value < MinPhotos
  {
    if count > 0 && count < MinPhotos then Some(MinPhotos - count) else None
  }

  /** `photos.slice(0, 8)`: the thumbnails of the confirmation step. */
  function Thumbnails(photos: seq<File>): (r: seq<File>)
    ensures |r| <= ThumbnailLimit
    ensures |r| == if |photos| < ThumbnailLimit then |photos| else ThumbnailLimit
    ensures r == photos[..|r|]
  {
    if |photos| <= ThumbnailLimit then photos else photos[..ThumbnailLimit]
  }

  /** The "+k fotos" note under the thumbnails, shown only past eight. */
  function OverflowNote(count: nat): (r: Option<nat>)
    ensures r.Some? <==> count > ThumbnailLimit
    ensures r.Some? ==> r.value >= 1
  {
    if count > ThumbnailLimit then Some(count - ThumbnailLimit) else None
  }

  /** The confirmation step accounts for every photo: the thumbnails plus
      the overflow note add up to the number selected. */
  lemma ConfirmationCountsEveryPhoto(photos: seq<File>)
    ensures |Thumbnails(photos)| + OverflowNote(|photos|).GetOr(0) == |photos|
  {
  }

  /** The multipart body `handleSubmit` posts: the five text fields, then
      `photo-0`, `photo-1`, ... in selection order. */
  function SubmitForm(d: FormData): Form {
    TextEntries(d) + IndexedEntries(PhotoKeyPrefix, d.photos)
  }

  /** Building the body appends the text fields, then runs the photo loop. */
  method BuildSubmitForm(d: FormData) returns (form: Form)
    ensures form == SubmitForm(d)
    ensures |form| == 5 + |d.photos|
  {
    form := TextEntries(d);
    form := AppendIndexed(form, PhotoKeyPrefix, d.photos);
  }

  /** The five text entries that open the posted body. */
  function TextEntries(d: FormData): (r: Form)
    ensures |r| == 5
  {
    [ Entry("name", TextValue(d.name)),
      Entry("email", TextValue(d.email)),
      Entry("profession", TextValue(d.profession)),
      Entry("specialty", TextValue(d.specialty)),
      Entry("desiredElements", TextValue(d.desiredElements)) ]
  }

  /** Reading the posted body back gives each text field under its key. */
  lemma SubmitFormTextFields(d: FormData)
    ensures Get(SubmitForm(d), "name") == Some(TextValue(d.name))
    ensures Get(SubmitForm(d), "email") == Some(TextValue(d.email))
    ensures Get(SubmitForm(d), "profession") == Some(TextValue(d.profession))
    ensures Get(SubmitForm(d), "specialty") == Some(TextValue(d.specialty))
    ensures Get(SubmitForm(d), "desiredElements") == Some(TextValue(d.desiredElements))
  {
    var form := SubmitForm(d);
    assert form[..5] == TextEntries(d);
    GetFirstMatch(form, 0);
    GetFirstMatch(form, 1);
    GetFirstMatch(form, 2);
    GetFirstMatch(form, 3);
    GetFirstMatch(form, 4);
  }

  /** Reading the posted body back gives the i-th photo under `photo-i`. */
  lemma SubmitFormPhoto(d: FormData, i: nat)
    requires i < |d.photos|
    ensures Get(SubmitForm(d), PhotoKeyPrefix + NatToString(i)) == Some(FileValue(d.photos[i]))
  {
    var texts := TextEntries(d);
    assert SubmitForm(d) == texts + IndexedEntries(PhotoKeyPrefix, d.photos);
    var digits := NatToString(i);
    var key := PhotoKeyPrefix + digits;
    DistinctPrefixedKeys("name", PhotoKeyPrefix, 0, "", digits);
    DistinctPrefixedKeys("email", PhotoKeyPrefix, 0, "", digits);
    DistinctPrefixedKeys("profession", PhotoKeyPrefix, 1, "", digits);
    DistinctPrefixedKeys("specialty", PhotoKeyPrefix, 0, "", digits);
    DistinctPrefixedKeys("desiredElements", PhotoKeyPrefix, 0, "", digits);
    assert forall j :: 0 <= j < |texts| ==> texts[j].key != key;
    GetIndexed(texts, PhotoKeyPrefix, d.photos, i);
  }

  /** How `handleSubmit`'s request ended: the route's answer (its status
      and the `submissionId` of its JSON body, if any), or a thrown error. */
  datatype SubmitOutcome = Answered(status: int, submissionId: Option<string>) | Threw

  /** `response.ok`. */
  predicate IsOk(status: int) {
    200 <= status <= 299
  }

  /** The form page's state. */
  class FormPage {
    var currentStep: FormStep
    var formData: FormData
    var dragActive: bool
    /** The last `router.push` target, if any. */
    var route: Option<string>

    /** The text fields are edited only at step 1 and the photos only at
        step 2, so a later step always holds the data its guards admitted. */
    ghost predicate Valid()
      reads this
    {
      && Utf16Length(formData.desiredElements) <= MaxDesiredElements
      && (currentStep >= 2 ==> CanProceedStep1(formData))
      && (currentStep == 3 ==> CanProceedStep2(formData))
    }

    constructor ()
      ensures Valid()
      ensures currentStep == 1 && formData == EmptyForm && !dragActive && route == None
    {
      currentStep := 1;
      formData := EmptyForm;
      dragActive := false;
      route := None;
    }

    /** The name input (rendered at step 1). */
    method SetName(value: string)
      requires Valid() && currentStep == 1
      modifies this
      ensures Valid()
      ensures formData == old(formData).(name := value)
      ensures currentStep == old(currentStep) && dragActive == old(dragActive) && route == old(route)
    {
      formData := formData.(name := value);
    }

    /** The e-mail input (rendered at step 1). */
    method SetEmail(value: string)
      requires Valid() && currentStep == 1
      modifies this
      ensures Valid()
      ensures formData == old(formData).(email := value)
      ensures currentStep == old(currentStep) && dragActive == old(dragActive) && route == old(route)
    {
      formData := formData.(email := value);
    }

    /** The profession radio group (rendered at step 1). */
    method SetProfession(value: string)
      requires Valid() && currentStep == 1
      modifies this
      ensures Valid()
      ensures formData == old(formData).(profession := value)
      ensures currentStep == old(currentStep) && dragActive == old(dragActive) && route == old(route)
    {
      formData := formData.(profession := value);
    }

    /** The specialty input (rendered at step 1). */
    method SetSpecialty(value: string)
      requires Valid() && currentStep == 1
      modifies this
      ensures Valid()
      ensures formData == old(formData).(specialty := value)
      ensures currentStep == old(currentStep) && dragActive == old(dragActive) && route == old(route)
    {
      formData := formData.(specialty := value);
    }

    /** The desired-elements text area: an edit whose JavaScript length
        (UTF-16 code units) exceeds 500 is dropped and the old text stays. */
    method SetDesiredElements(value: string)
      requires Valid() && currentStep == 1
      modifies this
      ensures Valid()
      ensures Utf16Length(value) <= MaxDesiredElements ==> formData == old(formData).(desiredElements := value)
      ensures Utf16Length(value) > MaxDesiredElements ==> formData == old(formData)
      ensures currentStep == old(currentStep) && dragActive == old(dragActive) && route == old(route)
    {
      if Utf16Length(value) <= MaxDesiredElements {
        formData := formData.(desiredElements := value);
      }
    }

    /** `handleNext`. */
    method HandleNext()
      requires Valid()
      modifies this
      ensures Valid()
      ensures currentStep == NextStep(old(currentStep), old(formData))
      ensures formData == old(formData) && dragActive == old(dragActive) && route == old(route)
    {
      if currentStep == 1 && CanProceedStep1(formData) {
        currentStep := 2;
      } else if currentStep == 2 && CanProceedStep2(formData) {
        currentStep := 3;
      }
    }

    /** The "Voltar" buttons of steps 2 and 3: one step back. */
    method Back()
      requires Valid() && currentStep >= 2
      modifies this
      ensures Valid()
      ensures currentStep == old(currentStep) - 1
      ensures formData == old(formData) && dragActive == old(dragActive) && route == old(route)
    {
      if currentStep == 2 {
        currentStep := 1;
      } else {
        currentStep := 2;
      }
    }

    /** `handleDrag`: entering or hovering highlights the drop zone,
        leaving clears it, any other event changes nothing. */
    method HandleDrag(eventType: string)
      requires Valid()
      modifies this
      ensures Valid()
      ensures dragActive == if eventType == "dragenter" || eventType == "dragover" then true
                            else if eventType == "dragleave" then false
                            else old(dragActive)
      ensures currentStep == old(currentStep) && formData == old(formData) && route == old(route)
    {
      if eventType == "dragenter" || eventType == "dragover" {
        dragActive := true;
      } else if eventType == "dragleave" {
        dragActive := false;
      }
    }

    /** `handleDrop` (the drop zone is rendered at step 2): when at least
        one file was dropped, its images are appended after the current
        photos; the highlight is cleared in every case. */
    method HandleDrop(dropped: seq<File>)
      requires Valid() && currentStep == 2
      modifies this
      ensures Valid()
      ensures !dragActive
      ensures formData.photos == if |dropped| > 0 then old(formData.photos) + Filter(dropped, IsImage())
                                 else old(formData.photos)
      ensures formData == old(formData).(photos := formData.photos)
      ensures currentStep == old(currentStep) && route == old(route)
    {
      dragActive := false;
      if |dropped| > 0 {
        var files := Filter(dropped, IsImage());
        formData := formData.(photos := formData.photos + files);
      }
    }

    /** `handleFileInput` (rendered at step 2): every selected file is
        appended after the current photos. */
    method HandleFileInput(files: Option<seq<File>>)
      requires Valid() && currentStep == 2
      modifies this
      ensures Valid()
      ensures formData.photos == old(formData.photos) + files.GetOr([])
      ensures formData == old(formData).(photos := formData.photos)
      ensures currentStep == old(currentStep) && dragActive == old(dragActive) && route == old(route)
    {
      if files.Some? {
        formData := formData.(photos := formData.photos + files.value);
      }
    }

    /** `removePhoto` (the × buttons of step 2). */
    method RemovePhoto(index: int)
      requires Valid() && currentStep == 2
      modifies this
      ensures Valid()
      ensures formData == old(formData).(photos := WithoutIndex(old(formData.photos), index))
      ensures currentStep == old(currentStep) && dragActive == old(dragActive) && route == old(route)
    {
      var newPhotos := WithoutIndex(formData.photos, index);
      formData := formData.(photos := newPhotos);
    }

    /** `handleSubmit` (the confirmation button of step 3): posts the
        form's body; on an ok answer the page goes to the results of the
        new submission (`undefined` when the body has no identifier). */
    method HandleSubmit(outcome: SubmitOutcome) returns (request: Form)
      requires Valid() && currentStep == 3
      modifies this
      ensures Valid()
      ensures request == SubmitForm(formData)
      ensures route == if outcome.Answered? && IsOk(outcome.status)
                       then Some(ResultsPath + outcome.submissionId.GetOr("undefined"))
                       else old(route)
      ensures currentStep == old(currentStep) && formData == old(formData) && dragActive == old(dragActive)
    {
      request := BuildSubmitForm(formData);
      if outcome.Answered? && IsOk(outcome.status) {
        route := Some(ResultsPath + outcome.submissionId.GetOr("undefined"));
      }
    }
  }

  /** A photo removal deletes exactly the chosen thumbnail: the photos
      before it and after it stay, in order. */
  lemma RemovePhotoSplices(photos: seq<File>, index: nat)
    requires index < |photos|
    ensures WithoutIndex(photos, index) == photos[..index] + photos[index + 1..]
    ensures |WithoutIndex(photos, index)| == |photos| - 1
  {
    WithoutIndexIsSplice(photos, index);
  }

  /** A drop keeps exactly the dropped images, in drop order. */
  lemma DropKeepsImagesOnly(dropped: seq<File>, f: File)
    ensures multiset(Filter(dropped, IsImage()))[f] ==
      if StartsWith(f.mimeType, ImageTypePrefix) then multiset(dropped)[f] else 0
  {
    FilterMultiplicity(dropped, IsImage(), f);
  }

  /** The wizard can reach the confirmation step only through both guards:
      from a fresh page, two `HandleNext` calls reach step 3 exactly when
      both hold of the data. */
  lemma TwoStepsNeedBothGuards(d: FormData)
    ensures NextStep(NextStep(1, d), d) == 3 <==> CanProceedStep1(d) && CanProceedStep2(d)
  {
  }
}
