/** The `/api/submissions` route. POST creates a submission for the signed-in
    user in the initial `awaiting_photo` status; GET lists every submission,
    newest first, with its photos nested. The identity provider, the form
    parser and the record store are outside the model: their answers are
    parameters. */
module SubmissionsRoute {
  import opened Wrappers
  import opened Multipart
  import opened Records
  import opened Sequences
  import FormWizard

  const InitialStatus: string := "awaiting_photo"
  const UnauthorizedMessage: string := "Unauthorized"
  const MissingFieldsMessage: string := "Missing required form fields"
  const DatabaseErrorPrefix: string := "Database error: "
  const CreateFailedMessage: string := "Failed to create initial submission"
  const FetchFailedMessage: string := "Failed to fetch submissions"

  /** The signed-in user as the identity provider describes it. */
  datatype User = User(id: string, email: Option<string>, phone: Option<string>)

  /** A thrown value: whether it is a non-null object with a `code`
      property, its `message` when that is a string, and its JSON text. */
  datatype Thrown = Thrown(hasCode: bool, message: Option<string>, json: string)

  /** `supabase.auth.getUser()`: the user (null without a session), or a
      thrown error. */
  datatype AuthResult = AuthAnswered(user: Option<User>) | AuthThrew(authError: Thrown)

  /** `request.formData()`: the parsed body, or a thrown error. */
  datatype FormResult = FormParsed(form: Form) | FormThrew(formError: Thrown)

  /** The record store's answer to the insert. */
  datatype InsertResult = Inserted(id: string) | InsertFailed(insertError: Thrown)

  /** The record POST hands to the store. The descriptive fields are the
      form's values as read (`formData.get(...) as string`). */
  datatype NewSubmission = NewSubmission(
    userId: string,
    userName: FormValue,
    userEmail: Option<string>,
    specialty: FormValue,
    userSpecialty: FormValue,
    desiredElements: FormValue,
    phone: Option<string>,
    status: string)

  /** A JSON body. */
  datatype Body =
    | ErrorMessage(error: string)
    | Created(success: bool, submissionId: string)
    | Listing(submissions: seq<Submission>)

  datatype Response = Response(status: int, body: Body)

  /** POST's response, and the record it handed to the store, if any. */
  datatype PostResult = PostResult(response: Response, inserted: Option<NewSubmission>)

  /** JavaScript truthiness of a form value: a missing field and the empty
      string are falsy; any other string, and any file, are truthy. */
  predicate Truthy(v: Option<FormValue>) {
    v.Some? && (v.value.TextValue? ==> v.value.text != "")
  }

  /** The four fields POST requires. */
  predicate HasRequiredFields(form: Form) {
    Truthy(Get(form, "name")) && Truthy(Get(form, "profession")) &&
    Truthy(Get(form, "specialty")) && Truthy(Get(form, "desiredElements"))
  }

  /** The record built from the session and the form: owner and e-mail
      come from the session, the profession is stored as `specialty` and
      the form's specialty as `user_specialty`. */
  function NewRecord(user: User, form: Form): (n: NewSubmission)
    requires HasRequiredFields(form)
    ensures n.userId == user.id && n.userEmail == user.email && n.phone == user.phone
    ensures Some(n.userName) == Get(form, "name")
    ensures Some(n.specialty) == Get(form, "profession")
    ensures Some(n.userSpecialty) == Get(form, "specialty")
    ensures Some(n.desiredElements) == Get(form, "desiredElements")
    ensures n.status == InitialStatus
  {
    NewSubmission(
      user.id,
      Get(form, "name").value,
      user.email,
      Get(form, "profession").value,
      Get(form, "specialty").value,
      Get(form, "desiredElements").value,
      user.phone,
      InitialStatus)
  }

  /** The catch block: an object with a `code` gives "Database error: "
      followed by its string message (or its JSON text); anything else the
      generic failure. Both are 500. */
  function CatchResponse(e: Thrown): (r: Response)
    ensures r.status == 500
    ensures e.hasCode ==> r.body == ErrorMessage(DatabaseErrorPrefix + e.message.GetOr(e.json))
    ensures !e.hasCode ==> r.body == ErrorMessage(CreateFailedMessage)
  {
    if e.hasCode then Response(500, ErrorMessage(DatabaseErrorPrefix + e.message.GetOr(e.json)))
    else Response(500, ErrorMessage(CreateFailedMessage))
  }

  /** POST /api/submissions, with its checks in order: session (401),
      body, required fields (400), insert; a thrown error at any point
      goes to the catch block. */
  function HandlePost(auth: AuthResult, form: FormResult, insert: NewSubmission -> InsertResult): (r: PostResult)
    ensures auth == AuthAnswered(None) ==> r == PostResult(Response(401, ErrorMessage(UnauthorizedMessage)), None)
    ensures r.response.status == 400 <==>
      auth.AuthAnswered? && auth.user.Some? && form.FormParsed? && !HasRequiredFields(form.form)
    ensures r.response.status == 400 ==> r.response.body == ErrorMessage(MissingFieldsMessage)
    ensures r.inserted.Some? <==>
      auth.AuthAnswered? && auth.user.Some? && form.FormParsed? && HasRequiredFields(form.form)
    ensures r.inserted.Some? ==> r.inserted.value == NewRecord(auth.user.value, form.form)
    ensures r.response.status == 200 <==> r.inserted.Some? && insert(r.inserted.value).Inserted?
    ensures r.response.status == 200 ==> r.response.body == Created(true, insert(r.inserted.value).id)
    ensures auth.AuthThrew? ==> r == PostResult(CatchResponse(auth.authError), None)
    ensures auth.AuthAnswered? && auth.user.Some? && form.FormThrew? ==>
      r == PostResult(CatchResponse(form.formError), None)
    ensures r.inserted.Some? && insert(r.inserted.value).InsertFailed? ==>
      r.response == CatchResponse(insert(r.inserted.value).insertError)
    ensures r.response.status in {200, 400, 401, 500}
  {
    match auth
    case AuthThrew(e) => PostResult(CatchResponse(e), None)
    case AuthAnswered(None) => PostResult(Response(401, ErrorMessage(UnauthorizedMessage)), None)
    case AuthAnswered(Some(user)) =>
      match form
      case FormThrew(e) => PostResult(CatchResponse(e), None)
      case FormParsed(fields) =>
        if !HasRequiredFields(fields) then
          PostResult(Response(400, ErrorMessage(MissingFieldsMessage)), None)
        else
          var record := NewRecord(user, fields);
          match insert(record)
          case Inserted(id) => PostResult(Response(200, Created(true, id)), Some(record))
          case InsertFailed(e) => PostResult(CatchResponse(e), Some(record))
  }

  /** Without a session POST answers 401 before it reads the body or
      touches the store: the body and the store's behaviour make no
      difference. */
  lemma UnauthorizedIgnoresBodyAndStore(f1: FormResult, f2: FormResult,
                                        i1: NewSubmission -> InsertResult, i2: NewSubmission -> InsertResult)
    ensures HandlePost(AuthAnswered(None), f1, i1) == HandlePost(AuthAnswered(None), f2, i2)
    ensures HandlePost(AuthAnswered(None), f1, i1).response.status == 401
  {
  }

  /** A body built by the wizard after its first step's guard is accepted:
      the store receives the wizard's values, owned by the session's user,
      in the initial status. The wizard's own e-mail field is not used. */
  lemma WizardBodyAccepted(d: FormWizard.FormData, user: User, insert: NewSubmission -> InsertResult)
    requires FormWizard.CanProceedStep1(d)
    ensures HandlePost(AuthAnswered(Some(user)), FormParsed(FormWizard.SubmitForm(d)), insert).inserted ==
      Some(NewSubmission(user.id, TextValue(d.name), user.email, TextValue(d.profession),
                         TextValue(d.specialty), TextValue(d.desiredElements), user.phone, InitialStatus))
  {
    FormWizard.SubmitFormTextFields(d);
  }

  /** One row of the submissions table, with the columns the pages read. */
  datatype SubmissionRow = SubmissionRow(
    id: string,
    userName: string,
    userEmail: string,
    specialty: string,
    status: string,
    createdAt: int)

  /** The store as GET reaches it: the admin client could not be built,
      the query failed, or the two tables. */
  datatype StoreResult =
    | ClientUnavailable(clientError: Thrown)
    | QueryFailed(queryError: Thrown)
    | Tables(rows: seq<SubmissionRow>, photos: seq<Photo>)

  /** Newest first. */
  predicate NewestFirst(rows: seq<SubmissionRow>) {
    forall i, j :: 0 <= i < j < |rows| ==> rows[i].createdAt >= rows[j].createdAt
  }

  /** One row placed into a newest-first list, before the first row that
      is not newer than it. */
  function InsertNewestFirst(row: SubmissionRow, sorted: seq<SubmissionRow>): (r: seq<SubmissionRow>)
    ensures |r| == |sorted| + 1
  {
    if sorted == [] then [row]
    else if row.createdAt >= sorted[0].createdAt then [row] + sorted
    else [sorted[0]] + InsertNewestFirst(row, sorted[1..])
  }

  /** No row of `rows` is newer than `t`. */
  predicate NoneNewerThan(rows: seq<SubmissionRow>, t: int) {
    forall k :: 0 <= k < |rows| ==> rows[k].createdAt <= t
  }

  /** Inserting adds the row once and nothing else. */
  lemma {:induction false} InsertNewestFirstAddsRow(row: SubmissionRow, sorted: seq<SubmissionRow>)
    ensures multiset(InsertNewestFirst(row, sorted)) == multiset(sorted) + multiset{row}
    decreases |sorted|
  {
    if sorted != [] && row.createdAt < sorted[0].createdAt {
      InsertNewestFirstAddsRow(row, sorted[1..]);
      assert sorted == [sorted[0]] + sorted[1..];
    }
  }

  /** Inserting a row no newer than `t` among rows no newer than `t`
      leaves every row no newer than `t`. */
  lemma {:induction false} InsertNewestFirstBounded(row: SubmissionRow, sorted: seq<SubmissionRow>, t: int)
    requires NoneNewerThan(sorted, t) && row.createdAt <= t
    ensures NoneNewerThan(InsertNewestFirst(row, sorted), t)
    decreases |sorted|
  {
    if sorted != [] && row.createdAt < sorted[0].createdAt {
      InsertNewestFirstBounded(row, sorted[1..], t);
    }
  }

  /** Inserting into a newest-first list keeps it newest first. */
  lemma {:induction false} InsertNewestFirstSorted(row: SubmissionRow, sorted: seq<SubmissionRow>)
    requires NewestFirst(sorted)
    ensures NewestFirst(InsertNewestFirst(row, sorted))
    decreases |sorted|
  {
    var r := InsertNewestFirst(row, sorted);
    if sorted == [] {
    } else if row.createdAt >= sorted[0].createdAt {
      forall i, j | 0 <= i < j < |r| ensures r[i].createdAt >= r[j].createdAt {
        if i == 0 {
          assert r[j] == sorted[j - 1];
        } else {
          assert r[i] == sorted[i - 1] && r[j] == sorted[j - 1];
        }
      }
    } else {
      var tail := sorted[1..];
      InsertNewestFirstSorted(row, tail);
      InsertNewestFirstBounded(row, tail, sorted[0].createdAt);
      var rest := InsertNewestFirst(row, tail);
      assert r == [sorted[0]] + rest;
      forall i, j | 0 <= i < j < |r| ensures r[i].createdAt >= r[j].createdAt {
        if i == 0 {
          assert r[j] == rest[j - 1];
        } else {
          assert r[i] == rest[i - 1] && r[j] == rest[j - 1];
        }
      }
    }
  }

  /** `.order("created_at", { ascending: false })`, as an insertion sort:
      rows with the same timestamp keep their table order. */
  function OrderByCreatedAtDesc(rows: seq<SubmissionRow>): (r: seq<SubmissionRow>)
    ensures |r| == |rows|
  {
    if rows == [] then [] else InsertNewestFirst(rows[0], OrderByCreatedAtDesc(rows[1..]))
  }

  /** The ordered listing is newest first and holds the table's rows, each
      as often as the table does. */
  lemma {:induction false} OrderByCreatedAtDescCorrect(rows: seq<SubmissionRow>)
    ensures NewestFirst(OrderByCreatedAtDesc(rows))
    ensures multiset(OrderByCreatedAtDesc(rows)) == multiset(rows)
    decreases |rows|
  {
    if rows != [] {
      var rest := OrderByCreatedAtDesc(rows[1..]);
      OrderByCreatedAtDescCorrect(rows[1..]);
      InsertNewestFirstSorted(rows[0], rest);
      InsertNewestFirstAddsRow(rows[0], rest);
      assert rows == [rows[0]] + rows[1..];
      assert multiset(rows) == multiset{rows[0]} + multiset(rows[1..]);
    }
  }

  /** The photo filter of the nested `photos (*)` select. */
  function OfSubmission(id: string): Photo -> bool {
    (p: Photo) => p.submissionId == id
  }

  /** A row with its photos nested. */
  function Nest(row: SubmissionRow, photos: seq<Photo>): (s: Submission)
    ensures s.id == row.id && s.status == row.status && s.createdAt == row.createdAt
  {
    Submission(row.id, row.userName, row.userEmail, row.specialty, row.status, row.createdAt,
               Filter(photos, OfSubmission(row.id)))
  }

  /** GET /api/submissions: the listing, or 500 when the client or the
      query fails. The listing holds, in order, each row of the ordered
      table with its photos nested. */
  function HandleGet(store: StoreResult): (r: Response)
    ensures store.Tables? <==> r.status == 200
    ensures !store.Tables? ==> r == Response(500, ErrorMessage(FetchFailedMessage))
    ensures store.Tables? ==> r.body.Listing? && |r.body.submissions| == |store.rows|
    ensures store.Tables? ==> forall i :: 0 <= i < |store.rows| ==>
      r.body.submissions[i] == Nest(OrderByCreatedAtDesc(store.rows)[i], store.photos)
  {
    match store
    case Tables(rows, photos) =>
      var ordered := OrderByCreatedAtDesc(rows);
      OrderByCreatedAtDescCorrect(rows);
      Response(200, Listing(seq(|ordered|, i requires 0 <= i < |ordered| => Nest(ordered[i], photos))))
    case _ => Response(500, ErrorMessage(FetchFailedMessage))
  }

  /** The listing is newest first. */
  lemma ListingNewestFirst(rows: seq<SubmissionRow>, photos: seq<Photo>)
    ensures forall i, j :: 0 <= i < j < |rows| ==>
      HandleGet(Tables(rows, photos)).body.submissions[i].createdAt >=
      HandleGet(Tables(rows, photos)).body.submissions[j].createdAt
  {
    var listing := HandleGet(Tables(rows, photos)).body.submissions;
    var ordered := OrderByCreatedAtDesc(rows);
    OrderByCreatedAtDescCorrect(rows);
    forall i, j | 0 <= i < j < |rows| ensures listing[i].createdAt >= listing[j].createdAt {
      assert listing[i] == Nest(ordered[i], photos) && listing[j] == Nest(ordered[j], photos);
    }
  }

  /** Each listed submission carries exactly the photos that reference it,
      in table order. */
  lemma ListingOwnPhotos(rows: seq<SubmissionRow>, photos: seq<Photo>, i: nat)
    requires i < |rows|
    ensures HandleGet(Tables(rows, photos)).body.submissions[i].photos ==
            Filter(photos, OfSubmission(HandleGet(Tables(rows, photos)).body.submissions[i].id))
  {
  }

  /** The listing is the table: every row is listed, and every listed
      submission is a row with its photos nested. */
  lemma ListingIsTheTable(rows: seq<SubmissionRow>, photos: seq<Photo>)
    ensures forall k :: 0 <= k < |rows| ==>
      exists i :: 0 <= i < |rows| && HandleGet(Tables(rows, photos)).body.submissions[i] == Nest(rows[k], photos)
    ensures forall i :: 0 <= i < |rows| ==>
      exists k :: 0 <= k < |rows| && HandleGet(Tables(rows, photos)).body.submissions[i] == Nest(rows[k], photos)
  {
    var listing := HandleGet(Tables(rows, photos)).body.submissions;
    var ordered := OrderByCreatedAtDesc(rows);
    OrderByCreatedAtDescCorrect(rows);
    forall k | 0 <= k < |rows|
      ensures exists i :: 0 <= i < |rows| && listing[i] == Nest(rows[k], photos)
    {
      assert rows[k] in multiset(ordered);
      var i :| 0 <= i < |ordered| && ordered[i] == rows[k];
      assert listing[i] == Nest(ordered[i], photos);
    }
    forall i | 0 <= i < |rows|
      ensures exists k :: 0 <= k < |rows| && listing[i] == Nest(rows[k], photos)
    {
      assert ordered[i] in multiset(rows);
      var k :| 0 <= k < |rows| && rows[k] == ordered[i];
      assert listing[i] == Nest(rows[k], photos);
    }
  }
}
