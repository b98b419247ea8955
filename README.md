# fotografiaclub — a Dafny model of the submission workflow

fotografiaclub (Fotograf-IA) is a Next.js application. A signed-in professional fills in a
three-step wizard: personal details, at least five photos, then confirmation. The
server records a submission in the initial `awaiting_photo` status. An operator signs in
to an admin console with a shared password, lists every submission newest first, marks
one as processing, and uploads the processed photos. The customer's results page shows
a waiting screen while the submission is queued or in progress. Once the work is done it
shows the processed photos, of which only the first is free; a click on a locked one
opens a paywall.

The model covers the application's own logic, one Dafny module per source file:

| module | source file | form |
|---|---|---|
| `FormWizard` | `app/form/page.tsx` | class `FormPage` for the component state; functions for the guards, the posted body and the counts shown |
| `SubmissionsRoute` | `app/api/submissions/route.ts` | functions: POST and GET as decisions over the answers of the identity provider, the body parser and the record store |
| `ResultsPage` | `app/results/page.tsx` | class `ResultsState`; function `Render` for the page's choice of view |
| `AdminConsole` | `app/admin/page.tsx` | class `ConsolePage`; functions for the badge table, the cards and the PATCH bodies |
| `AdminLogin` | `app/admin/login/page.tsx` | class `LoginPage` |
| `AuthActions` | `lib/actions.ts` (with the message boxes of `app/login/page.tsx` and `app/cadastro/page.tsx`) | functions |
| `RouteGuard` | `proxy.ts` | class `ProxyState` for the cookie copying; a predicate for the protected paths |

Shared modules:
- `Multipart` models a multipart body as a list of key/value entries. `Get` returns the first value under a key, as `FormData.get` does.
- `Sequences` holds the `filter` callbacks that the pages use.
- `Records` holds the submission and photo records.
- `Text` holds `startsWith` and the decimal printing of an index.
- `Browser` models local storage, reduced to the `isAdmin` flag.
- `Wrappers` holds `Option`.

Every external call becomes a parameter. These include the identity provider (`getUser`,
`getSession`, `signUp`, `signInWithPassword`), the record store (the insert and the
nested select) and every `fetch`. A parameter is either an outcome datatype naming what
the call can return or throw, or a function standing for the service. The form wizard's
field-editing methods require the step at which their control is rendered. The class
invariant `FormPage.Valid` follows from this: a later step always holds data its guards
admitted.

Three behaviours of the code that the model keeps as they are:
- A created submission is stored with the status `awaiting_photo`.
- A successful POST answers 200 with `{ success: true, submissionId }`.
- The results page treats `pending_drive_link` as a waiting status and `awaiting_photo` as done, so a new submission shows an empty gallery.

## Model

| member | source | states |
|---|---|---|
| Text.NatToString | app/form/page.tsx:109-111 | an index prints as a non-empty string of decimal digits, one digit exactly below ten |
| Text.NatToStringInjective | app/form/page.tsx:109-111 | two indices that print the same are equal, so `photo-i` keys never collide |
| Text.Utf16Length | app/form/page.tsx:321 | a text's JavaScript `length` counts UTF-16 code units: at least its number of characters and at most twice that, and equal to it exactly when every character lies in the Basic Multilingual Plane |
| Text.AstralCountsTwice | app/form/page.tsx:321 | a text made only of characters beyond the Basic Multilingual Plane (emoji) has a `length` of twice its number of characters |
| Text.IndexedKeysDistinct | app/admin/page.tsx:79-81 | `${prefix}${i}` keys for distinct indices are distinct |
| Multipart.Get | app/api/submissions/route.ts:21-24 | `formData.get(key)` is absent exactly when no entry has the key, and is otherwise the value of the first entry with that key |
| Multipart.AppendIndexed | app/form/page.tsx:109-111 | the `forEach` loop appends one `prefix-i` entry per file, in order, after the existing entries |
| Multipart.GetIndexed | app/admin/page.tsx:79-81 | after the loop, reading `prefix-i` gives back the i-th file, when no earlier entry had that key |
| Sequences.Filter | app/form/page.tsx:70-72 | `filter` keeps exactly the elements that pass the test and is no longer than its input |
| Sequences.FilterConcat | app/form/page.tsx:75 | filtering a concatenation concatenates the filtered parts, so order is preserved |
| Sequences.FilterMultiplicity | app/results/page.tsx:112-114 | a kept element appears as often as in the input; a rejected one does not appear |
| Sequences.FilterAll | app/form/page.tsx:70-72 | when every element passes, the filter returns the list unchanged |
| Sequences.WithoutIndexIsSplice | app/form/page.tsx:86-89 | `filter((_, i) => i !== index)` is the list with position `index` cut out, or the whole list when `index` is out of range |
| Records.PhotosOfKind | app/results/page.tsx:112-114 | the list holds only photos of the given `photo_type`, and holds every photo of that type |
| Records.PhotosOfKindExact | app/results/page.tsx:112-114 | each photo of the type appears as often as in the submission; photos of other types never appear |
| Records.PhotosOfKindConcat | app/admin/page.tsx:199-200 | the photo-type filter keeps the photos' order |
| Records.OriginalAndProcessedPartition | app/admin/page.tsx:199-200 | the original and processed lists are disjoint and together hold every original or processed photo; a photo of any other type is in neither |
| FormWizard.NextStep | app/form/page.tsx:130-136 | the next step is the same step or one more. It is one more exactly when step 1's text fields are all non-empty, or step 2 has at least five photos. Step 3 stays put |
| FormWizard.TwoStepsNeedBothGuards | app/form/page.tsx:91-97 | from step 1, two moves reach step 3 exactly when both guards hold |
| FormWizard.MissingPhotosHint | app/form/page.tsx:407-411 | the "Faltam k" note appears exactly when 0 < n < 5, and then k = 5 − n |
| FormWizard.Thumbnails | app/form/page.tsx:528 | the confirmation step shows the first min(n, 8) photos |
| FormWizard.OverflowNote | app/form/page.tsx:541-545 | the "+k" note appears exactly when n > 8 |
| FormWizard.ConfirmationCountsEveryPhoto | app/form/page.tsx:528-545 | the thumbnails plus the "+k" note account for every photo |
| FormWizard.BuildSubmitForm | app/form/page.tsx:102-111 | the posted body is the five text fields, then one `photo-i` entry per photo: 5 + n entries |
| FormWizard.SubmitFormTextFields | app/form/page.tsx:103-107 | the posted body gives back each text field under its key |
| FormWizard.SubmitFormPhoto | app/form/page.tsx:109-111 | the posted body gives back the i-th photo under `photo-i` |
| FormWizard.FormPage.constructor | app/form/page.tsx:35-44 | the page opens at step 1 with an empty form, satisfying the invariant |
| FormWizard.FormPage.SetName | app/form/page.tsx:243 | the name input replaces the name and nothing else |
| FormWizard.FormPage.SetEmail | app/form/page.tsx:259 | the e-mail input replaces the e-mail and nothing else |
| FormWizard.FormPage.SetProfession | app/form/page.tsx:270 | the profession choice replaces the profession and nothing else |
| FormWizard.FormPage.SetSpecialty | app/form/page.tsx:303 | the specialty input replaces the specialty and nothing else |
| FormWizard.FormPage.SetDesiredElements | app/form/page.tsx:320-327 | an edit whose `length` (UTF-16 code units) is at most 500 is taken; a longer one is dropped and the old text stays, keeping the 500-unit bound |
| FormWizard.FormPage.HandleNext | app/form/page.tsx:130-136 | the step becomes `NextStep` of the old step and data; nothing else changes |
| FormWizard.FormPage.Back | app/form/page.tsx:439 | the back buttons of steps 2 and 3 move exactly one step back and keep the data |
| FormWizard.FormPage.HandleDrag | app/form/page.tsx:56-64 | enter and over highlight the drop zone, leave clears it, other events change nothing |
| FormWizard.FormPage.HandleDrop | app/form/page.tsx:66-77 | when any file was dropped, the dropped images are appended after the current photos, in drop order. The highlight is cleared in every case |
| FormWizard.FormPage.HandleFileInput | app/form/page.tsx:79-84 | every chosen file is appended after the current photos |
| FormWizard.FormPage.RemovePhoto | app/form/page.tsx:86-89 | the photo list loses the element at `index`; every other field is unchanged |
| FormWizard.FormPage.HandleSubmit | app/form/page.tsx:99-128 | the request is the full posted body. On an ok answer the page goes to `/results?id=<id>` (`undefined` without an id); otherwise nothing changes |
| FormWizard.RemovePhotoSplices | app/form/page.tsx:86-89 | removal keeps the photos before and after the removed one, in order, one fewer in all |
| FormWizard.DropKeepsImagesOnly | app/form/page.tsx:70-72 | a drop keeps each `image/` file as often as it was dropped and no other file |
| SubmissionsRoute.NewRecord | app/api/submissions/route.ts:33-44 | the record's owner, e-mail and phone come from the session. Its name, specialty (the profession), user specialty and desired elements are the form's values. Its status is `awaiting_photo` |
| SubmissionsRoute.CatchResponse | app/api/submissions/route.ts:61-75 | a thrown error with a `code` gives 500 "Database error: " + its message (or its JSON); anything else gives 500 "Failed to create initial submission" |
| SubmissionsRoute.HandlePost | app/api/submissions/route.ts:7-76 | no user gives 401. A missing or empty field gives 400, with no insert. Otherwise the record is inserted: success gives 200 with the new id. A thrown `getUser`, a thrown body parse and a failed insert all give the catch block's answer for that error |
| SubmissionsRoute.UnauthorizedIgnoresBodyAndStore | app/api/submissions/route.ts:15-17 | without a user the answer is 401, whatever the body and the store would do |
| SubmissionsRoute.WizardBodyAccepted | app/api/submissions/route.ts:19-44 | a body the wizard posts after its step-1 guard passes validation and inserts the wizard's values, owned by the session user |
| SubmissionsRoute.InsertNewestFirstSorted | app/api/submissions/route.ts:93 | placing a row into a newest-first list keeps it newest first |
| SubmissionsRoute.InsertNewestFirstAddsRow | app/api/submissions/route.ts:93 | placing a row adds exactly that row |
| SubmissionsRoute.OrderByCreatedAtDescCorrect | app/api/submissions/route.ts:93 | the ordered listing is newest first and a permutation of the table |
| SubmissionsRoute.HandleGet | app/api/submissions/route.ts:79-104 | the tables give 200 whose i-th submission is the i-th row of the newest-first ordering with its photos nested; a client or query failure gives 500 "Failed to fetch submissions" |
| SubmissionsRoute.ListingNewestFirst | app/api/submissions/route.ts:93 | the listing is ordered by `created_at`, newest first |
| SubmissionsRoute.ListingOwnPhotos | app/api/submissions/route.ts:85-91 | each listed submission carries exactly the photos that reference it, in table order |
| SubmissionsRoute.ListingIsTheTable | app/api/submissions/route.ts:85-97 | every row of the table is listed, and every listed submission is a row of the table |
| ResultsPage.WaitingTextsAgree | app/results/page.tsx:147-179 | the title and the status line split the statuses the same way, three ways |
| ResultsPage.OnlyFirstPhotoIsFree | app/results/page.tsx:246 | among n gallery photos, the free ones are none (n = 0) or exactly the first |
| ResultsPage.Render | app/results/page.tsx:80-124 | spinner iff loading; "not found" iff no submission. The waiting screen shows iff the status is pending, processing or pending_drive_link, with its title and line. Otherwise the gallery shows the processed photos, each locked iff its index > 0, with the paywall iff it is open and there are photos |
| ResultsPage.Fetched | app/results/page.tsx:54-72 | a submission is kept only from an ok answer that carries one |
| ResultsPage.ResultsState.constructor | app/results/page.tsx:42-44 | the page starts loading, with no submission and the paywall closed |
| ResultsPage.ResultsState.Load | app/results/page.tsx:46-72 | without an id nothing is fetched. With one, `/api/submissions/<id>` is fetched and the submission is the ok answer's, else null. Loading is over in every case |
| ResultsPage.ResultsState.HandlePhotoClick | app/results/page.tsx:74-78 | a locked photo opens the paywall, the free one changes nothing |
| ResultsPage.ResultsState.OpenPaywall | app/results/page.tsx:503 | the call-to-action opens the paywall |
| ResultsPage.ResultsState.ClosePaywall | app/results/page.tsx:325 | the close button closes the paywall |
| ResultsPage.FirstClickOpensPaywallIffLocked | app/results/page.tsx:46-78 | loading a submission that is done and clicking the photo at `index` renders the gallery, where that photo is locked and the paywall card open exactly when `index` > 0 |
| AdminConsole.StatusLabel | app/admin/page.tsx:120-136 | a badge label exists exactly for pending, processing and completed |
| AdminConsole.StatusLabelsDistinct | app/admin/page.tsx:126-130 | distinct statuses in the table get distinct labels |
| AdminConsole.BuildUploadForm | app/admin/page.tsx:76-81 | the upload body is `status`, then one `processed-i` entry per selected file: 1 + n entries |
| AdminConsole.UploadFormReadsBack | app/admin/page.tsx:76-81 | the upload body gives back `completed` under `status` and the i-th file under `processed-i` |
| AdminConsole.UpdateStatusRequest | app/admin/page.tsx:102-110 | `updateStatus` patches `/api/submissions/<id>` with exactly one field, `status`, holding the given value |
| AdminConsole.Toggle | app/admin/page.tsx:219 | the details button selects the card iff it was not the selected one, and otherwise deselects it |
| AdminConsole.Card | app/admin/page.tsx:199-340 | a card shows the two photo-type lists and is open iff selected. "processing" is disabled iff the status is processing; upload is disabled iff nothing is chosen or an upload runs |
| AdminConsole.ConsolePage.constructor | app/admin/page.tsx:29-35 | the console starts unauthenticated and loading, with nothing selected |
| AdminConsole.ConsolePage.CheckAdmin | app/admin/page.tsx:37-44 | unless the stored flag is exactly "true" the page goes to `/admin/login`; otherwise it is authenticated |
| AdminConsole.ConsolePage.HandleLogout | app/admin/page.tsx:138-141 | logout removes the flag and goes to `/admin/login`; every other piece of console state is unchanged |
| AdminConsole.ConsolePage.FetchSubmissions | app/admin/page.tsx:52-62 | an answer replaces the list (by [] without one); a thrown error keeps it; loading ends |
| AdminConsole.ConsolePage.HandleFileSelect | app/admin/page.tsx:64-69 | a new choice of files replaces the previous one |
| AdminConsole.ConsolePage.ToggleDetails | app/admin/page.tsx:219 | the selected card becomes `Toggle` of the old one |
| AdminConsole.ConsolePage.HandleUploadProcessed | app/admin/page.tsx:71-100 | with nothing chosen, nothing is sent and nothing changes. Otherwise the upload body is sent; an ok answer empties the choice and closes the card; the uploading flag is down in every case |
| AdminConsole.LoginOpensConsole | app/admin/login/page.tsx:20-26 | typing the password and logging in lets a newly opened console through its gate |
| AdminConsole.LogoutClosesConsole | app/admin/page.tsx:138-141 | after a logout a newly opened console is sent back to the login, whatever the flag was |
| AdminLogin.LoginPage.constructor | app/admin/login/page.tsx:12-13 | the page starts with an empty password and no error |
| AdminLogin.LoginPage.OnPasswordChange | app/admin/login/page.tsx:49-52 | typing stores the text and clears the error |
| AdminLogin.LoginPage.HandleLogin | app/admin/login/page.tsx:16-29 | exactly "admin123" stores `isAdmin = "true"` and goes to `/admin`. Anything else sets "Senha incorreta" and leaves the flag alone |
| AdminLogin.NearMissRefused | app/admin/login/page.tsx:22-28 | on a fresh page, every password other than exactly "admin123" is refused: the error shows and no flag is stored |
| AdminLogin.NearMissesDiffer | app/admin/login/page.tsx:22 | a one-character change (its case, say) or a leading or trailing space makes a password other than "admin123", so such near misses are refused |
| AuthActions.Interpolate | lib/actions.ts:43 | a missing field prints as "null" inside the template literal |
| AuthActions.PhoneSplitsBack | lib/actions.ts:43 | the phone is the area code followed by the number, with nothing between or around |
| AuthActions.Signup | lib/actions.ts:30-62 | a password mismatch redirects to `/cadastro?message=password-mismatch` with no call. Otherwise the account is requested with the built phone: rejection gives `signup-error`, success goes to `/login?message=check-email` |
| AuthActions.Login | lib/actions.ts:7-28 | a rejected sign-in goes to `/login?message=invalid-credentials`; an accepted one goes to `/form` |
| AuthActions.LoginPageMessage | app/login/page.tsx:65-71 | the box appears iff the code is non-empty, showing each known code's text |
| AuthActions.SignupPageMessage | app/cadastro/page.tsx:101-106 | the box appears iff the code is non-empty, showing each known code's text |
| AuthActions.EveryMessageIsShown | lib/actions.ts:20-61 | every code the actions put in a redirect gets a non-empty text on its target page |
| RouteGuard.ProtectionIsByPrefix | proxy.ts:46 | any path starting with `/form` or `/results`, such as `/formX`, is protected |
| RouteGuard.PublicPagesUnprotected | proxy.ts:46 | `/`, `/login` and `/cadastro` are not protected |
| RouteGuard.AssignLastWriteWins | proxy.ts:21-23 | after the writes, a cookie name holds the value of the last cookie of that name |
| RouteGuard.AssignKeepsOthers | proxy.ts:21-23 | a name no cookie writes keeps what it had |
| RouteGuard.ProxyState.constructor | proxy.ts:6-10 | the initial response passes the request through as it came |
| RouteGuard.ProxyState.SetAll | proxy.ts:20-34 | every cookie is written into the request. Then a fresh response forwards the updated request, with every cookie set on it with its options |
| RouteGuard.ProxyState.Guard | proxy.ts:39-53 | a protected path without a session is redirected to `/login`; anything else gets the pass-through response, including any refreshed cookies |
| RouteGuard.RefreshedCookieReachesBrowser | proxy.ts:20-53 | when the request passes, each refreshed cookie reaches both the forwarded request and the response with its last value |

## Left out

- Network, promises and rendering. Every `fetch`, `alert` and `console` call, and React's effect scheduling, is left out; each fetch becomes an outcome parameter.
- Transient flags. `isSubmitting` and the `loading` set at the start of a fetch are only visible while a request is in flight.
- The console's refetch after a successful upload or status change is a separate `FetchSubmissions` call in the model. No further state is tied to it.
- `AdminConsole.ConsolePage` has no `updateStatus` method. That handler changes no console state besides the refetch; its request body is `UpdateStatusRequest`.
- Text not modelled: pluralisation ("foto"/"fotos"), badge colours, locale date formatting, and `URL.createObjectURL` previews.
- The results page's refresh link and the static payment and WhatsApp links are not modelled.
- Browser-side form limits. The `required`, `minLength` and `maxLength` attributes of the login and sign-up pages are enforced by the browser, not by this code.
- Lookups of prototype keys. `StatusLabel` treats every status outside the three-entry table as having no label; it does not model object-prototype keys such as `toString` in the label lookup.
- `SubmissionsRoute.HandleGet`: table columns no page reads are left out, and the nested photos are listed in table order. The store leaves both orders unspecified: photos within a submission, and submissions with the same `created_at`. The model places equal timestamps in table order.
- `SubmissionsRoute.HandlePost`: `user.email!` and `user_metadata?.phone` are taken as optional values from the session; row-level security in the store is not modelled.
- `AuthActions.Signup`: form fields are modelled as present or missing strings. A field holding a file is not modelled.
- The auth library's decision to refresh cookies during `getSession` is a parameter of `RouteGuard.ProxyState.Guard`. The framework's route-matcher configuration that selects which requests reach the guard is not modelled.
- The PATCH endpoint for `/api/submissions/<id>` is not part of this model. Status transitions after creation are not modelled; the model covers only the request bodies the console sends.
- Files outside these seven are not part of this model: the landing page, the supabase client helpers and the build configuration.
