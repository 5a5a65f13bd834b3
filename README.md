# Admin pages of the village portal: a Dafny model

This project models the two administrative pages of the village portal's
frontend:

- the **document-template page** ("format surat"), where staff upload
  `.doc`/`.docx`/`.pdf` templates, search the list, delete templates, open a
  template's file (recording the download) and view a template's monthly
  download statistics;
- the **banner-image page**, where staff replace the homepage banner with a
  JPEG, PNG or WebP image.

Each page is a class whose fields are the page's state cells, and each
handler is a method that updates them step by step. Every awaited remote call
is one atomic step, and its outcome is a method parameter of type
`Reply<T>`: `Ok(value)` or `Fail(message)`. `message` holds the rejection's
message when the rejection is an `Error`. Toasts, opened tabs and the remote
requests themselves are appended, in order, to an `effects` field. Each
method's contract states the whole new state with a `State()` snapshot, so it
says what changes on each path and that nothing else does. Where a handler's
pending state matters (the deleting mark, the loading and uploading flags,
the selection during a statistics fetch), the method returns that value at
the await point as a ghost out-parameter.

The pure parts are functions with lemmas:

- the upload schema (`SuratValidation`);
- the banner file check (`IndexImage.ValidateFile`);
- the search filter, proved to be an order-preserving subsequence that drops
  exactly the non-matching templates (`SuratList`);
- the normalisation of a statistics result (`SuratList.NormalizeStats`).

Modules:

- `Common`: shared types and helpers (Option, Reply, Toast, Principal, ASCII lower-casing, substring search);
- `SuratValidation`: the upload schema;
- `SuratList`: the template list, the filter and the statistics;
- `SuratPage`: the template page;
- `IndexImage`: the banner page;
- `PageComparison`: how the two pages' checks and gates differ.

Behaviours of the code worth knowing:

- **Check order.** The template form checks the file's size before its type
  (`src/app/admin/surat/page.tsx:96-110`). So an oversized file of the wrong
  type gets the size message (`SizeCheckedBeforeType`). The banner page
  checks type first (`TypeCheckedBeforeSize`, `CheckOrdersDiffer`).
- **Both issues reported.** The schema is an object schema, so an empty name
  and a bad file are both reported (`Validate` returns up to two issues).
  Only within the file field does the first failure win.
- **Render gates.** Both pages call the session hook with its admin flag
  (`src/app/admin/surat/page.tsx:117`, `src/app/admin/index-image/page.tsx:26`),
  and the hook redirects a non-ADMIN user away. Only the banner page also
  checks the role in its own render gate (`src/app/admin/index-image/page.tsx:102`);
  the template page's gate checks only that a user is present
  (`src/app/admin/surat/page.tsx:287`) (`GatesDiffer`). The hook's redirect
  is not modelled, so in the model a USER principal still renders the
  template page and triggers the list fetch in `Mount`.
- **Refresh failure after a successful mutation.** `fetchFormatSurat` handles
  its own failure. So a successful upload or deletion still clears the form
  (or the analytics selection) and raises the success toast when the refresh
  after it fails. The list is then left as it was.
- **Transiently unfiltered view.** A successful refresh sets the filtered view
  to the whole returned list. The filter effect re-filters it afterwards
  (`ApplyFilter`). The two agree at once when the query is empty
  (`FetchFormatSurat`'s second ensures).

## Model

| member | source | states |
|---|---|---|
| SuratValidation.FileIssue | src/app/admin/surat/page.tsx:84-111 | at most one file issue: missing file, else size over 5,242,880 bytes, else type outside the three-MIME allow-list; none exactly when the file is present, within the size limit and of an allowed type |
| SuratValidation.Validate | src/app/admin/surat/page.tsx:82-112 | no issue iff the name is non-empty and the file is acceptable; the name issue is reported iff the name is empty, independently of the file issue; at most two issues, the name's first, and exactly one per failing field |
| SuratValidation.MessagesDistinct | src/app/admin/surat/page.tsx:83-108 | the four issues show four different inline messages |
| SuratValidation.SizeCheckedBeforeType | src/app/admin/surat/page.tsx:96-110 | a file that is both oversized and of the wrong type gets the size issue and only that one |
| SuratValidation.BoundaryFileAccepted | src/app/admin/surat/page.tsx:75-80 | a named file of exactly 5,242,880 bytes of any of the three allowed types passes |
| SuratValidation.EmptyNameRejected | src/app/admin/surat/page.tsx:83 | an empty name is always rejected, with the name issue reported first |
| SuratList.Filter | src/app/admin/surat/page.tsx:206-211 | the view is no longer than the list; it keeps only templates of the list whose lower-cased name contains the lower-cased query, and keeps every such template |
| SuratList.FilterIsSubsequence | src/app/admin/surat/page.tsx:207-209 | the view is an order-preserving subsequence of the list |
| SuratList.FilterCounts | src/app/admin/surat/page.tsx:207-209 | each template occurs in the view as often as in the list if it matches the query, and not at all otherwise |
| SuratList.FilterEmptyQuery | src/app/admin/surat/page.tsx:207-209 | an empty query keeps the whole list |
| SuratList.FilterIdempotent | src/app/admin/surat/page.tsx:207-209 | filtering the view again with the same query changes nothing |
| SuratList.FindById | src/app/admin/surat/page.tsx:171 | finds nothing iff no template has the id; otherwise finds the first template with that id |
| SuratList.NormalizeStats | src/app/admin/surat/page.tsx:164-182 | the stored series is never empty; an empty or missing result becomes one point for the current month and year; a non-empty result is kept verbatim |
| SuratList.SyntheticPointCount | src/app/admin/surat/page.tsx:171-179 | the synthetic point counts the total downloads of the first loaded template with that id; a missing and an empty result are treated alike |
| SuratList.SyntheticPointUnknownId | src/app/admin/surat/page.tsx:177 | with no loaded template of that id the synthetic point counts 0, for a missing and for an empty result alike |
| SuratList.EmptyHistoryScenario | src/app/admin/surat/page.tsx:164-179 | a template with 7 downloads and no history in March 2024 yields the single point (March, 2024, 7) |
| SuratPage.WithReason | src/app/admin/surat/page.tsx:142-145 | a failure text starts with the generic text; without a message it is the generic text, with one it is the generic text followed by ": " and exactly that message |
| SuratPage.AdminSuratPage.constructor | src/app/admin/surat/page.tsx:118-134 | the initial state cells: empty lists, loading, empty query, nothing selected or deleting, empty form |
| SuratPage.AdminSuratPage.FetchFormatSurat | src/app/admin/surat/page.tsx:136-154 | success sets list and view to the returned list; failure keeps both and raises the load-failure toast with the error's message; loading ends either way; nothing else changes; with an empty query the view is then already the filtered list |
| SuratPage.AdminSuratPage.Mount | src/app/admin/surat/page.tsx:201-204 | without a user nothing happens; with one the list is fetched |
| SuratPage.AdminSuratPage.ApplyFilter | src/app/admin/surat/page.tsx:206-211 | the view becomes the filter of the list by the query; the list and every other cell are unchanged |
| SuratPage.AdminSuratPage.SetSearchQuery | src/app/admin/surat/page.tsx:473 | the query is stored and the view is the filter of the unchanged list by it |
| SuratPage.AdminSuratPage.EditName | src/app/admin/surat/page.tsx:390-405 | only the form's name changes |
| SuratPage.AdminSuratPage.ChooseFile | src/app/admin/surat/page.tsx:418-423 | the form's file becomes the selection; the selected-file display changes only when a file was chosen |
| SuratPage.AdminSuratPage.OnSubmit | src/app/admin/surat/page.tsx:213-236 | no file: nothing changes; upload failure: only the request and the failure toast, list, view and selected file unchanged; upload success: the list is refreshed, the form reset, the selected file cleared and the success toast raised |
| SuratPage.AdminSuratPage.SubmitForm | src/app/admin/surat/page.tsx:387 | the issues are the schema's; with any issue nothing changes and no request is made; otherwise the form has a file and the whole new state is `onSubmit`'s: upload failure adds only the request and the failure toast; upload success refreshes the list and view, ends loading, resets the form, clears the selected file and raises the success toast, nothing else changing |
| SuratPage.AdminSuratPage.StartDelete | src/app/admin/surat/page.tsx:238-241 | the deleting mark is the id while the delete request is sent; nothing else changes |
| SuratPage.AdminSuratPage.FinishDelete | src/app/admin/surat/page.tsx:241-259 | failure: only the failure toast; success: list refreshed, the analytics selection and series cleared exactly when they showed the id, success toast; the deleting mark is cleared in both cases |
| SuratPage.AdminSuratPage.HandleDelete | src/app/admin/surat/page.tsx:238-260 | the deleting mark is the id while pending and cleared afterwards; on failure the list, view and analytics are unchanged; on success the analytics state changes only if it showed the id |
| SuratPage.AdminSuratPage.StartStats | src/app/admin/surat/page.tsx:159-161 | the loading flag is raised and the statistics request is sent |
| SuratPage.AdminSuratPage.FinishStats | src/app/admin/surat/page.tsx:161-195 | a result is stored normalised; a failure keeps the series and raises the failure toast; loading ends |
| SuratPage.AdminSuratPage.FetchDownloadStats | src/app/admin/surat/page.tsx:157-198 | loading is raised while pending and lowered after; the series is the normalised result, or unchanged on failure; nothing else changes |
| SuratPage.AdminSuratPage.HandleShowStats | src/app/admin/surat/page.tsx:279-285 | the template is selected before and during the fetch, then its statistics are fetched |
| SuratPage.AdminSuratPage.HandleDownload | src/app/admin/surat/page.tsx:262-277 | the download is tracked and the file's URL opened exactly once whether tracking fails or not; statistics are fetched again iff tracking succeeded and the template is the selected one |
| SuratPage.UploadScenario | src/app/admin/surat/page.tsx:213-236 | uploading a valid 1 MB PDF named "Surat Domisili" leaves the store's listed template in the list |
| SuratPage.OversizedScenario | src/app/admin/surat/page.tsx:96-102 | a 6 MB PDF gets the size issue and the store is never called |
| SuratPage.DeleteSelectedScenario | src/app/admin/surat/page.tsx:243-246 | deleting the template whose statistics are shown clears the selection and the series, and the deleting mark |
| IndexImage.ValidateFile | src/app/admin/index-image/page.tsx:55-63 | a type outside JPEG/PNG/WebP gets the type error whatever the size; an accepted type over 5,242,880 bytes gets the size error; no error iff accepted type and within the limit |
| IndexImage.TypeCheckedBeforeSize | src/app/admin/index-image/page.tsx:56-58 | an oversized file of the wrong type gets the type message, not the size message |
| IndexImage.RendersOnlyForAdmin | src/app/admin/index-image/page.tsx:102-104 | the page renders iff a user is present whose role is ADMIN |
| IndexImage.IndexImagePage.constructor | src/app/admin/index-image/page.tsx:28-31 | no banner, loading, not uploading, no error |
| IndexImage.IndexImagePage.FetchBanner | src/app/admin/index-image/page.tsx:33-53 | success shows the banner and clears the error; failure keeps the banner, stores the error text and raises a toast; loading ends |
| IndexImage.IndexImagePage.HandleFileChange | src/app/admin/index-image/page.tsx:65-100 | no file: nothing changes; a failing file: only the error toast, no upload, banner, flags and error unchanged; otherwise the uploading flag is raised while pending and lowered after, success replaces the banner and leaves the error cleared, failure keeps the banner and stores the error text |
| PageComparison.SameSizeCeiling | src/app/admin/index-image/page.tsx:22 | both pages cap uploads at 5,242,880 bytes |
| PageComparison.CheckOrdersDiffer | src/app/admin/surat/page.tsx:96-110 | an oversized file neither page accepts gets the size issue on the template page and the type error on the banner page |
| PageComparison.GatesDiffer | src/app/admin/surat/page.tsx:287 | the template page renders for any signed-in user, the banner page only for an ADMIN; neither renders without a user |

## Left out

- Rendering (JSX, animation, the bar chart, icons) and the rounding of counts in the chart's tooltip and labels. `downloadCount` is an integer here.
- The current date and its Indonesian month name. `FinishStats`, `FetchDownloadStats`, `HandleShowStats` and `HandleDownload` take the month name and the year as parameters.
- Unicode case mapping. `toLowerCase` is modelled as ASCII lower-casing (`Common.Lower`), and string lengths count characters, not UTF-16 code units.
- The remote calls, `FormData` construction, `window.open`, toasts and `console.error`. Each call is a `Reply` parameter. Requests, opened tabs and toasts are recorded as effects. The tracking failure's console log is not recorded.
- The API modules of templates and banners are not part of this model. A template keeps only the fields the handlers read (`id`, `nama`, `downloadUrl`, `totalDownloads`); the displayed `createdAt` and `updatedAt` are omitted. The banner is an opaque record.
- Interleaving of handlers. Each handler runs to completion, with every await one atomic step. So the following are not modelled:
  - the disabled submit button while a submission is pending;
  - two deletions in flight over the single deleting mark;
  - results discarded after unmount;
  - stale values captured by `useCallback` closures. The model reads the current `selectedFormatId` and list.
- React's scheduling of effects. The filter effect is the explicit `ApplyFilter`, which `SetSearchQuery` runs. After a refresh it runs when the caller invokes it.
- The session hook's storage access and redirects (`src/hooks/useAuth.ts`), including the redirect of a non-ADMIN user to the unauthorized page. The resolved principal is an input. `src/api/userApi.ts` and `src/app/(admin)/template.tsx` hold no logic of the core.
- The file input's `accept` attribute, a browser-side pre-filter. Files are taken as given.
- IndexImagePage.HandleFileChange: the stored error text is the error's message as given, which the code does not check for emptiness. So the model does not promise a non-empty error on failure. It is non-empty when the rejection is not an `Error`.
