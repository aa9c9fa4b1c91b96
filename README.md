# File upload client: a Dafny model

This project models the browser client of a file-upload service backed by S3 storage. The client
consists of:

- a token cache that logs in at most once at a time (`AuthService`);
- a typed wrapper around the file endpoints (`fileUploadApi`): upload an image or an attachment,
  list files, get a signed download URL, delete a file;
- a drop zone that sends a category to the image or the attachment endpoint by testing its name;
- a page that keeps the selected reference, tab and category together with the file list;
- one row per file, with its download and delete actions.

Modules follow the source files:

| module | source |
|---|---|
| `FileTypes` | `src/types/file-upload.ts` |
| `Auth` | `src/lib/api/auth.ts` |
| `FileApi` | `src/lib/api/fileUpload.ts` |
| `UploadWidget` | `src/components/file-upload/FileUpload.tsx` |
| `FileUploadPage` | `src/app/file-upload/page.tsx` |
| `FileItemView` | `src/components/file-upload/FileItem.tsx` |

Three small support modules sit underneath them:

- `Wrappers` defines `Option` and `Result`.
- `JsBuiltins` defines JavaScript truthiness of an optional string, the decimal `toString` of an
  integer and `String.prototype.includes`.
- `Http` defines a thrown `Error`, a header, and a `fetch` response. A response is reduced to
  whether its status is 2xx and to what `response.json()` yields.

Async work is split at each `await` into a start and a finish. Anything outside the client is a
parameter of the operation:

- the reply of the server;
- the authorization header, which is the outcome of `getAuthHeader()`;
- the answer to `confirm()`;
- the list of dropped or selected files.

The login state machine is given twice:

- as pure transition functions over `AuthModel`, with lemmas over whole traces of calls,
  settlements and `clearToken()`;
- as the class `AuthService`, whose fields change in place. Its methods are proved equal to
  those functions.

`login()` checks for a login in flight before it checks for a cached token.
`CheckOrderIrrelevant` proves that checking the token first agrees with the code on every
reachable state.

## Model

| member | source | states |
|---|---|---|
| `FileTypes.CategoriesEnumerated` | src/types/file-upload.ts:3-15 | exactly ten distinct categories with distinct wire names; five are declared attachments and five images, in that order |
| `FileTypes.SmallEnumerationsEnumerated` | src/types/file-upload.ts:1-17 | four distinct reference types and two file types, each with its own wire name |
| `FileTypes.CategoryIndex` | src/types/file-upload.ts:3-15 | every category has a position in the declaration order |
| `JsBuiltins.NatToString` | src/lib/api/fileUpload.ts:23 | the decimal text of a natural number is non-empty, all digits, with no leading zero |
| `JsBuiltins.IntToString` | src/lib/api/fileUpload.ts:23 | the text of an integer is non-empty; it is all digits exactly when the number is not negative |
| `JsBuiltins.ParseNatOfNatToString` | src/lib/api/fileUpload.ts:68 | reading the digits of a natural number back gives the number |
| `JsBuiltins.IntToStringRoundTrip` | src/lib/api/fileUpload.ts:23 | a server parsing the decimal text of an id gets the same id back |
| `JsBuiltins.IntToStringInjective` | src/lib/api/fileUpload.ts:92 | two ids have the same text only when they are equal |
| `JsBuiltins.Includes` | src/components/file-upload/FileUpload.tsx:64 | `s.includes(p)`: `p` occurs in `s` at some position; its behaviour on the category names is fixed by `IncludesAt` and `MissingCharExcludes` |
| `JsBuiltins.IncludesAt` | src/components/file-upload/FileUpload.tsx:64 | `includes` finds an occurrence at a known position |
| `JsBuiltins.MissingCharExcludes` | src/components/file-upload/FileUpload.tsx:64 | a string lacking a character of the pattern does not include the pattern |
| `Auth.PerformLogin` | src/lib/api/auth.ts:43-66 | the token is the non-empty `data.accessToken` of a 2xx reply with `success`; a non-2xx reply fails with "Login failed"; a parsed reply without success or token fails with "Invalid login response"; a body that is not JSON fails with the parser's message |
| `Auth.LoginStep` | src/lib/api/auth.ts:21-33 | a call joins a login in flight; otherwise it returns a non-empty cached token; otherwise it starts a login and marks it in flight; only a start changes the state |
| `Auth.SettleStep` | src/lib/api/auth.ts:35-40 | the settled result is the login's result; a success is cached, a failure keeps the old token; the in-flight marker is always cleared |
| `Auth.ClearStep` | src/lib/api/auth.ts:72-74 | the token is forgotten and a login in flight is untouched |
| `Auth.CheckOrderIrrelevant` | src/lib/api/auth.ts:21-30 | checking the token first agrees with the code, which checks in-flight first, on every reachable state |
| `Auth.StepPreservesInv` | src/lib/api/auth.ts:17-41 | each event keeps the invariant: in flight implies no token, and a stored token is non-empty |
| `Auth.RunPreservesInv` | src/lib/api/auth.ts:17-41 | the invariant holds after any sequence of events |
| `Auth.LoginAccounting` | src/lib/api/auth.ts:33-40 | logins started minus logins settled equals the change of the in-flight marker |
| `Auth.AtMostOneLoginInFlight` | src/lib/api/auth.ts:22-33 | starting from the initial state, no history ever has two logins in flight |
| `Auth.CallsJoinInFlight` | src/lib/api/auth.ts:22-25 | any number of calls during a login all join it and change nothing |
| `Auth.RunAppend` | src/lib/api/auth.ts:21-41 | running two histories one after the other is running their concatenation |
| `Auth.ConcurrentCallsShareOneLogin` | src/lib/api/auth.ts:21-41 | n+1 calls before the login settles start exactly one exchange and all share its one result, which is what gets cached |
| `Auth.CountStartedOfBurst` | src/lib/api/auth.ts:33 | one start followed by joins and a settlement counts one started login |
| `Auth.NoStartsAmongJoins` | src/lib/api/auth.ts:24 | joins and a settlement start no login |
| `Auth.CachedTokenIsReused` | src/lib/api/auth.ts:27-30 | with a token cached, any history without `clearToken` only returns that token and starts nothing |
| `Auth.RetryAfterFailedLogin` | src/lib/api/auth.ts:35-40 | a failed login leaves no token and no login in flight, so the next call starts a new one |
| `Auth.ClearDoesNotCancelLogin` | src/lib/api/auth.ts:33-40 | clearing during a login does not stop a successful login from caching its token |
| `Auth.AuthHeader` | src/lib/api/auth.ts:76-79 | the header is `Authorization: Bearer <token>`, and the token reads back from it; a login failure propagates unchanged |
| `Auth.AuthHeaderInjective` | src/lib/api/auth.ts:76-79 | different tokens give different headers |
| `Auth.AuthService.constructor` | src/lib/api/auth.ts:17-19 | no token and no login in flight |
| `Auth.AuthService.Login` | src/lib/api/auth.ts:21-33 | the outcome and the new fields are those of `LoginStep`, and the invariant is kept |
| `Auth.AuthService.CompleteLogin` | src/lib/api/auth.ts:35-40 | the result and the new fields are those of `SettleStep`, and the invariant is kept |
| `Auth.AuthService.GetAccessToken` | src/lib/api/auth.ts:68-70 | returns the cached token (absent when there is none) |
| `Auth.AuthService.ClearToken` | src/lib/api/auth.ts:72-74 | the new fields are those of `ClearStep`, and the invariant is kept |
| `FileApi.FormData.constructor` | src/lib/api/fileUpload.ts:19 | a new form has no entries |
| `FileApi.FormData.Append` | src/lib/api/fileUpload.ts:20-23 | appends exactly one entry at the end |
| `FileApi.SearchParams.constructor` | src/lib/api/fileUpload.ts:66-71 | the parameters are the initial pairs, in order |
| `FileApi.SearchParams.Append` | src/lib/api/fileUpload.ts:72-74 | appends exactly one pair at the end |
| `FileApi.QueryValueFindsFirst` | src/lib/api/fileUpload.ts:66-74 | looking up a name finds the first pair with that name |
| `FileApi.QueryValueAbsent` | src/lib/api/fileUpload.ts:72-74 | a name that no pair carries is absent |
| `FileApi.HandleResponse` | src/lib/api/fileUpload.ts:147-155 | a 2xx reply resolves with its parsed body; a non-2xx reply throws the body's `message`, or "API request failed" when that is missing or empty, or "Unknown error" when the body is not JSON; a 2xx body that is not JSON throws the parser's message |
| `FileApi.EnvelopePassedThrough` | src/lib/api/fileUpload.ts:154 | a 2xx envelope is returned even when it says `success: false` |
| `FileApi.FailureMessageNonEmpty` | src/lib/api/fileUpload.ts:148-153 | every non-2xx reply throws an error with a non-empty message |
| `FileApi.ServerMessageSurfaced` | src/lib/api/fileUpload.ts:149-152 | the server's message is what gets thrown; a body that is not JSON gives the fallback text |
| `FileApi.PostUpload` | src/lib/api/fileUpload.ts:19-33 | builds the four-field form, and POSTs it to the given path with the bearer header; returns `handleResponse` of the reply; a login failure sends nothing and propagates |
| `FileApi.UploadAttachment` | src/lib/api/fileUpload.ts:13-34 | POSTs the four-field form to `/attachments` with the bearer header and returns `handleResponse` of the reply; a login failure sends nothing and propagates |
| `FileApi.UploadImage` | src/lib/api/fileUpload.ts:36-57 | the same form and the same outcome, sent to `/images` |
| `FileApi.GetFiles` | src/lib/api/fileUpload.ts:59-83 | GETs the paged listing with the `getFiles` query and returns `handleResponse` of the reply; a login failure sends nothing |
| `FileApi.GetFilesByReference` | src/lib/api/fileUpload.ts:85-108 | GETs `/by-reference` with the reference query and returns `handleResponse` of the reply; a login failure sends nothing |
| `FileApi.GetDownloadUrl` | src/lib/api/fileUpload.ts:110-131 | the whole request: GET `/{id}/download-url` with the bearer header and the single query pair `expirationMinutes`, which defaults to 60; returns `handleResponse` of the reply; a login failure sends nothing |
| `FileApi.DeleteFile` | src/lib/api/fileUpload.ts:133-144 | sends DELETE `/{id}`; it succeeds exactly when the reply is 2xx and otherwise throws "Failed to delete file" |
| `FileApi.UploadsDifferOnlyInPath` | src/lib/api/fileUpload.ts:13-57 | the two uploads send the same form, field order file, category, referenceType, referenceId, and differ only in the path |
| `FileApi.UploadForm` | src/lib/api/fileUpload.ts:19-23 | the four form entries of an upload, in append order; `UploadsDifferOnlyInPath` and `UploadFormRoundTrip` state their names and contents |
| `FileApi.GetFilesQuery` | src/lib/api/fileUpload.ts:63-74 | the `getFiles` query pairs; `GetFilesQueryShape` states their names, order, values and defaults |
| `FileApi.ByReferenceQuery` | src/lib/api/fileUpload.ts:90-96 | the `getFilesByReference` query pairs; `ByReferenceQueryShape` states their names, order and values |
| `FileApi.UploadFormRoundTrip` | src/lib/api/fileUpload.ts:19-23 | the file, category, reference type and reference id can all be read back from the form |
| `FileApi.IntReadsBack` | src/lib/api/fileUpload.ts:68-70 | a number written into a query pair reads back as that number from the first pair with its name |
| `FileApi.GetFilesQueryShape` | src/lib/api/fileUpload.ts:63-74 | the parameter names and order, with the category only when given; each value reads back, and page and size default to 0 and 20 |
| `FileApi.ByReferenceQueryShape` | src/lib/api/fileUpload.ts:90-96 | referenceType and referenceId, then the category only when given; each value reads back |
| `UploadWidget.IsImageCategory` | src/components/file-upload/FileUpload.tsx:64 | the routing test: the category name includes "IMAGE" or "LOGO"; `RoutingMatchesDeclaration` states which categories pass |
| `UploadWidget.RoutedAsImage` | src/components/file-upload/FileUpload.tsx:64 | a name containing "IMAGE" or "LOGO" at a known position is routed as an image |
| `UploadWidget.RoutedAsAttachment` | src/components/file-upload/FileUpload.tsx:64 | a name lacking a letter of "IMAGE" and a letter of "LOGO" is routed as an attachment |
| `UploadWidget.RoutingMatchesDeclaration` | src/components/file-upload/FileUpload.tsx:64 | the substring test routes as images exactly the five categories the type declares as image categories |
| `UploadWidget.AttachmentCategoriesRouted` | src/components/file-upload/FileUpload.tsx:64 | no declared attachment category is routed as an image |
| `UploadWidget.StoreRentContractRouted` | src/components/file-upload/FileUpload.tsx:64 | STORE_RENT_CONTRACT goes to the attachment endpoint |
| `UploadWidget.BusinessRegistrationRouted` | src/components/file-upload/FileUpload.tsx:64 | BUSINESS_REGISTRATION goes to the attachment endpoint |
| `UploadWidget.BusinessLicenseRouted` | src/components/file-upload/FileUpload.tsx:64 | BUSINESS_LICENSE goes to the attachment endpoint |
| `UploadWidget.StoreFloorPlanRouted` | src/components/file-upload/FileUpload.tsx:64 | STORE_FLOOR_PLAN goes to the attachment endpoint |
| `UploadWidget.EtcAttachmentRouted` | src/components/file-upload/FileUpload.tsx:64 | ETC_ATTACHMENT goes to the attachment endpoint |
| `UploadWidget.ImageCategoriesRouted` | src/components/file-upload/FileUpload.tsx:64 | every declared image category is routed as an image |
| `UploadWidget.RoutingExamples` | src/components/file-upload/FileUpload.tsx:64-79 | three spot checks of the routing rule: STORE_IMAGE and ORGANIZATION_LOGO_EXPANDED go to the image endpoint, STORE_RENT_CONTRACT to the attachment endpoint |
| `UploadWidget.RouteUpload` | src/components/file-upload/FileUpload.tsx:64-79 | the image endpoint is chosen exactly when the test holds; the file and the properties are passed on unchanged |
| `UploadWidget.FailureText` | src/components/file-upload/FileUpload.tsx:82 | the error shown is never empty: it is the error's message when that is non-empty, and "Upload failed" otherwise |
| `UploadWidget.Dispatch` | src/components/file-upload/FileUpload.tsx:65-79 | exactly one upload operation is called, the one the endpoint names, and its outcome is returned |
| `UploadWidget.FileUpload.constructor` | src/components/file-upload/FileUpload.tsx:24-26 | not dragging, not uploading, no error |
| `UploadWidget.FileUpload.HandleDragOver` | src/components/file-upload/FileUpload.tsx:28-31 | dragging is set; nothing else changes |
| `UploadWidget.FileUpload.HandleDragLeave` | src/components/file-upload/FileUpload.tsx:33-36 | dragging is cleared; nothing else changes |
| `UploadWidget.FileUpload.UploadFile` | src/components/file-upload/FileUpload.tsx:60-64 | uploading is set, the error is cleared, and the routed call is returned |
| `UploadWidget.FileUpload.HandleDrop` | src/components/file-upload/FileUpload.tsx:38-48 | dragging is cleared; the first dropped file is uploaded, and an empty drop uploads nothing and changes nothing else |
| `UploadWidget.FileUpload.HandleFileSelect` | src/components/file-upload/FileUpload.tsx:50-58 | the first selected file is uploaded; a missing or empty list uploads nothing |
| `UploadWidget.FileUpload.FinishUpload` | src/components/file-upload/FileUpload.tsx:80-85 | success is reported exactly when the call did not throw; a failure shows its text; uploading ends either way |
| `FileUploadPage.CategoryListsPartition` | src/app/file-upload/page.tsx:71-85 | the two lists are duplicate-free and disjoint, and cover all ten categories; the image list is exactly what the router sends to the image endpoint |
| `FileUploadPage.CurrentCategories` | src/app/file-upload/page.tsx:87-88 | a category is offered on a tab exactly when its uploads go to that tab's endpoint |
| `FileUploadPage.NormalizeCategory` | src/app/file-upload/page.tsx:91-100 | after a tab change the category is one the tab offers; an offered category is kept; any other is reset to the tab's first category |
| `FileUploadPage.Filter` | src/app/file-upload/page.tsx:46-48 | `Array.prototype.filter`: the accepted elements in order; `FilterMembers`, `FilterAppend`, `FilterSingleton` and `FilterKeepsAll` state its behaviour |
| `FileUploadPage.FilterMembers` | src/app/file-upload/page.tsx:46-48 | an element is kept exactly when it was present and is accepted; the result is never longer |
| `FileUploadPage.FilterAppend` | src/app/file-upload/page.tsx:46-48 | filtering keeps order: the filter of a concatenation is the concatenation of the filters |
| `FileUploadPage.FilterSingleton` | src/app/file-upload/page.tsx:46-48 | a one-element list keeps its element exactly when the element is accepted |
| `FileUploadPage.FilterKeepsAll` | src/app/file-upload/page.tsx:67 | a filter that accepts every element changes nothing |
| `FileUploadPage.FilesOfType` | src/app/file-upload/page.tsx:46-48 | shown are exactly the fetched records of the tab's file type |
| `FileUploadPage.WithoutId` | src/app/file-upload/page.tsx:66-68 | exactly the records with the deleted id are removed; a list without that id is unchanged |
| `FileUploadPage.FilesOfTypeAppend` | src/app/file-upload/page.tsx:46-48 | the tab filter keeps the order of the records it keeps |
| `FileUploadPage.WithoutIdAppend` | src/app/file-upload/page.tsx:67 | the delete filter keeps the order of the records it keeps |
| `FileUploadPage.TabShowsItsCategories` | src/app/file-upload/page.tsx:44-49 | for consistent records, a tab shows exactly the records whose category it offers |
| `FileUploadPage.Page.constructor` | src/app/file-upload/page.tsx:16-24 | the state starts as STORE, id 1, tab IMAGE, category STORE_IMAGE, no files, not loading |
| `FileUploadPage.Page.FetchFiles` | src/app/file-upload/page.tsx:27-28 | loading is set; the fetch captures the current reference and tab; nothing else changes |
| `FileUploadPage.Page.FinishFetch` | src/app/file-upload/page.tsx:40-55 | lists the captured reference with no category; shows the captured tab's records only on a successful envelope and otherwise keeps the list; loading always ends |
| `FileUploadPage.Page.HandleDelete` | src/app/file-upload/page.tsx:66-68 | the list becomes `WithoutId` of the old list; nothing else changes |
| `FileUploadPage.Page.SetActiveTab` | src/app/file-upload/page.tsx:91-100 | sets the tab and normalises the category, which keeps the selection valid |
| `FileUploadPage.Page.SelectCategory` | src/app/file-upload/page.tsx:155-166 | selects one of the offered categories |
| `FileUploadPage.Page.SetReferenceType` | src/app/file-upload/page.tsx:122-126 | sets the reference type; nothing else changes |
| `FileUploadPage.Page.SetReferenceId` | src/app/file-upload/page.tsx:141-144 | sets the reference id; nothing else changes |
| `FileUploadPage.OutOfOrderFetches` | src/app/file-upload/page.tsx:27-56 | a fetch started on the IMAGE tab that settles last leaves image records shown on the ATTACHMENT tab |
| `FileItemView.IsImage` | src/components/file-upload/FileItem.tsx:47 | a record is an image exactly when its file type's wire name is "IMAGE" |
| `FileItemView.Thumbnail` | src/components/file-upload/FileItem.tsx:53-58 | a thumbnail is shown exactly for an image record with a non-empty public URL, and it is that URL |
| `FileItemView.ThumbnailOnlyForImageCategories` | src/components/file-upload/FileItem.tsx:47-53 | for a consistent record, a thumbnail appears only for a category the image tab offers |
| `FileItemView.HandleDownload` | src/components/file-upload/FileItem.tsx:29-45 | a public record with a URL opens that URL without a request; otherwise it sends exactly the `getDownloadUrl` request for the id with the default lifetime and opened exactly when the reply is 2xx, successful and non-empty; a thrown call alerts "Failed to download file"; any other reply alerts "Failed to get download URL"; an empty URL is never opened |
| `FileItemView.FileItem.constructor` | src/components/file-upload/FileItem.tsx:12-13 | the row starts out not deleting |
| `FileItemView.FileItem.HandleDelete` | src/components/file-upload/FileItem.tsx:15-18 | without confirmation nothing happens; with confirmation deleting starts |
| `FileItemView.FileItem.FinishDelete` | src/components/file-upload/FileItem.tsx:19-26 | sends the DELETE for the row's id; on success the parent is told to drop that id; on failure it alerts "Failed to delete file" and clears deleting |
| `FileItemView.DeleteFromPage` | src/components/file-upload/FileItem.tsx:15-21 | a confirmed, successful delete leaves the page list `WithoutId` of the old list for the row's id, so the row's record is gone; the other page fields are unchanged |

## Left out

- Network failures of `fetch` are left out. A reply is always delivered. The callers take the
  outcome of an API call as a `Result`, so a thrown error is covered where it is handled.
- The HTTP layer is reduced. Base URLs, the `Content-Type` header and percent-encoding are left
  out; paths are relative to the API base. `FormData` and `URLSearchParams` are ordered lists of
  pairs.
- The login request body is left out. Its credentials are hard-coded and the client never reads
  them.
- `refreshToken`, `tokenType` and `expiresIn` of the login reply are left out; the client ignores
  them.
- Replies whose `data` is null are not modelled. There, `response.data.filter` or
  `response.data.downloadUrl` would throw a `TypeError`. Login replies are the exception: there
  `data` is an `Option`.
- Values of the wrong JSON type are left out, such as a non-string token or an unknown category
  name. Records are typed as the declarations say.
- `Auth.AuthService.Login`: it returns how the call is served (joined, cached or started). The
  awaiting itself is not modelled. A joined caller awaits the promise in flight, so it
  receives that login's one `Resolved` result. This follows from what `Joined` means; no lemma
  tracks results per caller.
- React is left out: rendering, JSX, CSS, `useCallback` closures and hook batching. A setter
  takes effect at once. The tab effect runs right after the tab changes, in one step.
- `FileUploadPage.Page.SetReferenceType`: the refetch that `useEffect` schedules after a change
  of reference or tab is not modelled. A caller starts it with `FetchFiles`.
- `FileUploadPage.Page.SelectCategory`: it requires a category the current tab offers, because
  the selector only lists those.
- `FileItemView.FileItem.HandleDelete`: it requires that no delete is running, because the button
  is disabled meanwhile.
- `console.error` logging is left out.
- Window opening and `alert` become returned values.
- Size and date formatting in a row are left out. So is the display label of a category.
- `src/components/file-upload/FileList.tsx` is not part of this model. It only lays out the rows.
- `Number(e.target.value)` can produce NaN or a fraction. The reference id is an integer.
- `JsBuiltins.IntToString`: every number the client formats (reference id, page, size, file id,
  expiration minutes) is taken to be a safe integer below 10^21 in magnitude. Past 2^53 JavaScript
  numbers are not exact, and from 10^21 on `toString()` writes exponent form; the model uses
  unbounded integers written in plain decimal.
