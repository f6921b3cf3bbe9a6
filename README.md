# OCR front end: route guard, upload page, document list and HTTP helpers

This Dafny project models the client-side decision and state-update rules of
the OCR front end (a Next.js application where users upload invoices for text
extraction):

- **Route guard** (`RouteGuard`, route_guard.dfy): the middleware that sends
  an unauthenticated visitor of a protected page to `/login`, sends an
  authenticated visitor of `/login` or `/register` to `/dashboard`, and lets
  everything else through. Public routes are recognised by string prefix.
- **HTTP helpers** (`Api`, api.dfy): `api` builds the request headers
  (JSON content type, the caller's headers, then the stored bearer token),
  and classifies the response: 401 signs the user out, another failed
  status becomes an `ApiError` with the server's message, an ok response
  yields its body, and every other failure becomes one connection error.
  `uploadFile` posts a file with only an Authorization header and reads the
  response the same way without wrapping foreign errors. `fetch` is an
  input (`Fetched`); `localStorage` and `window.location` are fields of
  `ApiClient`.
- **Upload page** (`Upload`, upload.dfy): the class `UploadPage` holds the
  page state (`file`, `preview`, `error`, `dragActive`, `isUploading`) and
  its handlers. A chosen file is checked against a MIME whitelist and then
  against a 10 MiB ceiling. Drag events toggle `dragActive`, and the upload
  either navigates to the new document or reports the error.
- **Document list** (`Dashboard`, dashboard.dfy): the class `DashboardPage`
  loads the list and deletes one document after confirmation. The delete is
  an order-preserving filter, `RemoveId`. The pure mappings are the size
  tier (B, KB, MB), the status badge, the actions a status allows and the
  count caption.
- `Js` (js.dfy) holds the JavaScript semantics these rely on: absent values,
  string truthiness, `startsWith`, `a || b`, and integer-to-text conversion
  with its round trip.

The real-time document-status and chat synchronisation (sockets, push-event
reducers, the question/answer session) is not part of this model: none of the
modelled files contains such code.

The upload page is modelled as written, including one consequence of its
asynchronous preview. A `FileReader` started for an earlier image still
delivers its result (`PreviewLoaded`) after a later PDF has been accepted, so
the preview can show the earlier image.

## Model

| member | source | states |
|---|---|---|
| `RouteGuard.SomePrefix` | app/middleware.ts:10-11 | `routes.some(startsWith)` is true exactly when some listed route is a prefix of the path |
| `RouteGuard.PublicRouteByPrefix` | app/middleware.ts:10-11 | a path is public iff it starts with "/login" or "/register" |
| `RouteGuard.PrefixTestExamples` | app/middleware.ts:10-11 | "/registered" and "/login" are public (prefix test); "/dashboard" and "/" are not |
| `RouteGuard.Middleware` | app/middleware.ts:5-28 | redirect to /login iff the path is protected and neither cookie token nor authorization header is truthy; redirect to /dashboard iff the path is public and the cookie token is truthy; otherwise pass through (each of the three outcomes characterised both ways) |
| `RouteGuard.Target` | app/middleware.ts:19-24 | an unauthenticated visitor is sent to the public page /login, an authenticated visitor of a public page to the protected page /dashboard |
| `RouteGuard.NoRedirectLoop` | app/middleware.ts:14-25 | the request a redirect leads to, with the same cookie and header, is passed through |
| `RouteGuard.HeaderOnlyMattersWithoutCookie` | app/middleware.ts:14-21 | the authorization header changes the decision only for a protected path without a cookie token |
| `RouteGuard.DocumentPath` | app/dashboard/upload/page.tsx:78 | the document page is "/dashboard/document/" followed by exactly the id |
| `Api.BaseUrl` | app/libs/auth/api.ts:3 | `API_URL` is the configured URL when it is set and non-empty, else "http://localhost:3001/api" |
| `Api.MergeHeaders` | app/libs/auth/api.ts:22-30 | the header record has Content-Type "application/json" unless the caller overrides it, every caller header, and "Bearer <token>" as Authorization over any caller value exactly when the stored token is truthy (present and non-empty); nothing else |
| `Api.HeadersForIsUnique` | app/libs/auth/api.ts:22-30 | the key-by-key description of the headers determines the record completely |
| `Api.BearerText` | app/libs/auth/api.ts:81 | the upload's Authorization value is "Bearer " and the token, or "Bearer null" when none is stored |
| `Api.Classify` | app/libs/auth/api.ts:41-61 | 401 gives `ApiError("Não autorizado", 401)` without the body being read; a network or body-parse failure gives that error; another non-ok status gives an `ApiError` with that status, the body's message or the default, and the body; an ok response gives its parsed body unchanged |
| `Api.WrapForeign` | app/libs/auth/api.ts:62-67 | an `ApiError` passes through unchanged; any other failure becomes the single connection error; success is untouched |
| `Api.IsOkStatus` | app/libs/auth/api.ts:53 | `response.ok` holds exactly for the 2xx status class, so never for 401 |
| `Api.ApiOutcome` | app/libs/auth/api.ts:16-67 | every outcome of `api`: the body of an ok response, the 401 error, an `ApiError` with the status, message (or "Erro na requisição") and body of a failed response, or the connection error exactly for network and parse failures |
| `Api.UploadOutcome` | app/libs/auth/api.ts:86-105 | every outcome of `uploadFile`: the body of an ok response, the 401 error, an `ApiError` with the status, message (or "Erro no upload") and body of a failed response; a network or parse failure is rethrown with its own message |
| `Api.ApiAndUploadAgree` | app/libs/auth/api.ts:86-105 | `uploadFile` succeeds on the same responses as `api` with the same body and raises `ApiError`s with the same statuses; only `api` wraps foreign errors |
| `Api.ApiClient.constructor` | app/libs/auth/api.ts:3 | the client starts with the configured base URL, the given storage and no navigation |
| `Api.ApiClient.StoredToken` | app/libs/auth/api.ts:20 | the token is the stored `token` entry in a browser, absent on the server |
| `Api.ApiClient.SignOut` | app/libs/auth/api.ts:41-47 | in a browser, `token` and `user` are removed from storage and the location becomes /login; on the server nothing changes |
| `Api.ApiClient.Api` | app/libs/auth/api.ts:16-68 | the request goes to `API_URL + endpoint` with the caller's method and the merged headers; the result is `ApiOutcome`; storage and location change only on a 401 in a browser |
| `Api.ApiClient.UploadFile` | app/libs/auth/api.ts:71-106 | a POST of the file to `API_URL + endpoint` whose only header is an Authorization starting with "Bearer " (never a Content-Type); the result is `UploadOutcome`; storage and location change only on a 401 in a browser |
| `Upload.Validate` | app/dashboard/upload/page.tsx:20-31 | a type outside the whitelist gets the type error whatever the size; an allowed type larger than 10485760 bytes gets the size error; a file is accepted iff its type is allowed and its size is at most 10 MiB |
| `Upload.SizeBoundary` | app/dashboard/upload/page.tsx:28-31 | exactly 10485760 bytes is accepted, 10485761 is rejected with the size error |
| `Upload.PreviewForAcceptedImagesOnly` | app/dashboard/upload/page.tsx:21-45 | of the accepted files, a preview is requested exactly for the non-PDF ones |
| `Upload.UploadPage.constructor` | app/dashboard/upload/page.tsx:9-13 | no file, no preview, no error, not uploading, no drag |
| `Upload.UploadPage.HandleFileChange` | app/dashboard/upload/page.tsx:17-46 | no selection changes nothing; a rejected file sets its error and keeps file and preview; an accepted file becomes `file`, clears the error, and starts a preview read for images or sets the preview to null otherwise |
| `Upload.UploadPage.PreviewLoaded` | app/dashboard/upload/page.tsx:39-41 | the pending preview read `i`, in whatever order the reads finish, sets the preview to its result (the data URL, or null after a failed or aborted read) and is no longer pending; nothing else changes |
| `Upload.UploadPage.RemoveFile` | app/dashboard/upload/page.tsx:166-169 | discarding the file clears file and preview only |
| `Upload.UploadPage.HandleDrag` | app/dashboard/upload/page.tsx:48-56 | "dragenter"/"dragover" set `dragActive`, "dragleave" clears it, any other event leaves it and everything else unchanged |
| `Upload.UploadPage.HandleDrop` | app/dashboard/upload/page.tsx:58-66 | a drop always clears `dragActive` and validates only the first dropped file, if there is one |
| `Upload.UploadPage.HandleUpload` | app/dashboard/upload/page.tsx:68-83 | without a file no request is sent and nothing changes; otherwise the file is posted to /documents/upload; on success `isUploading` stays true and navigation targets the new document's page; on failure `isUploading` is false and `error` holds the error's message or the default; storage and location change only on a 401 in a browser |
| `Dashboard.RemoveId` | app/dashboard/page.tsx:47 | the filtered list holds exactly the documents whose id differs from the target, is no longer, and equals the input when no document has the id |
| `Dashboard.RemoveIdDistributes` | app/dashboard/page.tsx:47 | the filter distributes over concatenation, so kept documents keep their relative order |
| `Dashboard.RemoveIdSingle` | app/dashboard/page.tsx:47 | one document is kept iff its id differs from the target |
| `Dashboard.RemoveIdIdempotent` | app/dashboard/page.tsx:47 | deleting the same id twice equals deleting it once |
| `Dashboard.RemoveIdLength` | app/dashboard/page.tsx:47 | exactly the documents carrying the id are removed, by count |
| `Dashboard.FormatFileSize` | app/dashboard/page.tsx:53-57 | below 1024 the text is the canonical decimal of the integer (no leading zero, no "-0") followed by " B", which reads back as that number; below 1048576 the KB tier with divisor 1024; otherwise the MB tier with divisor 1048576 |
| `Js.IntTextRoundTrip` | app/dashboard/page.tsx:54 | the decimal text of any integer reads back as that integer |
| `Js.IntTextCanonical` | app/dashboard/page.tsx:54 | the decimal text of any integer is canonical: digits with no leading zero, a minus sign only before a non-zero magnitude |
| `Js.CanonicalIntRoundTrip` | app/dashboard/page.tsx:54 | every canonical decimal text reads as an integer whose text it is |
| `Js.CanonicalIntUnique` | app/dashboard/page.tsx:54 | an integer has exactly one canonical decimal text |
| `Dashboard.SizeTierBoundaries` | app/dashboard/page.tsx:53-57 | 1023 is shown in bytes, 1024 and 1048575 in KB, 1048576 in MB |
| `Dashboard.StatusBadge` | app/dashboard/page.tsx:63-81 | each of PROCESSING, COMPLETED, FAILED gets its own colour and caption |
| `Dashboard.BadgesDistinguishStatuses` | app/dashboard/page.tsx:63-81 | distinct statuses get distinct colours and captions |
| `Dashboard.AvailableActions` | app/dashboard/page.tsx:168-191 | details (linking to the document page) and download are offered iff the status is COMPLETED; delete is offered for every status; nothing else |
| `Dashboard.CountLabel` | app/dashboard/page.tsx:111-113 | the count followed by "documento" iff there is exactly one document, "documentos" otherwise |
| `Dashboard.DashboardPage.constructor` | app/dashboard/page.tsx:18-20 | the list starts empty, loading, without error |
| `Dashboard.DashboardPage.LoadDocuments` | app/dashboard/page.tsx:23-34 | GET /documents; always ends with `isLoading` false; on success the list is the response body and `error` is null; on failure the list is unchanged and `error` holds the message; storage and location change only on a 401 in a browser |
| `Dashboard.DashboardPage.HandleDelete` | app/dashboard/page.tsx:40-51 | a cancelled confirmation sends nothing and changes nothing; otherwise a DELETE to /documents/{id}; on success the list is `RemoveId` of the old list; on failure the list is unchanged and the error is alerted; storage and location change only on a confirmed delete answered by a 401 in a browser |

## Left out

- The real-time status and chat synchronisation (sockets, push events, chat sessions): the modelled files contain no such code.
- JSX rendering, CSS classes and the emoji in captions: badges carry a colour and the caption text only.
- `FileReader` reading the data URL: the model records which reads are pending and lets the environment finish any one of them through `PreviewLoaded`, with its data URL or with null for a failed or aborted read; the data URL is not computed from the file.
- Number formatting with `toFixed(1)` (KB and MB sizes, the size on the upload page) and dates with `toLocaleString`: floating-point and locale formatting. For KB and MB the model keeps the tier and its divisor.
- The download link, whose URL is built from the API URL environment variable with `replace('/api', '')`, and the 150-character extract of `extractedText`: they are only rendered.
- `fetch`, `FormData`, `response.json()`, `confirm` and `alert` are inputs or recorded outputs: the response is a parameter, a confirmation is a boolean, and alerts are appended to `alerts`.
- A response body is modelled as a JSON object reduced to its `message` property and the rest of the value. A body that parses to `null` or another non-object, and a non-string `message`, are not modelled. The upload response always carries an `id`.
- `api` options other than `method` and `headers`: the login and register calls (app/libs/auth/auth-context.tsx:48-51, 67-70) pass a JSON `body`, which `...options` forwards to `fetch` unchanged; `Request` carries no body. No caller passes `headers`.
- Upload.UploadPage.HandleUpload: runs as one step from the click to the answer. Events that interleave while the upload is awaited are not modelled.
- Dashboard.DashboardPage.HandleDelete: runs as one step from the click to the answer. The list is filtered as it was when the delete started, while React filters the list current when the answer arrives.
- The disabled state of the upload button while `isUploading`: it is rendering; `handleUpload` itself checks only that a file is chosen.
- The middleware `matcher` configuration (which paths reach the guard): routing configuration of the framework.
- app/libs/auth/auth-context.tsx, the layouts, app/page.tsx, the register page and the UI components: thin wrappers over storage, HTTP and the router, or view code.
