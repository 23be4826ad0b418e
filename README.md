# 4Municipio civic reports — a Dafny model

4Municipio lets a citizen of the Bari Loseto municipality report a problem in
public space: a wizard collects a category, a guided description, a point on
the map and an optional photo; the server validates the submission and
stores it in an SQLite table; the citizen then gets a ready-made WhatsApp
message and link. A municipal operator logs in to a dashboard with HTTP Basic
credentials, filters the stored reports and moves them through the statuses
`nuova`, `in_lavorazione` and `chiusa`.

The model covers, one Dafny module per source file:

- `ReportStore` (`server/db.js`): the `reports` table as a class whose row
  sequence `Insert` and `UpdateStatus` change; the WHERE clause `listReports`
  builds, evaluated over the rows, then `ORDER BY created_at DESC`, then
  `LIMIT` / `OFFSET`, each stated as a function with its lemmas.
- `Server` (`server/server.js`): configuration defaults, the CORS allow-list,
  `parseBasicAuth` / `requireAdmin`, and the three report routes as methods
  that decide a response and call the table.
- `ClientUtils` (`client/src/constants.js`, `client/src/utils.js`): the label
  lookups, the WhatsApp message and link, the OpenStreetMap link.
- `ReportForm` (`client/src/components/ReportForm.jsx`): the four-step wizard
  and its gates, the submit guard, the multipart payload, and the handlers
  as methods of a class holding the component's state.
- `Dashboard` (`client/src/components/Dashboard.jsx`): the status counters
  (a loop proved against a counting function), the local update after a
  PATCH, the failure handling that logs the operator out on `Unauthorized`,
  the stored credentials, and login and logout.
- `Text` holds the string operations the code relies on (JavaScript's
  `trim`, `indexOf`, `split`, `join`, the digit filter; SQLite's `LIKE` and
  TEXT order); `Wrappers` holds `Option` and `Result`.

Library calls whose behaviour is not the point (Base64 decoding, number and
date formatting, `encodeURIComponent`, the clock, UUID generation, the
guided-description template and the Basic header builder) enter as
parameters of the functions and methods that use them.

Where the code as written departs from the system's documented behaviour,
the model follows the code:

- the stored status of a new report is `nuova`, not an English "new";
- the free-text filter is SQLite's `LIKE`, which ignores the case of ASCII
  letters, not a case-sensitive substring match;
- an upload the upload middleware rejects (not an image, over 6 MB) reaches
  the final error handler and is answered with 500, not 400;
- `insertReport` names nine columns and omits `reporter_first_name` and
  `reporter_last_name`, so the reporter's names, although accepted and
  echoed in the 201 answer, are stored as NULL (`ReportStore.StoredRow`);
- the client modules do not link as written: `Dashboard.jsx` imports
  `buildBasicAuth` from `api.js`, which exports only `createReport`,
  `listReports` and `updateReportStatus`, and `ReportForm.jsx` imports
  `CATEGORY_HINTS`, `ISSUE_PLACEHOLDERS` and `buildGuidedDescription`, which
  neither `constants.js` nor `utils.js` exports. The model takes the header
  builder and the description builder as parameters, so it describes the
  components as they would run were those exports supplied;
- the dashboard passes its auth header to `listReports` and
  `updateReportStatus`, but those client calls take no header argument, so
  were `buildBasicAuth` supplied, both calls would still send no header,
  both protected routes would answer 401 and the dashboard would log the
  operator out. The model of the dashboard takes the server's answer as a
  parameter, so it covers both that outcome and the intended one.

## Model

| member | source | states |
|---|---|---|
| Text.TrimSpec | server/server.js:97-104 | `trim` keeps an infix of its argument that neither starts nor ends with whitespace, and everything it drops is whitespace |
| Text.TrimIdempotent | server/server.js:44 | trimming an already trimmed string changes nothing |
| Text.TrimEmptyIffWhitespace | server/server.js:44-45 | a string trims to empty, and is then dropped by `filter(Boolean)`, exactly when it is all whitespace |
| Text.IndexOf | server/server.js:67-68 | `indexOf` is -1 exactly when the character is absent, otherwise the first position holding it |
| Text.Split | server/server.js:43 | `split` yields at least one piece and no piece holds the separator |
| Text.JoinSplit | client/src/utils.js:38 | joining the pieces of a split with the same separator gives back the original string |
| Text.SplitJoin | client/src/utils.js:22-38 | splitting a join of separator-free pieces gives back the pieces |
| Text.LikeIgnoresPatternCase | server/db.js:63-64 | `LIKE` gives the same answer for a pattern and its ASCII-lowercased form |
| Text.LikeIgnoresAsciiCase | server/db.js:63-64 | `LIKE` gives the same answer for a text and its ASCII-lowercased form |
| Text.Digits | client/src/utils.js:42 | the digit filter keeps only digits, is empty exactly when there are none, and keeps an all-digit string whole |
| Text.DigitsAppend | client/src/utils.js:42 | the digit filter distributes over concatenation |
| Text.TextLeReflexive | server/db.js:71 | TEXT order is reflexive |
| Text.TextLeTotal | server/db.js:71 | any two TEXT values are comparable |
| Text.TextLeTransitive | server/db.js:71 | TEXT order is transitive |
| Text.TextLeAntisymmetric | server/db.js:71 | two TEXT values each at most the other are equal |
| ReportStore.StoredRow | server/db.js:39-46 | the inserted row copies every listed column of the report and leaves both reporter-name columns NULL |
| ReportStore.FindById | server/db.js:82-85 | lookup by id finds nothing exactly when no row has the id, else the first row with it |
| ReportStore.BuildConditions | server/db.js:48-70 | one condition per truthy filter, and their conjunction holds of a row exactly when the row matches every supplied filter |
| ReportStore.Where | server/db.js:67-70 | the WHERE clause keeps exactly the rows satisfying all conditions, each from the table |
| ReportStore.Select | server/db.js:52-65 | the matching rows are exactly the table rows that meet every supplied filter |
| ReportStore.WhereIsSelect | server/db.js:48-70 | evaluating the assembled WHERE clause selects the matching rows in table order |
| ReportStore.InsertDesc | server/db.js:71 | inserting one row into a newest-first run adds exactly that row |
| ReportStore.InsertDescSorted | server/db.js:71 | inserting into a newest-first sequence keeps it newest-first |
| ReportStore.OrderByCreatedDesc | server/db.js:71 | ordering is a permutation of its input |
| ReportStore.OrderByCreatedDescSorted | server/db.js:71 | the ordered rows are newest first by `created_at` |
| ReportStore.Window | server/db.js:71 | LIMIT/OFFSET skips `offset` rows (none when negative) and keeps at most `limit` (all when negative), in order |
| ReportStore.WindowOfSorted | server/db.js:71 | a window of a newest-first sequence is newest-first and holds only its rows |
| ReportStore.ReportTable.constructor | server/db.js:15-29 | a fresh table is empty and keeps the primary-key invariant |
| ReportStore.ReportTable.Insert | server/db.js:39-46 | a new id appends the stored row and returns the report; a duplicate id fails and changes nothing; ids stay unique |
| ReportStore.ReportTable.List | server/db.js:48-74 | the listing is the window of the matching rows ordered newest first; each is a matching table row; at most `limit` |
| ReportStore.ReportTable.UpdateStatus | server/db.js:76-80 | answers whether a row had the id; only that row's status changes |
| ReportStore.ReportTable.GetById | server/db.js:82-85 | the row with the id, or nothing exactly when none has it; under the primary key it is the only row with that id |
| ReportStore.FoundRowIsUnique | server/db.js:82-85 | under the primary key, lookup returns the one row with that id |
| ReportStore.FoundRowIsOnly | server/db.js:82-85 | under the primary key, every row with the id is the row lookup returns |
| Server.EnvOr | server/server.js:12-15 | an empty setting gives the fallback, any other is kept |
| Server.ConfigFromEnv | server/server.js:13-15 | the configuration takes the defaults for empty settings and is never empty |
| Server.ErrorHandler | server/server.js:163-166 | the error handler answers with the error's status code, or 500 when it has none, and its message, or a fixed one when that is empty |
| Server.ServerError | server/server.js:163-166 | an error without a status code is answered 500 with its message, or a fixed one when it is empty |
| Server.Middleware | server/server.js:47-56 | a request reaches a route exactly when its origin is absent or allowed and its body parses; a refused origin gets the CORS 500 first, else a parser error gets its own status |
| Server.MiddlewareBeforeAuth | server/server.js:47-56 | an answer from the middleware never carries the Basic challenge header, so it is never the 401 login challenge |
| Server.PhotoUrl | server/server.js:120 | the photo URL is empty exactly when there is no photo, else the base URL followed by the path |
| Server.WithPhotoUrls | server/server.js:134-137 | each listed row keeps its data and gains its photo URL, in order |
| Server.TrimmedNonEmpty | server/server.js:44-45 | the allow-list holds exactly the non-empty trimmed entries |
| Server.CorsOrigins | server/server.js:43-45 | every allowed origin is non-empty, already trimmed and comma-free |
| Server.CorsCheck | server/server.js:49-53 | a request passes exactly when it has no origin or a listed one; else 500 with the CORS message |
| Server.OriginAllowedIff | server/server.js:43-53 | an origin passes exactly when it is absent or equals a trimmed entry of `CLIENT_ORIGIN` |
| Server.SplitCredentials | server/server.js:67-69 | no colon gives null; else the user holds no colon and user, colon and password rebuild the decoded text |
| Server.SplitCredentialsRoundTrip | server/server.js:67-69 | a colon-free user and any password joined by a colon split back into both |
| Server.ParseBasicAuth | server/server.js:64-70 | null unless the header starts with `Basic `; then the decoded payload split at its first colon |
| Server.RequireAdmin | server/server.js:72-79 | the request proceeds exactly when the parsed credentials equal the configured pair; else 401 with a Basic challenge |
| Server.OperatorHeaderPasses | server/server.js:72-79 | a `Basic` header whose payload decodes to the configured `user:pass` is let through |
| Server.ValidateCreate | server/server.js:87-113 | the three checks fail in order with their messages; on success the report is trimmed, new, and carries the id, time, coordinates and photo path |
| Server.AcceptedReportShape | server/server.js:97-111 | an accepted description is stored trimmed and at least 10 long, with a status PATCH accepts |
| Server.BlankCategoryStoredEmpty | server/server.js:88-103 | any non-empty, all-whitespace category passes the checks when the rest of the request does, and is stored empty |
| Server.PostReport | server/server.js:86-122 | the middleware's answer if it stops the request; then rejected upload 500, failed check 400, duplicate id 500, else 201 with the record and its photo URL; the table changes only on 201 |
| Server.OrDefault | server/server.js:130-131 | a NaN or zero parse gives the default, any other value is kept |
| Server.ListQuery | server/server.js:125-132 | the listing arguments are the filters as given, a non-zero limit defaulting to 50 and an offset defaulting to 0 |
| Server.GetReports | server/server.js:124-139 | the middleware's answer if it stops the request; then 401 without operator credentials; else 200 with matching rows newest first, at most 50 when no limit is given |
| Server.PatchStatus | server/server.js:141-153 | the middleware's answer if it stops the request; then 401, then 400 for a status outside the three, then 404 for an unknown id, else 200; only that report's status changes |
| ClientUtils.FindCategory | client/src/utils.js:4 | finds a category with the id exactly when one exists |
| ClientUtils.FindStatus | client/src/utils.js:9 | finds a status option with the value exactly when one exists |
| ClientUtils.CategoryIdsDistinct | client/src/constants.js:1-7 | no two categories share an id |
| ClientUtils.StatusValuesDistinct | client/src/constants.js:9-13 | no two status options share a value |
| ClientUtils.CategoryLabelLookup | client/src/utils.js:3-6 | a known category id shows as its label, any other id as itself |
| ClientUtils.StatusLabelLookup | client/src/utils.js:8-11 | a known status shows as its label, any other value as itself |
| ClientUtils.ToOsmLink | client/src/utils.js:55-58 | the map link is empty exactly when a coordinate is not finite, else an OpenStreetMap URL |
| ClientUtils.FormatDate | client/src/utils.js:50-53 | an empty date formats as empty, any other through the Italian locale format |
| ClientUtils.BuildWhatsappUrl | client/src/utils.js:41-48 | a chat link to the phone's digits when there are any, else the share link, with the encoded text |
| ClientUtils.WhatsappUrlIgnoresFormatting | client/src/utils.js:42 | a phone number and its digits alone give the same link |
| ClientUtils.DateValue | client/src/utils.js:35 | the message date is `created_at`, else `createdAt`, else now |
| ClientUtils.MessageLinesLayout | client/src/utils.js:22-36 | the message has eleven lines: header, ID, six details, request, reporter, date |
| ClientUtils.DetailPlaceholders | client/src/utils.js:14-21 | a missing address, coordinate pair or photo shows its placeholder; an explicit category id wins over the report's |
| ClientUtils.MessageStartsWithHeader | client/src/utils.js:22-38 | the message text opens with the header line and then the ID line |
| ClientUtils.MessageHasElevenLines | client/src/utils.js:22-38 | when no field holds a newline, splitting the message at newlines gives back its eleven lines |
| ReportForm.InitialFormIsInvalid | client/src/components/ReportForm.jsx:9-24 | the initial form has a category but fails the issue and location checks |
| ReportForm.NextStep | client/src/components/ReportForm.jsx:236-242 | next stays put when the current step's gate fails, else advances by one up to the last step |
| ReportForm.BackStep | client/src/components/ReportForm.jsx:244-246 | back goes one step down, never below the first |
| ReportForm.StepStaysInRange | client/src/components/ReportForm.jsx:236-246 | any sequence of next, back and offered jumps keeps the step within the four steps |
| ReportForm.JumpsBypassGates | client/src/components/ReportForm.jsx:255-261 | a stepper jump reaches the last step while the form is still invalid |
| ReportForm.NextOnlyPassesGates | client/src/components/ReportForm.jsx:236-242 | with next alone the step never decreases and every step left behind passed its gate |
| ReportForm.ReachingLastStepByNextValidates | client/src/components/ReportForm.jsx:236-242 | reaching the last step by next alone means all five validations pass |
| ReportForm.TrimmedFields | client/src/components/ReportForm.jsx:155-160 | each guided answer handed to the description builder is the trim of the typed one, and trimming it again changes nothing |
| ReportForm.SubmitPayloadRequired | client/src/components/ReportForm.jsx:162-170 | the payload has five to eight entries including the category, the built description and the trimmed address and names |
| ReportForm.CoordinatesAfter | client/src/components/ReportForm.jsx:168-169 | after the required entries, a coordinate entry appears exactly when that coordinate is finite |
| ReportForm.PhotoAfter | client/src/components/ReportForm.jsx:170 | after the required entries, a file appears exactly when a photo is set, and it is that photo |
| ReportForm.SubmitPayloadOptional | client/src/components/ReportForm.jsx:168-170 | the payload carries each coordinate exactly when finite and a file exactly when a photo is set |
| ReportForm.GuardMatchesGates | client/src/components/ReportForm.jsx:142-153 | nothing is missing at submit exactly when next would pass each of the first three steps |
| ReportForm.CollectMissing | client/src/components/ReportForm.jsx:142-147 | the `missing` record is exactly the validated keys whose rule fails |
| ReportForm.BuildPayload | client/src/components/ReportForm.jsx:162-170 | the appended entries are the submit payload, in order |
| ReportForm.ReportFormState.constructor | client/src/components/ReportForm.jsx:27-36 | the component starts at step 0 with the initial form, nothing touched, no photo, error or success |
| ReportForm.ReportFormState.HandleNext | client/src/components/ReportForm.jsx:236-242 | marks the five validated keys touched and moves to the next step unless the gate fails; nothing else changes |
| ReportForm.ReportFormState.HandleBack | client/src/components/ReportForm.jsx:244-246 | moves one step back, never below the first, changing nothing else |
| ReportForm.ReportFormState.JumpTo | client/src/components/ReportForm.jsx:255-261 | a stepper or mobile-bar jump sets the step without validation; nothing else changes |
| ReportForm.ReportFormState.HandleCategoryChange | client/src/components/ReportForm.jsx:50-55 | sets the category, empties the guided answers, clears the error, marks the category touched; nothing else changes |
| ReportForm.ReportFormState.HandleReset | client/src/components/ReportForm.jsx:187-198 | everything but `submitting` returns to its initial value |
| ReportForm.ReportFormState.HandlePhotoRemove | client/src/components/ReportForm.jsx:109-113 | the photo and its preview are cleared; nothing else changes |
| ReportForm.ReportFormState.HandleSubmit | client/src/components/ReportForm.jsx:137-172 | with failing keys: marks exactly those touched, shows the incomplete message, sends nothing; else sends the payload and sets submitting; the photo, step and success panel stay |
| ReportForm.ReportFormState.CompleteSubmit | client/src/components/ReportForm.jsx:173-184 | success shows the message and link built from the saved report and the submitted form; failure shows the server's message or a fallback; submitting ends; the form, photo, step and touched keys stay |
| Dashboard.CountZeroIffAbsent | client/src/components/Dashboard.jsx:57-65 | a counter is zero exactly when no report carries that status |
| Dashboard.CountsBounded | client/src/components/Dashboard.jsx:57-65 | the three counters add up to at most the number of reports |
| Dashboard.CountsExact | client/src/components/Dashboard.jsx:57-65 | when every report has one of the three statuses, the counters add up to the number of reports |
| Dashboard.Stats | client/src/components/Dashboard.jsx:57-65 | each counter equals the number of reports with its status |
| Dashboard.WithStatus | client/src/components/Dashboard.jsx:70 | the list keeps its length; reports with the id take the new status, the others are unchanged |
| Dashboard.WithStatusLastWins | client/src/components/Dashboard.jsx:70 | of two updates to the same report, the second wins |
| Dashboard.WithStatusUnchanged | client/src/components/Dashboard.jsx:70 | setting a report to the status it has changes nothing |
| Dashboard.OnRequestFailure | client/src/components/Dashboard.jsx:40-47 | `Unauthorized`, and only it, clears the header and stored credentials with the invalid-credentials message; else the message or the fallback |
| Dashboard.LoadStoredAuth | client/src/components/Dashboard.jsx:12-22 | parsed storage gives its user and header; absent or unparsable storage gives empty ones |
| Dashboard.DashboardState.constructor | client/src/components/Dashboard.jsx:25-31 | empty filters and list, not loading, and the stored user and header |
| Dashboard.DashboardState.LoadReports | client/src/components/Dashboard.jsx:33-51 | no header, no request; success replaces the list; failure applies the failure rule; loading ends |
| Dashboard.DashboardState.HandleStatusUpdate | client/src/components/Dashboard.jsx:67-80 | success updates that report's status locally; failure applies the failure rule |
| Dashboard.DashboardState.HandleLogin | client/src/components/Dashboard.jsx:82-93 | an empty header shows the missing-credentials message; else it is kept and stored and the password cleared; the list, filters, user and loading flag stay |
| Dashboard.DashboardState.HandleLogout | client/src/components/Dashboard.jsx:95-99 | clears the header, the list and the stored credentials; the error, filters, login fields and loading flag stay |
| Dashboard.LogoutStopsLoading | client/src/components/Dashboard.jsx:95-99 | a load started after logout makes no request and the list stays empty |

## Left out

- Base64 decoding, `Number.parseFloat`, `Number.parseInt`, `toFixed`, `String` of a number, `toLocaleString('it-IT')`, `encodeURIComponent`, the clock and `crypto.randomUUID` are parameters or inputs; their own behaviour is not modelled.
- Floating point: a coordinate is a `real` or None (not finite); rounding and NaN arithmetic are not modelled.
- The upload middleware (`multer` storage, file naming from id, time and extension, MIME filter, 6 MB limit) is reduced to its outcome: no file, a stored file name, or a rejection with a message.
- SQLite set-up (directory creation, WAL pragma, the column migration) is not modelled beyond the empty table it yields.
- `%` and `_` inside the free-text filter are treated as literal characters; SQLite would read them as wildcards.
- Rows with equal `created_at` come out in one fixed order; SQLite leaves their order unspecified.
- Strings are sequences of code points; JavaScript lengths count UTF-16 units, which differ for characters outside the Basic Multilingual Plane.
- JSON body parsing itself (`express.json` with its 2 MB limit) is reduced to its outcome: parsed, or an error with its HTTP status and message.
- Express query values that are arrays, and request bodies that are not strings, are not modelled: every field is a string, empty when absent.
- The health route, static file serving, request logging and `app.listen` are I/O with nothing to state.
- `buildBasicAuth` and `buildGuidedDescription` are not part of this model: the dashboard's login takes the built header as a parameter and the form takes the description builder as `compose`.
- The network calls of `client/src/api.js` are not part of this model: `HandleSubmit` returns the payload to send and `CompleteSubmit`, `LoadReports` and `HandleStatusUpdate` take the server's answer.
- Dashboard.DashboardState.LoadReports: a request and its answer are one step, so a load still in flight when the operator logs out, which in the component later refills the list (`Dashboard.jsx:38-39`) or sets the error (`Dashboard.jsx:43-46`), is not modelled.
- Dashboard.DashboardState.HandleStatusUpdate: a request and its answer are one step, so an answer arriving after logout or after another update is not modelled.
- Dashboard.LogoutStopsLoading: covers only a load started after logout; a load already in flight at logout can still refill the list when it resolves.
- Photo compression and `handlePhotoChange` (canvas drawing, blobs, object URLs) and the map picker are browser APIs; only the photo's presence is modelled.
- The form draft in local storage and its restore on load, the toast, vibration, clipboard copy (`handleCopy`) and the effect scheduling of React are left out.
- The per-field setters (`handleField`, `handleGuidedField`, the filter and login inputs, the map's coordinate callback) only assign one field and are not modelled separately.
- Dashboard.Stats: `totals[report.status] !== undefined` is also true for inherited property names such as `constructor`; those increments never touch the three counters, so the model only counts the three statuses.
- ClientUtils.ToOsmLink: the contract states when the link is empty and its fixed prefix; the rest of the URL depends on the number formatting, which is a parameter.
- ReportForm.ReportFormState.JumpTo: the target is restricted to the four step indices, the only ones the stepper and the mobile bar offer.
