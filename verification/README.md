# NeumoDiagnostics front-end, modelled in Dafny

NeumoDiagnostics is a web application for reviewing chest radiographs.

- **Patients** upload radiographs and follow their cases.
- **A model** gives each radiograph a pneumonia probability and a label. Such a machine result is called a *prediagnostic*.
- **Doctors** review pending cases. They approve or reject the model's result with a written comment, which becomes a *diagnostic*.

This project models the front-end's logic as pure Dafny functions over immutable data: the route guards, the GraphQL and REST clients, the service classes, and the decision logic of the main pages. It proves properties about them.

The model covers:

- **GraphQL client.** How it reads the session token from the cookie string and builds its request, and how it turns an HTTP outcome into data or a thrown error.
- **Diagnostic service.** Payload validation, submission with its "development mode" fallback, and the debug probe.
- **Prediagnostic service.** Urgency, badge colour, lookups by id, and its debug probe.
- **Cases service.** The REST client: urgency rule, case listing, and its debug probe.
- **Prediagnostic detail page.** Loading with mock fallback, probability display bands, and the doctor's form: inline validation, checkbox pair, comment box, submit.
- **Pending-cases dashboard.** Fetching with mock fallback, the urgent/available columns, and status badges.
- **Patient dashboard.** Its own regular-expression token reader, the reply reader, status normalisation, counters, and the recent list.
- **Radiography history table.** Search, status badges and icons.
- **HU7 test pages.** The backend case browser and the case detail view.
- **Doctor dashboard.** Counters, recent cases, and the `testId` redirect.
- **Route middleware.**
- **`ProtectedRoute` guard.**
- **Doctor header.** Initials and account labels.

How the model treats outside effects:

- **Network.** The network is never called. Every operation that awaits a request takes the request's outcome as a parameter:
  - `HttpOutcome` is a rejected `fetch` or a reply with its status and body;
  - `QueryOutcome` is the GraphQL client's resolved data or the error it threw.
- **JavaScript semantics.** JavaScript truthiness, `||` defaults, `instanceof Error` and the V8 text of a property read on `undefined` are written out in `Common`.
- **Clock and cookies.** The clock value (`Date.now()`) and the cookie string are parameters too.
- **Probabilities** are `real`.
- **String lengths.** Dafny's `char` is a Unicode scalar value. Wherever the code compares a `.length`, the model counts UTF-16 code units (`Text.Utf16Length`), so a character above U+FFFF counts twice.

The modules are:

| module | source | contents |
|---|---|---|
| `Common` | shared | options, results, thrown errors, truthiness |
| `Text` | shared | the string methods the code uses: `toLowerCase`, `trim`, `includes`, `split`, `join`, `startsWith`, number formatting |
| `Seqs` | shared | `filter`, `slice` and their lemmas |
| `GraphQLClient` | `lib/apollo-client.ts` | |
| `DiagnosticService` | `lib/diagnostic-service.ts` | |
| `PrediagnosticService` | `lib/prediagnostic-service.ts` | |
| `CasesService` | `lib/cases-service.ts` | |
| `PrediagnosticDetail` | `components/prediagnostic-detail.tsx` | |
| `PendingCasesDashboard` | `components/dashboard-casos-pendientes.tsx` | |
| `PatientDashboard` | `app/patient/dashboard/page.tsx` | |
| `RadiographyHistory` | `components/radiography-history.tsx` | |
| `BackendBrowser` | `app/hu7/testing/backend-browser.tsx` | |
| `CaseDetailView` | `app/hu7/testing/detail-component.tsx` | |
| `DoctorDashboard` | `app/doctor/dashboard/page.tsx` | |
| `Middleware` | `app/middleware.ts` | |
| `ProtectedRoute` | `components/protected-route.tsx` | |
| `DoctorHeader` | `components/doctor-header.tsx` | |

Notes on the code's behaviour:

- **GraphQL data.** The GraphQL client resolves with the reply's `data` member only, not with the whole reply.
- **`CasesService.debugConnection`.** It reports success only when the reply is ok *and* its body parses as JSON, because `response.json()` runs inside the same `try`. An ok reply with a malformed body is reported as a failure (`CasesService.DebugConnection`).

## Model

| member | source | states |
|---|---|---|
| GraphQLClient.FindRow | front-end/lib/apollo-client.ts:22 | `find(row => row.startsWith(prefix))`: the index found is the first row with the prefix; none is found exactly when no row has it |
| GraphQLClient.TokenOfRow | front-end/lib/apollo-client.ts:22 | `row.split('=')[1]` of an `auth-token=` row is the text after the prefix up to the next `=`, and never contains `=` |
| GraphQLClient.TokenFromCookie | front-end/lib/apollo-client.ts:21-23 | a token exists exactly when some `"; "`-separated cookie row starts with `auth-token=`; it is read from the first such row; no cookie string (server side) gives no token |
| GraphQLClient.TokenTruncatedAtEquals | front-end/lib/apollo-client.ts:22 | a token value containing `=` is cut at its first `=` |
| GraphQLClient.Headers | front-end/lib/apollo-client.ts:25-36 | JSON content type and accept headers first; an `Authorization: Bearer <token>` header is present exactly when the token is truthy; no other header (two or three in all) |
| GraphQLClient.BuildRequest | front-end/lib/apollo-client.ts:13-44 | a POST to the GraphQL URL whose body carries the query and variables unchanged and whose headers carry the cookie's token |
| GraphQLClient.HttpError | front-end/lib/apollo-client.ts:49-53 | a non-ok reply throws a plain `Error` whose message is "HTTP error! status: ", the decimal status code (which reads back as the status), " - " and the response text |
| GraphQLClient.GraphQLFailure | front-end/lib/apollo-client.ts:58-61 | a reply with `errors` throws an `Error` whose message is "GraphQL error: " plus the first error's message as a template literal renders it; an empty (truthy) `errors` array throws the TypeError of reading `message` of undefined |
| GraphQLClient.Classify | front-end/lib/apollo-client.ts:38-74 | the query resolves exactly when the reply is ok, parses and has no `errors`, and then yields `data` unchanged; each failure is rethrown with its own error (fetch rejection, HTTP error, JSON syntax error, GraphQL error) |
| GraphQLClient.ErrorsOverrideData | front-end/lib/apollo-client.ts:58-64 | a reply carrying `errors` fails even when it also carries `data` |
| DiagnosticService.ValidateDiagnostic | front-end/lib/diagnostic-service.ts:89-114 | valid iff no errors; the approval message appears iff the approval is not "Si"/"No"; the minimum-length message iff the comment is missing or under 10 UTF-16 code units once trimmed; the maximum-length message iff the untrimmed comment exceeds 1000 UTF-16 code units; messages come in checking order, at most three |
| DiagnosticService.PaddedCommentFailsBoth | front-end/lib/diagnostic-service.ts:101-108 | a comment over 1000 code units that trims to under 10 gets both length messages at once |
| DiagnosticService.PaddedCommentExists | front-end/lib/diagnostic-service.ts:101-108 | such a comment exists, so the two length checks are not exclusive |
| DiagnosticService.SurrogatePairsCountTwice | front-end/lib/diagnostic-service.ts:101-108 | lengths are `.length`: five emoji (ten code units) meet the minimum, and 501 emoji (1002 code units) exceed the maximum |
| DiagnosticService.Variables | front-end/lib/diagnostic-service.ts:38-44 | the mutation variables carry the prediagnostic id at the top level and the payload's approval and comment, unchanged, under `input` |
| DiagnosticService.VariablesRoundTrip | front-end/lib/diagnostic-service.ts:38-44 | every variables object is the one built from its own id and the payload it carries |
| DiagnosticService.VariablesInjective | front-end/lib/diagnostic-service.ts:38-44 | different (id, payload) pairs send different variables |
| DiagnosticService.SubmissionRequest | front-end/lib/diagnostic-service.ts:36-45 | the mutation is a POST to the GraphQL URL with the given document, the cookie's token, and variables carrying the id and the payload as received |
| DiagnosticService.FromError | front-end/lib/diagnostic-service.ts:55-81 | success iff the error message includes "fetch", "GRAPHQL_VALIDATION_FAILED", "Cannot query field" or "422", answered with the development-mode message and a `mock-diagnostic-<now>` id; otherwise failure with "Error al enviar diagnóstico: " plus the message |
| DiagnosticService.CreateDiagnostic | front-end/lib/diagnostic-service.ts:29-82 | resolved data always gives success (the reported flag is or-ed with `true`) with the server's message or the default; a thrown query, or missing data whose member read throws, goes through the catch branch |
| DiagnosticService.ServerSuccessIgnored | front-end/lib/diagnostic-service.ts:49-53 | whatever `success` the server reports, a resolved mutation is reported as a success |
| DiagnosticService.FailureMessage | front-end/lib/diagnostic-service.ts:77-80 | a failure only arises from a thrown error, and its message starts with the fixed prefix |
| DiagnosticService.NetworkFailureSimulated | front-end/lib/diagnostic-service.ts:62-74 | a browser "Failed to fetch" error is answered with a simulated success |
| DiagnosticService.UnprocessableSimulated | front-end/lib/diagnostic-service.ts:62-74 | a 422 reply's HTTP error includes "422", so the mutation is answered with a simulated success |
| DiagnosticService.DebugDiagnostic | front-end/lib/diagnostic-service.ts:122-165 | rejected with "Datos de diagnóstico inválidos" and the validation errors iff validation fails; otherwise reports exactly what `createDiagnostic` returns, with its success flag |
| PrediagnosticService.GetUrgencyLevel | front-end/lib/prediagnostic-service.ts:105-107 | urgent iff the probability is strictly above 0.7 |
| PrediagnosticService.UrgencyMonotone | front-end/lib/prediagnostic-service.ts:105-107 | a higher probability is never less urgent; exactly 0.7 is routine |
| PrediagnosticService.GetBadgeColor | front-end/lib/prediagnostic-service.ts:114-124 | red iff the lower-cased label is "neumonía" or "neumonia", green iff "normal", yellow otherwise |
| PrediagnosticService.BadgeColorCaseInsensitive | front-end/lib/prediagnostic-service.ts:114-124 | the badge depends only on the lower-cased label |
| PrediagnosticService.GetPreDiagnostic | front-end/lib/prediagnostic-service.ts:15-31 | fails with the fixed message iff the query throws or resolves without data; otherwise yields the `getPreDiagnostic` member, possibly null |
| PrediagnosticService.GetPreDiagnosticById | front-end/lib/prediagnostic-service.ts:38-40 | an alias: the same answer as `getPreDiagnostic` for the same query outcome |
| PrediagnosticService.DebugCoversGetPreDiagnostic | front-end/lib/prediagnostic-service.ts:15-77 | the probe succeeds, with the same prediagnostic, whenever `getPreDiagnostic` does; the two disagree only on a query that resolved without data, which the probe calls a success |
| PrediagnosticService.DebugConnection | front-end/lib/prediagnostic-service.ts:47-77 | success iff the query resolves, carrying its data; otherwise the error's message or "Error desconocido" |
| CasesService.GetUrgencyLevel | front-end/lib/cases-service.ts:136-148 | a set urgency wins; otherwise urgent iff the confidence is present and above 0.7 |
| CasesService.UrgencyRulesAgree | front-end/lib/cases-service.ts:136-148 | without a set urgency, the case rule agrees with the prediagnostic service's threshold rule |
| CasesService.GetCases | front-end/lib/cases-service.ts:24-61 | yields the parsed body iff the reply is ok and parses; every failure becomes the one fixed message |
| CasesService.DebugConnection | front-end/lib/cases-service.ts:68-109 | success iff the reply is ok and its body parses; a non-ok reply reports "HTTP <status>: <text>"; a rejected fetch reports its message or "Unknown error"; an ok reply whose body fails to parse reports the JSON syntax error's message |
| CasesService.DebugAgreesWithGetCases | front-end/lib/cases-service.ts:68-109 | the probe succeeds exactly when `getCases` would, with the same data |
| PrediagnosticDetail.SubmitErrors | front-end/components/prediagnostic-detail.tsx:199-211 | approval message iff none chosen, always first; "obligatorio" iff the comment trims to empty; minimum message iff it trims to 1-9 characters; maximum message iff it trims to 10 or more and is over 1000 untrimmed; lengths in UTF-16 code units; only these four messages, each at most once, so the list has one entry per failed check (approval, comment chain); at most one comment message |
| PrediagnosticDetail.BeginSubmit | front-end/components/prediagnostic-detail.tsx:194-229 | any validation error blocks the submit and is shown; otherwise the busy flag rises and the payload carries the chosen word and the trimmed comment |
| PrediagnosticDetail.SentPayloadIsValid | front-end/components/prediagnostic-detail.tsx:199-227 | every payload the form sends passes the service's `validateDiagnostic` |
| PrediagnosticDetail.FormAgreesWithService | front-end/components/prediagnostic-detail.tsx:199-211 | on the raw comment the form and the service accept exactly the same inputs |
| PrediagnosticDetail.FinishSubmit | front-end/components/prediagnostic-detail.tsx:235-266 | the busy flag always drops; navigation to the pending-cases list is scheduled iff the result is a success |
| PrediagnosticDetail.WithoutMatching | front-end/components/prediagnostic-detail.tsx:460 | the error filter keeps exactly the messages that do not include the needle, in order |
| PrediagnosticDetail.OnCheckedChange | front-end/components/prediagnostic-detail.tsx:457-464 | checking selects the box and drops the approval message; unchecking the selected box clears the choice; unchecking the other box changes nothing |
| PrediagnosticDetail.CheckingClearsOnlyApprovalError | front-end/components/prediagnostic-detail.tsx:457-481 | checking a box removes the approval message (it includes "seleccionar si aprueba") and keeps every comment message (none does) |
| PrediagnosticDetail.OnCommentChange | front-end/components/prediagnostic-detail.tsx:508-512 | typing stores the text and drops exactly the messages that mention "comentario" |
| PrediagnosticDetail.TypingClearsCommentErrors | front-end/components/prediagnostic-detail.tsx:511 | typing removes all three comment messages (each includes "comentario") and keeps the approval message (which does not) |
| PrediagnosticDetail.BandOf | front-end/components/prediagnostic-detail.tsx:181-185 | high iff at least 0.8, medium iff in [0.5, 0.8), low iff below 0.5 |
| PrediagnosticDetail.ProbabilityColor | front-end/components/prediagnostic-detail.tsx:181-185 | red, yellow or green text exactly on the three bands |
| PrediagnosticDetail.ProbabilityBadgeVariant | front-end/components/prediagnostic-detail.tsx:187-191 | destructive, outline or secondary exactly on the three bands |
| PrediagnosticDetail.ProbabilityBarColor | front-end/components/prediagnostic-detail.tsx:387-390 | the inline bar colours use the same thresholds |
| PrediagnosticDetail.DisplaysAgree | front-end/components/prediagnostic-detail.tsx:181-191 | text colour, badge and bar always show the same band: red, yellow and green each agree |
| PrediagnosticDetail.MockDetail | front-end/components/prediagnostic-detail.tsx:18-61 | mock data exists exactly for the two built-in ids, and carries the requested id |
| PrediagnosticDetail.Enrich | front-end/components/prediagnostic-detail.tsx:94-113 | backend data keeps the prediagnostic and adds a radiograph panel (its url or a placeholder named after the patient id) and a generic patient panel |
| PrediagnosticDetail.FetchDetail | front-end/components/prediagnostic-detail.tsx:84-138 | loading ends; backend data is shown iff the probe delivered a prediagnostic; otherwise the mock entry for the id, or nothing, with the mock flag set |
| PrediagnosticDetail.BeginFetch | front-end/components/prediagnostic-detail.tsx:85-86 | a fetch enters the loading state and keeps what was shown |
| PendingCasesDashboard.BeginFetch | front-end/components/dashboard-casos-pendientes.tsx:63-65 | loading starts and the previous error is cleared; the cases stay |
| PendingCasesDashboard.CompleteFetch | front-end/components/dashboard-casos-pendientes.tsx:67-85 | a fetched list replaces the cases; any failure installs the three mock cases with the warning and the mock flag; loading ends |
| PendingCasesDashboard.FetchCases | front-end/components/dashboard-casos-pendientes.tsx:63-86 | a whole fetch leaves a state that does not depend on the state before it |
| PendingCasesDashboard.UrgentCases | front-end/components/dashboard-casos-pendientes.tsx:114 | the urgent column holds exactly the urgent cases |
| PendingCasesDashboard.AvailableCases | front-end/components/dashboard-casos-pendientes.tsx:113 | the available column holds only non-urgent cases |
| PendingCasesDashboard.ColumnsPartitionCases | front-end/components/dashboard-casos-pendientes.tsx:113-114 | the two columns together are a permutation of the cases; each case is in exactly one; each keeps the list order |
| PendingCasesDashboard.MockColumns | front-end/components/dashboard-casos-pendientes.tsx:27-114 | the mock cases split into two urgent cases and one available |
| PendingCasesDashboard.GetBadgeColor | front-end/components/dashboard-casos-pendientes.tsx:100-111 | green, yellow or red iff the lower-cased status is "procesado", "pendiente" or "error"; gray otherwise |
| PendingCasesDashboard.BadgeColorCaseInsensitive | front-end/components/dashboard-casos-pendientes.tsx:100-111 | the badge depends only on the lower-cased status |
| PatientDashboard.MatchFrom | front-end/app/patient/dashboard/page.tsx:47 | the leftmost position at or after `i` where `auth-token=([^;]+)` matches; none iff there is no such position |
| PatientDashboard.RegexToken | front-end/app/patient/dashboard/page.tsx:47-48 | a token iff the pattern matches somewhere; it is the non-empty run of non-`;` characters after the leftmost match |
| PatientDashboard.TokenReadersAgree | front-end/app/patient/dashboard/page.tsx:47-48 | on a cookie holding just `auth-token=v`, this reader and the GraphQL client's reader both yield `v` |
| PatientDashboard.TokenReadersDiffer | front-end/app/patient/dashboard/page.tsx:47-48 | the pattern is not anchored: `my-auth-token=abc` yields "abc" here and no token in the GraphQL client |
| PatientDashboard.NormalizeStatus | front-end/app/patient/dashboard/page.tsx:78-83 | "validado" iff the lower-cased status includes "valid"; else "procesado" iff it includes "proces"; else "subido" |
| PatientDashboard.NormalizeStatusIdempotent | front-end/app/patient/dashboard/page.tsx:78-83 | normalising a normalised status changes nothing |
| PatientDashboard.MapCase | front-end/app/patient/dashboard/page.tsx:75-85 | the record keeps id and date, has one of the three statuses, and has a preliminary result iff the model's label is present and non-empty |
| PatientDashboard.MapCases | front-end/app/patient/dashboard/page.tsx:74-86 | one record per case, in order: record i is case i mapped, with the same id and a known status |
| PatientDashboard.FirstErrorMessage | front-end/app/patient/dashboard/page.tsx:64 | the first error's truthy message, else "Error desconocido"; never empty |
| PatientDashboard.ReadReply | front-end/app/patient/dashboard/page.tsx:54-88 | the status code is ignored; records load iff the body parses without `errors`, with missing `data` or `getCases` read as empty; an error mentioning "sin radiografias" means no radiographs; anything else fails with a non-empty message |
| PatientDashboard.FetchCases | front-end/app/patient/dashboard/page.tsx:42-92 | without a token: "No autenticado"; a failure keeps the previous records and shows the message; only a load or the no-radiographs answer replaces the records; loading ends |
| PatientDashboard.HandleUploadSuccess | front-end/app/patient/dashboard/page.tsx:97-99 | the uploaded record goes first and the others follow unchanged |
| PatientDashboard.CountsAddUp | front-end/app/patient/dashboard/page.tsx:151-165 | the validated and pending cards add up to the total |
| PatientDashboard.UploadCounts | front-end/app/patient/dashboard/page.tsx:151-165 | an upload raises exactly one of the two cards, by one |
| PatientDashboard.RecentRecords | front-end/app/patient/dashboard/page.tsx:180 | the recent list is the first three records, or all of them when fewer |
| PatientDashboard.StatusVariant | front-end/app/patient/dashboard/page.tsx:199-205 | default iff validated, secondary iff processed, outline otherwise |
| PatientDashboard.EmptyHintAfterFetch | front-end/app/patient/dashboard/page.tsx:213 | after a fetch the empty-history hint shows iff a token was found and the reply was the no-radiographs answer or an empty list |
| RadiographyHistory.FilterRecords | front-end/components/radiography-history.tsx:27-31 | keeps exactly the records whose id or status includes the term, ignoring case, in order |
| RadiographyHistory.EmptySearchKeepsAll | front-end/components/radiography-history.tsx:27-31 | an empty search shows every record |
| RadiographyHistory.SearchIgnoresCase | front-end/components/radiography-history.tsx:27-31 | the search ignores the case of the term |
| RadiographyHistory.SearchIdempotent | front-end/components/radiography-history.tsx:27-31 | searching the result again with the same term changes nothing |
| RadiographyHistory.LongerTermNarrows | front-end/components/radiography-history.tsx:27-31 | typing more characters never brings a record back |
| RadiographyHistory.GetStatusColor | front-end/components/radiography-history.tsx:33-44 | default iff "validado", secondary iff "procesado", outline otherwise |
| RadiographyHistory.GetStatusIcon | front-end/components/radiography-history.tsx:46-57 | one icon per known status and "?" exactly for any other status |
| RadiographyHistory.MappedRecordsHaveKnownIcons | front-end/components/radiography-history.tsx:46-57 | every record the patient dashboard maps has a known icon, and badge and icon name the same status |
| RadiographyHistory.ResultCell | front-end/components/radiography-history.tsx:112 | the preliminary result when truthy, else a dash |
| BackendBrowser.BeginFetch | front-end/app/hu7/testing/backend-browser.tsx:46-48 | loading starts and the error is cleared; cases, selection and search stay |
| BackendBrowser.CompleteFetch | front-end/app/hu7/testing/backend-browser.tsx:50-67 | a non-empty list replaces the cases, any other resolved answer empties them; missing data throws a TypeError that, like a thrown query, is shown while the cases stay |
| BackendBrowser.ReturnedListIsShown | front-end/app/hu7/testing/backend-browser.tsx:54-60 | a resolved list is shown exactly as returned; a missing list shows nothing |
| BackendBrowser.FilterCases | front-end/app/hu7/testing/backend-browser.tsx:71-75 | keeps exactly the cases whose id, patient name or status includes the term, ignoring case, in order |
| BackendBrowser.SearchProperties | front-end/app/hu7/testing/backend-browser.tsx:71-75 | an empty search keeps everything; searching twice changes nothing; the term's case does not matter |
| BackendBrowser.EmptySearchNeverReportsNoMatch | front-end/app/hu7/testing/backend-browser.tsx:230-233 | the "no cases match" notice never shows for an empty search box |
| BackendBrowser.GetStatusColor | front-end/app/hu7/testing/backend-browser.tsx:77-91 | default iff the lower-cased status is "validado" or "validated", secondary iff "procesado" or "processed", outline otherwise |
| BackendBrowser.StatusColorCaseInsensitive | front-end/app/hu7/testing/backend-browser.tsx:77-91 | the colour depends only on the lower-cased status |
| BackendBrowser.HandleCaseSelect | front-end/app/hu7/testing/backend-browser.tsx:93-99 | with a parent handler the id is passed up and nothing changes; otherwise the browser remembers the id |
| BackendBrowser.NoCasesHelpAfterFetch | front-end/app/hu7/testing/backend-browser.tsx:241 | after a resolved answer the "No Cases Found" help shows iff no cases were listed; after a failure with a message it never shows |
| BackendBrowser.SelectOpensDetail | front-end/app/hu7/testing/backend-browser.tsx:93-102 | selecting a non-empty id opens the detail view iff no parent handles selection |
| CaseDetailView.MockFor | front-end/app/hu7/testing/detail-component.tsx:101-109 | the sample relabelled with the requested id and `rad_<id>`, everything else as in the sample |
| CaseDetailView.FetchCaseDetail | front-end/app/hu7/testing/detail-component.tsx:82-136 | loading ends with no error; real data is stored as received; a thrown query or sample mode stores the relabelled sample |
| CaseDetailView.ViewOf | front-end/app/hu7/testing/detail-component.tsx:138-177 | spinner iff loading; error view iff a non-empty error is set, showing that error; otherwise the detail iff a case is stored, and then exactly that case |
| CaseDetailView.FetchNeverShowsError | front-end/app/hu7/testing/detail-component.tsx:82-177 | after a fetch the error view never appears; "not found" appears iff the real backend answered without a case |
| CaseDetailView.SampleCarriesRequestedId | front-end/app/hu7/testing/detail-component.tsx:116-126 | whenever the sample is shown it carries the requested id |
| CaseDetailView.ReviewDateCell | front-end/app/hu7/testing/detail-component.tsx:299 | the review date when a diagnostic exists, else "Pendiente" |
| CaseDetailView.Percent | front-end/app/hu7/testing/detail-component.tsx:329 | `Math.round(p * 100)`: the nearest integer, halves rounding up |
| CaseDetailView.SamplePercent | front-end/app/hu7/testing/detail-component.tsx:329 | the sample's 0.85 shows as 85 |
| DoctorDashboard.CompletedSplit | front-end/app/doctor/dashboard/page.tsx:70-71 | the strict and non-strict 0.7 filters split the completed cases: their counts add up to the total |
| DoctorDashboard.MockCompletedCounts | front-end/app/doctor/dashboard/page.tsx:13-71 | of the built-in completed cases two are urgent and one routine |
| DoctorDashboard.PendingStatsConsistent | front-end/app/doctor/dashboard/page.tsx:49-53 | the fixed pending figures add up, and the urgent banner shows |
| DoctorDashboard.RecentCases | front-end/app/doctor/dashboard/page.tsx:89 | the first three completed cases, or all when fewer |
| DoctorDashboard.TestIdRedirect | front-end/app/doctor/dashboard/page.tsx:62-68 | navigates iff `testId` is non-empty, to `/doctor/cases/` followed by that id |
| Middleware.Decide | front-end/app/middleware.ts:4-33 | a public path with a token and a "paciente" or "doctor" role goes to that dashboard; a protected path without a token goes to login; everything else passes |
| Middleware.RedirectTargets | front-end/app/middleware.ts:18-30 | redirects only ever go to the two dashboards or login, and happen exactly in the two redirecting situations |
| Middleware.NoRedirectLoop | front-end/app/middleware.ts:9-30 | following a redirect with the same cookies reaches a page that passes |
| Middleware.TokenOpensProtectedPaths | front-end/app/middleware.ts:15-32 | with a non-empty token every protected path passes, whatever the role cookie says |
| Middleware.Handle | front-end/app/middleware.ts:35-46 | paths outside the matcher pass untouched; inside it the middleware decides |
| Middleware.MatcherCoversTargets | front-end/app/middleware.ts:44 | the matcher covers both dashboards, login and every public path |
| Middleware.MatcherSkipsPrefixes | front-end/app/middleware.ts:44 | the exclusions are prefix tests with `.` as a wildcard: "/apiary" and "/favicon-ico" are skipped |
| ProtectedRoute.Navigation | front-end/components/protected-route.tsx:18-35 | nothing while loading; login without a user; on a role mismatch the user's own dashboard if the role is a name the guard knows, otherwise nowhere; nothing when the role fits |
| ProtectedRoute.Render | front-end/components/protected-route.tsx:37-52 | spinner iff loading; the children iff loaded with a user whose role fits; blank otherwise |
| ProtectedRoute.NeverStrandedWithinVocabulary | front-end/components/protected-route.tsx:18-52 | a user whose role is one of the guard's two names either sees the route or is redirected |
| ProtectedRoute.AsWrittenStrandsPatients | front-end/components/protected-route.tsx:25-31 | a signed-in "paciente" sees a blank page and is sent nowhere, whichever role the route requires |
| ProtectedRoute.SessionRolesNeverStranded | front-end/components/protected-route.tsx:25-31 | with the session's role names "paciente" and "doctor", no signed-in user is stranded, and the children show iff the role fits |
| DoctorHeader.Initials | front-end/components/doctor-header.tsx:58-61 | "DR" without a non-empty string name; otherwise the upper-cased first character of every space-separated word |
| DoctorHeader.SplitInitialsAreWordStarts | front-end/components/doctor-header.tsx:60 | `split(" ").map(n => n[0]).join("")` picks exactly the characters that begin a word, empty pieces adding nothing |
| DoctorHeader.WordStartsFromName | front-end/components/doctor-header.tsx:60 | every initial is a character of the name and never a space |
| DoctorHeader.LeadingSpaceIgnored | front-end/components/doctor-header.tsx:60 | a leading space does not change the initials |
| DoctorHeader.TrailingSpaceIgnored | front-end/components/doctor-header.tsx:60 | a trailing space does not change the initials |
| DoctorHeader.DoubleSpaceIgnored | front-end/components/doctor-header.tsx:60 | two spaces in a row give the same initials as one |
| DoctorHeader.SampleInitials | front-end/components/doctor-header.tsx:60 | " Jo  li " gets the initials "JL" |
| DoctorHeader.NameLabel | front-end/components/doctor-header.tsx:69 | a non-empty name, else "Dr. Sarah Johnson" |
| DoctorHeader.EmailLabel | front-end/components/doctor-header.tsx:71 | a truthy e-mail, else "sarah.johnson@hospital.com" |
| DoctorHeader.AvatarSource | front-end/components/doctor-header.tsx:57 | a truthy avatar, else "/doctor-avatar.png" |
| DoctorHeader.SignedOutDefaults | front-end/components/doctor-header.tsx:57-71 | without a user the header shows the default doctor throughout |

## Left out

- Rendering, styling, toasts, `console` output and the 500 ms and 2 s timers are left out. Router navigation is modelled as a returned target path.
- Network requests are left out; their outcomes are parameters. The base URLs are constants.
- The timing fields of the debug probes (`responseTime`) and the `fullError` objects are left out.
- Locale date formatting (`formatDate`, `toLocaleDateString`) is left out: it depends on the runtime's locale data.
- Case mapping is Latin-1 only. `Text.Lower` and `Text.Upper` do not cover the rest of Unicode. `Text.Trim` removes the full ECMAScript WhiteSpace and LineTerminator set.
- JSON `null` bodies and fields of the wrong JSON type are left out. A field is either present with its declared type or absent.
- The patient dashboard builds its own request (URL, bearer header, body). Only its token reading and its handling of the reply are modelled.
- The file-upload component, the login and register pages, and the auth context's cookie writing and logout are not part of this model.
- PrediagnosticDetail: the Radix checkbox's indeterminate state and the textarea's `maxLength` attribute are left out.
- PrediagnosticDetail.MockDetail: `mockDetailData[prediagnosticId]` also finds properties inherited from `Object.prototype`. For ids such as "constructor" or "toString" the lookup yields a function, which is truthy. The model finds mock data only for the two own keys.
- PrediagnosticDetail.FetchDetail: inherits that gap. Its "no data implies neither mock id" clause does not cover the inherited property names, for which the page would store a function as its data.
- DoctorHeader.Initials: `n[0]` takes one UTF-16 code unit. For a word starting above U+FFFF the code takes a lone high surrogate. Dafny strings cannot hold a lone surrogate, so the model takes the whole first character.
- DoctorHeader.NameLabel: a truthy name that is not a string is excluded by its precondition. It would render as whatever React makes of that value.
- Middleware.Handle: Next.js compiles the matcher with path-to-regexp. Here the exclusions are prefix tests right after the leading "/", where `.` matches any character.
- Middleware: the file lies under `app/`, while Next.js looks for middleware at the project root or under `src/`. The model describes the function as written, not whether the framework picks it up.
- CaseDetailView.Percent: floating-point rounding of `p * 100` is left out; the product is taken exactly.
- CasesService.DebugConnection: success is stated as ok *and* a parseable body, not "success iff ok". An ok reply whose JSON fails to parse lands in the same `catch` as a rejected fetch and reports the parse error's message.
- PrediagnosticService.GetPreDiagnosticById: its contract only says it answers like `GetPreDiagnostic`, because the source method is a plain alias.

## Findings

| source | as written | input that shows it | evidently intended | confidence | as-written member | corrected member |
|---|---|---|---|---|---|---|
| front-end/components/protected-route.tsx:25-31 | The guard compares the user's role with "patient" and "doctor". The session stores the patient role as "paciente" (front-end/components/auth-context.tsx:10). | A loaded user with role "paciente" on a route with `requiredRole` "patient" or "doctor". The guard renders nothing and navigates nowhere. | Compare against the session's role names, so the patient sees the route or is sent to their dashboard. | medium, not executed | ProtectedRoute.AsWrittenStrandsPatients | ProtectedRoute.SessionRolesNeverStranded |
