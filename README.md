# Golf admin console — a Dafny model

This project models the deterministic core of the golf admin console, a React single-page
application. The console lists tags, evidence records and golf courses from a backend API,
lets an administrator print a batch of tags, and guards its pages by login state.

The model covers:

- **The transport layer** (`Api`): building the request URL and headers, turning a response
  into a value or an error message, unwrapping the `tags` and `records` envelopes, building the
  golf-course list query, and classifying the health check.
- **The list-state hooks** (`Hooks`): `useTags`, `useEvidence`, `useGolfCourses` and the
  generic `useApi`. Each hook is a class whose fields are the hook's state cells plus a toast
  log. Every method is proved against a pure function of the old state and the client's
  outcome (`Hooks.Apply`, `Hooks.ApplyFetchCourses`, `Hooks.ApplyMakeRequest`), and the
  reconciliation rules are lemmas about those functions.
- **The server-side table** (`DataTable`, `GolfCoursesPage`, `Columns`): the pagination buttons
  and their targets, the range label, the sort mapping, the search debounce, the page-level
  parameter state, and the cell fallbacks.
- **The client-side pages** (`Screens`, `TagsPage`, `EvidencePage`): the search and status
  filters, the status badges, the id fallbacks, the print form and dialog, and the evidence
  links and buttons.
- **The route guard** (`App`).

Helper modules model the JavaScript semantics the code relies on:

- `Json`: JSON values, truthiness, `||`, optional chaining and `String()`.
- `Records`: plain objects as ordered key/value lists, including spread and assignment.
- `Text`: ASCII `toLowerCase`, `includes`, and decimal printing and `parseInt`.
- `Seqs`: `filter`, a throwing `filter`, and `Set` de-duplication.

A TypeError the source throws in a modelled filter, render or callback is modelled as
`Failure(message)`, carrying the message the JavaScript engine uses; the throws that are not
modelled are listed under "## Left out". The network, the clock and
the identity provider are inputs:

- every hook method takes the client's outcome (`Success(value)` or `Failure(message)`);
- the transport takes an abstract `Fetched` value: a network failure, or a response with status,
  content type, text and the result of parsing it as JSON;
- the debounce timer is an event;
- the route guard takes the provider's flags.

JSON numbers are integers. Where the code and its documentation disagree, the model follows the
code:

- hook failure toasts carry fixed strings, not the error message;
- the `catch` of `testConnection` is unreachable, because `healthCheck` never throws;
- the print form's golf course is labelled "(Optional)" (`src/pages/TagsPage.jsx:453`), but the
  schema requires it (`TagsPage.DefaultFormNeedsCourse`).

## Model

| member | source | states |
|---|---|---|
| Api.ResolveConfig | src/lib/api.js:3-4 | The base URL and token the build resolves from `VITE_API_URL` and `VITE_API_BEARER_TOKEN` (definition; see `ResolveConfigFallback`). |
| Api.ResolveConfigFallback | src/lib/api.js:3-4 | An unset or empty `VITE_API_URL` / `VITE_API_BEARER_TOKEN` falls back to `http://localhost:8080` / `admin-bearer-token`; a non-empty value is used verbatim; each setting depends only on its own variable. |
| Api.Issue | src/lib/api.js:13-23 | The URL and configuration object of the generic request (definition; see `IssueTarget`, `MergedHeaders`, `DefaultHeadersSent`). |
| Api.DefaultHeaders | src/lib/api.js:7-10 | The JSON content type and the bearer token every request carries (definition; see `DefaultHeadersSent`, `MergedHeaders`). |
| Api.IssueTarget | src/lib/api.js:13-23 | The request URL is the base URL followed by the endpoint, unchanged; the caller's method and body are passed through. |
| Api.MergedHeaders | src/lib/api.js:7-10 | Each header of the merged set is the caller's value when the caller gives that name, else the default's; no default header name is lost. |
| Api.DefaultHeadersSent | src/lib/api.js:7-10 | Without caller headers a request carries `Content-Type: application/json` and `Authorization: Bearer <token>`. |
| Api.HttpErrorMessageStatus | src/lib/api.js:30 | The fallback message is `HTTP error! status: ` followed by the status, and the status parses back out of it. |
| Api.Settle | src/lib/api.js:25-42 | A network failure rethrows its message; a non-2xx response fails with the error message; on a 2xx response a JSON content type yields the parsed body (or its parse error), anything else the text. |
| Api.Ok | src/lib/api.js:28 | `response.ok`: a status from 200 to 299 (definition; see `SettleFails`, `HealthCheck`). |
| Api.JsonContent | src/lib/api.js:33-34 | A content type that contains `application/json` (definition; see `SuccessBody`, `SettleFails`). |
| Api.ErrorMessage | src/lib/api.js:28-31 | The message an error response is turned into (definition; see `ErrorResponseMessage`, `ErrorMessageVerbatim`, `NullErrorBody`). |
| Api.NullErrorBody | src/lib/api.js:28-31 | An error response whose body is JSON `null` throws the TypeError of reading `message` from `null`. |
| Api.ErrorResponseMessage | src/lib/api.js:28-31 | A non-2xx response reports the body's `message` when that is truthy, and otherwise exactly the status fallback (also when the body does not parse). |
| Api.ErrorMessageVerbatim | src/lib/api.js:28-31 | An error body `{message: m}` with non-empty `m` makes the request fail with `m` itself. |
| Api.SuccessBody | src/lib/api.js:33-38 | On a 2xx response the result is the parsed JSON if and only if the content type contains `application/json`, and the raw text otherwise. |
| Api.SettleFails | src/lib/api.js:25-42 | The generic request fails exactly on a network failure, a non-2xx status, or a JSON-typed 2xx body that does not parse. |
| Api.Unwrap | src/lib/api.js:52 | `response[key] \|\| []`: a failure passes through; a truthy field is returned; a missing or falsy field gives `[]`; the result is always truthy. |
| Api.RequestFor | src/lib/api.js:48-140 | The request each client function issues: its endpoint, its explicit method and its body (definition; see `CallRequest`). |
| Api.CallRequest | src/lib/api.js:48-140 | Every client call goes to base URL + its endpoint with exactly the default headers, and sends a body exactly when it is a POST or PUT. |
| Api.EndpointNamesResource | src/lib/api.js:56-83 | Reading, updating and deleting a tag address `/admin/tags/` followed by the id, unchanged. |
| Api.Outcome | src/lib/api.js:48-140 | What each client function resolves to or throws (definition; see `ListUnwrapsEnvelope`, `OutcomeOfFailedRequest`, `ListWithoutEnvelope`). |
| Api.ListUnwrapsEnvelope | src/lib/api.js:48-102 | A tag or evidence list on a 2xx JSON reply resolves to the truthy `tags` / `records` field itself; a `null` body throws the TypeError of reading that field; whatever it resolves to is truthy. |
| Api.OutcomeOfFailedRequest | src/lib/api.js:48-140 | A failed request fails every client call with the request's own error; every call other than the two lists resolves to exactly the settled body. |
| Api.ListWithoutEnvelope | src/lib/api.js:48-53 | A tag-list response without a truthy `tags` field resolves to the empty list. |
| Api.BuildGolfCourseQuery | src/lib/api.js:115-127 | The query is page, limit, sort and order with defaults 1, 20, `name` and `ASC`, in that order; `search` is appended last exactly when it is non-empty. |
| Api.Serialize | src/lib/api.js:129 | `queryParams.toString()`: the pairs as `key=value` joined by `&`, in order (definition; percent-encoding is left out). |
| Api.GetAllGolfCourses | src/lib/api.js:115-133 | The query sent is page, limit, sort and order with defaults 1, 20, `name`, `ASC`, in that order, plus `search` last exactly when it is non-empty; the request is a GET to `<base>/admin/golf-courses?` plus that query with the default headers; it resolves to the settled envelope unmodified. |
| Api.HealthRequest | src/lib/api.js:163-166 | The health probe's request (definition; see `HealthProbeIsPlainGet`). |
| Api.HealthProbeIsPlainGet | src/lib/api.js:163-166 | The probe is a GET of `<base>/health` with the default headers, the same request the generic request function builds for that endpoint. |
| Api.HealthCheck | src/lib/api.js:160-171 | The health check is true exactly when a response arrived with a 2xx status; a network failure gives false. |
| Api.TestConnection | src/lib/api.js:174-181 | Healthy maps to `connected` / `API is healthy`, unhealthy to `error` / `API health check failed`. |
| Api.ConnectedIffOk | src/lib/api.js:160-185 | The connection reads `connected` exactly when the health probe got a 2xx response. |
| Hooks.ReplaceWhereId | src/hooks/useApi.js:147 | The updated list has the same length; each entry whose `id` strictly equals the id is the returned tag, every other entry is unchanged. |
| Hooks.Apply | src/hooks/useApi.js:85-226 | Each list-hook operation as a function of the old cells and the client's outcome: the new cells and what it resolves to or rethrows (definition; see the lemmas below). |
| Hooks.ApplyBracketsLoading | src/hooks/useApi.js:85-226 | Every hook operation writes loading true then false, leaves the hook idle, and sets `error` exactly when the client failed, to the client's message. |
| Hooks.FetchSucceeds | src/hooks/useApi.js:85-92 | A successful list fetch replaces the list by the value when it is an array and by `[]` otherwise, clears the error, logs nothing, and returns the value. |
| Hooks.FetchFailureResolvesEmpty | src/hooks/useApi.js:93-101 | A failed list fetch keeps the list, records the message, logs one fixed "Failed to load …" toast, and resolves to `[]` without rethrowing. |
| Hooks.FailureRethrows | src/hooks/useApi.js:123-131 | A failed create, update, delete or get keeps the list, records the message, appends one destructive "Error" toast, and rethrows the same error. |
| Hooks.FailureToastIgnoresMessage | src/hooks/useApi.js:96-100 | The toast logged on a failure is the same whatever the error message is. |
| Hooks.CreateAppends | src/hooks/useApi.js:114-122 | A created tag goes last, every earlier entry stays in order, the success toast is logged, and the tag is returned. |
| Hooks.UpdateReplacesMatching | src/hooks/useApi.js:146-154 | An update replaces exactly the entries whose `id` equals the id, keeps the length and every other entry, and returns the tag. |
| Hooks.ReplaceWhereIdIdempotent | src/hooks/useApi.js:147 | Applying the same update twice is the same as applying it once. |
| Hooks.StrictEquals | src/hooks/useApi.js:147 | `===` between a possibly missing property and a value (definition; see `Hooks.HasId`). |
| Hooks.HasId | src/hooks/useApi.js:147 | `tag.id === id`, as in the update at line 147 and the delete at line 179 (definition; see `ReplaceWhereId`, `DeleteRemovesMatching`, `NoIdNoChange`). |
| Hooks.RemoveWhereId | src/hooks/useApi.js:179 | `prev.filter(tag => tag.id !== id)` (definition; see `DeleteRemovesMatching`, `NoIdNoChange`). |
| Hooks.DeleteRemovesMatching | src/hooks/useApi.js:178-186 | A delete keeps, in order, exactly the entries whose `id` differs (each with its multiplicity), and resolves to true. |
| Hooks.NoIdNoChange | src/hooks/useApi.js:147 | Update and delete match on `id`, so a list of entries without an `id` field is left exactly as it was. |
| Hooks.GetPassesThrough | src/hooks/useApi.js:204-226 | A single read leaves the list alone, passes the outcome through, and logs the fixed toast only on failure. |
| Hooks.NumberOr | src/hooks/useApi.js:366-369 | `x \|\| d` for a pagination field: a falsy field gives the default, a numeric one its value; the result is non-zero when the default is. |
| Hooks.PaginationOf | src/hooks/useApi.js:365-370 | Each of page, limit, total_count and total_pages takes the envelope's numeric field when it is present and its default 1/20/0/0 when it is falsy; page and limit are never 0. |
| Hooks.ApplyFetchCourses | src/hooks/useApi.js:357-386 | `fetchGolfCourses` as a function of the old cells, the old pagination and the client's outcome (definition; see `FetchCoursesSucceeds`, `FetchCoursesFails`, `FetchCoursesBracketsLoading`). |
| Hooks.FetchCoursesSucceeds | src/hooks/useApi.js:363-371 | A successful golf-course fetch takes the `courses` array (or `[]`), sets the pagination to `PaginationOf` the envelope (numeric page and limit kept, 1/20/0/0 for falsy fields), logs nothing, and returns the envelope. |
| Hooks.FetchCoursesFails | src/hooks/useApi.js:372-380 | A failed golf-course fetch, including the TypeError of a null envelope, keeps list and pagination, records the message, logs the fixed toast, and resolves to the default envelope. |
| Hooks.FetchCoursesBracketsLoading | src/hooks/useApi.js:357-386 | The golf-course fetch writes loading true then false and leaves the hook idle. |
| Hooks.DefaultEnvelopeIsInitial | src/hooks/useApi.js:349-354 | The default envelope reads back as the initial pagination `{1, 20, 0, 0}` and an empty list. |
| Hooks.ApplyConnection | src/hooks/useApi.js:13-28 | The mount check's new state for what `testConnection()` returned (definition; see `ConnectionCheck`). |
| Hooks.ApplyMakeRequest | src/hooks/useApi.js:31-67 | `makeRequest` as a function of the old state, its options and the call's outcome (definition; see `MakeRequestLoading` and the toast lemmas). |
| Hooks.ConnectionCheck | src/hooks/useApi.js:13-28 | On mount the hook is connected exactly when the API is healthy, and otherwise records `API health check failed` as its error. |
| Hooks.MakeRequestLoading | src/hooks/useApi.js:31-67 | `makeRequest` toggles loading only when `loadingState` holds (default true), always passes the outcome through (rethrowing a failure), and leaves the error set exactly on failure. |
| Hooks.MakeRequestSuccessToast | src/hooks/useApi.js:41-46 | A success toast is logged exactly when `showToast` (default true) and a non-empty `successMessage` are both given, and it carries that message. |
| Hooks.MakeRequestFailureToast | src/hooks/useApi.js:49-61 | A failure toast is logged exactly when `showToast` holds, carrying the error message or `An unexpected error occurred` when that is empty. |
| Hooks.TagsHook.constructor | src/hooks/useApi.js:78-82 | The hook starts with the empty list, not loading, no error, no toasts, and then runs its mount fetch (lines 229-231). |
| Hooks.TagsHook.Run | src/hooks/useApi.js:85-226 | Each operation's new cells and its result are those of `Apply` on the old cells and the client's outcome. |
| Hooks.TagsHook.FetchTags | src/hooks/useApi.js:85-105 | `fetchTags` updates the cells as `Apply(FetchAll)` says and returns what it resolves to. |
| Hooks.TagsHook.CreateTag | src/hooks/useApi.js:108-137 | `createTag` updates the cells and resolves or rethrows as `Apply(Create)` says. |
| Hooks.TagsHook.UpdateTag | src/hooks/useApi.js:140-169 | `updateTag` updates the cells and resolves or rethrows as `Apply(Update(id))` says. |
| Hooks.TagsHook.DeleteTag | src/hooks/useApi.js:172-201 | `deleteTag` updates the cells and resolves or rethrows as `Apply(Delete(id))` says. |
| Hooks.TagsHook.GetTag | src/hooks/useApi.js:204-226 | `getTag` updates the cells and resolves or rethrows as `Apply(GetOne)` says. |
| Hooks.EvidenceHook.constructor | src/hooks/useApi.js:274-278 | The hook starts empty and runs its mount fetch (lines 328-331). |
| Hooks.EvidenceHook.FetchEvidence | src/hooks/useApi.js:281-301 | `fetchEvidence` updates the cells as `Apply(Evidence, FetchAll)` says and never rethrows. |
| Hooks.EvidenceHook.GetEvidence | src/hooks/useApi.js:304-326 | `getEvidence` updates the cells and resolves or rethrows as `Apply(Evidence, GetOne)` says. |
| Hooks.GolfCoursesHook.constructor | src/hooks/useApi.js:344-354 | The hook starts empty with pagination `{1, 20, 0, 0}` and fetches nothing on mount. |
| Hooks.GolfCoursesHook.FetchGolfCourses | src/hooks/useApi.js:357-386 | The new cells, the new pagination and the returned envelope are those of `ApplyFetchCourses`. |
| Hooks.GolfCoursesHook.GetGolfCourse | src/hooks/useApi.js:389-411 | `getGolfCourse` updates the cells as `Apply(GolfCourses, GetOne)` says and leaves the pagination alone. |
| Hooks.ApiHook.constructor | src/hooks/useApi.js:6-10 | The generic hook starts disconnected, not loading, with no error. |
| Hooks.ApiHook.CheckConnection | src/hooks/useApi.js:13-28 | The mount check sets the cells as `ApplyConnection` says. |
| Hooks.ApiHook.MakeRequest | src/hooks/useApi.js:31-67 | `makeRequest` updates the cells and resolves or rethrows as `ApplyMakeRequest` says. |
| DataTable.PageOr | src/pages/golf-courses/data-table.jsx:166 | `pagination?.page \|\| 1` is never 0. |
| DataTable.LimitOr | src/pages/golf-courses/data-table.jsx:166 | `pagination?.limit \|\| 20` is never 0. |
| DataTable.TotalPagesOr | src/pages/golf-courses/data-table.jsx:193 | `pagination?.total_pages \|\| 1` is never 0. |
| DataTable.Disabled | src/pages/golf-courses/data-table.jsx:177-208 | The `disabled` flag of each footer button (definition; see `EnabledIff`, `NoPagesNoNext`). |
| DataTable.Target | src/pages/golf-courses/data-table.jsx:177-207 | The page each pagination button asks for (definition; see `EnabledTargetInRange`). |
| DataTable.EnabledIff | src/pages/golf-courses/data-table.jsx:178-208 | First and Previous are enabled exactly when pagination exists and the page is above 1; Next and Last exactly when it exists and the page is below the page count. |
| DataTable.NoPagesNoNext | src/pages/golf-courses/data-table.jsx:200 | With a page count of 0, Next is disabled on page 1. |
| DataTable.EnabledTargetInRange | src/pages/golf-courses/data-table.jsx:177-207 | An enabled button targets a page of at least 1: First page 1, Previous the page before, Next the page after, Last the page count; Next and Last stay within the page count. |
| DataTable.RangeLabel | src/pages/golf-courses/data-table.jsx:166-171 | The label starts at `(page-1)*limit+1` and ends at the smaller of `page*limit` and the total, with defaults 1/20/0. |
| DataTable.RangeLabelBounds | src/pages/golf-courses/data-table.jsx:166-171 | On a page that holds courses the label satisfies 1 ≤ start ≤ end ≤ total and spans at most `limit` courses. |
| DataTable.RangeLabelsAdjacent | src/pages/golf-courses/data-table.jsx:166-171 | The next page's label starts right after the end of a full page's label. |
| DataTable.PageIndicator | src/pages/golf-courses/data-table.jsx:193 | `page \|\| 1` of `total_pages \|\| 1`: the real values when non-zero, never 0. |
| DataTable.SortRequest | src/pages/golf-courses/data-table.jsx:42-53 | A non-empty selection reports its first field with `DESC` exactly when it is descending; an empty one reports `name`/`ASC`. |
| DataTable.Step | src/pages/golf-courses/data-table.jsx:42-97 | The table's reaction to one event: its new state and the callbacks it invokes (definition; see `PressedReports`, `SortingReported`, `StepConsistent`, `TimerCallsCapturedHandler`). |
| DataTable.Run | src/pages/golf-courses/data-table.jsx:42-97 | A sequence of events handled in turn (definition; see `RunAppend`). |
| DataTable.RunAppend | src/pages/golf-courses/data-table.jsx:72-97 | Running two event sequences in turn is running their concatenation, and the reported callbacks concatenate. |
| DataTable.KeystrokesSchedule | src/pages/golf-courses/data-table.jsx:72-88 | A burst of keystrokes reports nothing, shows the last value, and leaves exactly one pending search carrying it and the `onSearchChange` of the current render. |
| DataTable.DebounceReportsLast | src/pages/golf-courses/data-table.jsx:72-88 | A burst followed by the timer reports exactly one search change, carrying the last value typed, through the handler of that render. |
| DataTable.TimerCallsCapturedHandler | src/pages/golf-courses/data-table.jsx:72-88 | The timeout calls the `onSearchChange` the table had when the key was typed, even when the parent has re-rendered with another handler since. |
| DataTable.PendingSurvives | src/pages/golf-courses/data-table.jsx:42-97 | Sort changes and button presses leave a scheduled search, its value and its handler untouched. |
| DataTable.NoKeystrokeNoSearch | src/pages/golf-courses/data-table.jsx:72-88 | With nothing pending, events without a keystroke never report a search change. |
| DataTable.UnmountedSilent | src/pages/golf-courses/data-table.jsx:91-97 | After unmounting no event changes the table or reports anything. |
| DataTable.UnmountCancels | src/pages/golf-courses/data-table.jsx:91-97 | Unmounting cancels the pending search, so nothing is reported afterwards. |
| DataTable.StepConsistent | src/pages/golf-courses/data-table.jsx:72-88 | A pending search always carries the current input value, and the timer reports that value through the handler the timeout captured. |
| DataTable.SortingReported | src/pages/golf-courses/data-table.jsx:42-53 | Setting a sort selection stores exactly that selection, changes nothing else, and reports exactly one sorting change: the first entry's field with `DESC` when it is descending and `ASC` otherwise, or `name`/`ASC` when cleared. |
| DataTable.PressedReports | src/pages/golf-courses/data-table.jsx:99-208 | A press changes no table state; a disabled button reports nothing, an enabled Refresh a refresh, an enabled pagination button its target, which is at least 1 and, for Next and Last, at most the page count. |
| DataTable.Table.constructor | src/pages/golf-courses/data-table.jsx:35-37 | The table starts unsorted with an empty search box, nothing pending, and nothing reported. |
| DataTable.Table.Handle | src/pages/golf-courses/data-table.jsx:42-97 | Handling one event sets the state `Step` gives and appends the callbacks it reports. |
| DataTable.Table.HandleAll | src/pages/golf-courses/data-table.jsx:42-97 | Handling a sequence of events sets the state `Run` gives and appends all the callbacks it reports, in order. |
| GolfCoursesPage.InitialRequest | src/pages/GolfCoursesPage.jsx:17-30 | The initial load asks for page 1, limit 20, sort `name`, order `ASC` and an empty search. |
| GolfCoursesPage.HandlerOf | src/pages/GolfCoursesPage.jsx:63-75 | `handleSearchChange` as one render creates it: a closure over the sort field, order and page size of that render (definition). |
| GolfCoursesPage.HandleAsWritten | src/pages/GolfCoursesPage.jsx:33-86 | The page's handlers as written: a search is fetched with the sort, order and limit of the handler the table's timeout closed over (definition; see `AsWrittenAgrees`, `StaleSearchAfterSort`). |
| GolfCoursesPage.Handle | src/pages/GolfCoursesPage.jsx:33-86 | The page's handlers with every fetch built from the current state (definition; see `RequestReflectsState`, `SortAndSearchResetPage`, `PagingKeepsQuery`, and the Findings section). |
| GolfCoursesPage.AsWrittenAgrees | src/pages/GolfCoursesPage.jsx:33-86 | The handlers as written and `Handle` store the same query, and issue the same request exactly unless a search arrives through a handler from an older render. |
| GolfCoursesPage.StaleSearchAfterSort | src/pages/GolfCoursesPage.jsx:63-75 | Typing `pine` and sorting by name descending before the timeout: the page shows DESC, but the search fetch as written asks for ASC; `Handle` asks for DESC. |
| GolfCoursesPage.RequestReflectsState | src/pages/GolfCoursesPage.jsx:33-86 | Under `Handle`, every request carries the page's new sort field, order and search term and the current page size (the intended behaviour; see Findings). |
| GolfCoursesPage.SortAndSearchResetPage | src/pages/GolfCoursesPage.jsx:47-75 | A sort or search change stores the new field/order or term and requests page 1. |
| GolfCoursesPage.PagingKeepsQuery | src/pages/GolfCoursesPage.jsx:33-44 | Paging and refresh keep the query and request the chosen page or the current one (refresh: lines 78-86). |
| GolfCoursesPage.TypedSearchFetches | src/pages/GolfCoursesPage.jsx:63-75 | A debounced burst of keystrokes makes the page request page 1 with the last value typed; when the page did not re-render in between, the handlers as written request the same. |
| GolfCoursesPage.ViewOf | src/pages/GolfCoursesPage.jsx:88-128 | A non-empty error shows the error view; otherwise the loader appears exactly when loading with no courses, and the table is dimmed while loading (lines 217-237). |
| GolfCoursesPage.StatsOf | src/pages/GolfCoursesPage.jsx:171-192 | The four summary cards with their fallbacks (definition; see `StatsAgreeWithTable`). |
| GolfCoursesPage.StatsAgreeWithTable | src/pages/GolfCoursesPage.jsx:171-192 | The stats cards show the same total, page and page count as the table footer, and the same page size. |
| GolfCoursesPage.Page.constructor | src/pages/GolfCoursesPage.jsx:15-30 | Mounting issues exactly the initial request, and the hook's state is what that fetch gives. |
| GolfCoursesPage.Page.OnCallback | src/pages/GolfCoursesPage.jsx:33-86 | A table callback updates the query and issues the request `Handle` gives, and the hook's state and pagination are what that fetch gives. |
| GolfCoursesPage.Page.View | src/pages/GolfCoursesPage.jsx:88-128 | What the page renders from the hook's error, loading flag and course count (definition; see `ViewOf`). |
| Columns.CourseIdCell | src/pages/golf-courses/columns.jsx:38-40 | The Course ID cell shows a truthy `id.id.String`, and `N/A` otherwise. |
| Columns.CourseIdOfNestedId | src/pages/golf-courses/columns.jsx:38-40 | A course whose id nests a non-empty string shows it; a course with no id shows `N/A`. |
| Columns.PropertyOrNA | src/pages/golf-courses/columns.jsx:47-49 | A course property shows its truthy value, and `N/A` otherwise (missing `properties` reads as `{}`); the holes, par and operator cells (lines 48, 49, 76) all use it. |
| Columns.ParShownIff | src/pages/golf-courses/columns.jsx:49-54 | The Par line is rendered exactly when `golf:course:par` is truthy and not the string `N/A`, and then shows it. |
| Columns.PoiCount | src/pages/golf-courses/columns.jsx:63-66 | A missing or falsy `points_of_interest` counts as 0 POIs, an array counts its elements, and an object with a numeric `length` counts that number (a negative one labels as no count). |
| Columns.PoiLabel | src/pages/golf-courses/columns.jsx:65-66 | The POI label for a count (definition; see `PoiLabelPlural`). |
| Columns.PoiLabelPlural | src/pages/golf-courses/columns.jsx:65-66 | The label is `None` for 0, `1 POI` for one, and `n POIs` for n > 1, and the count parses back from it. |
| Columns.WebsiteLink | src/pages/golf-courses/columns.jsx:84-100 | The website is a link exactly when `properties.website` is truthy, to that address. |
| Columns.HolesCell | src/pages/golf-courses/columns.jsx:48 | `properties["golf:course:holes"] \|\| "N/A"` (definition through `PropertyOrNA`). |
| Columns.OperatorCell | src/pages/golf-courses/columns.jsx:76 | `properties.operator \|\| "N/A"` (definition through `PropertyOrNA`). |
| Columns.MissingPropertiesFallBack | src/pages/golf-courses/columns.jsx:47-100 | Without `properties`, holes and operator show `N/A`, no Par line is rendered, and no link either. |
| Columns.CopyId | src/pages/golf-courses/columns.jsx:121 | Copy-ID copies a truthy `id.id.String`, falling back to `name`. |
| Columns.CopyIdMatchesCell | src/pages/golf-courses/columns.jsx:38-40 | Whenever the Course ID cell shows an id, Copy-ID copies that same id (line 121). |
| Columns.NameHeaderClick | src/pages/golf-courses/columns.jsx:22 | Clicking the Name header selects `name`, descending exactly when it is sorted ascending now. |
| Columns.NameHeaderRequest | src/pages/golf-courses/columns.jsx:22 | Through the table's sort mapping, a click requests `name`/`DESC` from ascending and `name`/`ASC` otherwise. |
| Screens.RequiredMatch | src/pages/TagsPage.jsx:171 | `x.toLowerCase().includes(term.toLowerCase())` succeeds exactly on a string field, with the case-insensitive containment; otherwise it throws the engine's TypeError. |
| Screens.OptionalMatch | src/pages/TagsPage.jsx:172 | With `?.`, a missing or null field does not match, and any other field behaves as the required match. |
| Screens.OrElse | src/pages/TagsPage.jsx:171-174 | `a \|\| b`: a throw or a match of `a` decides; `b` is evaluated, and can throw, only when `a` is false. |
| Screens.StatusAccepts | src/pages/TagsPage.jsx:176 | `filterStatus === "all" \|\| x.status === filterStatus` (definition; see `TagsPage.FilteredTagsExact`, `EvidencePage.FilteredEvidenceExact`). |
| Screens.ListViewOf | src/pages/TagsPage.jsx:297-320 | The list card shows the spinner exactly while loading, else the error panel exactly for a non-empty error, else the empty state (with the criteria hint exactly when a search or filter is active), else the rows. |
| Screens.Badge | src/pages/TagsPage.jsx:181-194 | Every badge class string starts with the shared base classes. |
| Screens.BadgeInjective | src/pages/TagsPage.jsx:181-194 | Different colours give different class strings. |
| TagsPage.TagSearch | src/pages/TagsPage.jsx:171-175 | The search callback over the four fields, throwing as the source does (definition; see `TagTestWellFormed`, `SearchIgnoresCase`). |
| TagsPage.TagTest | src/pages/TagsPage.jsx:170-178 | The filter callback: search and status filter together (definition; see `TagTestWellFormed`). |
| TagsPage.FilteredTags | src/pages/TagsPage.jsx:170-178 | `(tags \|\| []).filter(...)` (definition; see `FilteredTagsIsFilter`, `FilteredTagsExact`, `MalformedTagThrows`). |
| TagsPage.TagTestWellFormed | src/pages/TagsPage.jsx:170-178 | On a well-formed tag the filter callback does not throw and keeps the tag exactly when the search hits one of the four fields and the status filter accepts it. |
| TagsPage.FilteredTagsIsFilter | src/pages/TagsPage.jsx:170-178 | On well-formed tags the page's filter equals the reference filter. |
| TagsPage.FilteredTagsExact | src/pages/TagsPage.jsx:170-178 | The filtered tags are an order-preserving sub-list, holding each matching tag as often as the list does and no other tag. |
| TagsPage.NoCriteriaShowsAll | src/pages/TagsPage.jsx:171-176 | An empty search with the `all` filter shows every tag. |
| TagsPage.StatusFilterExact | src/pages/TagsPage.jsx:176 | A filter other than `all` keeps only tags whose status is exactly that string. |
| TagsPage.FilterKeepsPassing | src/pages/TagsPage.jsx:176 | Every kept tag passes the status filter. |
| TagsPage.SearchIgnoresCase | src/pages/TagsPage.jsx:171-175 | Searching for a term and for its lower-cased form give the same outcome, errors included. |
| TagsPage.MalformedTagThrows | src/pages/TagsPage.jsx:171 | A null tag or one without `tag_id` makes the whole filter throw. |
| TagsPage.StatusBadge | src/pages/TagsPage.jsx:180-195 | Every status badge starts with the base classes. |
| TagsPage.StatusBadgeColours | src/pages/TagsPage.jsx:180-195 | registered/unregistered/lost/found map to green/yellow/red/blue, and exactly the other statuses to gray. |
| TagsPage.DisplayId | src/pages/TagsPage.jsx:217-223 | `x?.id?.id?.String \|\| "N/A"`: the nested string when truthy, `N/A` otherwise. |
| TagsPage.DisplayIdNested | src/pages/TagsPage.jsx:217-223 | A record nesting a non-empty id string shows it; a missing or null record shows `N/A`. |
| TagsPage.PrintFormValid | src/pages/TagsPage.jsx:55-58 | The print schema: a quantity from 1 to 100 and a non-empty golf course (definition; see `DefaultFormNeedsCourse`, `TypedQuantityAccepted`). |
| TagsPage.DefaultFormNeedsCourse | src/pages/TagsPage.jsx:55-58 | The default form is rejected, and choosing a non-empty golf course makes it acceptable. |
| TagsPage.ParseQuantity | src/pages/TagsPage.jsx:438 | `parseInt(v) \|\| 1` is never 0, and input that does not parse gives 1. |
| TagsPage.ParseQuantityRoundTrip | src/pages/TagsPage.jsx:438 | A typed non-zero integer is read back as is; `0`, empty and non-numeric input give 1. |
| TagsPage.TypedQuantityAccepted | src/pages/TagsPage.jsx:55-58 | Typing a quantity from 1 to 100, with a course chosen, gives a form the schema accepts. |
| TagsPage.FilteredGolfCourses | src/pages/TagsPage.jsx:166-168 | The picker's throwing filter on `course.name` (definition; see the two lemmas below). |
| TagsPage.FilteredGolfCoursesIsFilter | src/pages/TagsPage.jsx:166-168 | With named courses the picker keeps, in order, exactly the courses whose name contains the search text, ignoring case. |
| TagsPage.FilteredGolfCoursesThrows | src/pages/TagsPage.jsx:166-168 | The picker's filter throws exactly when some course has no string `name`. |
| TagsPage.CourseKey | src/pages/TagsPage.jsx:159-161 | The key a picked course writes into the form (definition; see `CourseKeyPrefers`, `CourseKeyForms`). |
| TagsPage.CourseKeyPrefers | src/pages/TagsPage.jsx:159-161 | A picked course writes the string of a truthy `id.id.String`, else of a truthy `id`, else its name. |
| TagsPage.CourseKeyForms | src/pages/TagsPage.jsx:159-161 | A nested id string and a plain string id are each written as is. |
| TagsPage.PickedCourseCompletesForm | src/pages/TagsPage.jsx:55-58 | Picking a course with a nested string id completes the form for any quantity from 1 to 100. |
| TagsPage.Page.constructor | src/pages/TagsPage.jsx:60-83 | Mounting fetches the tags; the golf-course hook starts empty on page 1 of 20; the filters, the dialog, the picker text, the dropdown and the form start at their defaults. |
| TagsPage.Page.HandleDialogOpenChange | src/pages/TagsPage.jsx:127-137 | Closing resets the form, the download link, the print flag, the picker text and the dropdown; opening a closed dialog loads page 1 of 10 golf courses (lines 86-93), and the golf-course hook's state and pagination are what that fetch gives; the filters, the toasts and the print requests are untouched. |
| TagsPage.Page.ResetDialog | src/pages/TagsPage.jsx:130-135 | The close branch: the form, the download link, the print flag, the picker text and the dropdown are reset, and the dialog flag, the filters, the toasts and both request logs are untouched. |
| TagsPage.Page.HandlePrintTags | src/pages/TagsPage.jsx:103-119 | The print flag is raised and lowered on every exit; success stores `file_url` and refreshes the tags; a failure, or a null response, logs the fixed error toast; the dialog, the form, the filters and the picker are untouched. |
| TagsPage.Page.Submit | src/pages/TagsPage.jsx:425 | `printTags` is only ever called with values the schema accepts; a valid form runs the print handler on it, with its download link, toast and tag-refresh outcomes; an invalid form changes nothing. |
| TagsPage.Page.SetQuantity | src/pages/TagsPage.jsx:438 | The quantity field becomes `parseInt(text) \|\| 1` of the typed text, and nothing else changes (with `TypedQuantityAccepted`, a typed 1 to 100 passes the schema). |
| TagsPage.Page.HandleGolfCourseSearch | src/pages/TagsPage.jsx:139-147 | Typing in the picker stores the text, opens the dropdown, and requests page 1 of 10 with that search; the golf-course hook's state and pagination are what that fetch gives; the form, the filters, the dialog and the download link are untouched. |
| TagsPage.Page.HandleGolfCourseInputFocus | src/pages/TagsPage.jsx:149-157 | Focusing opens the dropdown, and loads page 1 of 10 only when no course is loaded, the hook's state and pagination then being what that fetch gives; the picker text, the form, the filters, the toasts and the print requests are untouched. |
| TagsPage.Page.SelectGolfCourse | src/pages/TagsPage.jsx:159-164 | Picking a course writes its key into the form, puts its name in the picker, and closes the dropdown; the quantity, the filters, the dialog and the download link are untouched. |
| TagsPage.Page.DropdownShown | src/pages/TagsPage.jsx:464 | The dropdown renders when it is open and the picker's filter keeps some course (definition; see `DropdownNeedsNamedCourses`). |
| TagsPage.Page.View | src/pages/TagsPage.jsx:166-178 | The picker's filter runs before the tag filter, and either can throw; otherwise the tag list card over the filtered tags (definition; see `ViewThrows`). |
| TagsPage.ViewThrows | src/pages/TagsPage.jsx:166-178 | The render throws exactly when a loaded golf course has no string name, or the tag filter throws. |
| TagsPage.DropdownNeedsNamedCourses | src/pages/TagsPage.jsx:464 | A rendered dropdown means it is open and every loaded course has a string name. |
| EvidencePage.EvidenceSearch | src/pages/EvidencePage.jsx:51-54 | The search callback over id, golf-course name and status, throwing as the source does (definition; see `EvidenceTestWellFormed`, `SearchIgnoresCase`). |
| EvidencePage.FilteredEvidence | src/pages/EvidencePage.jsx:50-57 | `(evidence \|\| []).filter(...)` (definition; see `FilteredEvidenceIsFilter`, `FilteredEvidenceExact`). |
| EvidencePage.EvidenceTestWellFormed | src/pages/EvidencePage.jsx:50-57 | On a well-formed record the filter callback does not throw and keeps the record exactly when the id, golf-course name or status contains the term and the status filter accepts it. |
| EvidencePage.FilteredEvidenceIsFilter | src/pages/EvidencePage.jsx:50-57 | On well-formed records the page's filter equals the reference filter. |
| EvidencePage.FilteredEvidenceExact | src/pages/EvidencePage.jsx:50-57 | The filtered records are an order-preserving sub-list, holding each matching record as often as the list does and no other. |
| EvidencePage.NoCriteriaShowsAll | src/pages/EvidencePage.jsx:50-57 | An empty search with the `all` filter shows every record. |
| EvidencePage.StatusAsSearchTermFinds | src/pages/EvidencePage.jsx:53-55 | Searching for a record's own status finds it, under `all` and under that status. |
| EvidencePage.SearchIgnoresCase | src/pages/EvidencePage.jsx:51-54 | Searching for a term and for its lower-cased form give the same outcome, errors included. |
| EvidencePage.StatusReadOnlyWhenNeeded | src/pages/EvidencePage.jsx:52-54 | A record without a status is kept when its id matches; when neither id nor golf course can match, reading the status throws. |
| EvidencePage.StatusBadge | src/pages/EvidencePage.jsx:59-71 | Every status badge starts with the base classes. |
| EvidencePage.StatusBadgeColours | src/pages/EvidencePage.jsx:59-71 | created/prize_claimed/files_verified map to blue/green/purple, and exactly the other statuses to gray. |
| EvidencePage.Statuses | src/pages/EvidencePage.jsx:89 | The status of each record, in order; a null record throws. |
| EvidencePage.UniqueStatuses | src/pages/EvidencePage.jsx:89 | `[...new Set(statuses)]`; the page computes it but never renders it (definition; see `UniqueStatusesExact`). |
| EvidencePage.UniqueStatusesExact | src/pages/EvidencePage.jsx:89 | The status list holds every record's status exactly once and nothing else, in order of first occurrence. |
| EvidencePage.ViewerUrl | src/pages/EvidencePage.jsx:102 | The viewer address starts with the fixed S3 prefix ending in `?evidenceId=`. |
| EvidencePage.ViewerUrlRoundTrip | src/pages/EvidencePage.jsx:102 | The record id is recovered from the viewer address. |
| EvidencePage.ViewerUrlInjective | src/pages/EvidencePage.jsx:102 | Distinct ids open distinct viewer addresses. |
| EvidencePage.MapLink | src/pages/EvidencePage.jsx:111-116 | A map opens exactly when the location is truthy and both its latitude and longitude are truthy. |
| EvidencePage.ToFixed | src/pages/EvidencePage.jsx:85 | `coordinate.toFixed(6)` succeeds exactly on a number; a missing, null or other coordinate throws the engine's TypeError. |
| EvidencePage.NumericCoordinates | src/pages/EvidencePage.jsx:85 | Both coordinates are numbers (definition; see `FormatLocation`). |
| EvidencePage.FormatLocation | src/pages/EvidencePage.jsx:83-86 | A falsy location prints "N/A"; a truthy one prints its latitude and longitude when both are numbers and throws otherwise. |
| EvidencePage.FormatLocationThrows | src/pages/EvidencePage.jsx:83-86 | An empty location object throws on reading `toFixed` of undefined; string coordinates throw "location.latitude.toFixed is not a function". |
| EvidencePage.RenderRows | src/pages/EvidencePage.jsx:229-251 | The rows' location cells in order, or the first row's throw (definition; see `RenderRowsExact`). |
| EvidencePage.RenderRowsExact | src/pages/EvidencePage.jsx:229-251 | The rows render exactly when no record's `formatLocation` throws, and then give one cell per record, each that record's formatted location. |
| EvidencePage.ZeroCoordinateOpensNothing | src/pages/EvidencePage.jsx:111-116 | A zero latitude or longitude, or a missing location, opens no map. |
| EvidencePage.ButtonsFor | src/pages/EvidencePage.jsx:381-416 | The file buttons for a list of kinds (definition; see `ButtonsForExact`, `ButtonsForLength`, `ButtonsForOrder`). |
| EvidencePage.ButtonsForExact | src/pages/EvidencePage.jsx:381-416 | There is a button of a kind, opening an address, exactly when that kind's url field is truthy and is that address. |
| EvidencePage.FileButtons | src/pages/EvidencePage.jsx:375-419 | File buttons exist only when `files` is truthy, and then exactly one per truthy file url. |
| EvidencePage.FileButtonsOrder | src/pages/EvidencePage.jsx:381-416 | At most four file buttons, in the order video, picture, sensors, GPX. |
| EvidencePage.ButtonsForLength | src/pages/EvidencePage.jsx:381-416 | There are no more buttons than kinds listed. |
| EvidencePage.ButtonsForOrder | src/pages/EvidencePage.jsx:381-416 | Kinds listed in increasing rank give buttons in increasing rank. |
| EvidencePage.ClaimButton | src/pages/EvidencePage.jsx:461 | The claim button is shown exactly when `claim_prize` and `claim_url` are both truthy, and opens `claim_url`. |
| EvidencePage.GolfCourseLink | src/pages/EvidencePage.jsx:234-242 | A row's golf-course link is rendered exactly when the course has a truthy name, and opens that course. |
| EvidencePage.Page.constructor | src/pages/EvidencePage.jsx:39-49 | Mounting fetches the records; no filter is set and no modal is open. |
| EvidencePage.Page.HandleViewDetails | src/pages/EvidencePage.jsx:91-99 | A loaded record is selected and the detail modal opens; a failure changes nothing on the page after the hook's toast. |
| EvidencePage.Page.HandleGolfCourseClick | src/pages/EvidencePage.jsx:106-109 | Clicking a golf course selects it and opens its modal, leaving the rest alone. |
| EvidencePage.Page.View | src/pages/EvidencePage.jsx:191-251 | The evidence card over the filtered records (lines 50-58), or the error the render throws: the filter's, or, when the rows are shown, the first row's `formatLocation` (definition; see `EvidencePage.ViewThrows`). |
| EvidencePage.ViewThrows | src/pages/EvidencePage.jsx:191-251 | The render throws exactly when the filter throws, or the rows are shown and some shown record has a truthy `location_start` whose latitude or longitude is not a number. |
| App.IsAdmin | src/hooks/useAuth.js:7-9 | `isAdmin` holds exactly when authenticated and a user object is present. |
| App.AdminPage | src/App.jsx:45-60 | Exactly `/tags`, `/evidence` and `/golf-courses` are the admin pages, rendering the tags, evidence and golf-courses page respectively. |
| App.Guard | src/App.jsx:18-61 | The screen for the provider's flags and the path (definition; see the route lemmas below). |
| App.LoadingAndErrorFirst | src/App.jsx:18-31 | The spinner shows exactly while auth is loading, on every path; after that, the error screen shows exactly when there is an error. |
| App.LoginRoute | src/App.jsx:37-40 | `/login` redirects to `/` when authenticated and shows the login page otherwise. |
| App.RootRoute | src/App.jsx:41-44 | `/` shows the dashboard exactly when authenticated, and otherwise redirects to `/login`. |
| App.AdminRoutes | src/App.jsx:45-60 | An admin page renders exactly when authenticated and admin, and otherwise redirects to `/login`. |
| App.CatchAll | src/App.jsx:61 | Any other path redirects to `/`. |
| App.AdminPageNeedsUser | src/App.jsx:45-60 | An admin page renders only for a session that is authenticated with a user present (`src/hooks/useAuth.js:7-9`). |
| App.Destination | src/App.jsx:37-61 | The page a settled session ends up on after the guard's redirects (definition; see `RedirectsSettle`). |
| App.RedirectsSettle | src/App.jsx:37-61 | Once auth has settled without error, at most two redirects reach a page: the login page when signed out, the requested admin page for an admin, else the dashboard. |
| App.NoSelfRedirect | src/App.jsx:37-61 | The guard never redirects a path to itself. |

## Left out

- Network I/O: `fetch`, reading and parsing the response body, and `console.error` are out. A response is an input that already carries its status, content type, text and JSON parse result.
- The 300 ms timer: it is the `TimerFired` event of the table's state machine.
- Concurrency: each hook operation is atomic. Overlapping requests resolving out of order are not modelled, and neither is the interleaving of the un-awaited `refreshTags()` inside `handlePrintTags`.
- The identity provider: Auth0 login, logout and storage clearing are out. The guard takes its flags as inputs.
- Pure UI: layout, styling, the toast component, the dashboard and the loading spinner are out. Toasts are entries appended to a log, and each hook (and the tags page) keeps its own log.
- Floating-point numbers and locale formatting: the digits `toFixed(6)` prints (in `formatLocation` and for the POI coordinates) and `formatTimestamp` are out. JSON numbers are integers. `formatLocation` is modelled up to the coordinates it formats and the TypeError it throws on a location without numeric coordinates.
- URL encoding: the golf-course query is an ordered list of key/value pairs joined by `&` and `=`, without the form-urlencoded percent-encoding.
- Case folding: `toLowerCase` is ASCII lower-casing.
- `parseInt` details: hexadecimal prefixes, leading whitespace and the radix are not modelled; the parser reads an optional sign and the leading decimal digits.
- Request bodies: a body is the JSON value handed to `JSON.stringify`, without serialization.
- React Router: path matching is exact string comparison, with no trailing-slash or case handling.
- TanStack Table: the row models, multi-column sorting and the updater-function form of `onSortingChange` are out. The sorting selection is a list, and only its first entry is read.
- Browser side effects: `window.open`, `navigator.clipboard` and `window.location` are out. The model yields the address that would be opened or the text that would be copied.
- The generic helpers: `useApiOperations` and `api.get`/`post`/`put`/`delete` are thin wrappers over the modelled `makeRequest` and request builder, and are not separately modelled.
- The tags page delete handler: it calls a `deleteTag` that the page never takes from its hook (`src/pages/TagsPage.jsx:63`, `95-101`). That wiring is not modelled; the hook's `deleteTag` is.
- The unreachable `catch` blocks of `testConnection` and of the `useApi` mount check are not modelled, because `healthCheck` never throws.
- Hooks.HasId: strict equality compares objects and arrays by reference, and a fresh value is never the same reference. The model treats any object or array id as unequal to everything.
- Hooks.NumberOr: a truthy pagination field that is not a number (a non-empty string, say) is replaced by the default instead of being kept.
- Hooks.ReplaceWhereId: a `null` list entry makes `tag.id` throw in the source. Here a null entry has no `id` and is kept.
- Hooks.RemoveWhereId: a `null` list entry makes `tag.id` throw in the source (`src/hooks/useApi.js:179`). Here a null entry has no `id` and is kept.
- Columns.CourseIdCell: a null row makes the cells throw, and this error path is not modelled. The hook keeps any array it receives and the page passes it to the table unfiltered, so a null entry reaches `row.original.id`; this and the other column cells require a non-null row.
- EvidencePage.Page.View: it renders the list card only. The detail modal's `formatLocation(selectedEvidence.location_start)` (`src/pages/EvidencePage.jsx:340`) and its `poi.location.latitude.toFixed(6)` calls (lines 357-363) can throw too, and those throws are not modelled; the modal's file and claim buttons are.
- EvidencePage.UniqueStatuses: `Set` compares object-valued statuses by reference; the model compares them by value.
- DataTable.EnabledTargetInRange: Previous on a stale page beyond the page count targets `page-1`, which can exceed the page count. The contract states that bound only for Next, Last, and pages within the count.
- The page-level `useEffect` on the print dialog runs when `showPrintDialog` becomes true. This relies on `fetchGolfCourses` keeping its identity, which it does because its only dependency is the stable `toast`.
- GolfCoursesPage.Page.OnCallback: the page object issues the request of the current-state handler `Handle`. For a search that reaches the page through a handler from an older render, the source sends the request of `HandleAsWritten` instead; see Findings.
- GolfCoursesPage.RequestReflectsState: states the intended behaviour of `Handle`. The handlers as written break it for a debounced search overtaken by a sort change; `AsWrittenAgrees` states exactly when the two differ.
- Columns.PoiCount: a string's length is counted in characters (code points), not in the UTF-16 code units JavaScript counts. An object whose `length` field is not a number (a string, say) is given no count, whereas the source compares and prints that value as it is.

## Findings

| source | as written | input that shows it | evidently intended | confidence | as-written member | corrected member |
|---|---|---|---|---|---|---|
| src/pages/GolfCoursesPage.jsx:63-75 | `handleSearchChange` closes over `sortField`, `sortOrder` and `pagination.limit` of its render. The table's debounce timeout (`src/pages/golf-courses/data-table.jsx:83-85`) calls the handler of the render in which the key was typed. | With the list shown, type `pine`, then sort by name descending within 300 ms. The sort fetch asks for DESC and the page shows DESC, but the search fetch that follows asks for `{page 1, limit 20, sort name, order ASC, search pine}`. | The search fetch uses the sort, order and page size the page shows when the fetch is sent (`RequestReflectsState`). | likely; not executed | GolfCoursesPage.StaleSearchAfterSort | GolfCoursesPage.Handle |
