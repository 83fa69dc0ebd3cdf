# Lurnex job board front end, modelled in Dafny

This project models the client-side logic of the Lurnex job board, a Next.js
and React front end. The model covers:

- the API service (`src/lib/api.ts`): the job transform, `formatDate`, the
  request headers, `handleResponse` and the three query-string builders;
- the in-memory mock job store (`src/data/jobs.ts`);
- the job listing page with its server parameters, client-side sort and
  filter (`src/components/FindJobs.tsx`);
- the authentication context and its consumers: the access guard and the
  sign-in form;
- the admin dashboard's list handling;
- the job form, the application dialog, the contact form and the landing
  page.

## How the model is built

Each source file becomes one module. Three shared modules write out what the
code draws from the JavaScript runtime:

- `Wrappers`: optional values, thrown values, the `{success, message, data,
  error}` envelope, and the outcome of an awaited call (returned or thrown).
- `Strings`: `trim`, `split`, `join`, `toLowerCase`, `includes`,
  `parseInt`, `Number.prototype.toString` and `encodeURIComponent` on
  `seq<char>`.
- `Seqs`: `filter`, the per-element `map` update,
  `Array.from(new Set(...))`, counting, and the stable `sort` of ECMA-262
  (section 23.1.3.30) driven by a numeric key.

The code is stateless in `api.ts` and in the pure helpers of the components,
so those parts are functions and lemmas. A component's state is a `class`
whose fields are the `useState` variables; each handler is a `method` with
`modifies this`. Every async handler is split at its `await`:

- `Begin…` does what runs before the await (loading on, error cleared, the
  request built);
- `Finish…` takes the settled outcome as a parameter.

This split keeps "loading is on during the attempt" visible. The following
are parameters instead of computations:

- the HTTP reply, the clock (`now`, in milliseconds) and `localStorage` (a
  map from key to value);
- `JSON.parse` and `JSON.stringify` (function values);
- the answer of `confirm(...)` (a boolean).

Some behaviour of the code is stated and proved as written:

- Requirement pieces that are empty are kept by the transform.
- Hydration with only one of the two storage keys present clears nothing.
- `getApplications` throws on a `null` parameter; the other two builders
  skip it.
- `parseInt("$80,000 - $120,000")` is `NaN`. So every salary written with a
  dollar sign sorts with key 0, and sorting by salary leaves such jobs in
  their fetched order (`FindJobs.DollarSalariesKeepOrder`).
- `FindJobs.tsx` has its own `jobTypes` and `locations` lists. They differ
  from the ones exported by `src/data/jobs.ts`; only the latter are modelled,
  since the former only feed the rendered selects.

## Model

| member | source | states |
|---|---|---|
| `Api.DiffDays` | src/lib/api.ts:52-53 | the day count is the least whole number of days covering the distance between the two instants, in either direction |
| `Api.AgeOf` | src/lib/api.ts:55-58 | below 7 days the count itself; 7 to 29 days gives weeks, rounded up, always 1 to 5; from 30 days months, rounded up |
| `Api.AgeText` | src/lib/api.ts:55-58 | every label starts with the bucket's number in decimal and ends in " ago" |
| `Api.FormatDate` | src/lib/api.ts:49-59 | the four labels: "1 day ago" for exactly one day, "N days ago" below 7, "ceil(N/7) weeks ago" below 30, "ceil(N/30) months ago" from 30 |
| `Api.FormatDateSymmetric` | src/lib/api.ts:52 | a date in the future gets the same label as the same distance in the past |
| `Api.FormatDateEdges` | src/lib/api.ts:52-58 | the same instant is "0 days ago"; exactly seven days is "1 weeks ago"; exactly thirty days is "1 months ago" |
| `Api.PostedLabel` | src/lib/api.ts:42 | "Recently" exactly when `created_at` is missing (no date label can be "Recently"); a parsed date gets its `formatDate` label, an unparseable one "NaN months ago" |
| `Api.RequirementList` | src/lib/api.ts:43-45 | a text gives one piece per comma-separated piece, empty ones kept, each the trimmed piece, so without outer whitespace or comma; a list is kept as it is; a missing value gives [] |
| `Api.RequirementsFirstPiece` | src/lib/api.ts:44 | the text before the first comma is the first requirement, trimmed, followed by the requirements of the rest; a text without commas is one trimmed requirement |
| `Api.PlaceholderLogo` | src/lib/api.ts:46 | the generated logo starts with the avatar service prefix and ends with the fixed colour and size suffix |
| `Api.TransformJob` | src/lib/api.ts:38-47 | every field not derived is copied. The category is `category_name`, else `category`, else "General", so it is never empty. `foodAccommodation` prefers the snake-case field. `posted` is "Recently" exactly when `created_at` is missing. A requirements text gives one trimmed, comma-free piece per comma plus one, empty pieces included; a list passes through and a missing value gives []. The logo is kept when truthy, else it is the placeholder for the encoded company |
| `Api.TransformIdempotent` | src/lib/api.ts:38-47 | with the clock fixed, transforming an already transformed job changes nothing |
| `Api.PlaceholderLogoShape` | src/lib/api.ts:46 | the placeholder is prefix, encoded company (or "Company"), suffix; the encoded part holds no `&`, `=` or `#`, so the company cannot add URL parameters |
| `Api.RequirementExamples` | src/lib/api.ts:43-45 | a missing value gives [], but the empty text gives one empty requirement [""] |
| `Api.AuthToken` | src/lib/api.ts:91-96 | a token exactly when running in a browser whose storage holds `authToken`, and then the stored value |
| `Api.GetHeaders` | src/lib/api.ts:91-109 | always the JSON content type; a bearer header exactly when a truthy token is stored, carrying that token; no other header |
| `Api.ApplicationHeaders` | src/lib/api.ts:231-237 | no content type; the bearer header exactly when a truthy token is stored |
| `Api.HandleResponse` | src/lib/api.ts:111-119 | a 2xx body is returned unchanged; any other status throws an error whose message is the body's message or "API request failed", never empty; an unreachable server rejects with its own error |
| `Api.StepOf` | src/lib/api.ts:152-311 | per entry: only the applications builder (line 257) throws, and only on null; undefined is skipped by all three, null by jobs (line 154) and contact (line 304), "" by jobs and applications, false by contact alone (line 306); a kept value is sent as its text |
| `Api.Query` | src/lib/api.ts:150-158 | the pairs of one builder; when it fails, the builder is the applications one |
| `Api.BuildQuery` | src/lib/api.ts:150-158 | the entry-by-entry loop builds exactly the query of the specification function `Query` |
| `Api.QueryMeaning` | src/lib/api.ts:255-261 | the builder fails exactly when some entry throws, and only the applications builder can throw; otherwise the query holds exactly the kept entries, in entry order, as key and text |
| `Api.QueryFailSticks` | src/lib/api.ts:256-258 | once one entry throws, the whole builder throws whatever follows |
| `Api.KeptEntriesMembers` | src/lib/api.ts:152-157 | an entry is in the query exactly when it is a parameter the builder keeps |
| `Api.QueryRules` | src/lib/api.ts:302-311 | jobs skip undefined, null and ""; applications skip undefined and "" but throw on null; contact skips undefined, null and false, sends true as "true" and keeps "" |
| `Api.TransformAll` | src/lib/api.ts:171-173 | one transformed job per backend job, position by position |
| `Api.GetJobs` | src/lib/api.ts:142-176 | a GET to `/jobs` with the built query, the JSON content type and the bearer token header exactly when a truthy token is stored; it throws exactly when the reply is not a delivered 2xx, with the error of `handleResponse`; a successful body's data arrives transformed; success, message and error are passed through |
| `Api.GetJobById` | src/lib/api.ts:178-191 | a GET to `/jobs/{id}` in decimal with no query, the JSON content type and the bearer token header exactly when a truthy token is stored; it throws exactly when the reply is not a delivered 2xx, with the error of `handleResponse`; a successful body's record arrives transformed; success, message and error are passed through |
| `Api.ListRequest` | src/lib/api.ts:248-272 | a GET to `/applications` or `/contact` with the built query, the JSON content type and the bearer token header exactly when a truthy token is stored, or no request at all when building the query throws |
| `Api.DashboardMessagesQuery` | src/components/AdminDashboard.tsx:76 | the dashboard's message listing asks for `page=1&limit=50` |
| `Strings.Split` | src/lib/api.ts:44 | one piece more than there are separators, none of them holding the separator |
| `Strings.JoinSplit` | src/lib/api.ts:44 | joining the pieces with the separator gives the text back |
| `Strings.Join` | src/components/JobForm.tsx:47 | the empty list joins to ""; otherwise the first part comes first and the length is the parts' total plus one glue between each two parts |
| `Strings.Trim` | src/lib/api.ts:44 | the result has no leading or trailing JavaScript whitespace, is no longer than the text, and a text without such whitespace is kept as it is |
| `Strings.TrimStartSuffix` | src/lib/api.ts:44 | what trimming the front keeps is the end of the text |
| `Strings.TrimEndPrefix` | src/lib/api.ts:44 | what trimming the back keeps is the start of the text |
| `Strings.TrimKeepsOut` | src/lib/api.ts:44 | trimming adds no character: one missing from the text is missing from the result |
| `Api.TrimmedPiecesCommaFree` | src/lib/api.ts:44 | no trimmed piece of a comma split holds a comma |
| `Strings.ToLower` | src/components/FindJobs.tsx:67-68 | same length; each ASCII capital lowered, every other character kept |
| `Strings.Contains` | src/components/FindJobs.tsx:67-68 | an included text is never longer than the text, and the empty text is always included |
| `Strings.ContainsAt` | src/components/FindJobs.tsx:67-68 | `includes` holds exactly when the text occurs at some index |
| `Strings.ParseInt` | src/components/FindJobs.tsx:56 | `parseInt` skips leading whitespace, one sign and a `0x` prefix (which switches to hexadecimal), then reads the longest run of digits; the result is NaN (`None`) exactly when that run is empty |
| `Strings.ParseIntToString` | src/components/FindJobs.tsx:56 | `parseInt` reads back every integer that `toString` writes |
| `Strings.NatToString` | src/components/ApplicationFormModal.tsx:49 | the decimal text of a natural number: non-empty, decimal digits only, a leading zero only for zero |
| `Strings.IntToString` | src/components/ApplicationFormModal.tsx:49 | a non-empty text that starts with a minus sign exactly for a negative number, all other characters decimal digits |
| `Strings.SignedNumeral` | src/components/ApplicationFormModal.tsx:49 | the text of an integer carries a minus sign exactly when it is negative, followed by the digits of its magnitude |
| `Wrappers.ErrorText` | src/components/FindJobs.tsx:43 | an `Error`'s own message, even when empty; any other thrown value gives the fallback |
| `Wrappers.OrElse` | src/lib/api.ts:46 | the first text when it is non-empty, else the second; empty only when both are |
| `Strings.EncodeUriComponent` | src/lib/api.ts:46 | the output holds only unreserved characters, `%` and upper-case hexadecimal digits, so no reserved character survives; a text made of unreserved characters is kept as it is |
| `Seqs.SortBy` | src/components/FindJobs.tsx:49-62 | the sorted list is a permutation of the input and ascending in the key |
| `Seqs.SortByStable` | src/components/FindJobs.tsx:49-62 | for each key value, the elements with that key keep their input order |
| `Seqs.SortByAscending` | src/components/FindJobs.tsx:59-60 | a list already in key order is returned unchanged |
| `Seqs.Filter` | src/components/FindJobs.tsx:64-74 | the result holds exactly the elements that satisfy the predicate |
| `Seqs.FilterIsSubsequence` | src/components/FindJobs.tsx:64 | filtering keeps the remaining elements in order |
| `Seqs.Distinct` | src/components/Home.tsx:244 | each value once, and exactly the values of the input |
| `Seqs.DistinctFirstOccurrence` | src/components/Home.tsx:244 | the distinct values come in the order of their first occurrence in the input |
| `Seqs.SumCountsDistinct` | src/components/Home.tsx:244-245 | counting the list's elements per distinct value accounts for every element exactly once |
| `Seqs.MapWhere` | src/data/jobs.ts:117 | same length; the selected elements are updated, the others kept |
| `JobsData.SeedJobs` | src/data/jobs.ts:18-101 | six seed jobs with consecutive ids from 1922330 |
| `JobsData.SeedIdsDistinct` | src/data/jobs.ts:18-101 | the seed ids are pairwise distinct |
| `JobsData.TypeOptionsCoverSeed` | src/data/jobs.ts:105 | the type options begin with "All", and every seed job's type is offered after it |
| `JobsData.LocationOptionsCoverSeed` | src/data/jobs.ts:106 | the location options begin with "All", and every seed job's location is offered after it |
| `JobsData.ReplaceById` | src/data/jobs.ts:117 | same length; a job with the id becomes the new job, every other one is kept |
| `JobsData.RemoveById` | src/data/jobs.ts:121 | no job with the id remains, and every job with another id does |
| `JobsData.RemoveKeepsOrder` | src/data/jobs.ts:121 | deleting keeps the remaining jobs in order |
| `JobsData.RemoveAbsent` | src/data/jobs.ts:121 | deleting an absent id changes nothing |
| `JobsData.RemoveIdempotent` | src/data/jobs.ts:121 | deleting twice is deleting once |
| `JobsData.ReplaceAbsent` | src/data/jobs.ts:117 | updating an absent id changes nothing |
| `JobsData.RemoveAfterReplace` | src/data/jobs.ts:116-122 | deleting after an update that keeps the id is the same as deleting at once |
| `JobsData.JobStore.constructor` | src/data/jobs.ts:109 | the state starts as a copy of the seed |
| `JobsData.JobStore.GetJobs` | src/data/jobs.ts:111 | returns the current state |
| `JobsData.JobStore.AddJob` | src/data/jobs.ts:112-115 | the old state with the job appended, returned |
| `JobsData.JobStore.UpdateJob` | src/data/jobs.ts:116-119 | the state with every job of that id replaced, same length, the others kept |
| `JobsData.JobStore.DeleteJob` | src/data/jobs.ts:120-123 | the state without the jobs of that id; unchanged when the id is absent |
| `FindJobs.ServerQuery` | src/components/FindJobs.tsx:30-35 | the URL carries `search` for a non-empty term, then `type` and `location` unless they are "All" or empty; with the initial filters it carries no query |
| `FindJobs.Time` | src/components/FindJobs.tsx:51-54 | the job's creation instant in milliseconds; 0 for a missing or unparseable date |
| `FindJobs.SalaryKey` | src/components/FindJobs.tsx:55-58 | the integer `parseInt` reads from a truthy salary; 0 when the salary is missing or empty, or does not start with an integer |
| `FindJobs.SortKey` | src/components/FindJobs.tsx:49-62 | the key each order sorts ascending by: minus the time for newest, the time for oldest, minus the salary key for highest salary, the salary key for lowest; 0 for every job under an unknown order |
| `FindJobs.SortedJobs` | src/components/FindJobs.tsx:49-62 | a permutation of the fetched jobs, newest or oldest first by date, or highest or lowest first by salary key; an unknown order keeps the jobs as fetched |
| `FindJobs.SortedStable` | src/components/FindJobs.tsx:49-62 | jobs with equal keys keep their fetched order |
| `FindJobs.DollarIsNaN` | src/components/FindJobs.tsx:56 | `parseInt` of a text starting with `$` is NaN |
| `FindJobs.DollarSalariesKeepOrder` | src/components/FindJobs.tsx:55-58 | when every salary starts with `$`, sorting by salary in either direction changes nothing |
| `FindJobs.SalaryKeyExamples` | src/components/FindJobs.tsx:56 | a "$…" range, an empty and a missing salary all have key 0 |
| `FindJobs.SalaryKeyOfNumeral` | src/components/FindJobs.tsx:56 | a salary written as a plain integer sorts by that integer |
| `FindJobs.Matches` | src/components/FindJobs.tsx:64-74 | the default filters match every job; a match has the selected type and location, and a non-empty search term, lowered, occurs in the lowered title or company |
| `FindJobs.MatchesFilters` | src/components/FindJobs.tsx:64-74 | the filter callback agrees with `Matches` on every job |
| `FindJobs.VisibleJobs` | src/components/FindJobs.tsx:64-74 | no more jobs than fetched, each a fetched job that matches the filters |
| `FindJobs.VisibleJobsMeaning` | src/components/FindJobs.tsx:64-74 | a fetched job is shown exactly when it passes the search, type and location filters, and the shown jobs keep the sorted order |
| `FindJobs.DefaultFiltersShowAll` | src/components/FindJobs.tsx:66-72 | with the default filters every sorted job is shown |
| `FindJobs.SearchIgnoresCase` | src/components/FindJobs.tsx:66-68 | lowering the search term first does not change which jobs match |
| `FindJobs.JobListing.constructor` | src/components/FindJobs.tsx:13-19 | empty search, type and location "All", newest first, no jobs, loading, no error |
| `FindJobs.JobListing.BeginFetch` | src/components/FindJobs.tsx:25-33 | loading on, error cleared, parameters built from the filters, nothing else changed |
| `FindJobs.JobListing.FinishFetch` | src/components/FindJobs.tsx:35-46 | a successful list replaces the jobs; an unsuccessful reply sets its message or "Failed to fetch jobs"; a throw sets its message or "An error occurred"; loading always ends |
| `FindJobs.JobListing.SetSearchTerm` | src/components/FindJobs.tsx:21-23 | the term is set, and a refetch happens exactly when it changed |
| `FindJobs.JobListing.SetSelectedType` | src/components/FindJobs.tsx:126 | the type is set, and a refetch happens exactly when it changed |
| `FindJobs.JobListing.SetSelectedLocation` | src/components/FindJobs.tsx:147 | the location is set, and a refetch happens exactly when it changed |
| `FindJobs.JobListing.SetSortBy` | src/components/FindJobs.tsx:168 | only the order changes, and nothing is refetched |
| `FindJobs.JobListing.Shown` | src/components/FindJobs.tsx:64-74 | the rendered jobs are among the page's jobs, each matching the page's current filters |
| `FindJobs.JobListing.ClearFilters` | src/components/FindJobs.tsx:186-190 | the three filters return to their defaults and the order is kept; a refetch happens exactly when some filter was set |
| `AuthContext.Hydrated` | src/contexts/AuthContext.tsx:30-48 | with both keys truthy a user that parses signs in; a user that does not parse removes both keys; with either key missing nothing changes |
| `AuthContext.LoggedIn` | src/contexts/AuthContext.tsx:50-72 | succeeds exactly on a successful response with data. Success stores the token and the serialised user and signs in; every failure, including a throw, leaves the session unchanged |
| `AuthContext.LoggedOut` | src/contexts/AuthContext.tsx:74-85 | signed out, both keys removed, every other stored key kept |
| `AuthContext.ReloadAfterLogin` | src/contexts/AuthContext.tsx:30-61 | a page reload after a successful login restores the same session, given a non-empty token and a user that serialises and parses back |
| `AuthContext.ReloadAfterLogout` | src/contexts/AuthContext.tsx:74-85 | a page reload after logout is signed out |
| `AuthContext.HydratedIdempotent` | src/contexts/AuthContext.tsx:30-48 | hydrating twice is hydrating once |
| `AuthContext.AuthProvider.constructor` | src/contexts/AuthContext.tsx:26-28 | signed out, no user, loading |
| `AuthContext.AuthProvider.Hydrate` | src/contexts/AuthContext.tsx:30-48 | the new session is the hydrated one, loading ends, and storage is untouched unless both keys were present |
| `AuthContext.AuthProvider.Login` | src/contexts/AuthContext.tsx:50-72 | the new session and the returned flag are those of the login specification; loading is untouched |
| `AuthContext.AuthProvider.Logout` | src/contexts/AuthContext.tsx:74-85 | the new session is the logged-out one, whatever the server answered |
| `AuthContext.UseAuth` | src/contexts/AuthContext.tsx:94-100 | the context inside a provider, otherwise the error "useAuth must be used within an AuthProvider" |
| `ProtectedAdminDashboard.Guard` | src/components/ProtectedAdminDashboard.tsx:12-33 | spinner while loading. Once loaded, the dashboard exactly when authenticated; otherwise a blank screen and a redirect to "/login". An authenticated user is never redirected |
| `ProtectedAdminDashboard.GuardAfterReload` | src/components/ProtectedAdminDashboard.tsx:12-33 | after a reload the dashboard shows exactly when storage holds a token and a user that parses; otherwise the visitor is sent to the login page |
| `AdminLogin.LoginForm.constructor` | src/components/AdminLogin.tsx:10-15 | empty credentials and error, not loading |
| `AdminLogin.LoginForm.HandleInputChange` | src/components/AdminLogin.tsx:19-26 | only the named credential changes, and the error is cleared |
| `AdminLogin.LoginForm.BeginSubmit` | src/components/AdminLogin.tsx:28-35 | loading on, error cleared, the current credentials passed to `login` |
| `AdminLogin.LoginForm.FinishSubmit` | src/components/AdminLogin.tsx:35-47 | true navigates to "/admin"; false sets "Invalid username or password"; a throw sets "Login failed. Please try again."; loading always ends |
| `AdminLogin.SubmitMessage` | src/components/AdminLogin.tsx:37-44 | the error line is empty exactly on success, else one of the two fixed texts |
| `Contact.FailureMessage` | src/components/Contact.tsx:55 | the backend's `error`, else its `message`, else "Failed to send message"; never empty |
| `Contact.ContactForm.constructor` | src/components/Contact.tsx:8-18 | five empty fields, not loading, no success, no error |
| `Contact.ContactForm.HandleInputChange` | src/components/Contact.tsx:20-26 | only the named field changes |
| `Contact.ContactForm.BeginSubmit` | src/components/Contact.tsx:28-40 | loading on, error cleared, and the message sent copies the five fields exactly |
| `Contact.ContactForm.FinishSubmit` | src/components/Contact.tsx:42-61 | success sets `success` and empties the five fields; a failure or a throw sets the error and keeps the fields; loading always ends |
| `Contact.ContactForm.ExpireSuccess` | src/components/Contact.tsx:52 | the timer only clears `success` |
| `ApplicationFormModal.FixedParts` | src/components/ApplicationFormModal.tsx:48-53 | five text entries, `job_id` first, none under a file key |
| `ApplicationFormModal.FileParts` | src/components/ApplicationFormModal.tsx:55-60 | one file entry per chosen file, the resume first and the payment receipt last |
| `ApplicationFormModal.Payload` | src/components/ApplicationFormModal.tsx:48-60 | five entries plus one per chosen file, the first five exactly the text entries |
| `ApplicationFormModal.PayloadShape` | src/components/ApplicationFormModal.tsx:48-60 | the payload starts with the five text entries in order, the id in decimal. `resume` appears exactly once when a resume is chosen and `payment_file` exactly once when a receipt is chosen; there is nothing else |
| `ApplicationFormModal.PayloadIdRoundTrip` | src/components/ApplicationFormModal.tsx:49 | the `job_id` entry parses back to the job's id |
| `ApplicationFormModal.ApplicationForm.constructor` | src/components/ApplicationFormModal.tsx:13-23 | empty texts, no files, not loading, no error |
| `ApplicationFormModal.ApplicationForm.HandleInputChange` | src/components/ApplicationFormModal.tsx:25-31 | only the named text field changes |
| `ApplicationFormModal.ApplicationForm.HandleFileChange` | src/components/ApplicationFormModal.tsx:33-40 | the named file field takes the first selected file, or none when there is none; everything else is kept |
| `ApplicationFormModal.ApplicationForm.BuildPayload` | src/components/ApplicationFormModal.tsx:48-60 | the entry-by-entry construction gives exactly the specified payload, changing nothing |
| `ApplicationFormModal.ApplicationForm.BeginSubmit` | src/components/ApplicationFormModal.tsx:42-60 | loading on, error cleared, the form kept, the payload built |
| `ApplicationFormModal.ApplicationForm.FinishSubmit` | src/components/ApplicationFormModal.tsx:62-83 | the dialog closes and the form resets exactly on success. Otherwise the form is kept and the error is the message or "Failed to submit application", or for a throw its message or "An error occurred". Loading always ends |
| `JobForm.Prefill` | src/components/JobForm.tsx:31-45 | each form field takes the edited job's value; a missing salary, food accommodation or gender becomes "" |
| `JobForm.RequirementPieces` | src/components/JobForm.tsx:68-71 | the pieces are non-empty, trimmed and comma-free |
| `JobForm.RequirementPiecesInOrder` | src/components/JobForm.tsx:68-71 | the pieces are the trimmed pieces of the split with the empty ones left out, in their order |
| `JobForm.ParseRequirements` | src/components/JobForm.tsx:68-75 | never empty: the pieces, or ["No specific requirements"] when there are none |
| `JobForm.RequirementsRoundTrip` | src/components/JobForm.tsx:47-75 | submitting the prefilled requirements text unchanged gives back the job's requirements, when they are non-empty, comma-free and trimmed |
| `JobForm.EmptyRequirementsDefault` | src/components/JobForm.tsx:75 | an empty requirements text, which is what a job without requirements prefills, submits the default |
| `JobForm.Submitted` | src/components/JobForm.tsx:73-77 | the submitted data is the form with the parsed requirements and the fixed placeholder logo; no other field differs |
| `JobForm.JobFormState.constructor` | src/components/JobForm.tsx:13-28 | the default form ("Full-time", "General", all else empty) and an empty requirements text |
| `JobForm.JobFormState.ApplyJob` | src/components/JobForm.tsx:30-55 | an edited job prefills the form and its requirements joined by ", "; a new job only sets `posted` to "Just now" |
| `JobForm.JobFormState.HandleInputChange` | src/components/JobForm.tsx:57-63 | only the named field changes |
| `JobForm.JobFormState.SetRequirementInput` | src/components/JobForm.tsx:205 | only the requirements text changes |
| `JobForm.JobFormState.HandleSubmit` | src/components/JobForm.tsx:65-78 | hands over the submitted data of the current form, changing nothing |
| `AdminDashboard.ListFrom` | src/components/AdminDashboard.tsx:60-67 | an array is the list, and so is the array under the key of an object; anything else, a failure or a throw gives [], and a non-empty list implies a successful response |
| `AdminDashboard.ListFromShapes` | src/components/AdminDashboard.tsx:77-85 | both shapes a successful listing may take deliver the same list; a failed or thrown call delivers none |
| `AdminDashboard.JobsAfterFetch` | src/components/AdminDashboard.tsx:94-103 | a successful list replaces the jobs, a throw empties them, and any other reply keeps them |
| `AdminDashboard.JobsAfterFetchTwice` | src/components/AdminDashboard.tsx:94-103 | applying the same response twice is applying it once |
| `AdminDashboard.WithId` | src/components/AdminDashboard.tsx:127-130 | the submitted form as a job under the kept id, every form field copied |
| `AdminDashboard.ReplaceJob` | src/components/AdminDashboard.tsx:131 | same length; the jobs with the id become the updated job, the others are kept |
| `AdminDashboard.ReplaceKeepsIds` | src/components/AdminDashboard.tsx:125-131 | an update keeps the list of ids as it was |
| `AdminDashboard.RemoveJob` | src/components/AdminDashboard.tsx:139 | no job with the id remains, every other job does, in order |
| `AdminDashboard.RemoveAbsentJob` | src/components/AdminDashboard.tsx:137-141 | deleting an absent id changes nothing |
| `AdminDashboard.WithStatus` | src/components/AdminDashboard.tsx:153-159 | same length; the applications with the id take the new status, the others are kept |
| `AdminDashboard.WithStatusOnlyStatus` | src/components/AdminDashboard.tsx:153-159 | nothing but the status changes, and the matching applications get the new status |
| `AdminDashboard.StatusColor` | src/components/AdminDashboard.tsx:161-174 | the four statuses map to their fixed classes; any other text maps to the gray default |
| `AdminDashboard.StatusColorDistinguishes` | src/components/AdminDashboard.tsx:161-174 | the default appears exactly for an unknown status, and different known statuses get different classes |
| `AdminDashboard.FirstChars` | src/components/AdminDashboard.tsx:402 | one character per non-empty part, each the first character of that part |
| `AdminDashboard.Initials` | src/components/AdminDashboard.tsx:401-403 | "NA" for an empty name, else the first characters of the space-separated parts |
| `AdminDashboard.InitialsOfWords` | src/components/AdminDashboard.tsx:401-403 | a name of words separated by single spaces has exactly one initial per word, in order |
| `AdminDashboard.Dashboard.constructor` | src/components/AdminDashboard.tsx:37-44 | empty lists, form closed, no job being edited, no error, the jobs tab |
| `AdminDashboard.Dashboard.FinishFetchApplications` | src/components/AdminDashboard.tsx:57-71 | the applications become the unwrapped list under "applications"; nothing else changes |
| `AdminDashboard.Dashboard.BeginFetchContactMessages` | src/components/AdminDashboard.tsx:73-76 | the spinner flag is on and the query asks for page 1 with limit 50 |
| `AdminDashboard.Dashboard.FinishFetchContactMessages` | src/components/AdminDashboard.tsx:77-91 | the messages become the unwrapped list under "messages" and the spinner flag ends in every outcome |
| `AdminDashboard.Dashboard.FinishFetchJobs` | src/components/AdminDashboard.tsx:94-103 | the jobs become those of the fetch specification; nothing else changes |
| `AdminDashboard.Dashboard.SetActiveTab` | src/components/AdminDashboard.tsx:52-56 | the tab is set, and the messages are fetched again exactly when the tab changes to the messages tab |
| `AdminDashboard.Dashboard.CreateJob` | src/components/AdminDashboard.tsx:105-118 | the form closes in every outcome. Success refetches the jobs; a failure sets the message or "Failed to create job"; a throw sets its message or the same text |
| `AdminDashboard.Dashboard.EditJob` | src/components/AdminDashboard.tsx:120-123 | the form opens on that job |
| `AdminDashboard.Dashboard.UpdateJob` | src/components/AdminDashboard.tsx:125-135 | while editing, the edited job is replaced under its own id and the form closes; without an edited job nothing changes |
| `AdminDashboard.Dashboard.SubmitJobForm` | src/components/AdminDashboard.tsx:468 | an update while a job is being edited and a create otherwise; the form ends closed with no job being edited |
| `AdminDashboard.Dashboard.DeleteJob` | src/components/AdminDashboard.tsx:137-141 | only a confirmed deletion removes the jobs with that id |
| `AdminDashboard.Dashboard.CloseForm` | src/components/AdminDashboard.tsx:143-146 | the form closes and no job is being edited |
| `AdminDashboard.Dashboard.ChangeStatus` | src/components/AdminDashboard.tsx:153-159 | the applications take the status change; nothing else changes |
| `Home.Featured` | src/components/Home.tsx:32 | the first six jobs in order, or all of them when there are fewer |
| `Home.FeaturedPrefix` | src/components/Home.tsx:32 | the featured jobs are a prefix of the jobs; featuring twice is featuring once |
| `Home.CategoryNames` | src/components/Home.tsx:244 | one category per mock job, position by position |
| `Home.Categories` | src/components/Home.tsx:244 | each category of the mock jobs once, every job's category present, and no other; the distinct values of the category list |
| `Home.CategoryCount` | src/components/Home.tsx:245 | the number of mock jobs in the category; positive exactly when some job has it |
| `Home.TileTotal` | src/components/Home.tsx:244-245 | the sum over the tiles of how often each tile's category occurs among the jobs' categories |
| `Home.TilesCountEveryJob` | src/components/Home.tsx:239-245 | the tile counts add up to the number of jobs shown as live |
| `Home.SeedTiles` | src/components/Home.tsx:239-245 | on the seed data the tiles count all six jobs |
| `Home.HomePage.constructor` | src/components/Home.tsx:9-11 | no jobs, not loading, no error |
| `Home.HomePage.BeginFetch` | src/components/Home.tsx:17-19 | loading on, nothing else changed |
| `Home.HomePage.FeaturedJobs` | src/components/Home.tsx:32 | the first six of the page's jobs, or all of them when fewer |
| `Home.HomePage.FinishFetch` | src/components/Home.tsx:20-28 | a successful list replaces the jobs; a throw sets its message or "Failed to fetch jobs"; otherwise, including an unsuccessful reply, nothing changes but loading, which always ends |

## Left out

- Rendering, markup, styles, icons, `alert(...)` and router navigation are not modelled. Navigation appears only as the route a handler returns: the guard's "/login", the sign-in form's "/admin". The `if (!isOpen) return null` guard of the application dialog is rendering and is left out too.
- Five components are not part of this model, because they hold no logic beyond rendering props: `VideoModal`, `JobDetail`, `JobCard`, `ContactMessagesPage` and `Header`. The same goes for the pages under `src/app`.
- Thin endpoints are not modelled, because each only sends one `fetch` and passes the reply to `handleResponse`: `login`, `logout`, `getJobCategories`, `createJob`, `updateJob`, `deleteJob`, `submitApplication`'s request itself, `updateApplicationStatus`, `submitContact`, `markMessageAsRead` and `healthCheck`. Their outcomes enter the components as the `Call` parameter of each `Finish…` method.
- Concurrency is not modelled: two fetches in flight whose replies arrive out of order (a stale response overwriting a newer one). React's batching of state updates is not modelled either; each handler's updates are applied in order.
- The five-second timer of the contact form is not modelled; its callback is the method `ExpireSuccess`.
- `AdminDashboard.tsx`'s `handleLogout` is not modelled, because it only calls the session's `logout` (modelled) and navigates.
- `URLSearchParams` serialisation, meaning the percent-encoding of the query pairs, is not modelled; a query is its list of key and text pairs.
- `response.json()` failing on a body that is not JSON is not modelled.
- Api.GetJobs: when the envelope is not successful the source returns its `data` untransformed; the model returns no data in that case, since no component reads it.
- FindJobs.SortedJobs: a missing or unparseable `created_at` gives `NaN` in the source, and ECMA-262 then treats the comparison as equal to no consistent order; the model gives such a job the key 0.
- FindJobs.Time: the same `NaN` date is the key 0.
- Strings: a JavaScript string is a sequence of UTF-16 code units, while the model's `string` is a sequence of Unicode scalar values. Two behaviours that depend on the difference are not modelled. AdminDashboard.FirstChars and AdminDashboard.Initials return the whole first character of a part, while `n[0]` in the source yields only the high surrogate of a character outside the Basic Multilingual Plane. Strings.EncodeUriComponent encodes every character in the model, while `encodeURIComponent` throws `URIError` on a lone surrogate, which the model's strings cannot hold.
- Strings.ToLower: only ASCII capitals are lowered; full Unicode case mapping is not modelled.
- Strings.ParseInt: the result is an unbounded integer; the loss of precision of a JavaScript number beyond 2^53 is not modelled.
- AuthContext.Hydrated: `JSON.parse` is a parameter that yields a user or fails; stored text that parses to something other than a user is not modelled.
- JobForm.Prefill: the title, company, location, type, description, posted, logo, category and requirements of a transformed job are never null in this model, so their `??` fallbacks are unreachable here.
- AdminDashboard.ListFrom: an object whose `applications` property is not an array is stored as it is by the source; the model only represents array-valued properties.
- AdminDashboard.Dashboard.CreateJob: the body sent by `createJob` is not modelled; only the outcome of the call and of the refetch after it are.
- Home.SeedTiles: the concrete category list of the seed (Development, Design, Marketing, Management) is not stated, only that the tiles count all six jobs.
