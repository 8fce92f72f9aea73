# Job board: decision logic of the admin dashboard, the application page and the two serverless handlers

The job board is a React front end over a hosted database, a private file
bucket and two serverless functions. This project models the parts of it that
make decisions. It also proves what those decisions guarantee.

- **Admin dashboard** (`AdminPanel`). The application list is filtered by a
  trimmed, lower-cased search over name, email and position, combined with an
  exact status filter. A shared-secret prompt and a lock button open and close
  the dashboard. The list refresh turns null query data into empty lists. The
  delete and create handlers write and then refresh. A download button asks the
  signed-URL function for a 120-second link. `Dashboard` is a class whose
  methods update its fields; the filter is a function.
- **Application page** (`JobDetail`). The page loads a job by its slug. The
  form is updated one field at a time. Each uploaded file is stored as
  `applications/<slug>/<ms>-<random>.<ext>`. Submission checks three guards in
  a fixed order. It then uploads the resume, uploads the cover letter when there
  is one, inserts the row, and sends a best-effort notification. `JobDetailPage`
  is a class; the path construction and the guards are functions.
- **`get-signed-url`** (`SignedUrl`). This is a pure function from request,
  secrets and the storage reply to a response. The checks run in order: 405,
  then missing configuration (500), then a missing `path` (400), then a storage
  error (500), then `{ signedUrl }`.
- **`send-application-email`** (`ApplicationEmail`). It validates in the same
  order as `get-signed-url`. It renders a subject and a fifteen-line plain-text
  body, and it maps the mail provider's answer to a response.

Supporting modules:

- `Text` holds the JavaScript string operations the code relies on: `trim`
  with the exact ECMAScript white-space set, ASCII `toLowerCase`, `includes`,
  `split` and `join` on one character, and decimal rendering.
- `Json` models JavaScript values: truthiness, `?.` access and `${}`
  interpolation.
- `Http` holds requests, responses and secrets. Its status codes follow
  RFC 9110: 400 is section 15.5.1, 405 is section 15.5.6 and 500 is
  section 15.6.1.
- `Records` holds the row types.

Foreign services are parameters:

- The storage service, the database and the mail provider are a function
  argument (`store`, `provider`) or a reply value passed to the method that
  uses it.
- `Date.now()` and `Math.round(Math.random() * 1e6)` are a `Stamp`.
- `window.prompt` and `confirm` answers are arguments.

## Model

| member | source | states |
|---|---|---|
| Text.Trim | pages/AdminPanel.tsx:122 | the result has no leading or trailing white space and is no longer than the input |
| Text.TrimEmptyIffWhite | pages/AdminPanel.tsx:122-124 | trimming gives the empty string exactly when the input is all white space |
| Text.TrimPadded | pages/AdminPanel.tsx:122 | white space added around a string does not change its trimmed form |
| Text.LowerTrimCommute | pages/AdminPanel.tsx:122 | lower-casing and trimming commute |
| Text.ContainsAt | pages/AdminPanel.tsx:125-127 | `includes` holds exactly when the query occurs at some position |
| Text.JoinSplit | supabase/functions/send-application-email/index.ts:41-57 | splitting on a character and joining on it again gives back the string |
| Text.SplitPieces | pages/JobDetail.tsx:76 | no piece of a split holds the separator, and a string without the separator splits into itself |
| Text.SplitJoin | supabase/functions/send-application-email/index.ts:41-57 | joining separator-free pieces and splitting again gives back the pieces |
| Text.DecimalRoundTrip | pages/JobDetail.tsx:77 | the decimal numeral of a number reads back as that number |
| Text.IsWhite | pages/AdminPanel.tsx:122 | the ECMAScript white-space and line-terminator characters `trim` removes; no contract of its own, and Text.Trim and Text.TrimEmptyIffWhite are stated in terms of it |
| Text.TrimDecompose | pages/AdminPanel.tsx:122 | every string is leading white space, then its trimmed form, then trailing white space |
| Text.TrimUnique | pages/AdminPanel.tsx:122 | a string with no white space at either end, padded with white space, trims back to itself |
| Text.Lower | pages/AdminPanel.tsx:122-127 | the result has the input's length, and each character is the ASCII lower-case form of the input's character at that position |
| Text.Contains | pages/AdminPanel.tsx:125-127 | `includes`; no contract of its own, and Text.ContainsAt proves it holds exactly when the query occurs at some position |
| Text.Split | pages/JobDetail.tsx:76 | `split` on one character gives at least one piece; Text.SplitPieces, Text.JoinSplit and Text.SplitJoin state the rest |
| Text.Join | supabase/functions/send-application-email/index.ts:57 | `join` on one character; no contract of its own, and Text.JoinSplit and Text.SplitJoin prove it inverts Text.Split |
| Text.Decimal | pages/JobDetail.tsx:77 | the numeral is non-empty, all digits, and has no leading zero unless it is "0"; Text.DecimalRoundTrip proves it reads back as the number |
| Json.Truthy | supabase/functions/get-signed-url/index.ts:38 | JavaScript truthiness; no contract of its own, and the handlers' Dispatch contracts use it for their guards |
| Json.Member | supabase/functions/get-signed-url/index.ts:35 | `?.` access; no contract of its own, and SignedUrl.Dispatch uses it for the path and `expires` |
| Json.Interpolate | supabase/functions/send-application-email/index.ts:40-56 | `${}` rendering; no contract of its own, and ApplicationEmail.SubjectNamesJobAndApplicant and ApplicationEmail.Fallbacks state what it renders |
| Json.InterpolateOr | supabase/functions/send-application-email/index.ts:51-54 | `${v || fallback}`; no contract of its own, and ApplicationEmail.Fallbacks states what it renders |
| Http.ParsedBody | supabase/functions/get-signed-url/index.ts:34 | `await req.json().catch(() => null)`: the parsed body, or null when it is not JSON; no contract of its own, and SignedUrl.UnparsableBodyIsBadRequest and ApplicationEmail.MissingJobIsBadRequest state how it is treated |
| SignedUrl.Bucket | supabase/functions/get-signed-url/index.ts:28 | the bucket is never empty; it is the value of `STORAGE_BUCKET` when that is set and non-empty, and "resumes" otherwise |
| SignedUrl.Configured | supabase/functions/get-signed-url/index.ts:30 | both `SUPABASE_URL` and `SUPABASE_SERVICE_ROLE_KEY` are set and non-empty; no contract of its own, and SignedUrl.Dispatch and SignedUrl.ConfigCheckedBeforeBody state the 500 it guards |
| SignedUrl.Expires | supabase/functions/get-signed-url/index.ts:36 | the body's `expires` when it is a number, else 60; no contract of its own, and SignedUrl.Dispatch and SignedUrl.ExampleRequest state which lifetime reaches storage |
| SignedUrl.Dispatch | supabase/functions/get-signed-url/index.ts:19-46 | 405 for any method but POST; then 500 with the missing-configuration message; then 400 "path is required in body" for a falsy path; storage is called exactly when all three checks pass, with the body's path, the bucket, and `expires` when it is a number or 60 otherwise |
| SignedUrl.Complete | supabase/functions/get-signed-url/index.ts:48-58 | 200 exactly on a signed reply, with JSON body `{ signedUrl }` and a JSON content type; a storage error gives 500 with its message; a thrown storage call gives 500 with the thrown error |
| SignedUrl.Handle | supabase/functions/get-signed-url/index.ts:19-58 | the whole handler with storage as a parameter; no contract of its own, and SignedUrl.MethodCheckedFirst, SignedUrl.ConfigCheckedBeforeBody, SignedUrl.StorageOnlyForValidRequests and SignedUrl.SuccessIff state its responses |
| SignedUrl.MethodCheckedFirst | supabase/functions/get-signed-url/index.ts:21-23 | a non-POST request gets 405 whatever the configuration and storage |
| SignedUrl.ConfigCheckedBeforeBody | supabase/functions/get-signed-url/index.ts:30-32 | missing configuration gives the same 500 whatever the body |
| SignedUrl.StorageOnlyForValidRequests | supabase/functions/get-signed-url/index.ts:19-40 | a request that fails validation gets 405, 500 or 400 and its response does not depend on storage |
| SignedUrl.SuccessIff | supabase/functions/get-signed-url/index.ts:44-54 | 200 exactly when the request is valid and storage signs the URL |
| SignedUrl.UnparsableBodyIsBadRequest | supabase/functions/get-signed-url/index.ts:34-40 | a body that is not JSON gets 400 "path is required in body" |
| SignedUrl.ExampleRequest | supabase/functions/get-signed-url/index.ts:7-8 | the documented example body, path "applications/12345-resume.pdf" with `expires: 60`, reaches storage with that path and lifetime |
| ApplicationEmail.Dispatch | supabase/functions/send-application-email/index.ts:17-71 | 405 for any method but POST; then 500 when a mail secret is missing; a mail is sent exactly when the body has a truthy application and job, with the key, sender, recipient, subject and content; otherwise 400 |
| ApplicationEmail.Configured | supabase/functions/send-application-email/index.ts:28 | the provider key, the sender and the recipient are all set and non-empty; no contract of its own, and ApplicationEmail.Dispatch and ApplicationEmail.ConfigCheckedBeforeBody state the 500 it guards |
| ApplicationEmail.Accepted | supabase/functions/send-application-email/index.ts:73 | `res.ok`: the provider answered with a 2xx status; no contract of its own, and ApplicationEmail.Complete and ApplicationEmail.SuccessIff state the responses it selects |
| ApplicationEmail.Complete | supabase/functions/send-application-email/index.ts:73-80 | 200 `{ ok: true }` exactly on a 2xx provider answer; otherwise 500 `{ error: "SendGrid error", detail }`, or 500 with the error when the provider is unreachable |
| ApplicationEmail.Handle | supabase/functions/send-application-email/index.ts:17-82 | the whole handler with the mail provider as a parameter; no contract of its own, and ApplicationEmail.MethodCheckedFirst, ApplicationEmail.ConfigCheckedBeforeBody, ApplicationEmail.MissingJobIsBadRequest and ApplicationEmail.SuccessIff state its responses |
| ApplicationEmail.Subject | supabase/functions/send-application-email/index.ts:40 | the subject template; no contract of its own, and ApplicationEmail.SubjectNamesJobAndApplicant states its shape |
| ApplicationEmail.ContentLines | supabase/functions/send-application-email/index.ts:41-56 | the fifteen template lines; no contract of its own, and ApplicationEmail.Fallbacks and ApplicationEmail.LinesRecoverable state them |
| ApplicationEmail.Content | supabase/functions/send-application-email/index.ts:41-57 | the lines joined by newlines; no contract of its own, and ApplicationEmail.ContentFrame and ApplicationEmail.LinesRecoverable state its frame and its lines |
| ApplicationEmail.MethodCheckedFirst | supabase/functions/send-application-email/index.ts:19-21 | a non-POST request gets 405 whatever the secrets and provider |
| ApplicationEmail.ConfigCheckedBeforeBody | supabase/functions/send-application-email/index.ts:28-30 | missing secrets give the same 500 whatever the body |
| ApplicationEmail.MissingJobIsBadRequest | supabase/functions/send-application-email/index.ts:32-35 | an unparsable body or one without a job gets 400 and no mail |
| ApplicationEmail.SuccessIff | supabase/functions/send-application-email/index.ts:59-78 | 200 exactly when the request is valid and the provider accepts the mail |
| ApplicationEmail.SubjectNamesJobAndApplicant | supabase/functions/send-application-email/index.ts:40 | the subject is "New application: " + title + " — " + applicant name |
| ApplicationEmail.ContentFrame | supabase/functions/send-application-email/index.ts:41-57 | the body starts with the announcement line and a newline, and ends with a newline and the admin pointer line |
| ApplicationEmail.Fallbacks | supabase/functions/send-application-email/index.ts:51-54 | a missing motivation renders "(none)"; a missing resume or cover-letter path renders "N/A" |
| ApplicationEmail.LinesRecoverable | supabase/functions/send-application-email/index.ts:41-57 | when no field holds a newline, the body splits back into exactly the fifteen template lines |
| AdminPanel.Select | pages/AdminPanel.tsx:121-130 | an application is kept exactly when it is in the input and passes both the search and the status test; the result is no longer than the input; each kept application appears as many times as in the input, and each dropped one not at all |
| AdminPanel.SearchQuery | pages/AdminPanel.tsx:122 | the trimmed, lower-cased search; no contract of its own, and AdminPanel.SearchIgnoresCase and AdminPanel.SearchIgnoresPadding state what it ignores |
| AdminPanel.MatchesSearch | pages/AdminPanel.tsx:123-127 | an empty query, or a match in name, email or position; no contract of its own, and AdminPanel.FilteredApps states the filter in terms of it |
| AdminPanel.FieldMatches | pages/AdminPanel.tsx:125-127 | a present, non-empty field whose lower-cased text contains the query; no contract of its own, and AdminPanel.FilteredApps states the filter in terms of it |
| AdminPanel.MatchesStatus | pages/AdminPanel.tsx:128 | "all" or the exact status; no contract of its own, and AdminPanel.FilteredApps and AdminPanel.StatusNarrows state the status filter |
| AdminPanel.FilteredApps | pages/AdminPanel.tsx:121-130 | an application is kept exactly when the trimmed lower-cased query is empty or occurs in its lower-cased name, email or position, and the filter is "all" or equals its status; each kept application appears as many times as in the input, and each dropped one not at all |
| AdminPanel.FilteredIsSubsequence | pages/AdminPanel.tsx:121 | the filtered list is an order-preserving subsequence of the applications |
| AdminPanel.BlankSearchShowsAll | pages/AdminPanel.tsx:122-128 | a blank or white-space search with status "all" shows every application, in order |
| AdminPanel.SearchIgnoresCase | pages/AdminPanel.tsx:122 | two searches equal up to letter case give the same list |
| AdminPanel.SearchIgnoresPadding | pages/AdminPanel.tsx:122 | white space around the search does not change the list |
| AdminPanel.AnonymousNeverMatches | pages/AdminPanel.tsx:124-127 | an application with no name, email or position is never shown for a non-blank search |
| AdminPanel.StatusNarrows | pages/AdminPanel.tsx:128 | for a fixed search, any status shows a subsequence of what "all" shows |
| AdminPanel.AuthorizesIff | pages/AdminPanel.tsx:33 | the secret test passes exactly when the configured secret is non-empty and the attempt equals it |
| AdminPanel.Authorizes | pages/AdminPanel.tsx:33 | the secret test; no contract of its own, and AdminPanel.AuthorizesIff states when it passes |
| AdminPanel.SignedUrlCall | pages/AdminPanel.tsx:92-102 | no request without a function base; otherwise a POST to `<base>/get-signed-url` with the path and `expires` 120 |
| AdminPanel.SignedUrlAction | pages/AdminPanel.tsx:92-113 | without a function base, the alert "No function base configured (VITE_FUNCTION_BASE)."; a failed fetch or a non-JSON reply gives "Signed URL request failed"; JSON without a truthy `signedUrl` gives "Could not get signed URL"; a new tab opens exactly when the base is set and the JSON has a truthy `signedUrl`, on that link |
| AdminPanel.DownloadEndToEnd | pages/AdminPanel.tsx:98-105 | a dashboard download reaches storage with the same path and a 120-second lifetime, and a signed link from storage is the one the dashboard opens |
| AdminPanel.JobsAfter | pages/AdminPanel.tsx:50 | `jobsData || []`, or the old list when the query threw; no contract of its own, and AdminPanel.Dashboard.FetchAll states the refresh with it |
| AdminPanel.JobTypesAfter | pages/AdminPanel.tsx:51 | `typesData || []`, or the old list when the query threw; no contract of its own, and AdminPanel.Dashboard.FetchAll states the refresh with it |
| AdminPanel.ApplicationsAfter | pages/AdminPanel.tsx:52 | `appsData || []`, or the old list when the query threw; no contract of its own, and AdminPanel.Dashboard.FetchAll states the refresh with it |
| AdminPanel.Dashboard.constructor | pages/AdminPanel.tsx:11-20 | the dashboard starts locked, not loading, with empty lists, an empty search and status "all" |
| AdminPanel.Dashboard.FetchAll | pages/AdminPanel.tsx:42-58 | each list becomes the queried rows or empty for null data, stays as it was when a query throws, and loading ends false |
| AdminPanel.Dashboard.PromptForSecret | pages/AdminPanel.tsx:31-40 | authorised exactly when the configured secret is non-empty and the attempt equals it; then the lists are refreshed; otherwise the alert "Incorrect admin secret." and nothing else changes |
| AdminPanel.Dashboard.Mount | pages/AdminPanel.tsx:22-40 | the prompt runs exactly for the `#admin-secret-panel` fragment or the `/admin` path, and otherwise nothing changes; once prompted, an accepted secret refreshes the three lists and ends loading with no alert, and a refused one alerts "Incorrect admin secret." and keeps the lists and the loading flag |
| AdminPanel.Dashboard.Lock | pages/AdminPanel.tsx:149 | authorisation is false and the fragment cleared; nothing else changes, so the visible list is the same |
| AdminPanel.Dashboard.SetSearch | pages/AdminPanel.tsx:177 | the search becomes the typed text and nothing else changes; the visible list becomes the filter of the applications by that text and the current status |
| AdminPanel.Dashboard.SetFilterStatus | pages/AdminPanel.tsx:178 | the status filter becomes the chosen value and nothing else changes; the visible list becomes the filter of the applications by the current search and that status |
| AdminPanel.Dashboard.DeleteRecord | pages/AdminPanel.tsx:70-90 | the job and application deletes, and the job-type delete button at pages/AdminPanel.tsx:225-230 through the job-types table: nothing without confirmation; otherwise a delete by id on the right table, then "Delete failed: " + message with the lists kept, or a refresh |
| AdminPanel.Dashboard.CreateJobType | pages/AdminPanel.tsx:77-83 | nothing for a cancelled or empty name; otherwise an insert of the name, then "Create failed: " + message with the lists kept, or a refresh |
| JobDetail.FileNameRoundTrip | pages/JobDetail.tsx:77 | a stored file name `<ms>-<random>.<ext>` reads back as its stamp and extension |
| JobDetail.ExtensionAfterLastDot | pages/JobDetail.tsx:76 | the extension holds no dot, is the whole name when there is no dot, and otherwise is what follows the last dot |
| JobDetail.UploadPathParts | pages/JobDetail.tsx:75-78 | an upload path starts with its folder and "/", and its file name records the stamp and the file's extension |
| JobDetail.UploadPathKeepsExtension | pages/JobDetail.tsx:76-78 | the stored object has the chosen file's extension |
| JobDetail.DistinctStampsDistinctPaths | pages/JobDetail.tsx:77-78 | uploads with different stamps never share a path |
| JobDetail.Extension | pages/JobDetail.tsx:76 | the text after the last dot; no contract of its own, and JobDetail.ExtensionAfterLastDot states it |
| JobDetail.FileName | pages/JobDetail.tsx:77 | `<ms>-<random>.<ext>`; no contract of its own, and JobDetail.FileNameRoundTrip proves it reads back as its stamp and extension |
| JobDetail.UploadPath | pages/JobDetail.tsx:75-78 | `<folder>/<file name>`; no contract of its own, and JobDetail.UploadPathParts, JobDetail.UploadPathKeepsExtension and JobDetail.DistinctStampsDistinctPaths state it |
| JobDetail.UploadFolder | pages/JobDetail.tsx:110 | `applications/<slug>`; no contract of its own, and JobDetail.SubmitSteps states every upload goes there |
| JobDetail.FirstFile | pages/JobDetail.tsx:71 | the first chosen file, or none when no file is chosen |
| JobDetail.Rejection | pages/JobDetail.tsx:91-104 | "Job is not loaded" first; then the consent message whatever the fields; submission goes ahead exactly when the job is loaded, consent is given, all seven text fields are non-empty and a resume is chosen; otherwise the required-fields message |
| JobDetail.CoverLetterNeverRequired | pages/JobDetail.tsx:101 | the cover letter does not affect the guards |
| JobDetail.OrElse | pages/JobDetail.tsx:165 | a non-empty message is kept and an empty one is replaced by the fallback, so the result is never empty |
| JobDetail.StoredPaths | pages/JobDetail.tsx:110-127 | the inserted row always has a resume path and the job id, and a null cover-letter path exactly when no cover letter was chosen |
| JobDetail.NewApplication | pages/JobDetail.tsx:116-128 | the inserted row; no contract of its own, and JobDetail.StoredPaths and JobDetail.SubmitUploadsAndRow state its paths and where it is used |
| JobDetail.CoverLetterPath | pages/JobDetail.tsx:111 | the cover letter's upload path, or null when none was chosen; no contract of its own, and JobDetail.StoredPaths and JobDetail.SubmitUploadsAndRow state it |
| JobDetail.NotifyBody | pages/JobDetail.tsx:140-145 | the notification body with the inserted row and the job; no contract of its own, and JobDetail.NotifyAccepted proves the notification handler accepts it |
| JobDetail.NotifyAccepted | pages/JobDetail.tsx:134-145 | the notification body passes the notification handler's validation, and its subject names the job title and the applicant |
| JobDetail.Submit | pages/JobDetail.tsx:108-149 | the calls made are exactly those of the submission plan, and the error is the first failing step's message |
| JobDetail.SubmitSteps | pages/JobDetail.tsx:108-151 | the resume upload comes first; every upload goes to the job's folder in the bucket; the row is inserted exactly when every chosen file was stored; the notification is last and only after a successful insert with a functions base set; success does not depend on the notification |
| JobDetail.SubmitUploadsAndRow | pages/JobDetail.tsx:110-128 | when the resume is stored, the second call uploads the cover letter exactly when one was chosen, to its stamped path; every inserted row is the form's row with the resume path and the cover-letter path actually stored |
| JobDetail.SubmitCalls | pages/JobDetail.tsx:108-149 | the calls of a submission; no contract of its own, and JobDetail.SubmitSteps, JobDetail.SubmitUploadsAndRow and JobDetail.Submit state them |
| JobDetail.SubmitError | pages/JobDetail.tsx:108-165 | the first failing step's message; no contract of its own, and JobDetail.SubmitSteps and JobDetail.Submit state it |
| JobDetail.JobDetailPage.constructor | pages/JobDetail.tsx:6-27 | the page starts loading, with no job, no message, an empty form and not submitting; the bucket defaults to "resumes" |
| JobDetail.JobDetailPage.FetchJob | pages/JobDetail.tsx:35-57 | a found row is the job with no message; no row gives "Job not found" and no job; a failed query gives its message or "Error loading job" and keeps the job; loading ends false |
| JobDetail.JobDetailPage.Mount | pages/JobDetail.tsx:29-57 | the job is fetched exactly when the route has a slug, and otherwise nothing changes; once fetched, loading is false, a found row is the job with no message, no row gives "Job not found", and a failed query keeps the job and shows its message or "Error loading job" |
| JobDetail.JobDetailPage.HandleChange | pages/JobDetail.tsx:59-67 | the named text field takes the value, or the consent takes the checkbox state; every other field is unchanged |
| JobDetail.JobDetailPage.HandleFile | pages/JobDetail.tsx:69-73 | the named file input takes the first chosen file or none; every other field is unchanged |
| JobDetail.JobDetailPage.HandleSubmit | pages/JobDetail.tsx:87-169 | a rejected submission makes no call, sets the guard's message and keeps the form; otherwise the submission plan's calls are made, `submitting` ends false, and the first failure's message (or "Submission failed") keeps the form while success shows the thank-you message and resets the form |

## Left out

- Rendering, `alert`, `confirm`, `prompt`, `window.open` and the clipboard are left out. Dialog answers are arguments and alerts are returned strings.
- The job form modal (`openCreateJob`, `openEditJob`, `onJobSaved`, `pages/AdminPanel.tsx:60-68, 115-119`) is left out. It only toggles view state and calls the refresh that is modelled.
- The quick export (`pages/AdminPanel.tsx:185`) is left out. It serialises the filtered list, and `JSON.stringify` is a library serialiser.
- `Promise.all` concurrency and async ordering are left out. Queries and uploads are taken in program order, and each reply is an argument.
- Disabling the submit button while `submitting` is set is left out, so overlapping submissions are not modelled.
- JSON parsing and serialisation are left out. A request body is the already parsed value, or `None` when it is not JSON.
- Arrays, floating-point numbers and `NaN` are not JSON values here. Numbers are integers.
- `Date.now()` and `Math.random()` are replaced by `Stamp`. The bound of the random part (at most 1000000) is not imposed.
- Strings are sequences of Unicode scalar values; JavaScript's UTF-16 code units, including lone surrogates, are not modelled.
- `toLowerCase` is ASCII only, so Unicode case mapping is not modelled.
- `createClient`, the request headers and the provider's JSON envelope (personalizations, content type) are left out. The mail is its key, sender, recipient, subject and text.
- `pages/JobsList.tsx` and `src/App.tsx` are not part of this model. They are a store query and a route table.
- Records.JobJson: absent optional columns are rendered as `null`, whereas JSON serialisation drops them.
- AdminPanel.Dashboard.FetchAll: a rejected query keeps all three lists. The real `Promise.all` rejects as a whole, so no list is set.
- JobDetail.JobDetailPage.HandleSubmit: a rejected submission keeps `submitting` as it was, exactly as the code does. It is false between calls because every method leaves it false.
