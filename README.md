# Job board client: a Dafny model

This project models the logic of a React job board. The board talks to a document store
(collections `jobs` and `applications`) and an auth provider. It models:

- **The job provider** (`JobContext`). Its listing query engine has two parts. The paged
  listing `fetchJobs` pushes one equality filter to the store and filters the rest on the
  client. The search `searchJobs` pushes only the location, then filters the other
  dimensions and does a case-insensitive text match on the client. Around them sit the
  role gates in front of every read and write, and the writes themselves (post, update,
  delete, apply).
- **The pure helpers**: `truncateText`, `formatSalary`, `validateEmail` and `generateSlug`.
- **The screens' decision logic**:
  - the job-posting form and the record it builds;
  - the two sign-up screens' first-failure-wins checks;
  - the route guards;
  - the search form's state;
  - the two dashboards' aggregates;
  - the job card's skill chips.

The store is a class holding both collections newest first, ordered by server timestamp
with ties broken by document id. A query is a list of constraints (`where`, `orderBy`,
`limit`, `startAfter`), run by `Store.RunQuery`. The signed-in session
(`currentUser`, `userProfile`) is a plain input. Values that may be missing are `Option`s.
A call that can throw returns an `Outcome`: `Returned(value)` or `Threw(message)`.

Modules follow the source files:

| module | source file |
|---|---|
| `Store` | the store's side of every call |
| `JobContext` | `src/context/JobContext.jsx` |
| `Helpers` | `src/utils/helpers.js` |
| `PostJob` | `src/components/Jobs/PostJob.jsx` |
| `Register` | `src/components/Auth/Register.jsx` |
| `CompanyRegistration` | `src/components/Auth/CompanyRegistration.jsx` |
| `AppRoutes` | `src/App.jsx` |
| `JobSearch` | `src/components/Jobs/JobSearch.jsx` |
| `CompanyDashboard` | `src/components/Dashboard/CompanyDashboard.jsx` |
| `UserDashboard` | `src/components/Dashboard/UserDashboard.jsx` |
| `JobCard` | `src/components/Jobs/JobCard.jsx` |
| `Constants` | the enumerations of `src/utils/constants.js` |

`Wrappers`, `Seqs`, `Text` and `Session` supply `Option`/`Outcome`, JavaScript's array
filter and slice, its string operations, and the session.

The provider, the search form, the posting form, the sign-up screens and the dashboards
update their state in place, so they are classes whose methods say what they modify. The
queries, filters, checks and helpers are functions.

Quirks of the source are modelled as written:

- With a location filter set, `fetchJobs` skips every client-side filter.
- `hasMore` is computed from the unfiltered page.
- `applyToJob` admits only the user type "jobSeeker", while everything else tags job seekers
  "job_seeker". As a result, no job seeker can apply.
- `formatSalary` prints the minimum in the branch where the minimum is missing or zero.
- The second and third replacements of `generateSlug` never match.

## Model

| member | source | states |
|---|---|---|
| `Store.ApplicationsOrZero` | src/context/JobContext.jsx:278 | the stored count, or 0 when the document has none; the card (src/components/Jobs/JobCard.jsx:56) and the dashboard (src/components/Dashboard/CompanyDashboard.jsx:109) show the same value |
| `Store.UpdateJobData` | src/context/JobContext.jsx:236 | an update rewrites the data of exactly the job with that id; ids, timestamps and every other job stay as they were |
| `Store.DeleteJobDoc` | src/context/JobContext.jsx:249 | a delete keeps, in order, exactly the jobs with other ids |
| `Store.RunQuery` | src/context/JobContext.jsx:82-95 | a page holds at most the query's limit; it is an order-preserving subsequence of the jobs passing every `where`; every job on it lies strictly after the `startAfter` cursor |
| `Store.QueryPageOrdered` | src/context/JobContext.jsx:89-95 | over a store kept newest first with distinct ids, every page is newest first, without repeated ids, and a subsequence of the collection |
| `Store.AfterCursorIsSuffix` | src/context/JobContext.jsx:85-87 | in a newest-first list, `startAfter` a member keeps exactly the suffix that follows it |
| `Store.Database.AddJob` | src/context/JobContext.jsx:51 | `addDoc` files the job under a fresh id before the first older job; the store stays ordered with unique ids |
| `Store.Database.AddApplication` | src/context/JobContext.jsx:272 | `addDoc` files the application under a fresh id in timestamp order; the jobs are untouched |
| `Store.Database.UpdateJob` | src/context/JobContext.jsx:279-281 | `updateDoc` rewrites one job's data and keeps the store valid |
| `Store.Database.DeleteJob` | src/context/JobContext.jsx:249 | `deleteDoc` removes the job and keeps the store valid |
| `JobContext.PushedDim` | src/context/JobContext.jsx:71-79 | the pushed filter is set (present, non-empty, not "all"); every dimension earlier in the order location > jobType > experienceLevel > industry is unset; there is none iff no dimension is set |
| `JobContext.FetchQuery` | src/context/JobContext.jsx:67-87 | a job passes the listing query's `where`s iff it is active and matches the pushed filter; the limit is 10; a cursor is sent iff `loadMore` is set and a last document is known |
| `JobContext.KeepDim` | src/context/JobContext.jsx:102-110 | one client-side filter keeps, in order, exactly the jobs whose field equals the value |
| `JobContext.KeepIfSet` | src/context/JobContext.jsx:102-104 | a client-side filter applies only when its value is set |
| `JobContext.ClientFilters` | src/context/JobContext.jsx:155-163 | the jobType, experienceLevel and industry filters keep, in order, exactly the jobs agreeing with every set one |
| `JobContext.KeepClientSide` | src/context/JobContext.jsx:97-111 | `fetchJobs` keeps the whole page when a location is set, and the client-side filters' result otherwise |
| `JobContext.SearchQuery` | src/context/JobContext.jsx:138-146 | a job passes the search query iff it is active and, when a location is set, at that location; there is no limit and no cursor |
| `JobContext.TextFilter` | src/context/JobContext.jsx:166-174 | with a non-empty term, the kept jobs are exactly those whose lower-cased title, company name, description or some skill contains the lower-cased term; an empty term keeps all, in order |
| `JobContext.FetchPostFilter` | src/context/JobContext.jsx:95-110 | what `fetchJobs` keeps is a subsequence of the page: the whole page when a location is set, else exactly the page's jobs agreeing with every set jobType, experienceLevel and industry filter |
| `JobContext.Listing` | src/context/JobContext.jsx:67-91 | the jobs the listing pages through are a subsequence of the store holding exactly the active jobs that pass the pushed filter |
| `JobContext.Gate` | src/context/JobContext.jsx:29-35 | every provider call goes on iff the session is signed in with the user type the call demands; the same rule guards lines 206, 229, 246, 259, 293 and 316. A refused `postJob` throws "You must be logged in to post a job" when nobody is signed in and "Only companies can post jobs" otherwise; a refused `updateJob`, `deleteJob`, `applyToJob` or `getJobApplications` throws that call's own message, spelling included; a refused `getCompanyJobs` or `getUserApplications` answers `[]` |
| `JobContext.ApplyGateRejectsJobSeekers` | src/context/JobContext.jsx:259-260 | a session tagged "job_seeker" is always refused by `applyToJob`; a session that `applyToJob` admits sees no applications of its own |
| `JobContext.GetJobById` | src/context/JobContext.jsx:187-201 | the job with that id when one exists, and null iff none does |
| `JobContext.GetCompanyJobs` | src/context/JobContext.jsx:204-224 | a signed-in company gets, newest first, exactly the jobs whose `companyId` is its uid; anyone else gets `[]` |
| `JobContext.GetJobApplications` | src/context/JobContext.jsx:291-311 | everyone but a signed-in company gets an error; a company gets, in order, exactly the applications whose `jobId` is the job |
| `JobContext.GetUserApplications` | src/context/JobContext.jsx:314-334 | a signed-in "job_seeker" gets, in order, exactly the applications they filed; anyone else gets `[]` |
| `JobContext.StoredJobData` | src/context/JobContext.jsx:42-47 | the stored job is the submitted data with `companyId` overwritten by the uid and `updatedAt` by the server time, and nothing else changed |
| `JobContext.ApplyPatch` | src/context/JobContext.jsx:232-235 | every field the update carries, the owner `companyId` and `applicationsCount` included, replaces the stored one (an optional one possibly by null); every field it does not carry is kept; `updatedAt` always becomes the server time |
| `JobContext.NoChangesOnlyStamps` | src/context/JobContext.jsx:232-235 | an update without fields only refreshes `updatedAt` |
| `JobContext.PatchIdempotent` | src/context/JobContext.jsx:232-235 | sending the same update twice leaves the document as sending it once, up to the time |
| `JobContext.NewApplication` | src/context/JobContext.jsx:263-270 | the stored application carries the applicant's uid, "first last" name (missing parts print "undefined"), e-mail, the server time and status "pending" |
| `JobContext.CountOneMore` | src/context/JobContext.jsx:278-281 | the count becomes (old count or 0) + 1, and nothing else changes |
| `JobContext.JobProvider.constructor` | src/context/JobContext.jsx:20-23 | the provider starts with no jobs, not loading, no cursor and `hasMore` true |
| `JobContext.JobProvider.FetchJobs` | src/context/JobContext.jsx:62-130 | sends `FetchQuery` with the old cursor. The result is the page after `KeepClientSide`. `jobs` is replaced by it, or extended by it when loading more. `lastDoc` is the unfiltered page's last job (none for an empty page). `hasMore` holds iff the unfiltered page had 10 jobs |
| `JobContext.JobProvider.SearchJobs` | src/context/JobContext.jsx:133-184 | sends `SearchQuery`, then applies the client-side filters and the text filter in the source's order; `jobs` becomes the result; `lastDoc` and `hasMore` are untouched |
| `JobContext.JobProvider.PostJob` | src/context/JobContext.jsx:27-59 | a refused session throws the gate's message and leaves the store unchanged; otherwise the stored job is filed under the returned fresh id, and `getJobById` of that id finds it |
| `JobContext.JobProvider.UpdateJob` | src/context/JobContext.jsx:227-241 | a refused session or a missing job throws and changes nothing; otherwise only that job's data is patched by `ApplyPatch`, so any company may rewrite any field of any job, its owner included, and `getJobById` reads the patched job back |
| `JobContext.JobProvider.DeleteJob` | src/context/JobContext.jsx:244-254 | a refused session throws and changes nothing; otherwise the job is gone and `getJobById` finds nothing under its id |
| `JobContext.JobProvider.ApplyToJob` | src/context/JobContext.jsx:257-288 | a refused session throws and changes nothing; otherwise a pending application is filed and, only if the job exists, its count goes up by one |
| `JobContext.FirstPageIsListingHead` | src/context/JobContext.jsx:82-95 | the first page is the first 10 jobs of the listing |
| `JobContext.PagesFollowListing` | src/context/JobContext.jsx:85-95 | over a store kept newest first, the page after the listing's k-th job is the next 10 after it |
| `JobContext.ConsecutivePages` | src/context/JobContext.jsx:113-121 | when the first page is full, loading more continues it: both pages together are a prefix of the listing, with no job twice |
| `JobContext.FirstPageIsSearchHead` | src/context/JobContext.jsx:133-164 | with only a location (or nothing) set, the first listing page is the first 10 results of an empty-term search |
| `JobContext.SearchResult` | src/context/JobContext.jsx:138-174 | the search result is a subsequence of the stored jobs, and a job is in it iff it is stored, active, at the set location, agrees with every other set filter, and matches a non-empty term |
| `JobContext.SearchIgnoresCase` | src/context/JobContext.jsx:166-167 | terms that lower-case alike give the same result |
| `JobContext.LongerTermNarrows` | src/context/JobContext.jsx:166-173 | whatever a term extended by more text finds, the term alone finds too |
| `JobContext.PostedJobIsFound` | src/context/JobContext.jsx:51-54 | a job filed under a fresh id is what `getJobById` returns for that id |
| `JobContext.UpdatedJobIsFound` | src/context/JobContext.jsx:236 | with distinct ids, `getJobById` after an update returns the job with its data rewritten |
| `JobContext.DeletedJobIsGone` | src/context/JobContext.jsx:249 | after a delete, `getJobById` finds nothing under the id |
| `JobContext.ApplicationsWithoutJobIdAreUnlisted` | src/context/JobContext.jsx:296-300 | an application stored without a `jobId` is never listed for any job |
| `Helpers.TruncateText` | src/utils/helpers.js:25-29 | "" for missing or empty text; the text itself when it fits; otherwise its first maxLength characters and "...", so maxLength + 3 long |
| `Helpers.TruncateBound` | src/utils/helpers.js:25-29 | an excerpt is never longer than maxLength + 3, nor more than 2 longer than the text |
| `Helpers.TruncateIdempotent` | src/utils/helpers.js:25-29 | truncating an excerpt again with the same limit changes nothing |
| `Helpers.FormatSalary` | src/utils/helpers.js:12-23 | both values falsy gives "Salary not specified"; a falsy maximum gives "Rs. min +"; both truthy gives "Rs. min - Rs. max"; every other output starts with "Rs. "; it throws iff the minimum is missing and the maximum truthy |
| `Helpers.ZeroMinimumHidesMaximum` | src/utils/helpers.js:19-21 | with a zero minimum, every nonzero maximum gives the same line, "Rs. 0" |
| `Helpers.ValidateEmail` | src/utils/helpers.js:31-34 | true iff the string is a non-empty run without white space or "@", then "@", then such a run, ".", and such a run |
| `Helpers.EmailHasOneAt` | src/utils/helpers.js:31-34 | an accepted address has exactly one "@" |
| `Helpers.GenerateSlug` | src/utils/helpers.js:45-51 | a slug holds only `[a-z0-9]` characters and is never longer than the title; lower-casing covers ASCII letters only (see Left out) |
| `Helpers.SlugReplacesAreDead` | src/utils/helpers.js:48-50 | the second and third replacements leave their input unchanged |
| `Helpers.SlugKeepsSlugChars` | src/utils/helpers.js:46-48 | a character is in the slug iff it is an `[a-z0-9]` character of the lower-cased title |
| `Helpers.SlugIdempotent` | src/utils/helpers.js:45-51 | making a slug of a slug changes nothing |
| `PostJob.InitialForm` | src/components/Jobs/PostJob.jsx:13-27 | every field starts empty except the contact e-mail, which is the profile's e-mail or "" |
| `PostJob.SetField` | src/components/Jobs/PostJob.jsx:44-49 | the named field takes the value; every other field keeps its own |
| `PostJob.ParseSkills` | src/components/Jobs/PostJob.jsx:79 | an empty field gives `[]`; no entry is empty or has white space at an end; a string is an entry iff it is non-empty and a trimmed comma-separated piece; the entries appear in the order of the pieces they come from |
| `PostJob.ParseJoinedSkills` | src/components/Jobs/PostJob.jsx:79 | joining non-empty, trimmed, comma-free skills with "," and parsing gives them back |
| `PostJob.ParseOrNull` | src/components/Jobs/PostJob.jsx:77-80 | null iff the field is empty, and the parsed value otherwise |
| `PostJob.BuildJobData` | src/components/Jobs/PostJob.jsx:68-95 | text fields trimmed; filter fields copied; salaries null iff empty; skills parsed; company fields from the session with "" defaults; active with a count of 0 |
| `PostJob.PostedJobIsSearchable` | src/components/Jobs/PostJob.jsx:68-99 | a job posted from the form is found by an unfiltered search and by a search for its own title |
| `PostJob.PostJobForm.constructor` | src/components/Jobs/PostJob.jsx:13-30 | the form starts from `InitialForm`, not loading, with no error |
| `PostJob.PostJobForm.HandleChange` | src/components/Jobs/PostJob.jsx:44-49 | one input changes one field |
| `PostJob.PostJobForm.HandleSubmit` | src/components/Jobs/PostJob.jsx:51-109 | a refused session shows "Failed to post job: " with the gate's message and writes nothing; otherwise the record built from the form is stored, the applications are untouched, `getJobById` finds the new job, and the screen moves to its id |
| `Register.RegisterCheck` | src/components/Auth/Register.jsx:39-45 | a mismatch reports "password do not match"; a matching pair that is too short reports the length message; no failure iff the pair matches and has at least 6 characters |
| `Register.RegisterCheckReadsPasswords` | src/components/Auth/Register.jsx:39-45 | the checks depend on the two passwords only |
| `Register.RegisterScreen.constructor` | src/components/Auth/Register.jsx:21-22 | no error, not loading |
| `Register.RegisterScreen.HandleSubmit` | src/components/Auth/Register.jsx:35-62 | a failed check sets its message and calls nothing. Otherwise `signup(email, password, displayName)` is called; success moves to "/dashboard", and failure shows "Failed to register user:" with the message |
| `CompanyRegistration.CompanyCheck` | src/components/Auth/CompanyRegistration.jsx:40-54 | the checks run in order (mismatch, length, website URL, logo URL); the first failure's message is shown; no failure iff the pair is acceptable and neither non-empty URL is rejected |
| `CompanyRegistration.SameRulesForPasswords` | src/components/Auth/CompanyRegistration.jsx:40-46 | with empty URLs, the company screen accepts exactly the password pairs the job-seeker screen accepts |
| `CompanyRegistration.EmptyUrlsAreNotChecked` | src/components/Auth/CompanyRegistration.jsx:48-54 | empty website and logo fields never reach the URL check |
| `CompanyRegistration.CompanyDataOf` | src/components/Auth/CompanyRegistration.jsx:60-70 | the profile record is the nine profile fields, copied unchanged |
| `CompanyRegistration.CompanyDataOmitsCredentials` | src/components/Auth/CompanyRegistration.jsx:60-70 | the profile record does not depend on the e-mail or the passwords |
| `CompanyRegistration.CompanyRegistrationScreen.constructor` | src/components/Auth/CompanyRegistration.jsx:23-24 | no error, not loading |
| `CompanyRegistration.CompanyRegistrationScreen.HandleSubmit` | src/components/Auth/CompanyRegistration.jsx:36-80 | a failed check sets its message and calls nothing. Otherwise `sigupCompany(email, password, companyData)` is called and the error stays ""; it moves to "/dashboard" iff the sign-up succeeds |
| `AppRoutes.ProtectedRoute` | src/App.jsx:17-29 | signed out goes to "/login"; a signed-in user whose type is not in a non-empty allowed list goes to "/dashboard"; the screen renders iff signed in and the list is empty or holds the user's type |
| `AppRoutes.PublicRoute` | src/App.jsx:32-35 | the screen renders iff nobody is signed in; otherwise it goes to "/dashboard" |
| `AppRoutes.DashboardRouter` | src/App.jsx:38-46 | the company dashboard iff the profile's type is "company"; the job seeker's dashboard otherwise, a missing profile included |
| `AppRoutes.Route` | src/App.jsx:106-144 | the home page, the job list and every job's page render for everyone; the sign-in screens render only for signed-out visitors; the dashboards and the posting screen only for signed-in users, the posting screen only for companies; every redirect goes to "/login", "/dashboard" or "/"; `RouteTable` pins the screen or redirect of each path |
| `AppRoutes.RouteTable` | src/App.jsx:106-144 | path by path: "/" renders the home page, "/jobs" the job list, "/jobs/:id" that job's page; a signed-out visitor gets "/login", "/register" and "/company-register" as their own screens and is sent from "/dashboard" and "/post-job" to "/login"; a signed-in user is sent from the sign-in paths to "/dashboard", where `DashboardRouter` chooses the screen; any other path goes to "/" |
| `AppRoutes.Navigate` | src/App.jsx:106-144 | following redirects ends, if at all, on a screen the route table renders for the session, and on the path's own screen when the path renders one |
| `AppRoutes.RoutesSettle` | src/App.jsx:106-144 | from every path, at most one redirect reaches a screen: the guards never loop |
| `AppRoutes.NavigationGuardsPosting` | src/App.jsx:136-140 | wherever navigation starts, it reaches the posting screen only for a signed-in company |
| `AppRoutes.PostingRouteShowsForm` | src/components/Jobs/PostJob.jsx:33-42 | behind the route, the posting screen never shows its "Access Denied" branch: whenever the route renders it, the profile is a company's; a signed-in non-company is sent to "/dashboard" instead |
| `AppRoutes.PostJobOnlyForCompanies` | src/App.jsx:136-140 | "/post-job" renders the posting screen iff a company is signed in |
| `AppRoutes.SignInScreensAndDashboardExclude` | src/App.jsx:113-134 | a signed-in user asking for "/login" lands on their dashboard; a signed-out visitor asking for "/dashboard" lands on the login screen |
| `JobSearch.WithFilter` | src/components/Jobs/JobSearch.jsx:30-35 | the named filter takes the value; every other filter keeps its own |
| `JobSearch.ClearedFiltersConstrainNothing` | src/components/Jobs/JobSearch.jsx:37-46 | filters cleared to "all" give the same listing query and client-side filtering as no filters at all |
| `JobSearch.DispatchFor` | src/components/Jobs/JobSearch.jsx:17-28 | a search with the untrimmed term iff the trimmed term is non-empty, otherwise the listing; both take the form's filters |
| `JobSearch.DispatchAsWritten` | src/components/Jobs/JobSearch.jsx:15-27 | as written, the handler always fails: the call it picks is an unbound name, and the error is caught |
| `JobSearch.ReactSearchAsWritten` | src/components/Jobs/JobSearch.jsx:15-27 | submitting "react" with every filter "all": the intended handler searches for "react", the handler as written throws "searchJobs is not defined" |
| `JobSearch.JobSearchForm.constructor` | src/components/Jobs/JobSearch.jsx:6-14 | the form starts with an empty term, every filter at "all" and the advanced panel closed |
| `JobSearch.JobSearchForm.SetSearchTerm` | src/components/Jobs/JobSearch.jsx:6 | the term changes; the filters are untouched |
| `JobSearch.JobSearchForm.HandleFilterChange` | src/components/Jobs/JobSearch.jsx:30-35 | only the named filter changes |
| `JobSearch.JobSearchForm.ClearFilters` | src/components/Jobs/JobSearch.jsx:37-46 | the term becomes "" and every filter "all", whatever the state was, so clearing is idempotent |
| `JobSearch.JobSearchForm.HandleSearch` | src/components/Jobs/JobSearch.jsx:17-28 | the dispatch of `DispatchFor` with the provider calls bound. A search replaces the listed jobs with the search result and keeps the pagination state; otherwise the first listing page is fetched, and `lastDoc` and `hasMore` follow the unfiltered page; loading has ended either way |
| `CompanyDashboard.TotalApplications` | src/components/Dashboard/CompanyDashboard.jsx:34 | the sum of every job's count, a missing count as 0; it is never negative and at least each job's count; `TotalAppend` and `TotalSingle` fix it as that sum |
| `CompanyDashboard.TotalAppend` | src/components/Dashboard/CompanyDashboard.jsx:34 | the total over two lists is the sum of their totals |
| `CompanyDashboard.TotalSingle` | src/components/Dashboard/CompanyDashboard.jsx:34 | one job's total is its count, a missing count as 0; with the append lemma this fixes the total of every list |
| `CompanyDashboard.ApplyingRaisesTotal` | src/components/Dashboard/CompanyDashboard.jsx:34 | with distinct ids, the count update of `applyToJob` on a listed job raises the total by exactly one |
| `CompanyDashboard.ActiveJobs` | src/components/Dashboard/CompanyDashboard.jsx:35 | at most the number of jobs; equal to it iff every job is active; 0 iff no job is |
| `CompanyDashboard.ActiveJobsAppend` | src/components/Dashboard/CompanyDashboard.jsx:35 | the count over two lists is the sum of their counts |
| `CompanyDashboard.ActiveJobsSingle` | src/components/Dashboard/CompanyDashboard.jsx:35 | one job counts 1 when active and 0 otherwise; with the append lemma this fixes the count of every list |
| `Seqs.Take` | src/components/Dashboard/CompanyDashboard.jsx:98 | `slice(0, n)`: the first min(n, length) elements, in order; both dashboards preview with n = 5 (also src/components/Dashboard/UserDashboard.jsx:95) |
| `CompanyDashboard.StatusBadge` | src/components/Dashboard/CompanyDashboard.jsx:111-112 | "Active" iff the job is active; "Inactive" iff it is not |
| `CompanyDashboard.CompanyDashboardScreen.constructor` | src/components/Dashboard/CompanyDashboard.jsx:12-13 | no jobs yet, loading |
| `CompanyDashboard.CompanyDashboardScreen.Load` | src/components/Dashboard/CompanyDashboard.jsx:15-28 | the jobs become `getCompanyJobs` of the session, and loading ends |
| `UserDashboard.CountStatus` | src/components/Dashboard/UserDashboard.jsx:64-72 | at most the number of applications; equal to it iff every application has the status; 0 iff none has it |
| `UserDashboard.CountStatusAppend` | src/components/Dashboard/UserDashboard.jsx:64-72 | the count over two lists is the sum of their counts |
| `UserDashboard.CountStatusSingle` | src/components/Dashboard/UserDashboard.jsx:64-72 | one application counts 1 when it has the status and 0 otherwise; with the append lemma this fixes the count of every list |
| `UserDashboard.PendingCount` | src/components/Dashboard/UserDashboard.jsx:64 | the "Pending Reviews" figure is at most the total, and 0 iff no application is pending |
| `UserDashboard.AcceptedCount` | src/components/Dashboard/UserDashboard.jsx:72 | the "Interviews Scheduled" figure is at most the total, and 0 iff no application is accepted |
| `UserDashboard.StatusCountsFit` | src/components/Dashboard/UserDashboard.jsx:56-72 | the counts of two different statuses add up to at most the number of applications |
| `UserDashboard.PendingAndAcceptedFit` | src/components/Dashboard/UserDashboard.jsx:56-72 | pending + accepted never exceeds the total shown |
| `UserDashboard.NewApplicationIsPending` | src/components/Dashboard/UserDashboard.jsx:64-72 | a newly filed application raises the pending count by one and leaves the accepted count alone |
| `UserDashboard.UserDashboardScreen.constructor` | src/components/Dashboard/UserDashboard.jsx:12-13 | no applications yet, loading |
| `UserDashboard.UserDashboardScreen.Load` | src/components/Dashboard/UserDashboard.jsx:15-28 | the applications become `getUserApplications` of the session, and loading ends |
| `JobCard.Decimal` | src/components/Jobs/JobCard.jsx:71 | a number renders as a non-empty string of decimal digits with no leading zero |
| `JobCard.DecimalValue` | src/components/Jobs/JobCard.jsx:71 | reading the rendered digits back gives the number |
| `JobCard.SkillsOf` | src/components/Jobs/JobCard.jsx:63-75 | there is no skills section iff skills are missing or empty. Otherwise the section shows at most 4 chips, the first skills in order, and a "+(n-4) more" chip iff there are more than 4 |
| `JobCard.SkillsAccountedFor` | src/components/Jobs/JobCard.jsx:65-73 | the chips and the overflow chip's number together account for every skill |
| `JobCard.Excerpt` | src/components/Jobs/JobCard.jsx:60 | `truncateText` of the description with 100: a description of at most 100 characters is shown whole, a longer one as its first 100 characters and "...", so never longer than 103; "" when there is none |
| `JobCard.SalaryLine` | src/components/Jobs/JobCard.jsx:48 | the card's salary line throws iff the minimum is missing and the maximum truthy; both falsy gives "Salary not specified"; both truthy gives the range |
| `JobCard.CardBreaksOnMaximumOnly` | src/components/Jobs/JobCard.jsx:48 | a job posted with an empty minimum and a non-zero maximum makes the card's salary line throw |

## Left out

- The store and the auth provider are not called. Calls into them are modelled as always succeeding, except `updateDoc` on a missing document, so the `catch` branches that log and rethrow are not modelled. One failing case is therefore not modelled: the store rejects a field whose value is undefined, so `postJob` throws for a profile without `companyName` (src/components/Jobs/PostJob.jsx:85) and `applyToJob` throws for a profile without `email` (src/context/JobContext.jsx:267), where the model stores a missing value.
- Document ids are numbers handed out in order, not random strings. Ties between equal server timestamps are broken by id.
- JobContext.GetCompanyJobs: line 212 filters with the operator `'==='`, which the store's query builder does not accept. The model reads it as equality.
- JobContext.JobProvider.ApplyToJob: the read-modify-write of applicationsCount is sequential. Lost updates from concurrent applications are not modelled.
- JobContext.JobProvider.FetchJobs and JobContext.JobProvider.SearchJobs: `loading` is only stated at the end of the call. The intermediate `true` is not observable in a sequential model.
- JobContext.TextFilter: toLowerCase lower-cases ASCII letters only. Other scripts are compared as they are.
- Helpers.GenerateSlug: lower-cases ASCII letters only. The few non-ASCII characters that JavaScript lower-cases into ASCII letters (the Kelvin sign into "k", "İ" into "i" and a combining dot) keep a letter in the source's slug and are dropped by the model; every other non-ASCII character is dropped by both.
- Helpers.TruncateText and Register.RegisterCheck: lengths count characters, not UTF-16 code units.
- CompanyRegistration.CompanyCheck: the password length counts characters, not UTF-16 code units.
- JobContext.ApplyPatch and JobContext.JobProvider.UpdateJob: an update that carries `postedAt` or `id` is not modelled; those fields order and name the stored document and stay as they were. An update carrying `updatedAt` is overwritten by the server time, as in the source.
- Helpers.FormatSalary: toLocaleString is the parameter `show`. The type error for a missing minimum is reduced to its kind; the host's message is not kept.
- PostJob.BuildJobData: parseInt and `new Date(...)` are parameters, so a field that parses to NaN is not distinguished. The client clock is a parameter too.
- CompanyRegistration.CompanyCheck: validateURL asks the host's URL parser, so it is the parameter `validUrl`.
- Register.RegisterScreen.HandleSubmit and CompanyRegistration.CompanyRegistrationScreen.HandleSubmit: the auth provider's sign-up is the `Outcome` it settles with. `navigate` is the returned path.
- JobSearch.JobSearchForm: the form renders an empty element, so no input calls its handlers. The onSearch prop and the `LOCATION` import are unused. `showAdvanced` has no setter call and stays false.
- The role gates of the screens are shown in the routes and in `PostJob.ShowsForm` (the access-denied screen for non-companies, stated by `AppRoutes.PostingRouteShowsForm`). The markup of the screens is not modelled.
- formatDate and all date display are not modelled: they depend on the locale.
- These files are not part of this model:
  - `src/context/AuthContext.jsx` (a thin wrapper over the auth provider). Its context value (src/context/AuthContext.jsx:66) carries only `currentUser`, `signup`, `login` and `logout`. So in the shipped program `userProfile` and `sigupCompany` are undefined for every consumer: every role gate refuses, and `getCompanyJobs` and `getUserApplications` answer `[]`. The model instead takes the profile as part of the `Session` input, which the shipped provider does not supply;
  - `src/components/Profile/UpdateProfile.jsx`, `src/components/Auth/Login.jsx`, `src/components/Jobs/JobDetails.jsx` and `src/components/Jobs/JobList.jsx`;
  - `src/components/Layout/Navbar.jsx`, `src/components/Dashboard/Dashboard.jsx`, `src/components/Common/Modal.jsx` and `src/components/Common/LoadingSpinner.jsx`.
  
  They are presentational or call the providers without logic of their own. `JobList.jsx`'s load-more call drops the filters.
- The dashboards' `catch` branches only log; the reads they call do not fail in this model.

## Findings

| source | as written | input that shows it | evidently intended | confidence | as-written member | corrected member |
|---|---|---|---|---|---|---|
| src/components/Jobs/JobSearch.jsx:15-27 | The line that would take `searchJobs` and `fetchJobs` from the job provider is commented out, and the hook is never called. `handleSearch` calls unbound names: it throws a ReferenceError, which its `catch` only logs. | any submit, e.g. term "react" with every filter "all" | `const { searchJobs, fetchJobs } = useJobs();`, so a submit runs the search, or the listing for a blank term | high; not executed | `JobSearch.DispatchAsWritten` (with `JobSearch.ReactSearchAsWritten`) | `JobSearch.JobSearchForm.HandleSearch` (with `JobSearch.DispatchFor`) |
