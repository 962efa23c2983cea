# Namaste Jobs front end — a Dafny model of its page logic

Namaste Jobs is a job-board web front end. Most of it is presentation. This project models the small
pieces of sequential logic inside its pages and proves properties about them:

- **Home page**: 1-indexed pages of ten with `ceil` page counts, the Previous/Next footer of each of
  its three tables, the tech/other category split, the 7-day "new" badge, the filter link, and the
  normalised, newest-first job list.
- **Admin dashboard**: the role guard and a job list that changes only after the server confirms.
  A create prepends, an update replaces by id in place, a delete filters by id. It also covers the
  seven-field form draft.
- **Job listing page**: the clamped page cursor, the request's query parameters, the defaults taken
  from the response, the "Showing a - b of n" line and the heading.
- **HTTP client interceptor**: a total, priority-ordered mapping from a failed request to the value
  the promise rejects with.
- **Job modal**: the default draft, loading from `initialData`, single-field edits and the
  required-field guard before `onSubmit`.
- **Session store**: `user` with the startup fetch, `login` and `logout`. `logout` clears `user`
  only after the backend confirms.
- **Contact form**: the field rules, the e-mail pattern and the status transitions of a submission.
- **Navigation bar**: dropdown and menu flags, search on Enter, the URLs it opens, the auth flags it
  clears and which account links it shows.
- **Profile page**: the role label, the account type, the phone fallback and the redirect when no
  one is signed in.

There is one module per source file (`Home`, `Dashboard`, `Listing`, `Api`, `JobModal`, `Auth`,
`Contact`, `Navbar`, `Profile`). Three modules are shared by the others:
- `Wrappers` holds `Option` and `Result`.
- `Text` holds `trim`, ASCII upper-casing, decimal rendering and `||` on strings.
- `Jobs` holds the job record, the seven-field draft, and payload normalisation with the
  newest-first sort.

State that a component updates in place is a class: its fields are the component's `useState`
variables, and each handler is a method. Values computed from state during rendering are functions.

Some inputs are parameters instead of modelled code:
- Every network result is a parameter: a `Result` holding either the response or the client error.
- Callbacks whose code is not shown (the modal's `onSubmit`) are also outcome parameters.
- Navigation is recorded as the last `router.push` target. Alerts and toasts are recorded as their
  text.
- `encodeURIComponent` is a function parameter `enc`.
- Timestamps are integers in milliseconds, and `isNew` takes the current time `now` as a parameter.

## Model

| member | source | states |
|---|---|---|
| Home.PageSlice | app/page.js:118-121 | page `p` is `jobs[(p-1)*10 .. min(p*10, n))`; it has at most ten items and is empty for `p > ceil(n/10)` |
| Home.PageCount | app/page.js:409 | `Math.ceil(n/10)`: the fewest pages of ten that hold `n` items, zero exactly when `n = 0` |
| Home.PagesUpToIsPrefix | app/page.js:118-121 | pages 1..k concatenated in order are the first `min(10k, n)` items |
| Home.PagesReassemble | app/page.js:118-121 | pages 1..ceil(n/10) concatenated in order give back the whole list |
| Home.EmptyTableNextEnabled | app/page.js:23-25 | with an empty table (0 pages), Next is not disabled on any page |
| Home.HomePage.constructor | app/page.js:36-39 | the list starts empty and all three page counters start at 1 |
| Home.HomePage.Rows | app/page.js:118-133 | a table renders at most ten rows, and none when its page is past its own last page |
| Home.HomePage.TotalPages | app/page.js:470 | `Math.ceil(list.length / 10)` of the table's own list (each of the three footers): enough pages of ten to hold it, one fewer would not, and zero exactly when the list is empty |
| Home.HomePage.SetPage | app/page.js:471 | each table's `onPageChange` setter (one per footer) moves that table to the given page and leaves the other two tables' pages alone |
| Home.HomePage.Load | app/page.js:52-57 | the list becomes the normalised payload sorted newest first; the counters are unchanged |
| Home.HomePage.ClickPrevious | app/page.js:13-15 | Previous moves to `p-1` unless disabled at `p = 1`; the other tables are unchanged; the page stays at least 1 and within the table's pages |
| Home.HomePage.ClickNext | app/page.js:23-25 | Next moves to `p+1` unless disabled at `p = totalPages` of that table's own list; the other tables are unchanged; a page within range stays within range |
| Home.HomePage.HandleFilterClick | app/page.js:86-91 | the query built step by step is `FilterUrl(category, location)` and becomes the navigation target |
| Home.FilterUrlNoSeparator | app/page.js:86-91 | the link is `/jobs?` then `category=enc(c)` if given, then `location=enc(l)` if given, with nothing between the two |
| Home.OtherJobs | app/page.js:122 | the "Other Jobs" list holds exactly the jobs whose category, compared as it is, is not a tech entry |
| Home.TechJobs | app/page.js:127-129 | the tech list holds exactly the jobs whose upper-cased category is a tech entry |
| Home.Filter | app/page.js:122 | a filtered list holds exactly the input items that pass the test, and is no longer than the input |
| Home.FilterConcat | app/page.js:127-129 | filtering distributes over concatenation, so each table keeps the input order |
| Home.TechCategoriesUpperCase | app/page.js:100-115 | every tech entry is its own upper-case form |
| Home.EveryJobListed | app/page.js:122-129 | every job is in the "other" table or the tech table |
| Home.ExactTechCategoryOnlyTech | app/page.js:122-129 | a category equal to a tech entry goes to the tech table only |
| Home.MixedCaseTechInBoth | app/page.js:122-129 | a mixed-case tech category such as "DevOps" passes both tests, so it is listed twice |
| Home.CorrectedSplitPartitions | app/page.js:122-129 | with the corrected "other" test, every job is in exactly one table and the two lengths add up to the list's length |
| Home.IsNew | app/page.js:93-98 | a job is new iff it was posted less than seven days (in milliseconds) before `now` |
| Home.IsNewMonotone | app/page.js:93-98 | a later posting than a new one is new; a posting exactly seven days old is not |
| Text.ToUpper | app/page.js:128 | upper-casing keeps the length, maps each character, and leaves no lower-case ASCII letter |
| Jobs.SortNewestFirst | app/page.js:53-55 | the sort result is a permutation of its input, ordered by `createdAt` non-increasing |
| Jobs.LoadedJobs | app/page.js:52-55 | the payload is normalised (`Jobs.NormalizePayload`: the array itself, else `data.jobs`, else empty) and then permuted into newest-first order |
| Jobs.JobDraft.With | app/dashboard/page.js:83 | `{...prev, [name]: value}` sets the named field and changes no other field |
| Dashboard.ReplaceById | app/dashboard/page.js:91 | the list keeps its length; each entry with the edited id becomes the server record; every other entry is unchanged and in place |
| Dashboard.ReplaceByIdKeepsIds | app/dashboard/page.js:90-92 | when the record keeps its id, every position keeps its id, and repeating the update changes nothing |
| Dashboard.RemoveById | app/dashboard/page.js:124 | the result holds exactly the jobs whose id differs from the deleted one |
| Dashboard.RemoveByIdConcat | app/dashboard/page.js:124 | removal distributes over concatenation, so the remaining jobs keep their relative order |
| Dashboard.RemoveAbsentId | app/dashboard/page.js:124 | deleting an id that no job carries leaves the list unchanged |
| Dashboard.DraftOf | app/dashboard/page.js:110-118 | the draft copies the six fields, and a missing qualification becomes "" |
| Dashboard.DashboardPage.constructor | app/dashboard/page.js:27-40 | the state starts as: empty list, loading, no error, no edit target, all seven draft fields empty |
| Dashboard.DashboardPage.Mount | app/dashboard/page.js:42-79 | no user goes to /login and a non-admin goes to /profile, neither sending a request. For an admin one list request is sent: success stores the normalised payload; a failure that was not an abort empties the list and records the rejection's message; an abort changes neither; loading ends false |
| Dashboard.DashboardPage.HandleInputChange | app/dashboard/page.js:81-84 | only the named draft field changes |
| Dashboard.DashboardPage.HandleEdit | app/dashboard/page.js:108-119 | the job becomes the edit target and the draft becomes its copy |
| Dashboard.ModalOnlyLocationBlocksEdit | app/dashboard/page.js:8-12 | a job whose location is "NCR", which only the job modal offers, loads for editing into a draft the dashboard form cannot submit |
| Dashboard.DashboardPage.HandleAddOrUpdateJob | app/dashboard/page.js:86-106 | it runs only on a draft the browser submits: every input is `required`, and a location or category outside the dashboard's own options shows the empty placeholder, so all seven fields must be filled and both selects must hold one of their options; one PUT (editing) or POST is sent with the draft. A successful update replaces by id and clears the edit target; a successful create prepends the record; both reset the draft. On failure the list, draft and edit target are unchanged and an alert shows the message |
| Dashboard.DashboardPage.HandleDelete | app/dashboard/page.js:121-128 | one DELETE is sent. After success no job with that id remains and the rest are filtered in order; after failure the list is unchanged and an alert is shown |
| Listing.RequestParams | app/jobs/page.js:28-33 | the request has `page` and `limit=10`, then one more pair per non-empty filter |
| Listing.RequestParamsRead | app/jobs/page.js:28-33 | reading the parameters back gives the page number, limit "10", and exactly the non-empty category and location |
| Text.DecimalRoundTrip | app/jobs/page.js:29 | the page number's decimal rendering reads back as the same number |
| Listing.TotalPagesOf | app/jobs/page.js:52 | `data.totalPages \|\| 1`: the server's count when it is non-zero, exactly 1 when it is absent or zero |
| Listing.ErrorText | app/jobs/page.js:45-58 | a failed request's message is never empty: the error body's message, else `HTTP error! status: N`, else the thrown message, else the connection fallback |
| Listing.ShowingUpper | app/jobs/page.js:115 | the upper bound is `min(page*10, totalJobs)`: at most both, and equal to one of them |
| Listing.ShowingRangeIsPageSlice | app/jobs/page.js:113-116 | with the lower bound `(page-1)*10 + 1` (`Listing.ShowingLower`) and when the count is the list's length, "Showing a - b" names exactly the 1-based positions of that page's slice |
| Listing.Heading | app/jobs/page.js:126-128 | with a filter the heading starts with the category, then " Jobs ", then "in <location>" only when a location is given (a heading with a category only ends in " Jobs "); without filters it is "All Job Listings" |
| Listing.HeadingAllIffNoFilter | app/jobs/page.js:126-128 | the heading is "All Job Listings" iff both filters are empty |
| Listing.ListingPage.constructor | app/jobs/page.js:12-19 | the page starts on page 1 of 1, with 0 jobs, loading, and no error |
| Listing.ListingPage.FetchJobs | app/jobs/page.js:22-63 | the request carries the current page and filters. Success stores `jobs \|\| []`, `totalPages \|\| 1` and `totalJobs \|\| 0`; failure empties the list and records the message. Loading ends false; pagination shows iff the request succeeded with jobs |
| Listing.ListingPage.ChangeFilters | app/jobs/page.js:12-66 | new URL filters replace the old ones and the page number is kept, so the next fetch asks for the old page under the new filters |
| Listing.ListingPage.ClickPrevious | app/jobs/page.js:70-76 | Previous sets `max(1, p-1)` unless disabled at `p = 1`, so the page never drops below 1 |
| Listing.ListingPage.ClickNext | app/jobs/page.js:90-96 | Next sets `min(totalPages, p+1)` unless disabled at `p = totalPages`, so it never passes the last page |
| Listing.ListingPage.ClickPageNumber | app/jobs/page.js:78-88 | button `i` (`0 <= i < totalPages`) selects exactly page `i+1` |
| Api.OnRejected | utils/api.js:11-30 | every failure rejects, either with one of the three messages of the interceptor's own or with the server's payload unchanged; without a server payload it always carries a message |
| Api.RejectionPriority | utils/api.js:12-29 | "Network Error" wins whatever the code and response. Then `ECONNABORTED` wins whatever the response. Only then is the server's data used, with "An unexpected error occurred" in its absence |
| Api.Intercept | utils/api.js:9-31 | a success passes through unchanged; every failure becomes a rejection |
| JobModal.DefaultDraftUsesOptions | components/JobModal.js:7-32 | the default draft has location "Pune" and category "IT", both offered options, and its other fields are empty |
| JobModal.JobModalState.constructor | components/JobModal.js:7-15 | the draft starts as the default draft; nothing has been submitted yet |
| JobModal.JobModalState.SyncInitialData | components/JobModal.js:34-48 | the draft becomes exactly `initialData` when given, else the default draft |
| JobModal.JobModalState.HandleChange | components/JobModal.js:50-55 | only the named field changes |
| JobModal.JobModalState.HandleSubmit | components/JobModal.js:57-69 | the five `required` text inputs must be filled for the browser to submit; the selects always show an option, so only an empty location taken from `initialData` remains. An empty title, company or location reports "Please fill all required fields" and `onSubmit` is not called. Otherwise `onSubmit` is called once with the draft, and its failure reports the message or "Operation failed" |
| Auth.Session.constructor | context/AuthContext.js:8 | `user` starts null |
| Auth.Session.FetchUser | context/AuthContext.js:12-19 | the startup fetch sets `user` to the response data on success and to null on failure |
| Auth.Session.Login | context/AuthContext.js:23 | `user` becomes exactly the given record |
| Auth.Session.Logout | context/AuthContext.js:24-27 | `user` becomes null only after the backend call succeeds; if that call fails the promise rejects and `user` is unchanged |
| Contact.ValidEmailIffPattern | app/contact/page.js:173-179 | splitting at the only `@` and the last `.` accepts exactly the strings the case-insensitive regular expression matches |
| Contact.NameError | app/contact/page.js:154 | "Name is required" exactly when the name is empty, otherwise no error |
| Contact.EmailError | app/contact/page.js:172-179 | "Email is required" when empty, else "Invalid email address" unless the address fits the pattern; no error exactly when it is non-empty and fits |
| Contact.SubjectError | app/contact/page.js:198 | "Subject is required" exactly when the subject is empty, otherwise no error |
| Contact.MessageError | app/contact/page.js:216-222 | "Message is required" when empty, else "Message must be at least 20 characters"; no error exactly when its JavaScript length (UTF-16 code units, `Text.Utf16Length`) is at least 20 |
| Text.Utf16Length | app/contact/page.js:219-221 | `value.length` counts UTF-16 code units: between one and two per character, and exactly the character count iff no character lies above U+FFFF |
| Contact.AstralCharCountsTwice | app/contact/page.js:219-221 | eighteen characters of the Basic Multilingual Plane plus one character above U+FFFF make 19 characters and still meet the 20-unit minimum |
| Contact.FormValidIff | app/contact/page.js:148-234 | `Contact.FormValid` (no field reports an error): the form is accepted iff name and subject are non-empty, the e-mail matches the pattern and the message is at least 20 UTF-16 code units long |
| Contact.IndexOf | app/contact/page.js:176 | the first index of a character, or -1 exactly when it is absent |
| Contact.LastIndexOf | app/contact/page.js:176 | the last index of a character, or -1 exactly when it is absent |
| Contact.ContactPage.constructor | app/contact/page.js:18-23 | the form starts empty, not submitting, and with a cleared status |
| Contact.ContactPage.Input | app/contact/page.js:154 | typing changes only the named field |
| Contact.PatternAcceptsEmptyLabel | app/contact/page.js:172-180 | "a@.b.cd" fits the page's own pattern but is not a valid address for the `type="email"` input (its first domain label is empty) |
| Contact.ContactPage.Submit | app/contact/page.js:26-54 | a form whose e-mail is non-empty and not an address the `type="email"` input accepts is stopped by the browser, and so is a form the field rules reject: neither posts anything or changes anything. A valid one posts exactly `{name, email, subject, message}` once. `success` sets the status to `{true, message}` and resets the form; `success: false` leaves the status cleared; a failure shows the server's message or the network fallback. `isSubmitting` ends false |
| Navbar.AccountLinks | components/layout/Navbar.js:203-238 | Dashboard shows iff the user is an admin; Profile and Logout show iff a user is present; Register and Login show otherwise |
| Navbar.NavbarState.constructor | components/layout/Navbar.js:11-16 | every flag starts false, and the query and role start empty |
| Navbar.NavbarState.ToggleCategory | components/layout/Navbar.js:132 | flips `categoryOpen` only |
| Navbar.NavbarState.ToggleLocation | components/layout/Navbar.js:166 | flips `locationOpen` only |
| Navbar.NavbarState.ToggleMenu | components/layout/Navbar.js:257 | flips `menuOpen` only |
| Navbar.NavbarState.FollowPageLink | components/layout/Navbar.js:116 | following a page link closes the mobile menu |
| Navbar.NavbarState.MouseDown | components/layout/Navbar.js:44-51 | a press outside a dropdown closes it; a press inside leaves it as it was |
| Navbar.NavbarState.NavigateToJobs | components/layout/Navbar.js:72-77 | the target is `/jobs?type=enc(value)`, and all three menus close |
| Navbar.NavbarState.TypeSearch | components/layout/Navbar.js:245 | the query becomes the typed text |
| Navbar.NavbarState.HandleSearch | components/layout/Navbar.js:79-85 | Enter with a non-blank query searches for the untrimmed query, clears it and closes the menu; any other key or a blank query changes nothing |
| Navbar.SearchActsIffNotBlank | components/layout/Navbar.js:80 | a query counts as non-blank iff it has a character other than whitespace |
| Text.TrimEmptyIffBlank | components/layout/Navbar.js:80 | `trim()` gives "" iff every character is whitespace |
| Navbar.NavbarState.ClearAuthState | components/layout/Navbar.js:61-65 | `isLoggedIn` becomes false and `userRole` becomes "" |
| Navbar.NavbarState.HandleLogout | components/layout/Navbar.js:67-70 | clears the auth flags, then targets /login |
| Navbar.NavbarState.ClickLogout | components/layout/Navbar.js:213-219 | the desktop Logout targets /login at once; the session user is cleared only if the backend confirms |
| Profile.Render | app/profile/page.js:11-29 | with no user the page targets /login and shows only the spinner; with a user there is no redirect and it shows the three labels below |
| Profile.RoleLabel | app/profile/page.js:47 | the first character is upper-cased and the rest is unchanged; an empty role gives an empty label |
| Profile.RoleLabelIdempotent | app/profile/page.js:47 | capitalising a label again changes nothing |
| Profile.AdminRoleLabel | app/profile/page.js:47 | the admin role is shown as "Admin" |
| Profile.AccountType | app/profile/page.js:76 | "Administrator" iff the role is "admin", else "Standard User" |
| Profile.PhoneDisplay | app/profile/page.js:86 | the phone if non-empty, else "Not provided"; never empty |
| Profile.ActionTarget | app/profile/page.js:17-23 | Edit Profile targets /profile/edit; Update Password targets /profile/update-password |

## Findings

| source | as written | input that shows it | evidently intended | confidence | as-written member | corrected member |
|---|---|---|---|---|---|---|
| app/page.js:122 | "Other Jobs" keeps a job whose category, compared case-sensitively, is not a tech entry. The tech table compares the upper-cased category | a job with category "DevOps", one of the form's own options, is listed in both "Other Jobs" and "Tech Industry Jobs" | the two tables partition the list: upper-case the category in both tests | medium; not executed | Home.MixedCaseTechInBoth | Home.CorrectedSplitPartitions |

The home page class (`Home.HomePage`) pages the "Other Jobs" table with the test as written
(`Home.OtherJobs`), as the program does, so a "DevOps" job shows in both tables there. The corrected
test (`Home.OtherJobsCorrected`) is the one the partition is proved for.

`handleFilterClick` (app/page.js:86-91) puts nothing between `category=…` and `location=…`. Every call
site passes only one of the two, so this is stated as behaviour (`Home.FilterUrlNoSeparator`), not
as a finding.

## Left out

- HTTP I/O: fetch, axios, cookies and credentials. Every server outcome is a method parameter.
- Contact.IsHtmlEmail: follows the grammar of a valid e-mail address in section 4.10.5.1.5 of the HTML Living Standard, for ASCII input. The conversion of international domain names that browsers apply first is not modelled.
- The home page's own fetch call (app/page.js:45-48). It does not parse and refers to an undefined
  `id`. Only the normalisation and sort that follow it are modelled.
- The listing page's AbortController and 8-second timer, and the dashboard's abort on unmount. A
  timeout is one of the thrown failures. The dashboard's abort is the boolean `aborted`.
- `encodeURIComponent` and `URLSearchParams` serialisation. The encoder is the parameter `enc`, and
  the query is an ordered list of key/value pairs.
- Date parsing and `toLocaleDateString` formatting, and the random "openings" counts. Dates are
  integer milliseconds.
- Home.IsNew: `setDate(getDate() - 7)` steps back seven calendar days in local time. Across a
  daylight-saving change that is an hour more or less than 7×24 hours. The model uses exactly 7×24
  hours.
- Jobs.SortNewestFirst: `Array.prototype.sort` is stable, but the model does not state stability.
  Non-numeric dates (a NaN comparison) are not modelled.
- Text.ToUpper, Profile.RoleLabel: only `a`–`z` are upper-cased. Full Unicode `toUpperCase` is not
  modelled. For example, it maps `ß` to `SS` and the dotless `ı` to `I`.
- JobModal.JobModalState.SyncInitialData: `initialData` is taken to be the seven form fields. Other
  members a record may carry are not modelled.
- The navigation bar's bearer-token status check (components/layout/Navbar.js:24-41) and DOM
  `contains` tests. Whether a press is inside a dropdown is a parameter.
- Navbar mobile Logout (components/layout/Navbar.js:299) calls the session's `logout` only. That is
  `Auth.Session.Logout`.
- app/register/page.js and app/profile/edit/page.js: thin form wrappers with no logic of their own.
  The detail page, footer, about page, layout and build configuration are presentational.
- React rendering order, effects re-running on dependency changes, animations, and the Dialog
  component. Each effect is one method call.
