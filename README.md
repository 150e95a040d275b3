# Lead-finder front end: form controllers and display rules

This project models the small amount of logic that the lead-generation web
front end carries inside its React pages, and proves properties of it in Dafny.

- **Lead-search dashboard** (`LeadSearch`). The business and industry selectors
  exclude each other. `searchLeads` checks three things in a fixed order:
  a selector is chosen, the trimmed problem description is not empty, and the
  result count is one of 20, 50, 100 or 150. The request body carries the
  trimmed text, and each empty selector is sent as `null`. The backend's reply
  becomes either the results or an error text. The results are drawn with
  urgency and relevance badges, a freshness note and banners, which are
  chosen by substring tests on the message.
- **Sign-up, sign-in and admin sign-in forms** (`Signup`, `Login`,
  `AdminLogin`, with shared parts in `AuthForms`). Each form updates one field
  at a time. Each one checks its required fields in order, and sign-up also
  checks the password length. The error text is the backend's `detail`, or a
  fixed default when `detail` is missing. Sign-in tries the admin endpoint
  first, but only for one configured admin address (`Login.AdminEmail`).
  When the admin endpoint refuses, sign-in falls through to the regular user
  login.
- **Admin dashboard** (`AdminDashboard`). A session guard runs on mount, and
  logout clears the session. The page counts used and available beta codes
  and shows only the first 20 codes, with an overflow note. It uses fallback
  labels for missing fields, and the recent-searches table shows a loading
  row, an empty-list row, or one row per search.
- **Pagination control** (`Pagination`). A loop builds the page list
  1..totalPages. The Previous and Next buttons have disabled flags and request
  pages. The button of the current page is highlighted.

Component state is a class per page. Each state field is a class field, and
each handler is a method whose `modifies` clause names the fields it writes.
An asynchronous handler is split at its `await`. A `Begin…`/`Start…` method
covers the part up to the request. A `Complete…`/`Finish…` method covers the
part after the reply. A third method runs both. Network replies are inputs of
type `Common.Reply`, which is one of: ok with a decoded body, not ok with a
status and an optional `detail`, or a thrown exception with its message.
`localStorage` and navigation belong to a `Browser.Window` object. CSS class
strings are the `LeadSearch.Style` enum: Neutral, Success, Caution, Warning.

JavaScript truthiness is modelled where the pages rely on it. An empty string
counts as missing, so `detail || default` gives the default when `detail` is
`""`. A numeric 0 also counts as missing: a relevance score of 0 is neutral,
a `used_by_user_id` of 0 shows "-", and a duration of 0 shows "N/A".

Some consequences of the code that are easy to miss:
- Relevance: a score of 0 is neutral, like an absent score. A negative score
  gives Warning.
- Freshness: the "Fresh results" note appears only for an age of exactly 0,
  and the age note only for a positive age. A negative age shows neither.
- Errors: a refused search request shows the backend's `detail`, else
  "HTTP error! status: N"; a request that throws shows the exception's
  message.

## Model

| member | source | states |
|---|---|---|
| Common.StringOr | src/app/dashboard/page.tsx:146 | `v \|\| fallback`: a present non-empty value wins, otherwise the fallback; the result is non-empty whenever the fallback is |
| Text.TrimStartSpec | src/app/dashboard/page.tsx:114 | leading part of `trim`: the result is a suffix of the input that does not start with whitespace, and all that was dropped is whitespace |
| Text.TrimEndSpec | src/app/dashboard/page.tsx:114 | trailing part of `trim`: the result is a prefix that does not end with whitespace, and all that was dropped is whitespace |
| Text.TrimmedEmptyIffBlank | src/app/dashboard/page.tsx:114 | `problemDescription.trim()` is empty exactly when the text is all whitespace; a non-empty trimmed text neither starts nor ends with whitespace |
| Text.TrimIdempotent | src/app/dashboard/page.tsx:136 | the trimmed description sent in the body is a fixed point of trimming |
| Text.ContainsIffOccurs | src/app/dashboard/page.tsx:328 | `message.includes(sub)` holds exactly when `sub` occurs at some index of the message |
| Text.NatToString | src/app/dashboard/page.tsx:146 | the status number in the error text is a non-empty run of digits with no leading zero |
| Text.IntToString | src/app/admin/dashboard/page.tsx:449 | the decimal text of an id is non-empty, starts with '-' exactly for negative numbers, and is otherwise (or after the '-') the decimal text of the number's magnitude |
| Text.ParseIntToString | src/app/admin/dashboard/page.tsx:449 | reading the text of any integer back gives that integer, so "User #id", "Nms" and "Relevance: N%" show exactly their number |
| Text.ParseNatToString | src/app/dashboard/page.tsx:146 | reading the decimal text of a number back gives the number (the formatting loses nothing) |
| Text.NatToStringInjective | src/app/admin/dashboard/page.tsx:458 | different totals give different texts in the "Showing first 20 codes of N total" note |
| Browser.Window.GetItem | src/app/admin/dashboard/page.tsx:130-131 | `localStorage.getItem`: a value exactly for stored keys, and it is the stored value |
| Browser.Window.SetItem | src/app/signup/page.tsx:64-65 | `localStorage.setItem` stores the value under the key and touches nothing else |
| Browser.Window.RemoveItem | src/app/admin/dashboard/page.tsx:239-240 | `localStorage.removeItem` drops exactly that key |
| Browser.Window.Navigate | src/app/admin/dashboard/page.tsx:241 | assigning `window.location.href` changes only the location |
| Browser.WithField | src/app/signup/page.tsx:17-22 | `{...formData, [name]: value}`: the named field gets the value and every other field keeps its value |
| Browser.FieldValue | src/app/signup/page.tsx:30 | reading a form field gives its value, and a field that is not there reads as empty |
| Browser.ReadAfterUpdate | src/app/login/page.tsx:14-19 | after `handleChange`, the updated field reads as the new value and every other field reads as before |
| AuthForms.FailureText | src/app/admin/login/page.tsx:47-58 | the error text of a failed call: the non-empty `detail` if there is one, else the form's fallback text ("Invalid admin credentials" here, "Failed to create account" and "Invalid email or password" in the other two forms), never empty when the fallback is not; an exception shows its message |
| AuthForms.CredentialsOf | src/app/login/page.tsx:42-45 | the sign-in body carries the form's email and password, both non-empty once the required check passed |
| AuthForms.CredentialsMissingAfterChange | src/app/login/page.tsx:14-31 | editing any other input leaves the required-field verdict unchanged; filling email or password leaves only the other one to decide |
| LeadSearch.OnBusinessChange | src/app/dashboard/page.tsx:94-99 | the business takes the value; a non-empty one clears the industry, an empty one leaves it; afterwards the selectors are exclusive whatever they were before |
| LeadSearch.OnIndustryChange | src/app/dashboard/page.tsx:101-106 | the mirror rule for the industry selector, which also leaves the selectors exclusive |
| LeadSearch.ReplayKeepsExclusive | src/app/dashboard/page.tsx:94-106 | from the initial both-empty state (or any exclusive one), no sequence of selector changes makes both non-empty; after at least one change the selectors are exclusive from any starting state |
| LeadSearch.FirstValidationError | src/app/dashboard/page.tsx:108-122 | first failure wins: no selector gives MissingSelector whatever the rest; otherwise an all-whitespace problem gives EmptyProblem; otherwise a count outside {20,50,100,150} gives InvalidResultCount; no error exactly when all three hold |
| LeadSearch.CanSearch | src/app/dashboard/page.tsx:178 | `canSearch` holds exactly when `searchLeads` would find no validation error |
| LeadSearch.RequestBody | src/app/dashboard/page.tsx:135-141 | the body carries the trimmed problem, each empty selector as null and a non-empty one as given, the user id and the count |
| LeadSearch.ValidatedRequestWellFormed | src/app/dashboard/page.tsx:108-141 | after validation, with exclusive selectors: exactly one of business/industry is sent, the problem text is non-empty and has no whitespace at either end, and the count is allowed |
| LeadSearch.SearchFailureText | src/app/dashboard/page.tsx:144-152 | a refused search shows the non-empty `detail`, else "HTTP error! status: N", and is never empty; an exception shows its message |
| LeadSearch.Dashboard.constructor | src/app/dashboard/page.tsx:39-48 | initial state: both selectors and the problem empty, count 100, not loading, no results, no error |
| LeadSearch.Dashboard.HandleBusinessChange | src/app/dashboard/page.tsx:94-99 | the selector state becomes `OnBusinessChange` of the old one; no other field changes |
| LeadSearch.Dashboard.HandleIndustryChange | src/app/dashboard/page.tsx:101-106 | the selector state becomes `OnIndustryChange` of the old one; no other field changes |
| LeadSearch.Dashboard.SetProblemDescription | src/app/dashboard/page.tsx:262 | the problem input's handler replaces only the description |
| LeadSearch.Dashboard.SetResultCount | src/app/dashboard/page.tsx:278 | the count select's handler replaces only the count |
| LeadSearch.Dashboard.SearchEnabled | src/app/dashboard/page.tsx:291 | the button is enabled exactly when nothing is loading and validation would pass |
| LeadSearch.Dashboard.StartSearch | src/app/dashboard/page.tsx:108-128 | a failed check sets only its message, and loading and results stay unchanged with no request; otherwise loading is set, error and results are cleared, and the body is built |
| LeadSearch.Dashboard.FinishSearch | src/app/dashboard/page.tsx:144-155 | an ok reply becomes the results; any other reply becomes the error text; loading ends |
| LeadSearch.Dashboard.SearchLeads | src/app/dashboard/page.tsx:108-156 | the whole handler: on a validation failure nothing is sent; otherwise loading ends, with the results or the failure text and no results |
| LeadSearch.UrgencyStyle | src/app/dashboard/page.tsx:162-169 | High gives Warning, Medium gives Caution, Low gives Success; anything else, absent included, gives Neutral (each both ways) |
| LeadSearch.RelevanceStyle | src/app/dashboard/page.tsx:171-176 | absent or 0 gives Neutral; 80 and above gives Success; 60 to 79 gives Caution; any other score gives Warning (each both ways) |
| LeadSearch.Card | src/app/dashboard/page.tsx:362-371 | relevance badge exactly for a truthy score, reading "Relevance: N%" and coloured by `RelevanceStyle`, so never Neutral; urgency badge exactly for a non-empty level, reading "L Urgency" and coloured by `UrgencyStyle` |
| LeadSearch.Cards | src/app/dashboard/page.tsx:355-356 | one card per lead, in the order received |
| LeadSearch.FreshnessNote | src/app/dashboard/page.tsx:313-322 | "Fresh results" exactly for age 0, the age note exactly for a positive age, nothing for a negative age |
| LeadSearch.MessageBanners | src/app/dashboard/page.tsx:328-346 | the quality notice appears exactly when the message contains both "Request #" and "less relevant"; the beta badge exactly when it contains "Beta Quality" |
| LeadSearch.Panel | src/app/dashboard/page.tsx:305-356 | the results panel shows the reply's count, message, freshness note and banners, and one `Card` per lead, in order |
| LeadSearch.BetaQualityExample | src/app/dashboard/page.tsx:305-356 | a two-lead reply with "Beta Quality results" and age 0 gives two cards in order, the beta badge and the fresh note |
| Signup.SignupValidationError | src/app/signup/page.tsx:30-40 | a missing email, password, name or beta code gives MissingField first; only then a password under 6 characters gives ShortPassword |
| Signup.CompanyIsOptional | src/app/signup/page.tsx:30 | the company field never changes the validation verdict |
| Signup.SignupBody | src/app/signup/page.tsx:48-54 | betaCode is sent as `beta_code`, the other fields unchanged, and an empty company as null |
| Signup.SignupForm.constructor | src/app/signup/page.tsx:7-15 | all five fields empty, not loading, no error |
| Signup.SignupForm.HandleChange | src/app/signup/page.tsx:17-22 | only the named field of the form record changes |
| Signup.SignupForm.BeginSubmit | src/app/signup/page.tsx:24-40 | the error is cleared and loading is set; a failed check sets its message and loading ends, with no request |
| Signup.SignupForm.CompleteSubmit | src/app/signup/page.tsx:42-73 | ok: `user` and `token` are stored and the browser goes to `/dashboard`; otherwise the failure text is set and the browser is untouched; loading ends |
| Signup.SignupForm.HandleSubmit | src/app/signup/page.tsx:24-74 | the whole handler: loading is false on every exit, and a validation failure sends nothing and touches no storage |
| Login.UserLogin | src/app/login/page.tsx:61-88 | the user login signs in exactly on an ok reply, with the returned session; otherwise it fails with the failure text for the fallback "Invalid email or password" |
| Login.LoginAttempt | src/app/login/page.tsx:33-88 | the admin endpoint is called exactly for the admin address; an ok admin reply signs the admin in with that reply's session and calls nothing else; an admin refusal falls through to the user login; an admin exception ends the attempt; other addresses go straight to the user login |
| Login.AdminReplyOnlyMattersForAdmin | src/app/login/page.tsx:35-37 | for any other address the admin endpoint's reply has no influence |
| Login.LoginForm.constructor | src/app/login/page.tsx:7-12 | empty email and password, not loading, no error |
| Login.LoginForm.HandleChange | src/app/login/page.tsx:14-19 | only the named field of the form record changes |
| Login.LoginForm.BeginSubmit | src/app/login/page.tsx:21-31 | the error is cleared and loading is set; missing credentials set "Email and password are required" and end loading, with no request |
| Login.LoginForm.CompleteSubmit | src/app/login/page.tsx:33-91 | the endpoints are called as `LoginAttempt` says; an admin sign-in stores `admin`/`admin_token` and goes to `/admin/dashboard`; a user sign-in stores `user`/`token` and goes to `/dashboard`; a failure sets the error; loading ends |
| Login.LoginForm.HandleSubmit | src/app/login/page.tsx:21-92 | the whole handler: loading is false on every path; missing credentials call nothing; an admin sign-in stores `admin`/`admin_token` and goes to `/admin/dashboard`; a user sign-in stores `user`/`token` and goes to `/dashboard`; a failure sets the error and leaves the browser alone |
| AdminLogin.AdminLoginForm.constructor | src/app/admin/login/page.tsx:7-12 | empty email and password, not loading, no error |
| AdminLogin.AdminLoginForm.HandleChange | src/app/admin/login/page.tsx:14-19 | only the named field of the form record changes |
| AdminLogin.AdminLoginForm.BeginSubmit | src/app/admin/login/page.tsx:21-31 | the error is cleared and loading is set; missing credentials set their message and end loading, with no request |
| AdminLogin.AdminLoginForm.CompleteSubmit | src/app/admin/login/page.tsx:33-61 | ok: `admin` and `admin_token` are stored and the browser goes to `/admin/dashboard`; otherwise the failure text is set; loading ends |
| AdminLogin.AdminLoginForm.HandleSubmit | src/app/admin/login/page.tsx:21-62 | the whole handler: loading is false on every exit; missing credentials send nothing; success stores `admin`/`admin_token` and goes to `/admin/dashboard`; a failure sets the error and leaves the browser alone |
| AdminDashboard.UsedCodes | src/app/admin/dashboard/page.tsx:252 | the filter keeps exactly the used codes |
| AdminDashboard.AvailableCodes | src/app/admin/dashboard/page.tsx:253 | the filter keeps exactly the unused codes |
| AdminDashboard.CodesPartition | src/app/admin/dashboard/page.tsx:252-253 | used and available codes together are the whole list (as multisets), so their counts add up to its length |
| AdminDashboard.Counts | src/app/admin/dashboard/page.tsx:252-253 | the counters: used is the number of used codes and available the number of unused ones (the sizes of the two filters); used + available = total = number of codes; used is 0 exactly when no code is used |
| AdminDashboard.ShownCodes | src/app/admin/dashboard/page.tsx:439 | the table lists exactly the first min(20, n) codes, in their order |
| AdminDashboard.OverflowNote | src/app/admin/dashboard/page.tsx:456-460 | the "Showing first 20 codes of N total" note appears exactly when the table left codes out, and N is the total |
| AdminDashboard.StatusLabel | src/app/admin/dashboard/page.tsx:443-446 | "Used" exactly for a used code, "Available" exactly for an unused one |
| AdminDashboard.UsedByLabel | src/app/admin/dashboard/page.tsx:449 | "-" exactly when the user id is missing or 0, otherwise "User #id" |
| AdminDashboard.CompanyLabel | src/app/admin/dashboard/page.tsx:414 | a missing or empty company shows "-", otherwise the company |
| AdminDashboard.BusinessLabel | src/app/admin/dashboard/page.tsx:504 | a missing or empty business type shows "N/A", otherwise the type |
| AdminDashboard.DurationLabel | src/app/admin/dashboard/page.tsx:516 | "N/A" exactly when the duration is missing or 0, otherwise "Nms" |
| AdminDashboard.UserLabel | src/app/admin/dashboard/page.tsx:494-498 | a known user shows "name (email)", an unknown one "Anonymous" |
| AdminDashboard.RecentSearchesBody | src/app/admin/dashboard/page.tsx:482-523 | a loading row exactly while metrics load; otherwise "No searches yet" exactly for an empty list; otherwise one row per search, in order |
| AdminDashboard.AdminDashboardPage.constructor | src/app/admin/dashboard/page.tsx:117-126 | no users or codes, loading, no error, no admin |
| AdminDashboard.AdminDashboardPage.Mount | src/app/admin/dashboard/page.tsx:128-141 | without a stored admin profile and token, the browser goes to `/admin/login`, nothing else changes, and nothing loads; otherwise the stored profile is kept |
| AdminDashboard.AdminDashboardPage.LoadData | src/app/admin/dashboard/page.tsx:143-176 | an ok reply replaces its list and a refused one is ignored; an exception sets "Failed to load data" and skips the rest; loading ends |
| AdminDashboard.AdminDashboardPage.Logout | src/app/admin/dashboard/page.tsx:238-242 | exactly `admin` and `admin_token` are removed, so the session guard now fails, and the browser goes to `/admin/login` |
| Pagination.Pages | src/app/components/pagination.tsx:10-15 | the page list is 1..totalPages in order, and empty when totalPages < 1 |
| Pagination.BuildPages | src/app/components/pagination.tsx:10-15 | the `for` loop pushes exactly 1..totalPages, in order |
| Pagination.PagesMembership | src/app/components/pagination.tsx:13 | p is listed exactly when 1 ≤ p ≤ totalPages, and the list strictly increases |
| Pagination.Previous | src/app/components/pagination.tsx:19-21 | Previous requests currentPage-1 and is disabled exactly on page 1 |
| Pagination.Next | src/app/components/pagination.tsx:41-43 | Next requests currentPage+1 and is disabled exactly when currentPage equals totalPages |
| Pagination.Buttons | src/app/components/pagination.tsx:27-35 | one button per listed page, in order, requesting its own page and highlighted exactly when it is the current page |
| Pagination.ExactlyOneHighlighted | src/app/components/pagination.tsx:31-35 | exactly one button is highlighted when 1 ≤ currentPage ≤ totalPages, and none otherwise |
| Pagination.EnabledNavigationStaysInRange | src/app/components/pagination.tsx:19-46 | from a page in range, an enabled Previous or Next requests a listed page |
| Pagination.NoClamping | src/app/components/pagination.tsx:20-43 | nothing is clamped: with no pages, an enabled Next or Previous requests a page that is not listed |

## Left out

- `src/app/page.tsx` (marketing markup and animation variants) has no logic and is not modelled.
- Every `fetch` call and JSON decoding is left out. Replies are inputs to the handlers instead.
- Loading the business and industry options (`Promise.all`) is not modelled, since it is network I/O and the option lists only fill the select elements. On failure it also sets `error` to "Failed to load business/industry options", which the model does not capture.
- The admin metrics loading (`loadMetricsData`: platform metrics, cost summary and recent searches) is not modelled. `RecentSearchesBody` takes the loading flag and the list as inputs.
- Generating beta codes (`generateBetaCodes`) is not modelled. It is a network call whose outcome is a browser `alert` and, after a successful generation, a reload through `loadData`.
- The user id kept in `sessionStorage` is not modelled. It comes from `Date.now()` and `Math.random()`, so it is nondeterministic. The dashboard takes it as a constructor parameter.
- The dashboard's welcome banner is not modelled. It is read from `localStorage` and parsed as JSON.
- The profile objects stored by the forms are opaque strings. The model keeps the JSON text, and `JSON.parse` failures are not modelled.
- Floating-point values are not modelled. `result_age_hours` is a whole number of hours, so there is no `Math.round`. Costs, `toFixed` and `toLocaleString` are left out, as are the metric cards and the cost column.
- Date formatting is not modelled: `formatDate`, `created_at`, `used_at` and the time column.
- `parseInt` can produce `NaN` in the select handlers, and `NaN` is falsy. This browser-input artefact is not modelled. Counts, scores, ids and durations are integers.
- `Common.Reply.Threw` always carries a message. The catch blocks' defaults for thrown values that are not errors ("An error occurred", "Failed to … Please try again.") are therefore not modelled. `fetch` and `json()` only reject with Error objects.
- Concurrency is not modelled. The Enter key starts a search without checking `loading`, so two searches can overlap. The model runs one search from start to finish, and the caller may interleave `StartSearch` and `FinishSearch`.
- LeadSearch.Card: a relevance score of 0 shows no badge in the model. The page renders `{lead.ai_relevance_score && (…)}`, and React draws the number 0 as a literal "0" text node, which the model does not capture.
- CSS class strings and layout are not modelled. Badge colours are `LeadSearch.Style`, and the page-button highlight is a boolean.
- Signup.SignupValidationError: the password length is counted in Unicode code points, not UTF-16 code units. The two counts differ for characters outside the Basic Multilingual Plane.
- Text.TrimStartSpec: `trim` is modelled with the fixed ECMAScript set of white-space and line-terminator code points, and no other Unicode property is used.
