# Recruiting front end: screen controller and decision rules

This project models the logic inside the two React screens of an AI-assisted
recruiting front end and proves properties of it.

- `src/App.jsx` is a single-page client. Its `App` component is a
  screen controller: thirteen pieces of state and one handler per user action.
  Around it sit small pure rules: the request wrapper `apiRequest`, the status
  and score badges, the skills chips, the identity and role of a new session,
  the archive action, the contact handle and the verdict panel.
- `App.jsx` is a routed client. It holds the `AuthProvider` session,
  the sign-in page's `handleSubmit`, the recruiter dashboard with its
  owner-and-not-archived filter, the candidate portal's apply dialog and the
  page chosen for the root route.

Every backend call becomes a parameter that holds its outcome.
- In `src/App.jsx`, that outcome is `Ok(data)` or `Err(message)`, as
  `await apiRequest(...)` delivers it. `Api.Interpret` shows how a raw response
  becomes that outcome.
- In `App.jsx`, which calls `fetch` directly, the outcome is the raw
  `Api.FetchResult`: either a request that did not complete, or a response
  with its status and the parse outcome of its body.

A handler is one atomic step:
- it takes the outcome of every request it makes, including follow-up loads
  (for example `toggleArchive` reloading the dashboard);
- it returns the requests it sent, in order;
- its postcondition states the whole new state as an update of the old one, so
  every field it leaves alone is stated as unchanged.

Module layout:

| file | module | contents |
|---|---|---|
| js.dfy | `Js` | JavaScript values and the operators the screens use: truthiness, `\|\|`, `o.k` (throws on `null`/`undefined`), `o?.k`, `String(v)`, `===` |
| api.dfy | `Api` | requests, raw responses, and `apiRequest`'s error message and empty-body rules |
| skills.dfy | `Skills` | `split(',')`, `trim()` and the skills chips of the two detail screens |
| rules.dfy | `Rules` | sign-in identity and role, archive action, contact handle, status update, verdict panel |
| badges.dfy | `Badges` | status, score and vacancy badge colours |
| screen.dfy | `Screen` | class `App`: the controller of `src/App.jsx` with its invariant `Valid()` |
| portal.dfy | `Portal` | `AuthProvider`, `AuthPage`, `RecruiterDashboard`, `CandidatePortal`, and the route choice of `App.jsx` |

The invariant `Screen.App.Valid()` holds between handlers. It says:
- every screen other than sign-in has a user;
- recruiter screens are seen only by a recruiter, and candidate screens only by a candidate;
- every screen that dereferences `selectedJob` or `selectedApp` has one;
- nothing is loading.

A handler's precondition is the invariant plus the fact that the element that
triggers the handler is on screen.

Some things the code does not do, and the model does not claim:
- de-duplication of loads per resource;
- an optimistic status change that is rolled back on failure;
- placeholder substitution in message templates on the client (generation is a
  single backend call);
- redirecting a user of the wrong role. Instead, the invariant shows that no
  handler or button reaches another role's screens.

## Model

| member | source | states |
|---|---|---|
| Js.Truthy | src/App.jsx:523 | JavaScript truthiness: `undefined`, `null`, `false`, `0` and `""` are falsy; a truthy value is never nullish |
| Js.Or | src/App.jsx:90 | `a \|\| b` is the first operand when truthy, else the second; it is truthy exactly when one of them is |
| Js.OptionalMember | src/App.jsx:191 | `base?.key` is `undefined` on a nullish base and `base.key` otherwise |
| Js.StrictEquals | App.jsx:357 | `===` implies equal values, and two separately parsed objects or arrays are never `===` |
| Js.NatDecimal | src/App.jsx:29 | `String(n)` of a natural number is a non-empty digit string without a leading zero |
| Js.Decimal | src/App.jsx:110 | `String(n)` of an integer: the numeral, with a minus sign when negative |
| Js.JoinComma | src/App.jsx:110 | array-to-string conversion: an empty array gives "", a one-element array its element |
| Js.Member | src/App.jsx:90-92 | a property read throws exactly on `null`/`undefined`; an absent key reads `undefined` |
| Js.ToStr | src/App.jsx:110 | what a template literal writes: strings as they are, integers in decimal, `undefined` as "undefined", objects as "[object Object]" |
| Js.NatDecimalRoundTrip | src/App.jsx:29 | the decimal numeral written for a status code reads back as that code |
| Api.ErrorBody | src/App.jsx:28 | an error body that does not parse counts as `{}` |
| Api.ErrorMessage | src/App.jsx:29 | the thrown message is `error` if truthy, else `message` if truthy, else "Ошибка: " and the status; a `null` body throws a TypeError instead |
| Api.Interpret | src/App.jsx:27-33 | success exactly for an ok response whose body is empty or parses; a non-ok response gives its error message; an empty body gives `{}` |
| Api.EmptyOkBodyIsEmptyObject | src/App.jsx:32-33 | an ok response with an empty body yields `{}`, whose fields read `undefined` without throwing |
| Api.ErrorFieldWins | src/App.jsx:29 | a non-ok response fails, and its `error` field wins over its `message` field |
| Skills.Split | src/App.jsx:531 | `split(',')` gives at least one piece and no piece holds a comma |
| Skills.JoinSplit | src/App.jsx:531 | joining the pieces with commas gives back the original string |
| Skills.SplitJoin | src/App.jsx:531 | splitting comma-free pieces joined by commas gives back those pieces |
| Skills.SplitCount | src/App.jsx:531 | there is one piece more than there are commas |
| Skills.Trim | src/App.jsx:531 | `trim()` is a slice of the input that only whitespace surrounds, and it neither starts nor ends with whitespace |
| Skills.TrimIdempotent | src/App.jsx:531 | trimming twice is the same as trimming once |
| Skills.ChipsOf | src/App.jsx:531 | one chip per comma-separated piece, in order, each trimmed, none holding a comma; one chip more than there are commas |
| Skills.ProfileChips | src/App.jsx:531 | a missing `skills_detected` shows no chips; a string shows its chips |
| Skills.DetailChips | src/App.jsx:717-723 | chips only for a truthy `skills_detected` |
| Skills.EmptySkillsDiffer | src/App.jsx:717-723 | for an empty skills text the recruiter's profile shows one empty chip and the candidate's detail screen shows none |
| Rules.AuthEndpoint | src/App.jsx:86 | `/auth/login` exactly in login mode; otherwise the recruiter or candidate signup path, according to the selected role |
| Rules.IdentityOf | src/App.jsx:90 | the id is `recruiter_id` if truthy, else `candidate_id` if truthy, else `id` |
| Rules.UserFrom | src/App.jsx:89-93 | fails exactly on a `null` body. On login the role is recruiter exactly when `recruiter_id` is truthy; on sign-up it is the selected role. The email is taken from the form |
| Rules.AuthResult | src/App.jsx:85-102 | a failed request gives its message; otherwise the user built from the response |
| Rules.CandidateSignupStaysCandidate | src/App.jsx:92 | a candidate sign-up never yields a recruiter session, whatever the backend answers |
| Rules.CandidateLogin | src/App.jsx:90-92 | a login response with only `candidate_id` gives a candidate with that id |
| Rules.ArchiveAction | src/App.jsx:126 | "dearchive" exactly when `is_archived` is truthy, "archive" exactly when it is not |
| Rules.ContactHandle | src/App.jsx:191 | the handle is always truthy: the candidate's `telegram_username` when truthy, else "username" |
| Rules.WithStatus | src/App.jsx:157 | the application with `status` replaced and every other field kept |
| Rules.WithStatusOverwrites | src/App.jsx:157 | setting a status twice equals setting it once, and the last status set wins |
| Rules.PanelFor | src/App.jsx:704-737 | spinner exactly while loading; the verdict exactly when `aiData` and its `ai_verdict` are truthy; otherwise the "not ready" notice |
| Rules.PendingEmptyAndFailedLookAlike | src/App.jsx:710 | a failed request, a missing verdict, an empty verdict and a `null` verdict all show the same notice |
| Badges.StatusTone | src/App.jsx:37-47 | a known status gets its own style; any other status, including a missing one, gets the "New" style |
| Badges.StatusTonesOfWorkflow | src/App.jsx:38-47 | the four application statuses have four different colours; an unknown or missing status looks like "New" |
| Badges.ScoreTone | src/App.jsx:53-55 | nothing exactly for a missing score; green from 80, yellow from 50 to 79, red below 50 |
| Badges.ScoreToneMonotone | src/App.jsx:55 | a higher score never gets a worse colour |
| Badges.VacancyBadge | src/App.jsx:430 | "Archived" exactly when `is_archived` is truthy, "Active" exactly when it is not |
| Badges.BadgeMatchesArchiveAction | src/App.jsx:430-435 | an archived card offers to dearchive and an active one to archive |
| Screen.Link | src/App.jsx:420-672 | the plain `setView` buttons never lead from one role's screens to the other role's |
| Screen.DashboardQuery | src/App.jsx:110 | the query id is `userId` when truthy, else the id of the user the caller saw; with neither, nothing is sent |
| Screen.ProfileAiData | src/App.jsx:146-151 | the profile keeps the analysis only when both of its requests succeed; otherwise `aiData` is null |
| Screen.App.constructor | src/App.jsx:64-78 | the initial state: sign-in view, login mode, recruiter role, empty lists, no user |
| Screen.App.SetAuthRole | src/App.jsx:290-291 | only `authRole` changes |
| Screen.App.ToggleAuthMode | src/App.jsx:307 | login and sign-up swap; nothing else changes |
| Screen.App.SetFormField | src/App.jsx:295-302 | only the typed field of `formData` changes |
| Screen.App.HandleAuth | src/App.jsx:81-103 | sends the sign-in request. On failure only `error` is set and `user` and `view` stay. A recruiter gets the dashboard (loaded under the stale-closure id rule) and a candidate the vacancy list |
| Screen.App.LoadRecruiterDashboard | src/App.jsx:106-113 | the dashboard opens before the request; the list is replaced only on success |
| Screen.App.HandleJobClick | src/App.jsx:115-123 | the job is always selected. Success opens the job's screen with its applications; failure keeps `view` and `applications` and sets the error |
| Screen.App.ToggleArchive | src/App.jsx:125-131 | sends the archive action the card shows; on success reloads the dashboard under the current user's id; on failure nothing changes |
| Screen.App.CreateVacancy | src/App.jsx:133-140 | sends the form with `recruiter_id` of the user and `is_archived: false`; clears the form and reloads only on success |
| Screen.App.HandleCandidateClick | src/App.jsx:142-152 | the profile opens at once; templates are asked for only after the analysis arrives; a failure of either leaves `aiData` null |
| Screen.App.UpdateAppStatus | src/App.jsx:154-159 | on success only the selected application's status changes; on failure nothing; `applications` is never touched |
| Screen.SameStatusTwice | src/App.jsx:154-159 | choosing the same status twice sends the same request twice; if either request succeeds the state is the once-updated one, and if both fail it is unchanged |
| Screen.App.GenerateTg | src/App.jsx:187-196 | sends the candidate's name, a truthy contact handle and the job title; no state changes |
| Screen.App.LoadTemplates | src/App.jsx:162-169 | the templates screen opens before the request; the list is replaced only on success |
| Screen.App.SaveTemplate | src/App.jsx:171-177 | sends the form with the owner and on success reloads the templates; the form is not cleared |
| Screen.App.DeleteTemplate | src/App.jsx:179-185 | declining the confirmation sends nothing; otherwise deletes, and on success reloads |
| Screen.App.Logout | src/App.jsx:334 | only the view changes, back to sign-in; the user stays set |
| Screen.App.Navigate | src/App.jsx:420-672 | a `setView` button changes only the view and keeps the invariant |
| Screen.App.LoadActiveVacancies | src/App.jsx:200-211 | the vacancy list opens at once; success replaces the list and failure sets its error |
| Screen.App.HandleSelectJobForApply | src/App.jsx:214-219 | the job is selected, the upload form opens and the error is cleared |
| Screen.App.UploadResume | src/App.jsx:221-245 | no file changes nothing. Otherwise the multipart form is sent; success leads to the candidate's applications and failure stays on the form with the error |
| Screen.App.FetchMyApps | src/App.jsx:247-254 | the applications screen opens at once; the list is replaced only on success |
| Screen.App.HandleViewAppStatus | src/App.jsx:256-273 | the old analysis is cleared; it stays null on failure, so the panel shows the "not ready" notice |
| Portal.AuthProvider.constructor | App.jsx:11 | the session starts from the stored user |
| Portal.AuthProvider.Login | App.jsx:12 | `login(d)` makes the user `d` |
| Portal.AuthProvider.Logout | App.jsx:13 | `logout()` makes the user `null` |
| Portal.Route | App.jsx:357 | the sign-in page exactly without a user; the recruiter dashboard exactly for role "recruiter"; the candidate portal for any other user |
| Portal.LogoutShowsAuthPage | App.jsx:13 | after `logout()` on the session, the root route shows the sign-in page |
| Portal.SubmitPath | App.jsx:53-56 | `/auth/login` exactly in login mode; otherwise the recruiter signup path exactly for role "recruiter" and the candidate path for any other role |
| Portal.SpreadFields | App.jsx:68 | spreading an object copies its own fields |
| Portal.NormaliseUser | App.jsx:67-71 | keeps every response field. `id` is the first truthy of `recruiter_id`, `candidate_id` and `id`; `role` is the given role, or the inferred one when it is empty. A `null` body throws |
| Portal.RoleIsSelector | App.jsx:70 | for either selector value the session role is that value, so the inference after `\|\|` is never used |
| Portal.SubmitEffect | App.jsx:58-77 | only an ok response with a readable non-null body signs in. A non-ok response alerts its `error` or "Authentication failed"; anything else alerts "Server error" |
| Portal.FreshLoginIsCandidate | App.jsx:46-92 | a login from a fresh page, where the selector is hidden, is always routed to the candidate portal |
| Portal.AuthPage.constructor | App.jsx:45-47 | login tab, role "candidate", the four empty form fields |
| Portal.AuthPage.SetIsLogin | App.jsx:84-85 | only the tab changes |
| Portal.AuthPage.SetRole | App.jsx:88-93 | only the role changes, and only to a selector value |
| Portal.AuthPage.SetFormField | App.jsx:96-103 | only the typed field changes |
| Portal.AuthPage.HandleSubmit | App.jsx:51-78 | sends the form to the chosen endpoint and signs in with the normalised user or returns the alert; a non-ok response never changes the session |
| Portal.Flat | App.jsx:124 | `.flat()` leaves a list without nested arrays unchanged and keeps every non-array element |
| Portal.Keep | App.jsx:124 | the filter callback: owned by the user (`===` on `recruiter_id`) and not archived |
| Portal.FlatAppend | App.jsx:124 | flattening a concatenation flattens each part |
| Portal.OwnActive | App.jsx:124 | the filtered list is no longer than its input and every element passes the filter |
| Portal.OwnActiveMembers | App.jsx:124 | a vacancy is listed exactly when it is in the input and is owned by the user and not archived |
| Portal.OwnActiveAppend | App.jsx:124 | the filter keeps the original order: the filter of a concatenation is the concatenation of the filters |
| Portal.OwnActiveCount | App.jsx:124 | each kept vacancy appears as often as in the input; the others do not appear |
| Portal.VacancyList | App.jsx:120-125 | a list is stored exactly when the body parses to an array with no `null` element after flattening, and it is the filtered flattened list |
| Portal.RecruiterDashboard.constructor | App.jsx:114-116 | empty list, dialog closed, form owned by the user |
| Portal.RecruiterDashboard.FetchVacancies | App.jsx:118-125 | stores the filtered list when there is one; otherwise nothing changes |
| Portal.RecruiterDashboard.OpenCreate | App.jsx:142 | opens the dialog and changes nothing else |
| Portal.RecruiterDashboard.CloseCreate | App.jsx:153 | closes the dialog and changes nothing else |
| Portal.RecruiterDashboard.SetNewVacField | App.jsx:149-150 | only the typed field of the new vacancy changes |
| Portal.RecruiterDashboard.HandleCreate | App.jsx:127-136 | every completed response closes the dialog and reloads; only a request that does not complete stops the handler |
| Portal.FlatList | App.jsx:283 | a list is stored exactly when the body parses to an array, flattened |
| Portal.CandidatePortal.constructor | App.jsx:277-280 | empty lists, no dialog, no file |
| Portal.CandidatePortal.LoadVacancies | App.jsx:283 | stores every vacancy, flattened and unfiltered |
| Portal.CandidatePortal.LoadMyApps | App.jsx:284 | stores any parsed body, whatever the status |
| Portal.CandidatePortal.StartApply | App.jsx:312 | opens the dialog for a listed vacancy |
| Portal.CandidatePortal.CancelApply | App.jsx:338 | closes the dialog |
| Portal.CandidatePortal.ChooseFile | App.jsx:335 | only the chosen file changes |
| Portal.CandidatePortal.HandleApply | App.jsx:287-299 | sends the multipart form; the dialog closes only on an ok response and otherwise nothing changes |

## Left out

- Rendering, Tailwind classes, icons and dates are left out: they are presentation.
- `alert`, `confirm` and `window.open` are left out. The answer to the
  confirmation dialog is the `confirmed` input of `DeleteTemplate`.
- `console.log`/`console.error` are left out: logging changes no state.
- `localStorage` is left out: `AuthProvider` keeps only its in-memory user, and
  its constructor takes the stored, already parsed value.
- react-router's `navigate('/')` after sign-in is left out. The page shown is given by `Portal.Route`.
- The network, `fetch` and `JSON.parse` are left out: a response carries the
  parse outcome of its text.
- Request headers are left out.
- Overlapping handlers are left out. Each handler is one atomic step, and the
  code has no de-duplication or cancellation.
- `loading` is not stepped through: the handlers that set it clear it within
  the same step, and the others never touch it. So between steps it is always false, and the spinner branches of
  the screens are reachable only while a handler is running.
- The `search` view (src/App.jsx:603-614) is left out: no handler sets it, and it calls an undefined `findVacancy`.
- `Navbar`, `ApplicationsList` and `AIDataView` of App.jsx are left out. They
  are not part of this model, apart from the logout they trigger (`Portal.AuthProvider.Logout`).
- Vacancies, applications and templates are kept as untyped JSON values, as the screens keep them. A record a handler receives is a map of JSON values.
- Numbers are integers. Fractional and non-finite numbers are left out.
- Js.ToStr: an integer of magnitude 10^21 or more, which `String` writes in exponent form ("1e+21"), is written with all its digits; integers beyond 2^53, which are not exact JavaScript numbers, are not excluded either.
- Api.FetchResult: a response's text and its parse outcome are independent fields, so the model also admits a response whose empty text parses; a real `res.json()` rejects an empty body.
- Thrown messages follow V8's wording: a property read of `null` or `undefined` gives "Cannot read properties of null (reading 'k')", and this text reaches `error` through `handleAuth`. Other engines word it differently.
- `JSON.stringify` dropping `undefined` members is left out: a request body is kept as the object itself.
- Badges.StatusTone: a status equal to an inherited `Object.prototype` key (such as "constructor") is not modelled.
- Badges.ScoreTone: the score is taken to be a number. Comparisons between a string and a number are not modelled.
- Portal.SpreadFields: spreading an array or a string is taken to copy nothing. Per-index keys are not modelled.
- Skills.ProfileChips: a non-string, non-nullish `skills_detected` (such as `false` or `0`) is excluded. In the source, `?.` does not stop on it and `split` would throw during rendering.
- Skills.DetailChips: a non-string truthy `skills_detected` is excluded for the same reason.
