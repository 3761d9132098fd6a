# SMEC Global Innovators Conclave site — decision logic in Dafny

This project models the decision logic of the conclave website. The site's
backend has five HTTP endpoints:

- `/send-email`: the newsletter mail.
- `/register`: account plus profile, with a compensating delete.
- `/login`: with a fallback user when the profile cannot be read.
- `/logout`.
- `/reset-password-request`.

The front end holds several small state machines:

- The three-step registration wizard.
- The login form.
- The newsletter and contact forms.
- The agenda's category filter.
- The events page's day filter, with two-digit item numbers.
- The hero countdown.

Everything is pure functions over immutable records:

- **Handlers.** Each handler maps a JSON request body (`map<string, Value>` with JavaScript truthiness) and the outcomes of its collaborator calls (the auth/database store and the mail transport) to a response. A response is a status code, a body and the ordered trace of collaborator calls made. Every collaborator outcome has a "threw" variant, which models the handler's `try`/`catch` answering 500.
- **Page components.** Each is a state record with a step function per event. A control that is not rendered, or is disabled, becomes a guard under which the event changes nothing.
- **Time and network.** Timers and fetches are explicit events. The state counts the timers still pending and the requests still in flight, so a timer left over from an earlier action is representable.

| module | file | models |
|---|---|---|
| `Common` | `common.dfy` | JSON values, truthiness, `Option`, notices |
| `Text` | `text.dfy` | substring test (`includes`), decimal rendering and parsing, `padStart` |
| `Seqs` | `seqs.dfy` | `Array.prototype.filter` and order-preserving subsequences |
| `Server` | `server.dfy` | the five endpoints |
| `RegisterWizard` | `register_wizard.dfy` | pass catalog, form data, the wizard and its invariant |
| `LoginForm` | `login_form.dfy` | the login form |
| `Contact` | `contact.dfy` | contact-form and newsletter status machines |
| `Agenda` | `agenda.dfy` | the agenda schedule and category filter |
| `EventsPage` | `events_page.dfy` | the timeline, the day filter and switch, item numbers |
| `Countdown` | `countdown.dfy` | the countdown split of a millisecond distance |

Two behaviours of the wizard worth knowing:

- **Submitting the wizard does not call `/register`.** It waits on a timer and navigates to the e-mail verification page with the e-mail, category and pass.
- **Choosing a category again does not clear the chosen pass.** Both catalogs offer `day1` and `full`, so the summary then shows the other category's entry with the same id. `RegisterWizard.CategoryChangeKeepsPass` shows this, and `RegisterWizard.StepPreservesValid` proves the pass always stays in the current catalog.

Two consequences of the code are proved, not corrected:

- **Stale newsletter timer.** The newsletter's 5-second reset timer is never cancelled. A timer left over from an earlier success can return the status to idle, and so re-enable the button, while a later request is still in flight (`Contact.StaleResetTimerReenablesSubmit`).
- **Orphan account.** An account whose profile was not stored stays behind in two cases. In the first, the profile insert throws instead of returning an error, and `/register` answers 500 without trying to delete the account. In the second, the compensating delete fails or throws. The handler ignores a result the delete returns, so the response is the same whether the delete succeeded or returned an error; a delete that throws changes only the message, to "Failed to register user" through the `catch` (`Server.RegisterOrphanOnlyWhenInsertThrows`, `Server.RegisterOrphanedAccount`).

## Model

| member | source | states |
|---|---|---|
| Server.SendEmail | server.js:43-87 | falsy `email` ⇔ 400 "Email is required" with no mail call; otherwise exactly one mail to that address, 200 iff it is sent, 500 iff the transport throws |
| Server.MissingRequiredIffSomeFieldFalsy | server.js:94-96 | the chain of ten `!field` tests holds iff some field of the required list is falsy |
| Server.RegisterValidation | server.js:94-104 | passes iff all ten fields are truthy, a student has a college name and a professional a company name; otherwise the first failing check's message |
| Server.OtherProfessionPasses | server.js:98-104 | a profession other than `student`/`professional` passes whatever the college and company names hold |
| Server.CreateErrorMessage | server.js:117-123 | a store message containing "already registered" becomes "Email already registered"; any other is passed through |
| Server.ProfileRowFor | server.js:126-141 | the row's id is the new user id; college name is non-null only for students and company name only for professionals, each carrying the submitted value |
| Server.Register | server.js:90-159 | a validation failure ⇔ no store call at all (400 with the message); the first call is always the account creation; a valid body whose account creation fails makes that call alone; once the account exists the second call inserts its profile row; 200 ⇔ valid, created and inserted, with exactly those two calls and `requiresEmailVerification: false` |
| Server.RegisterCreateFailure | server.js:117-123 | a rejected account creation is a 400 after exactly one store call, with the classified message |
| Server.RegisterProfileKeyedByNewUser | server.js:126-141 | a profile insert is made iff the body is valid and the account was created; every insert in a trace is the second call and is keyed by the id the account creation returned |
| Server.RegisterCompensates | server.js:143-148 | an insert error leads to exactly create, insert, delete of that same id, and a 500 |
| Server.RegisterTraceWellOrdered | server.js:106-154 | in every trace an insert directly follows a successful creation of its id, and a delete directly follows a failed insert of the same id |
| Server.RegisterOrphanOnlyWhenInsertThrows | server.js:143-158 | once an account exists and its profile is not stored, the delete is skipped iff the insert threw |
| Server.RegisterOrphanedAccount | server.js:143-158 | once an account exists and its profile is not stored, the answer is 500, and the account stays behind (no delete of it in the handler's trace went through) iff the insert threw or the delete did not succeed; a delete that returns an error gives the same response as a successful one |
| Server.Login | server.js:162-208 | 400 ⇔ email or password falsy, with no sign-in call; a sign-in that fails or throws is the only call, and a successful one is followed by exactly one profile read of that user; 401 ⇔ the sign-in reports an error, with the "Email not confirmed" case flagged `requiresEmailVerification: true` and every other one "Invalid credentials"; 200 ⇔ signed in and the profile read does not throw, with the session and the stored profile or the e-mail fallback |
| Server.LoginProfileFallback | server.js:194-203 | a failed profile read still gives 200, with the user falling back to the signed-in e-mail |
| Server.Logout | server.js:211-227 | one sign-out call with the body's access token; 200 iff it succeeds, otherwise 500 "Logout failed" |
| Server.ResetPasswordRequest | server.js:230-252 | falsy e-mail ⇔ 400 and no call; otherwise one reset call redirecting to the reset page; 200 "Password reset email sent" iff it succeeds, and 500 "Failed to send reset email" when the store reports an error or throws |
| Server.ThrownCallsYield500 | server.js:155-158 | in every handler a collaborator that throws leads to 500 |
| Server.ErrorsAndCalls | server.js:43-252 | validation failures make no collaborator call, and a 500 only follows some collaborator call |
| Text.ContainsIffOccurs | server.js:119 | the substring test holds iff the needle occurs at some index of the message |
| RegisterWizard.CatalogsOfferSameIds | src/components/RegisterForm.tsx:48-83 | each catalog offers a pass id iff it is `day1` or `full` |
| RegisterWizard.CountRecommended | src/components/RegisterForm.tsx:45 | the count of entries flagged `recommended` is zero iff none is flagged and the length iff all are |
| RegisterWizard.CatalogShape | src/components/RegisterForm.tsx:48-83 | each catalog's ids are distinct and exactly one entry is recommended |
| RegisterWizard.FindPass | src/components/RegisterForm.tsx:111 | finds an entry iff one has the id, and then the first such entry |
| RegisterWizard.CurrentPassDetails | src/components/RegisterForm.tsx:110-112 | present iff both category and pass are chosen and the category's catalog has the pass; then it is that catalog's entry with that id |
| RegisterWizard.HandleChange | src/components/RegisterForm.tsx:121-136 | the named field takes the value, a country change also empties the state, and every other field is unchanged |
| RegisterWizard.HandleSubmit | src/components/RegisterForm.tsx:138-164 | mismatched passwords ⇔ no navigation, with "Passwords do not match!"; otherwise navigation to e-mail verification carrying exactly e-mail, category and pass; loading ends false either way |
| RegisterWizard.Step | src/components/RegisterForm.tsx:222-511 | an event whose control is not on screen changes nothing; a category card on step 1 sets the category and moves to step 2; a pass card only sets the pass, and its Select button also moves on; back decrements by one where offered; a text edit or selector pick on step 3 is the field change; a submit on step 3 is the submit handler, and only a submit navigates |
| RegisterWizard.InitialValid | src/components/RegisterForm.tsx:87-104 | the initial wizard satisfies the invariant |
| RegisterWizard.StepPreservesValid | src/components/RegisterForm.tsx:166-167 | every event keeps the step in 1..3, a category chosen from step 2, a pass from step 3, the pass in the category's catalog and the state among the country's states |
| RegisterWizard.RunPreservesValid | src/components/RegisterForm.tsx:237-311 | every sequence of events from a valid state ends in a valid state |
| RegisterWizard.ReachableSummaryAndNavigation | src/components/RegisterForm.tsx:152-158 | in every reachable state on step 3 the pass summary exists, and a navigation always carries a category and a pass |
| RegisterWizard.CategoryChangeKeepsPass | src/components/RegisterForm.tsx:237-240 | choosing professional, its full pass, going back twice and choosing student keeps `full` and shows the student "Conclave Pass" |
| RegisterWizard.StatesByCountry | src/components/RegisterForm.tsx:115-119 | a country has a state list iff it is one of the three offered countries; each list is non-empty and lists no state twice |
| RegisterWizard.Progress | src/components/RegisterForm.tsx:196-199 | one mark per step label, numbered from 1; the current mark is active, and the active marks are a prefix |
| RegisterWizard.ProgressCounts | src/components/RegisterForm.tsx:196-199 | the number of active marks is the step number clamped to the three labels, and exactly one mark is current iff the step is 1, 2 or 3 (none otherwise) |
| LoginForm.HandleChange | src/components/LoginForm.tsx:16-21 | the named field takes the value and the other is unchanged |
| LoginForm.HandleSubmit | src/components/LoginForm.tsx:23-45 | an empty field ⇔ no navigation, with "Please fill in all fields"; otherwise navigation to `/` with "Backend functionality coming soon!"; loading ends false |
| LoginForm.SubmitAfterTyping | src/components/LoginForm.tsx:9-39 | from the empty form, typing both fields and submitting navigates home iff neither typed value is empty |
| LoginForm.SubmitIgnoresCredentials | src/components/LoginForm.tsx:35-39 | any two filled-in credentials give the same outcome |
| Contact.EntryKeysDistinct | src/components/Contact.tsx:8-14 | the five entries are posted under distinct names |
| Contact.HandleContactChange | src/components/Contact.tsx:17-22 | the named entry takes the value and the others are unchanged |
| Contact.ContactDispatch | src/components/Contact.tsx:24-37 | a submit goes through iff the button is enabled (status not sending), posts the entries and shows sending with one more send timer pending; a pending send timer is used up and shows success with all entries empty and one more reset timer pending; a pending reset timer is used up and shows idle, leaving the form and the send timers alone; a timer with none pending changes nothing |
| Contact.ContactAlwaysSettles | src/components/Contact.tsx:24-37 | in every run, sending always has a pending send timer and success a pending reset timer |
| Contact.InitialContactSettles | src/components/Contact.tsx:8-37 | from the initial form, every run keeps a pending timer behind a non-idle status |
| Contact.ContactRoundTrip | src/components/Contact.tsx:24-37 | submit, send timer, reset timer ends idle with an empty form |
| Contact.NewsletterDispatch | src/components/Contact.tsx:39-64 | a submit goes through iff the button is enabled (status not subscribing), requests `{email}` and shows subscribing with one more request in flight; a settling request leaves flight, and an ok one shows success, clears the e-mail and starts a reset timer, any other shows idle and keeps the e-mail and the timers; a pending reset timer is used up and shows idle, leaving the e-mail and the requests in flight alone |
| Contact.NewsletterAlwaysSettles | src/components/Contact.tsx:39-64 | in every run, subscribing always has a request in flight and success a pending reset timer |
| Contact.InitialNewsletterSettles | src/components/Contact.tsx:5-64 | from the initial form, every run keeps a request in flight or a timer pending behind a non-idle status |
| Contact.FetchResultOf | src/components/Contact.tsx:52 | a backend response is ok iff its status is 2xx, and is never a network error |
| Contact.NewsletterAgainstServer | src/components/Contact.tsx:44-52 | against the mail endpoint a newsletter request is ok iff the typed e-mail is non-empty and the mail is sent |
| Contact.StaleResetTimerReenablesSubmit | src/components/Contact.tsx:55 | a reset timer from an earlier success re-enables the button while a later request is in flight |
| Seqs.Filter | src/components/AgendaPage.tsx:107-109 | the result is an order-preserving subsequence; its elements pass, and every element that passes is in it |
| Seqs.FilterCounts | src/components/AgendaPage.tsx:107-109 | every occurrence of a passing element is kept and none of any other: as a multiset, the result is the input restricted to the predicate |
| Seqs.FilterIdempotent | src/components/AgendaPage.tsx:107-109 | filtering a filtered list again changes nothing |
| Seqs.FilterPartition | src/pages/EventsPage.tsx:136 | two complementary filters split a list: their multisets and lengths add up to the list's |
| Agenda.FilteredEvents | src/components/AgendaPage.tsx:107-109 | kept items are from the day and match the filter or are of category `All`; every such item is kept; order is preserved |
| Agenda.AllFilterShowsWholeDay | src/components/AgendaPage.tsx:107-109 | filter `All` shows the whole day |
| Agenda.AllCategoryAlwaysShown | src/components/AgendaPage.tsx:47-53 | an item of category `All` appears under every filter |
| Agenda.FilterTwiceIsOnce | src/components/AgendaPage.tsx:107-109 | filtering twice equals filtering once |
| Agenda.NeverEmpty | src/components/AgendaPage.tsx:216 | no day and filter gives an empty list, so "No events found" is never shown |
| Agenda.FilterButtonsNeverEmpty | src/components/AgendaPage.tsx:26 | every one of the five filter buttons shows at least one item on either day |
| Agenda.InitialShowsDayOne | src/components/AgendaPage.tsx:17-26 | the page opens on day 1 under the first filter button, showing all of the day's items |
| EventsPage.EventsOn | src/pages/EventsPage.tsx:136 | shown events are on the day, every event of the day is shown, order is preserved |
| EventsPage.DayOneIsFirstEight | src/pages/EventsPage.tsx:15-128 | day 1 shows exactly the first eight events |
| EventsPage.DayTwoIsLastEight | src/pages/EventsPage.tsx:15-128 | day 2 shows exactly the last eight events |
| EventsPage.DaysPartitionEvents | src/pages/EventsPage.tsx:136 | the two day views split the event list |
| EventsPage.HandleDaySwitch | src/pages/EventsPage.tsx:210-227 | the active day changes nothing; any other day starts an exit animation for it |
| EventsPage.ExitAnimationCompletes | src/pages/EventsPage.tsx:219-220 | the oldest running animation completes and sets its day, and the others keep running in order |
| EventsPage.InitialShowsDayOne | src/pages/EventsPage.tsx:134-136 | the page opens showing the first eight sessions, and a click on day 2 shows the last eight once its animation completes |
| EventsPage.SwitchTakesEffectOnCompletion | src/pages/EventsPage.tsx:210-225 | with nothing running, a click on the other day leaves the active day unchanged and shows that day once its animation completes |
| EventsPage.ItemNumber | src/pages/EventsPage.tsx:277 | the label is decimal digits reading back as index + 1, two characters iff index < 99, with a leading zero iff index < 9 |
| EventsPage.ItemNumbersDistinct | src/pages/EventsPage.tsx:277 | distinct positions get distinct labels |
| Text.ToDecimal | src/pages/EventsPage.tsx:277 | `String(n)`: digits only, no leading zero, one character iff n < 10 and two iff 10 ≤ n < 100 |
| Text.PadStart | src/pages/EventsPage.tsx:277 | `padStart`: the result has the target width, or the input's length if that is longer; it ends with the input and is filled on the left |
| Text.ParseToDecimal | src/pages/EventsPage.tsx:277 | decimal rendering reads back as the number |
| Text.ParsePadStart | src/pages/EventsPage.tsx:277 | padding with zeros keeps the value read back |
| Countdown.Decompose | src/components/Hero.tsx:31-34 | hours < 24, minutes and seconds < 60, all non-negative, and R ≤ distance < R + 1000 for the recomposed R |
| Countdown.DecomposeUnique | src/components/Hero.tsx:31-34 | the split is the only bounded display within one second below the distance |
| Countdown.TotalSecondsInjective | src/components/Hero.tsx:31-34 | a bounded display is determined by the whole seconds it stands for |
| Countdown.LexLessIffFewerSeconds | src/components/Hero.tsx:31-34 | on bounded displays lexicographic order is the order of their whole seconds |
| Countdown.DecomposeMonotone | src/components/Hero.tsx:31-34 | a larger distance never shows a lexicographically smaller display |
| Countdown.Tick | src/components/Hero.tsx:22-37 | a negative distance clears the interval and keeps the display; any other shows its bounded split |
| Countdown.InitialIsZeroDistance | src/components/Hero.tsx:13-18 | the initial all-zero display is the split of a zero distance |

## Left out

- Server setup: express, CORS, dotenv, the environment-variable checks and `process.exit`, logging, and the listening port are configuration, not decision logic.
- Mail contents: the HTML and brochure attachment of the newsletter mail are data handed to the transport, which is an outcome parameter here.
- Collaborators: the auth/database store and the mail transport are outcome parameters. Their messages are opaque strings, tested only with the substring predicate.
- JSON values: they are undefined, null, booleans, integers and strings. Floating-point numbers, `NaN`, objects and arrays in request bodies are left out.
- Timers, `fetch`, `navigate`, `alert` and the clock: these become events (a timer firing, a fetch settling) or parameters (`now` and the target instant of the countdown). They are not modelled as concurrency.
- Loading window: the interval during which a submit awaits its timer with `loading` true is not a separate state. A submit runs to completion in one step.
- Unreachable catch branches: the wizard's and login form's "please try again" branches would need the awaited timer or `navigate` to throw, so they are not modelled.
- Browser constraint validation: the `required` attributes and `type="email"` checks are not modelled. A submit event is taken as the handler being called.
- Empty selection: a selector deselection that would pass `undefined` to the change handler is not modelled. A pick always carries one of the offered keys.
- Contact form target: the contact form's POST to the external form service is recorded as the posted entries, not as a request.
- RegisterWizard.Step: a step's controls are taken to disappear the moment the step changes. The page wraps the steps in an exit animation, so by the markup a step's buttons stay mounted for a moment after a click. A second click in that window could reach step 3 with no pass, step 4 or step 0. `RegisterWizard.StepPreservesValid` and the reachability lemmas hold only under this abstraction.
- Rendering: the markup, framer-motion and gsap animations, ScrollTrigger wiring and the progress-bar reset are left out. Only the completion of the day-switch exit animation is an event, and overlapping animations complete in the order they were started.
- Countdown.Decompose: uses exact integer division. The page divides floating-point numbers and floors them, which agrees for every distance below 2^53 milliseconds.
- Other files: the hero visual, background effects, routing, navigation bar, footer and the static sections are presentation, and tailwind.config.js is theme configuration.
