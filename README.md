# Vote-Platform: contest lifecycle and voting rules

A Dafny model of the logic inside the Vote-Platform web client: an organizer creates timed
contests, adds contestants and publishes a contest; visitors vote until the end time. Almost all
of the client is markup; the logic modelled here is

- **ContestItem** (`ContestItem.dfy`): the derived status of a contest (ended, active or draft),
  its badge text and style, the gating of the card's controls, and the winner banner.
- **ContestantItem** (`ContestantItem.dfy`): the display rules of a contestant row and the
  `loading` latch of its vote button, as a state machine (`Latch`, `Click`, `Settle`, `Run`) and
  as a class (`VoteLatch`) whose two steps are tied to it.
- **Overview** (`Overview.dfy`): the dashboard state (`Dashboard`: contest list, mirrored set of
  published ids, selected contest, modal flag) with fetch, publish toggle, create and
  add-contestant.
- **ContestModal** (`ContestModal.dfy`): the create-contest form, its required-field checks, reset
  and `isSubmitting` flag.
- **Registration** (`Registration.dfy`): the sign-up form's validation (username, email pattern,
  password length) and the dispatch on the response status.
- **Domain** (`Domain.dfy`): the Contest and Contestant entities shared by all of them.

Timestamps are integers and the current time is a parameter `now`. Every network call
(`axios`, `fetch`) becomes an outcome parameter: a response with its `success` flag and returned
entity, or a thrown error; `onSubmit`, `handleVote` and the authentication context are parameters
too.

Points where the code's behaviour is easy to misread:

- A contest has ended when `endDate < now`, strictly: at `now == endDate` it is still running and
  still accepts votes (`ContestItem.NotEndedAtEndDate`).
- The publish toggle refuses an unknown id as well as a contest without contestants, both with the
  same message and without an API call.
- The dashboard hides Add Contestant for a published contest, while the contest card disables it
  only after the end date.
- The create handler on the dashboard catches its own errors, so the form's `onSubmit` never
  rejects: once the form's checks pass, the form resets and closes even when the server refused
  the contest. `ContestModal.ContestModalState.HandleSubmit` keeps `onSubmit`'s outcome abstract,
  so both behaviours are covered.
- Dashboard thumbnails join a relative photo key to the server origin with no "/", while the
  voting page's contestant row inserts one (`Overview.ThumbnailSrc` against
  `ContestantItem.PhotoSrc`).

## Model

| member | source | states |
|---|---|---|
| ContestItem.HasEnded | src/Components/ContestItem.jsx:16-18 | ended iff the end date is strictly before `now`; not ended iff `now` is at or before the end date (the same test as src/Components/ContastantItem.jsx:8) |
| ContestItem.NotEndedAtEndDate | src/Components/ContestItem.jsx:16-18 | at `now == endDate` the contest has not ended and its status is not ended |
| ContestItem.ContestStatus | src/Components/ContestItem.jsx:15-24 | ended iff `endDate < now` whatever the publish state; otherwise active iff the id is in the published set, else draft; exactly one of the three |
| ContestItem.StatusText | src/Components/ContestItem.jsx:37-46 | "Ended" iff status "ended", "Active" iff "active", "Draft" for every other string |
| ContestItem.BadgeStyle | src/Components/ContestItem.jsx:26-35 | gray iff "ended", green iff "active", yellow for every other string |
| ContestItem.BadgeDistinguishesStatus | src/Components/ContestItem.jsx:48-50 | two statuses with the same badge text, or the same badge style, are the same status |
| ContestItem.CardControls | src/Components/ContestItem.jsx:71-94 | the publish toggle is rendered iff the status is not ended; Add Contestant is disabled iff it is not; the label is "Unpublish" iff published |
| ContestItem.CountWinners | src/Components/ContestItem.jsx:110 | the number of flagged winners is at most the number of contestants and is zero iff no contestant is flagged |
| ContestItem.SeveralWinnersIff | src/Components/ContestItem.jsx:110 | more than one flagged winner iff two distinct positions carry the flag |
| ContestItem.WinnerBanner | src/Components/ContestItem.jsx:104-113 | the banner is shown iff ended, with contestants, some flagged; it reads "Winners" iff two distinct contestants are flagged, "Winner" otherwise |
| ContestantItem.ShowsAsWinner | src/Components/ContastantItem.jsx:8-9 | winner marks iff `endDate < now` and the contestant's flag is set |
| ContestantItem.DisplayedVotes | src/Components/ContastantItem.jsx:76 | the vote count when present, 0 when absent |
| ContestantItem.DisplayName | src/Components/ContastantItem.jsx:67 | the name when non-empty, "Unnamed Contestant" otherwise |
| ContestantItem.Initial | src/Components/ContastantItem.jsx:54 | one character: the name's first when non-empty, "?" otherwise |
| ContestantItem.PhotoSrc | src/Components/ContastantItem.jsx:30-37 | no image iff no photo; an "http" address unchanged; any other key is API base, "/", then the key, recoverable from the result |
| ContestantItem.VoteButton | src/Components/ContastantItem.jsx:81-92 | disabled iff loading or ended; "Voting..." iff loading, "Contest Ended" iff ended and not loading, "Vote" iff enabled |
| ContestantItem.Click | src/Components/ContastantItem.jsx:11-16 | a click while loading or after the end changes nothing; otherwise the latch is set and exactly one call is issued |
| ContestantItem.Settle | src/Components/ContastantItem.jsx:17-21 | after the call resolves or throws the latch is clear, one fewer call is outstanding and none is issued |
| ContestantItem.AtMostOneInFlight | src/Components/ContastantItem.jsx:11-22 | from a freshly mounted button, over any sequence of clicks and settlements, at most one vote call is outstanding, exactly while loading, and every other issued call has settled |
| ContestantItem.ClicksWhileLoadingAreDropped | src/Components/ContastantItem.jsx:12 | any number of clicks while loading leave the latch and the call count unchanged |
| ContestantItem.ClicksAfterEndAreDropped | src/Components/ContastantItem.jsx:12 | any number of clicks after the end issue no call and change nothing |
| ContestantItem.VoteLatch.constructor | src/Components/ContastantItem.jsx:6 | a mounted button starts idle: not loading, no call issued, and the latch invariant holds |
| ContestantItem.VoteLatch.BeginVote | src/Components/ContastantItem.jsx:11-16 | calls `handleVote` iff not loading and not ended; the new state is `Click` of the old and keeps the latch invariant |
| ContestantItem.VoteLatch.SettleVote | src/Components/ContastantItem.jsx:19-21 | clears `loading` whatever the outcome; the new state is `Settle` of the old and keeps the latch invariant |
| ContestModal.WithField | src/Components/Modals/ContestModal.jsx:17-23 | the named field takes the value; every other field and the cover photo are unchanged |
| ContestModal.WithCoverPhoto | src/Components/Modals/ContestModal.jsx:25-33 | no file leaves the form unchanged; a file changes only the cover photo |
| ContestModal.SubmitError | src/Components/Modals/ContestModal.jsx:41-47 | "Please fill in all required fields" iff a text field is empty; "Please select a cover photo" iff all are filled and no photo; no error iff all are present |
| ContestModal.RejectionText | src/Components/Modals/ContestModal.jsx:62 | a rejected submission shows its own message when it is non-empty, and the generic failure text when the message is empty |
| ContestModal.ContestModalState.constructor | src/Components/Modals/ContestModal.jsx:5-15 | the form starts empty with no cover photo, not submitting and with no error |
| ContestModal.ContestModalState.HandleInputChange | src/Components/Modals/ContestModal.jsx:17-23 | the form becomes `WithField` of the old form |
| ContestModal.ContestModalState.HandleCoverPhotoChange | src/Components/Modals/ContestModal.jsx:25-33 | the form becomes `WithCoverPhoto` of the old form |
| ContestModal.ContestModalState.HandleSubmit | src/Components/Modals/ContestModal.jsx:35-67 | `onSubmit` gets the form iff the checks pass; on its success the form resets and `onClose` runs; the error is the check's message, the rejection's message or none; `isSubmitting` ends false |
| Overview.PublishedIds | src/Pages/DashboardsOutlets/Overview.jsx:37-41 | an id is in the set iff some fetched contest with that id is flagged published |
| Overview.FindContest | src/Pages/DashboardsOutlets/Overview.jsx:50 | none iff no contest has the id; otherwise the first contest with that id |
| Overview.PublishRequest | src/Pages/DashboardsOutlets/Overview.jsx:50-58 | an unknown id sends nothing; a value sent is the negation of the id's membership in the published set |
| Overview.PublishGate | src/Pages/DashboardsOutlets/Overview.jsx:50-58 | with unique ids, a listed contest's toggle is refused iff it has no contestants, and otherwise asks for the opposite of its published state |
| Overview.PublishedAfter | src/Pages/DashboardsOutlets/Overview.jsx:66-78 | on a confirmed response the id is in the set iff publishing was asked; on any other outcome the set is unchanged; other ids never change |
| Overview.ToggleTwiceRestores | src/Pages/DashboardsOutlets/Overview.jsx:58-71 | two confirmed toggles of one contest give back the original published set |
| Overview.WithContestant | src/Pages/DashboardsOutlets/Overview.jsx:285-296 | same length and ids; the contestant is appended to each contest whose id is the selected one; every other contest is unchanged |
| Overview.AddContestantTotal | src/Pages/DashboardsOutlets/Overview.jsx:285-296 | the total number of contestants grows by the number of contests with the selected id |
| Overview.AddContestantGrowsByOne | src/Pages/DashboardsOutlets/Overview.jsx:285-296 | with unique ids the total grows by exactly one when the selected contest is listed; when none is selected or listed the list is unchanged |
| Overview.ThumbnailSrc | src/Pages/DashboardsOutlets/Overview.jsx:212-218 | no image iff no photo; an "http" address unchanged; any other key directly after the server origin, with no separator |
| Overview.CoverSrc | src/Pages/DashboardsOutlets/Overview.jsx:146 | the server origin, "/", then the cover key, recoverable from the result |
| Overview.DashboardCard | src/Pages/DashboardsOutlets/Overview.jsx:176-268 | voting link iff published, of the form origin + "/vote/" + id; Add Contestant shown iff unpublished; toggle labelled by the state |
| Overview.FormUserId | src/Pages/DashboardsOutlets/Overview.jsx:92 | the create body's user id is the user's id, or the text "undefined" for a user without one |
| Overview.Dashboard.constructor | src/Pages/DashboardsOutlets/Overview.jsx:12-16 | the dashboard starts with no contests, an empty published set, nothing selected and both modals closed |
| Overview.Dashboard.FetchContests | src/Pages/DashboardsOutlets/Overview.jsx:18-47 | calls the API iff not loading, authenticated, with a non-empty user id and a non-empty token; a confirmed response replaces the list and sets the published set to `PublishedIds` of it; otherwise both are kept |
| Overview.Dashboard.HandlePublishToggle | src/Pages/DashboardsOutlets/Overview.jsx:49-79 | the value sent is `PublishRequest`; the published set becomes `PublishedAfter` when a value was sent and is kept otherwise; the list is never changed |
| Overview.Dashboard.HandleCreateContest | src/Pages/DashboardsOutlets/Overview.jsx:81-117 | sends a body iff not loading, authenticated, with a non-empty token and a user object, carrying the form's fields, photo and `FormUserId` of the user; a confirmed response appends exactly the returned contest and closes the modal |
| Overview.Dashboard.SelectContest | src/Pages/DashboardsOutlets/Overview.jsx:248-251 | the clicked contest becomes the selected one and the contestant modal opens |
| Overview.Dashboard.AddContestant | src/Pages/DashboardsOutlets/Overview.jsx:285-296 | the list becomes `WithContestant` of the old list and the selected id |
| Registration.Trim | src/Pages/AuthenticationPage/Registration.jsx:27 | neither end of the result is white space; the result is empty iff every character is white space |
| Registration.TrimIsSlice | src/Pages/AuthenticationPage/Registration.jsx:27 | the trimmed string is a slice of the input and every character outside that slice is white space |
| Registration.EmailFormatIff | src/Pages/AuthenticationPage/Registration.jsx:28 | the executable check `EmailShape` (no white space, one `@` not at the start, a dot strictly inside the part after it) accepts exactly the strings the regular expression's structure describes |
| Registration.IsEmailFormat | src/Pages/AuthenticationPage/Registration.jsx:28-31 | `emailRegex.test` holds iff the string matches the pattern: a non-empty local part, `@`, a non-empty label, a dot, a non-empty rest, no other `@` and no white space |
| Registration.UsernameError | src/Pages/AuthenticationPage/Registration.jsx:27 | "Username is required" iff the username is all white space |
| Registration.EmailError | src/Pages/AuthenticationPage/Registration.jsx:29-33 | an empty email is "Email is required"; a present one gets "Invalid email format" iff it does not match the pattern |
| Registration.PasswordError | src/Pages/AuthenticationPage/Registration.jsx:35-39 | no error iff at least 8 characters; empty is "Password is required", shorter is the length message |
| Registration.ValidationErrors | src/Pages/AuthenticationPage/Registration.jsx:24-40 | each field has an entry iff its check fails, and the entry holds that check's message |
| Registration.FieldsValid | src/Pages/AuthenticationPage/Registration.jsx:41-42 | the form is valid iff the errors map has no entry |
| Registration.Dispatch | src/Pages/AuthenticationPage/Registration.jsx:72-88 | success iff a 2xx status; the email-taken branch iff status 400; the failure branch for any other status; the catch branch for a thrown error |
| Registration.RegistrationForm.constructor | src/Pages/AuthenticationPage/Registration.jsx:8-14 | the fields start empty, with no errors, not loading and no recorded success |
| Registration.RegistrationForm.HandleInputChanged | src/Pages/AuthenticationPage/Registration.jsx:17-22 | only the field whose id matches changes; an unknown id changes nothing |
| Registration.RegistrationForm.ValidateForm | src/Pages/AuthenticationPage/Registration.jsx:24-43 | the errors become `ValidationErrors` of the fields; valid iff the map is empty iff `FieldsValid` |
| Registration.RegistrationForm.HandleSubmit | src/Pages/AuthenticationPage/Registration.jsx:45-90 | calls the API iff `FieldsValid`; an invalid form keeps the (non-empty) `ValidationErrors` and changes nothing else; after a call `loading` ends false, success is recorded on 2xx and status 400 sets the email-taken error |
| Registration.RegistrationForm.Register | src/Pages/AuthenticationPage/Registration.jsx:55-89 | `loading` ends false whatever the response; success is recorded on a 2xx status; status 400 replaces the errors with the email-taken message, any other outcome keeps them |

## Left out

- Network transport (`axios`, `fetch`, bearer headers, `FormData`, `localStorage`): every call is an outcome parameter and the token a parameter.
- Date parsing and the wall clock: dates are integers, `now` is passed in; the form's date fields stay strings.
- Toasts, `console.error`, `CopyToClipboard`, navigation, the password-visibility toggle and all markup and styles.
- The toast of the previous render's errors on an invalid registration is not reproduced.
- `handleVote`, `handleDeleteContest`, the add-contestant modal and `API_URL` are not defined in the modelled components; they are parameters or are not modelled.
- Winner computation from vote counts: the client only reads the server's `isWinner` flag.
- The dashboard's `votes && ...` rendering, which hides a zero count, is not modelled.
- React's batched state updates and event-loop interleaving: the vote latch is a sequence of explicit steps.
- Registration.HandleSubmit: a response body that fails to parse as JSON, which would take the catch branch, is not modelled.
- ContestantItem.Initial: takes the first character, not the first UTF-16 code unit, so for a name starting outside the Basic Multilingual Plane it shows the whole character where the browser shows a lone surrogate.
- Registration.PasswordError: counts characters, not UTF-16 code units, so a password with characters outside the Basic Multilingual Plane is measured shorter than in the browser.
- A contest whose `contestants` field is missing is not modelled: the list is always present.
- The form's unused `contestants: []` field is not modelled.
- The contest title/name mismatch between the two card components: one Contest shape with `name` is used.
