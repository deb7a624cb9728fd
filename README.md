# trackifyr: activity accounting, session handling and page logic

trackifyr has two parts. A Python activity tracker counts mouse and keyboard
events and reports, per interval, how many whole seconds had input. A React
web client has a sign-up form, a fake authentication context backed by
`localStorage`, route guards, and dashboard, reports and profile pages over
sample cognitive-load data. This project models the logic of both parts in
Dafny:

- `StderrFilter` (stderr_filter.dfy): the tracker's `FilteredStderr`. It is
  a line buffer that forwards complete lines to the real error stream. It
  drops the noise the input-listener library prints, and it swallows a whole
  traceback block once the listener's "Unhandled exception in listener
  callback" banner appears. The class keeps the buffer and the flag as
  fields. Its `Write` loop is proved against `FilterLines`, a function over
  the split lines, and the lemmas about `FilterLines` state what gets
  forwarded.
- `ActivityTracking` (activity_tracker.dfy): the `ActivityTracker`
  counters, its set of active seconds, the event handlers, the
  mouse-position comparison step, the percentage and the interval summary.
  `CountActiveSeconds` is the summary's counting loop, proved to count the
  active seconds in the interval.
- `Auth` (auth_context.dfy): the authentication context as a class over a
  storage object, together with pure step functions. Each method is proved
  equal to its step function, and lemmas relate whole runs of steps.
- `Routes` (routes.dfy): `ProtectedRoute`, `PublicRoute` and the route table
  of the single-page build, plus where every visit ends up. As React Router
  does, a path matches its route in any letter case and with or without
  trailing slashes.
- `SignupPage` (signup_page.dfy): the e-mail regular expression (as a
  predicate), the form's error messages, `handleChange` and `handleSubmit`.
- `DashboardPage`, `ReportsPage`, `ProfilePage` (dashboard_page.dfy,
  reports_page.dfy, profile_page.dfy): the rounded averages and totals, the
  greeting name, the card classes, the profile form, its save merge and the
  avatar initial.
- Shared modules:
  - `PageGuard` (page_guard.dfy): the sign-in guard the three pages repeat.
  - `Aggregates` (aggregates.dfy): `reduce` sums and `Math.round` means.
  - `SampleData` (sample_data.dfy): the records and the sample values
    shipped with the client.
  - `UserStore` (user_store.dfy): the stored user record and the storage
    object.
  - `Text` (text.dfy): string helpers.
  - `Seqs` (seqs.dfy): small facts about sequence concatenation and slicing.
  - `Wrappers` (wrappers.dfy): `Option`.

Conventions:
- Clock readings, mouse positions and `Date.now()` are parameters.
- Navigations (`router.push`, `<Navigate>`) are returned values.
- `localStorage` is a map from keys to decoded records. The model takes JSON
  encoding followed by decoding to be the identity.
- JavaScript's `.length` of a string counts UTF-16 code units. That is
  `Text.Utf16Length`, where a character beyond U+FFFF counts two.
- Python's `int()` on a float is `ActivityTracking.Trunc`, which truncates
  toward zero.
- `Math.round(s / n)` is computed exactly as `(2s + n) / (2n)`. A mean over
  an empty series is NaN in the client; here it is `None`.

## Model

| member | source | states |
|---|---|---|
| Text.Trim | trackifyr-py/activity_tracker.py:45 | Python `strip()` / JavaScript `trim()`: the result is no longer than the input |
| Text.TrimEmptyIff | trakifyr-web/app/signup/page.jsx:35 | a string trims to "" exactly when every character is white space (in either language's sense) |
| Text.Lower | trackifyr-py/activity_tracker.py:38 | `lower()` keeps the length and lower-cases each ASCII letter, leaving other characters alone |
| Text.IndexOf | trakifyr-web/app/dashboard/page.jsx:107 | the index returned holds the character and no earlier index does |
| Text.Count | trakifyr-web/app/signup/page.jsx:28 | a count is at most the length, and is 0 exactly when the character is absent |
| Text.CountAppend | trakifyr-web/app/signup/page.jsx:28 | counts add up over a concatenation |
| Text.SplitLines | trackifyr-py/activity_tracker.py:34 | `split("\n")` yields at least one piece, and no piece holds a newline |
| Text.SplitLinesJoin | trackifyr-py/activity_tracker.py:34 | the pieces joined back with newlines give the original text |
| Text.SplitLinesOfUnlines | trackifyr-py/activity_tracker.py:34 | round trip: splitting newline-terminated lines plus a tail gives back exactly those lines and that tail |
| Text.SplitLinesLast | trackifyr-py/activity_tracker.py:34 | the last piece `lines[-1]` holds no newline, the complete pieces, each followed by a newline, then the last piece give back the text, and text without a newline splits into itself alone |
| Text.ContainsInAppend | trackifyr-py/activity_tracker.py:29 | a substring of a part is a substring of the whole buffer |
| Text.LowerIdempotent | trakifyr-web/src/App.jsx:22-47 | lower-casing twice is lower-casing once |
| Text.LowerAppend | trakifyr-web/src/App.jsx:22-47 | lower-casing a concatenation lower-cases each part |
| Text.LowerNoCapitals | trakifyr-web/src/App.jsx:22-47 | a string without capital ASCII letters is its own lower case |
| Text.Utf16Length | trakifyr-web/app/signup/page.jsx:47 | JavaScript `.length`: between the number of characters and twice that |
| Text.Utf16LengthAppend | trakifyr-web/app/signup/page.jsx:47 | the UTF-16 length of a concatenation is the sum of the parts' lengths |
| Text.Utf16LengthBmp | trakifyr-web/app/signup/page.jsx:47 | a string of characters below U+10000 has as many code units as characters |
| Text.Utf16LengthAstral | trakifyr-web/app/signup/page.jsx:47 | a character beyond U+FFFF is two code units |
| StderrFilter.FilterLines | trackifyr-py/activity_tracker.py:35-46 | the line loop forwards at most one string per line, and a pass that starts unsuppressed ends unsuppressed |
| StderrFilter.NoiseNeverForwarded | trackifyr-py/activity_tracker.py:37-43 | everything forwarded is some line that is not listener noise, with "\n" re-appended, whatever the flag |
| StderrFilter.FilterLinesStep | trackifyr-py/activity_tracker.py:35-46 | one more line is one more `Step`: that line (re-terminated) is appended exactly when it passes, and the flag is updated |
| StderrFilter.FilterLinesAppend | trackifyr-py/activity_tracker.py:35-46 | handling two runs of lines in turn is handling their concatenation |
| StderrFilter.FilterLinesUnsuppressed | trackifyr-py/activity_tracker.py:37-43 | unsuppressed, the output is exactly the non-noise lines in order, each re-terminated, and the flag stays off |
| StderrFilter.FilterLinesSwallowed | trackifyr-py/activity_tracker.py:37-46 | once suppressing, a run of lines none of which is whitespace-only forwards nothing and keeps the flag on |
| StderrFilter.SwallowThroughBlank | trackifyr-py/activity_tracker.py:45-46 | a swallowed block through its first whitespace-only line forwards nothing, and that line clears the flag |
| StderrFilter.SwallowFirstBlock | trackifyr-py/activity_tracker.py:37-46 | once suppressing, the lines through the first whitespace-only line can be cut off and the rest filtered unsuppressed, with the same result |
| StderrFilter.SwallowUntilBlank | trackifyr-py/activity_tracker.py:37-46 | once suppressing, a run with no whitespace-only line forwards nothing and keeps the flag on; otherwise everything through the first one is dropped and filtering resumes unsuppressed |
| StderrFilter.SwallowedThenClean | trackifyr-py/activity_tracker.py:37-46 | when the run holds a whitespace-only line, a suppressed pass forwards nothing through the first one and exactly the non-noise lines after it |
| StderrFilter.BannerChunkSwallowsFirstBlock | trackifyr-py/activity_tracker.py:26-46 | a chunk holding the listener banner starts the filtering of every complete line of the buffer suppressed, whatever the flag was: nothing through the first whitespace-only line is forwarded |
| StderrFilter.FirstBlank | trackifyr-py/activity_tracker.py:45 | the index of the first whitespace-only line (no line before it is one), or the length when there is none |
| StderrFilter.Clean | trackifyr-py/activity_tracker.py:37-42 | the kept lines contain no listener noise |
| StderrFilter.CleanOne | trackifyr-py/activity_tracker.py:37-43 | a single line is kept exactly when it is not listener noise |
| StderrFilter.CleanAppend | trackifyr-py/activity_tracker.py:35-43 | the kept lines of a concatenation are the kept lines of each part, in order, so every non-noise line is kept |
| StderrFilter.Terminated | trackifyr-py/activity_tracker.py:43 | each line followed by "\n", same count |
| StderrFilter.ForwardedFromAppend | trackifyr-py/activity_tracker.py:43 | forwarded-from-the-input is preserved by concatenating outputs |
| StderrFilter.Stream.Write | trackifyr-py/activity_tracker.py:43 | the original stream records each write, in order |
| StderrFilter.Stream.Flush | trackifyr-py/activity_tracker.py:55 | the original stream counts a flush |
| StderrFilter.FilteredStderr.constructor | trackifyr-py/activity_tracker.py:21-24 | empty buffer, flag off |
| StderrFilter.FilteredStderr.Write | trackifyr-py/activity_tracker.py:26-47 | the buffer ends as the text after the last newline of old buffer + input, and holds no newline; the stream gains exactly `FilterLines` of the complete lines, started suppressed if the flag was on or the whole buffer contains the banner; a write without a newline forwards nothing |
| StderrFilter.FilteredStderr.ForwardLines | trackifyr-py/activity_tracker.py:35-46 | the loop over the complete lines writes exactly `FilterLines(lines, flag)`.out to the stream, in order, and leaves the flag that `FilterLines` computes |
| StderrFilter.FilteredStderr.Flush | trackifyr-py/activity_tracker.py:49-57 | the leftover is forwarded unless suppressing, empty or a listener `NotImplementedError`/`TypeError` fragment; the stream is flushed once; buffer "" and flag off afterwards |
| ActivityTracking.Trunc | trackifyr-py/activity_tracker.py:92 | Python `int()` on a float: truncation toward zero, within one of the input |
| ActivityTracking.ActiveInExtend | trackifyr-py/activity_tracker.py:175-177 | widening the range by one second adds one exactly when that second was active |
| ActivityTracking.ActiveInBound | trackifyr-py/activity_tracker.py:175-177 | a range of n seconds holds at most n active ones |
| ActivityTracking.ActivityPercentage | trackifyr-py/activity_tracker.py:157-161 | 0 for a zero total, otherwise percentage × total = active × 100 |
| ActivityTracking.ActivityTracker.constructor | trackifyr-py/activity_tracker.py:63-86 | counters 0, no start or last-activity time, inactive, no active seconds, no last position |
| ActivityTracking.ActivityTracker.MarkActive | trackifyr-py/activity_tracker.py:96-99 | adds `int(now)` to the active seconds, records `now`, sets active; counters and other fields unchanged |
| ActivityTracking.ActivityTracker.OnMouseMove | trackifyr-py/activity_tracker.py:88-101 | one more mouse event, keyboard count unchanged, `int(now)` marked active, last activity `now` |
| ActivityTracking.ActivityTracker.OnMouseClick | trackifyr-py/activity_tracker.py:103-116 | press and release alike: one more mouse event, `int(now)` marked active |
| ActivityTracking.ActivityTracker.OnKeyPress | trackifyr-py/activity_tracker.py:143-155 | one more keyboard event, mouse count unchanged, `int(now)` marked active |
| ActivityTracking.ActivityTracker.PollSample | trackifyr-py/activity_tracker.py:126-137 | first sample only records the position; an equal position changes nothing; a different one counts a mouse event, marks `int(now)` and records the position |
| ActivityTracking.ActivityTracker.CountActiveSeconds | trackifyr-py/activity_tracker.py:170-177 | the loop counts exactly the active seconds in `[lo, hi)`, hence at most `hi - lo` |
| ActivityTracking.ActivityTracker.GenerateSummary | trackifyr-py/activity_tracker.py:163-200 | reports the active seconds in `[int(start), int(end)]`, the percentage and the counters, then resets both counters to 0 and the set to empty |
| ActivityTracking.SummaryCountBound | trackifyr-py/activity_tracker.py:170-177 | the active count is at most `int(end) - int(start) + 1` |
| ActivityTracking.PercentageMayExceedHundred | trackifyr-py/activity_tracker.py:166-183 | partial seconds are counted whole: start 0.5, end 1.2 with seconds 0 and 1 active gives more than 100% |
| UserStore.Storage.constructor | trakifyr-web/src/context/AuthContext.jsx:11 | storage holds the given entries |
| UserStore.Storage.GetItem | trakifyr-web/src/context/AuthContext.jsx:11 | the record under the key, or none when absent |
| UserStore.Storage.SetItem | trakifyr-web/src/context/AuthContext.jsx:20 | the key now maps to the value; other keys unchanged |
| UserStore.Storage.RemoveItem | trakifyr-web/src/context/AuthContext.jsx:41 | the key is gone; other keys unchanged |
| Auth.Mounted | trakifyr-web/src/context/AuthContext.jsx:6-16 | on mount the user is the stored record and authenticated exactly when the key is present |
| Auth.SignupStep | trakifyr-web/src/context/AuthContext.jsx:18-24 | always succeeds without error, overwrites the stored record, signs in as it |
| Auth.SigninStep | trakifyr-web/src/context/AuthContext.jsx:26-38 | succeeds iff a record is stored with this e-mail; on failure state and store are unchanged and the error is "Invalid credentials" |
| Auth.SignoutStep | trakifyr-web/src/context/AuthContext.jsx:40-44 | removes the key, no user, not authenticated |
| Auth.AuthProvider.constructor | trakifyr-web/src/context/AuthContext.jsx:6-7 | no user, not authenticated |
| Auth.AuthProvider.Mount | trakifyr-web/src/context/AuthContext.jsx:10-16 | picks up a stored record and authenticates; without one nothing changes |
| Auth.AuthProvider.Signup | trakifyr-web/src/context/AuthContext.jsx:18-24 | new state and result are those of `SignupStep` |
| Auth.AuthProvider.Signin | trakifyr-web/src/context/AuthContext.jsx:26-38 | new state and result are those of `SigninStep` |
| Auth.AuthProvider.Signout | trakifyr-web/src/context/AuthContext.jsx:40-44 | new state is that of `SignoutStep` |
| Auth.RunConsistent | trakifyr-web/src/context/AuthContext.jsx:6-44 | over any sequence of mounts, sign-ups, sign-ins and sign-outs, authenticated exactly when there is a user |
| Auth.SignupThenSignin | trakifyr-web/src/context/AuthContext.jsx:18-36 | after a sign-up, signing in with its e-mail succeeds, whatever the password |
| Auth.SignoutThenSigninFails | trakifyr-web/src/context/AuthContext.jsx:26-44 | after a sign-out every sign-in fails |
| Auth.PasswordIgnored | trakifyr-web/src/context/AuthContext.jsx:26-38 | the password never affects sign-in |
| Auth.SignupOverwrites | trakifyr-web/src/context/AuthContext.jsx:18-36 | a second sign-up replaces the first record: the first e-mail no longer signs in |
| Routes.ProtectedRoute | trakifyr-web/src/App.jsx:8-11 | renders iff authenticated, otherwise redirects to /signin |
| Routes.PublicRoute | trakifyr-web/src/App.jsx:14-17 | renders iff not authenticated, otherwise redirects to /dashboard |
| Routes.ExactlyOneGuardRenders | trakifyr-web/src/App.jsx:8-17 | for any visitor exactly one of the two guards renders |
| Routes.DropTrailingSlashes | trakifyr-web/src/App.jsx:22-47 | the path with its trailing run of "/" removed and nothing else: a prefix not ending in "/", and every character cut off is a "/" |
| Routes.RouteTable | trakifyr-web/src/App.jsx:19-49 | a path whose lower-cased, slash-trimmed form is /signup or /signin is public, one that is /dashboard is protected, / and every other path redirect to /signin |
| Routes.RouteIgnoresCase | trakifyr-web/src/App.jsx:22-47 | lower-casing the path never changes where it goes |
| Routes.RouteIgnoresTrailingSlash | trakifyr-web/src/App.jsx:22-47 | a trailing "/" never changes where a path goes |
| Routes.CanonicalRoutePaths | trakifyr-web/src/App.jsx:23-39 | the three route paths are already in canonical form |
| Routes.RoutePathsDistinct | trakifyr-web/src/App.jsx:23-39 | the three route paths differ |
| Routes.RouteOfRoutePaths | trakifyr-web/src/App.jsx:22-45 | the paths /signup and /signin go to their public routes, /dashboard to its protected one |
| Routes.EveryVisitSettles | trakifyr-web/src/App.jsx:8-49 | every visit ends on a page within two redirects: signed in on the dashboard, signed out on sign-up if the path is /signup in any case and with any trailing slashes, else on sign-in |
| Routes.GuardRedirects | trakifyr-web/src/App.jsx:8-45 | signed-out /dashboard ends at /signin; signed-in /signin and /signup end at /dashboard |
| SignupPage.ValidateEmailIsPattern | trakifyr-web/app/signup/page.jsx:27-30 | `validateEmail` accepts exactly the strings `^[^\s@]+@[^\s@]+\.[^\s@]+$` matches |
| SignupPage.PatternImpliesValid | trakifyr-web/app/signup/page.jsx:28 | a match splits as local part, one "@", and a domain with a "." that has text on both sides |
| SignupPage.ValidImpliesPattern | trakifyr-web/app/signup/page.jsx:28 | such a split is a match |
| SignupPage.PatternPieces | trakifyr-web/app/signup/page.jsx:28 | the pieces of a match are free of white space and "@" |
| SignupPage.AcceptedHasOneAt | trakifyr-web/app/signup/page.jsx:27-30 | an accepted address holds exactly one "@" |
| SignupPage.SpaceMakesInvalid | trakifyr-web/app/signup/page.jsx:39-43 | white space anywhere, untrimmed ends included, makes the address invalid |
| SignupPage.InitialForm | trakifyr-web/app/signup/page.jsx:13-18 | empty fields and the "Student" role |
| SignupPage.WithField | trakifyr-web/app/signup/page.jsx:57-60 | the named field replaced, the others kept |
| SignupPage.FormErrors | trakifyr-web/app/signup/page.jsx:32-50 | name error iff the name is blank; e-mail "required" when blank, else "invalid" when `validateEmail` fails, else none; password "required" when empty, else "too short" under 6 UTF-16 code units, else none; never a role error |
| SignupPage.FormValidIff | trakifyr-web/app/signup/page.jsx:32-53 | no errors iff the name is not blank, the address is valid and the password has at least 6 UTF-16 code units |
| SignupPage.AstralPasswordLongEnough | trakifyr-web/app/signup/page.jsx:45-49 | three characters beyond U+FFFF are a long enough password |
| SignupPage.SignupRecord | trakifyr-web/app/signup/page.jsx:79-84 | the record carries id, name, e-mail and role, and no password |
| SignupPage.SignupPageState.constructor | trakifyr-web/app/signup/page.jsx:13-21 | initial form, no errors, not submitting |
| SignupPage.SignupPageState.ValidateForm | trakifyr-web/app/signup/page.jsx:32-53 | the loop-free build of `newErrors`, the password checked by UTF-16 length, equals `FormErrors`, and the result is true iff it is empty |
| SignupPage.SignupPageState.HandleChange | trakifyr-web/app/signup/page.jsx:55-67 | replaces the named field; blanks that field's message only if one is shown |
| SignupPage.SignupPageState.HandleSubmit | trakifyr-web/app/signup/page.jsx:69-91 | a form with `FormErrors` (password length in UTF-16 code units) never signs up and navigates nowhere; a valid one signs up with the password-less record and goes to /signin |
| Aggregates.RoundDiv | trakifyr-web/app/dashboard/page.jsx:30-33 | `Math.round(s/n)`: the integer r with r - 1/2 ≤ s/n < r + 1/2 |
| Aggregates.RoundedMean | trakifyr-web/app/dashboard/page.jsx:30-33 | none for an empty series, otherwise within half a point of the mean |
| Aggregates.SumStep | trakifyr-web/app/reports/page.jsx:33 | the reduce adds one term at a time |
| Aggregates.SumBetween | trakifyr-web/app/dashboard/page.jsx:31 | n terms between lo and hi sum to between n·lo and n·hi |
| Aggregates.MeanWithinRange | trakifyr-web/app/dashboard/page.jsx:30-33 | a rounded mean lies between the smallest and largest term |
| Aggregates.TermAtMostSum | trakifyr-web/app/reports/page.jsx:33 | with no negative terms, each term is at most the sum |
| Aggregates.Min | trakifyr-web/app/dashboard/page.jsx:30-33 | a term no greater than any other |
| Aggregates.Max | trakifyr-web/app/dashboard/page.jsx:30-33 | a term no smaller than any other |
| SampleData.Loads | trakifyr-web/app/dashboard/page.jsx:31 | the `load` column, in order |
| SampleData.Engagements | trakifyr-web/app/dashboard/page.jsx:35 | the `engagement` column, in order |
| SampleData.Sessions | trakifyr-web/app/reports/page.jsx:33 | the `sessions` column, in order |
| SampleData.SampleLoadSum | trakifyr-web/data/cognitiveLoadData.js:4-20 | the sample loads sum to 919 |
| SampleData.SampleEngagementSum | trakifyr-web/data/cognitiveLoadData.js:4-20 | the sample engagement values sum to 1145 |
| SampleData.SampleSessionSum | trakifyr-web/data/cognitiveLoadData.js:23-31 | the sample days hold 49 sessions |
| PageGuard.Guard | trakifyr-web/app/dashboard/page.jsx:18-27 | shows the content iff authenticated; otherwise nothing and a navigation to /signin |
| PageGuard.GuardAgreesWithProtectedRoute | trakifyr-web/app/dashboard/page.jsx:18-27 | the page guard behaves as the single-page build's `ProtectedRoute` |
| DashboardPage.Stats | trakifyr-web/app/dashboard/page.jsx:30-38 | averages present iff the series is non-empty; `totalSessions` is the number of log rows |
| DashboardPage.AvgLoadRounds | trakifyr-web/app/dashboard/page.jsx:30-33 | `avgLoad` is within half a point of the mean load |
| DashboardPage.AvgEngagementRounds | trakifyr-web/app/dashboard/page.jsx:34-37 | `avgEngagement` is within half a point of the mean engagement |
| DashboardPage.AveragesWithinRange | trakifyr-web/app/dashboard/page.jsx:30-37 | each average lies between its column's minimum and maximum |
| DashboardPage.StatsOnSample | trakifyr-web/app/dashboard/page.jsx:30-38 | on the sample data the figures are 61, 76 and 10 |
| DashboardPage.FirstToken | trakifyr-web/app/dashboard/page.jsx:107 | `split(' ')[0]`: a space-free prefix followed by a space or the end |
| DashboardPage.FirstTokenOfJoin | trakifyr-web/app/dashboard/page.jsx:107 | the first token of "first rest" is "first" |
| DashboardPage.GreetingName | trakifyr-web/app/dashboard/page.jsx:107 | "User" without a user or name or when the first token is empty, otherwise the first token |
| DashboardPage.GreetingIsOneWord | trakifyr-web/app/dashboard/page.jsx:107 | the greeting is never empty and never holds a space |
| DashboardPage.LeadingSpaceGreetsUser | trakifyr-web/app/dashboard/page.jsx:107 | a name starting with a space greets as "User" |
| DashboardPage.ColorClass | trakifyr-web/app/dashboard/page.jsx:94-119 | the mapped classes for a known colour, grey for any other |
| DashboardPage.GreyOnlyForUnknownColors | trakifyr-web/app/dashboard/page.jsx:94-119 | the grey fallback appears exactly for unknown colours |
| DashboardPage.TrendClass | trakifyr-web/app/dashboard/page.jsx:122-126 | green iff "up", red iff "down", grey iff anything else |
| DashboardPage.StatsCardsClasses | trakifyr-web/app/dashboard/page.jsx:43-126 | every card has a known colour; only "Total Sessions" has the neutral badge |
| DashboardPage.View | trakifyr-web/app/dashboard/page.jsx:25-27 | nothing when signed out, else the greeting and the figures |
| ReportsPage.Stats | trakifyr-web/app/reports/page.jsx:25-33 | averages present iff the series is non-empty; no days total 0 sessions |
| ReportsPage.AveragesRound | trakifyr-web/app/reports/page.jsx:25-32 | each average is within half a point of its column's mean |
| ReportsPage.AveragesWithinRange | trakifyr-web/app/reports/page.jsx:25-32 | each average lies between its column's minimum and maximum |
| ReportsPage.TotalAddsDay | trakifyr-web/app/reports/page.jsx:33 | one more day adds its sessions to the total |
| ReportsPage.DayAtMostTotal | trakifyr-web/app/reports/page.jsx:33 | with no negative counts, no day exceeds the total |
| ReportsPage.StatsOnSample | trakifyr-web/app/reports/page.jsx:25-33 | on the sample data the figures are 61, 76 and 49 |
| ReportsPage.View | trakifyr-web/app/reports/page.jsx:21-23 | nothing when signed out, else the three figures |
| ProfilePage.FormOf | trakifyr-web/app/profile/page.jsx:13-17 | each field is the user's, or '' when missing; all '' without a user |
| ProfilePage.WithField | trakifyr-web/app/profile/page.jsx:39-45 | the named field takes the value, every other field keeps its own |
| ProfilePage.WithFieldTwice | trakifyr-web/app/profile/page.jsx:39-45 | a second change of a field overrides the first |
| ProfilePage.WithFieldSame | trakifyr-web/app/profile/page.jsx:39-45 | writing a field's own value changes nothing |
| ProfilePage.Merge | trakifyr-web/app/profile/page.jsx:49 | name, e-mail and role from the form; id and password kept from the user (absent without one) |
| ProfilePage.FormOfMerge | trakifyr-web/app/profile/page.jsx:13-49 | the form seeded from a saved record is the form that was saved |
| ProfilePage.MergeOwnForm | trakifyr-web/app/profile/page.jsx:13-49 | saving a full record with its own seeded form gives it back unchanged |
| ProfilePage.MergeIdempotent | trakifyr-web/app/profile/page.jsx:49 | saving twice with the same form is saving once |
| ProfilePage.ReloadAfterSave | trakifyr-web/app/profile/page.jsx:49-52 | after the save and reload, the session is signed in as the saved record and the form shows what was saved |
| ProfilePage.AvatarInitial | trakifyr-web/app/profile/page.jsx:67 | one character: the name's first, or "U" when the name is missing or empty |
| ProfilePage.ProfilePageState.constructor | trakifyr-web/app/profile/page.jsx:12-17 | not editing, form seeded from the user |
| ProfilePage.ProfilePageState.SyncUser | trakifyr-web/app/profile/page.jsx:25-33 | with a user the form is re-seeded from it, otherwise kept |
| ProfilePage.ProfilePageState.HandleChange | trakifyr-web/app/profile/page.jsx:39-45 | only the named field changes |
| ProfilePage.ProfilePageState.HandleSave | trakifyr-web/app/profile/page.jsx:47-54 | the merged record is stored under "user", other keys unchanged, editing off |
| ProfilePage.ProfilePageState.ToggleEdit | trakifyr-web/app/profile/page.jsx:75 | editing flips, the form is kept |
| ProfilePage.View | trakifyr-web/app/profile/page.jsx:35-37 | nothing when signed out, else the avatar initial and the form |

## Left out

- The pynput listeners, the polling thread's `while`/`sleep` loop, `start_tracking`/`stop_tracking`, the lock and the daemon threads are not modelled. They are concurrency and OS input. Each handler is a sequential method taking the time as a parameter, and `PollSample` is one step of the polling loop.
- The `sys.stderr` swap is not modelled. The filter is given its output stream.
- The printed summary is not modelled: `print`, `datetime.now()` and the float formatting. `GenerateSummary` returns the figures instead.
- Floats are modelled as reals: `time.time()` values and the percentage. Rounding of float arithmetic is not modelled.
- The unused parameters of the handlers (`x`, `y`, `button`, `key`) are left out.
- Text.Lower: lower-cases ASCII letters only, whereas Python's `lower()` covers all of Unicode. The filter only looks for the ASCII word "pynput".
- Text.Trim: its contract gives only the length bound. What trimming to "" means is proved separately, in `TrimEmptyIff`.
- StderrFilter.FilterLines: its own contract gives only the bounds. What it forwards is proved in the lemmas beside it.
- StderrFilter.Clean: its own contract says only that no kept line is noise. That every other line is kept, in order, is proved in `CleanOne` and `CleanAppend`.
- JSON encoding of stored records is taken to be the identity. Malformed stored JSON (an unguarded `JSON.parse`) is out of scope.
- Stored records have typed fields (`id`, `fullName`, `email`, `role`, `password`), not arbitrary keys.
- The error `useAuth` throws outside a provider is not modelled.
- The Next.js pages import their `useAuth` from `@/context/AuthContext`, which resolves to `trakifyr-web/context/AuthContext`. That file is not part of this model. The pages are modelled as using the provider of `src/context/AuthContext.jsx` (`Auth.AuthProvider`), with its mount, sign-up, sign-in and sign-out behaviour.
- Routes.RouteTable: percent-encoded characters in a path are not decoded before matching, and only ASCII letters are matched regardless of case.
- React rendering, JSX markup, CSS beyond the class mappings, the Sidebar and the layout are not modelled.
- The signup `setTimeout` delay is not modelled. The sign-up happens at once, and `isSubmitting` is back to false when `HandleSubmit` returns.
- `Date.now()` is a parameter.
- `window.location.reload()` is modelled only as a fresh `Auth.Mounted` over the saved store, in `ReloadAfterSave`.
- `typeof window` checks are taken to be true.
- The dashboard's `todaySessions` is left out, because it depends on the current date.
- The dashboard's string figures (`${avgLoad}%`) are not modelled. The figures themselves are.
- The profile page's display fallbacks for name, role and e-mail are not modelled.
- DashboardPage.ColorClass: only the four own keys of `colorClasses` are modelled. Inherited object properties such as "toString" are not.
- ProfilePage.AvatarInitial: takes the first Unicode character. JavaScript's `charAt(0)` takes the first UTF-16 code unit, so the two differ for characters outside the Basic Multilingual Plane.
