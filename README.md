# my-workout: selection and completion-counter model

This project models the logic of the workout view in `src/App.js`. The view loads a
user's workout plan: an ordered list of dated sessions, each holding groups of
exercises. It then picks the date and the exercise group to show, lets the user move
between groups by menu or swipe, and keeps a completion counter per (date, group).
Rendering, networking and storage are left out. What remains is modelled in Dafny and
proved:

- `Plan` (`plan.dfy`): the plan's records. It also has the two `find` lookups the view
  makes (a session by date text, a group by title) and the counter key `${date}-${title}`.
- `Counter` (`counter.dfy`): the "+" and "-" buttons as map-to-map functions. "+" is
  bounded by the group's frequency, with 1 as the fallback. "-" is floored at 0. Both
  return the same map when they do nothing, and "+" raises the target-reached signal
  (the confetti).
- `Selection` (`selection.dfy`): the initial date is the last session in list order whose
  date is before now, or else the first session's date. The initial group is the
  least-completed one, earliest on ties. A date change moves the title to the new date's
  first group.
- `Navigation` (`navigation.dfy`): cyclic next and previous over the groups of the shown
  session. JavaScript's truncating `%` is modelled explicitly. Also the swipe rule
  (distance above 50 means next, below -50 means previous).
- `WorkoutApp` (`app.dfy`): a class `App` with one field per React state hook. Each event
  handler is a method whose postcondition gives the whole new state
  (`State() == old(State()).(field := ...)`) in terms of the functions above.

How things are represented:

- A session's `date` is its date text. The view compares it with `===`, and it goes into
  counter keys.
- `instant` is the moment the date library parses that text to, with `None` for text
  that does not parse (`isBefore` is then false). "now" is an integer parameter.
- Group lists are called `groups`; in the plan document the field is `workout`.
- The least-count `reduce` carries the index of its current pick instead of the group
  object, so "earliest on ties" can be stated.

Four places where the code's behaviour is not the obvious reading, and the model follows the code:

- One might expect "past" to mean a calendar day before today. The code compares to the millisecond
  with a strict `isBefore` against the current moment. A session dated today parses as midnight, so it
  counts as past for the whole day. Only a session whose parsed moment is now or later does not.
- One might expect the initial date to be the latest past date. The code takes the last past session in list
  order; `Selection.InitialDateIsLatestPast` proves the two agree when the plan is in ascending date order.
- One might expect stepping from a title that is not in the session to do nothing. In the code "next" goes to
  the first group, and "previous" goes to the next-to-last group (to the only group when there is one).
- One might expect every group's count to stay within its frequency. Keys are plain concatenation, so two
  (date, title) pairs can share one counter, and when those pairs have different frequencies the one with
  the larger frequency can push the shared count past the other's. `Counter.IncrementKeepsTargets` proves
  the bound for plans whose dates all have one length and are unique; `Counter.CollidingKeysBreakTargets`
  shows it failing for two dates of different lengths.

## Model

| member | source | states |
|---|---|---|
| `Plan.FirstIndex` | src/App.js:182-184 | JavaScript's `findIndex`, used by title here and by date at lines 59-61 and 93: the first index whose element satisfies the test, or -1 exactly when none does |
| `Plan.FindSession` | src/App.js:210-212 | `find` by date: None exactly when no session has the date; otherwise the first session with that date |
| `Plan.GroupIndexOfDistinct` | src/App.js:182-184 | when titles are distinct, looking up a group's title gives back that group's own position |
| `Plan.Key` | src/App.js:109 | the counter key is the date text, then `-`, then the title |
| `Plan.KeysCanCollide` | src/App.js:109 | ("2024-01", "01-A") and ("2024-01-01", "A") have the same key |
| `Plan.KeyInjectiveForEqualLengthDates` | src/App.js:109 | when the two dates have the same length, equal keys mean equal dates and equal titles |
| `Counter.CountOf` | src/App.js:115 | the read of a count defaulting to 0 (also lines 68, 70, 138): a missing key reads as 0 and a stored count as itself |
| `Counter.FrequencyOf` | src/App.js:110-114 | the target is the frequency of the first group with the title; it is 1 when the session has no such group |
| `Counter.Increment` | src/App.js:115-131 | below the target: the key goes up by one and no other key changes. At or above it: the same map comes back. The signal is raised exactly when the new count equals the frequency, and a count at or below the frequency stays at or below it |
| `Counter.Decrement` | src/App.js:137-147 | a positive count goes down by one and no other key changes; a count of 0 or less, or a missing key, gives back the same map; a non-negative count stays non-negative |
| `Counter.IncrementThenDecrement` | src/App.js:115-147 | "+" then "-" from a count c with 0 <= c < frequency brings the count back to c. The map is then unchanged, except that a missing key now holds 0 |
| `Counter.ButtonsKeepCountsNonNegative` | src/App.js:117-147 | neither button makes any count negative when none was |
| `Counter.RepeatedIncrementStopsAtTarget` | src/App.js:117-131 | k presses from a count c <= f leave min(c+k, f). The signal fires once in total, exactly when c < f <= c+k |
| `Counter.IncrementKeepsTargets` | src/App.js:107-132 | with fixed-width unique dates, "+" on an existing date keeps every group's count within [0, its frequency] |
| `Counter.DecrementKeepsTargets` | src/App.js:135-149 | "-" keeps every group's count within [0, its frequency] on any plan |
| `Counter.CollidingKeysBreakTargets` | src/App.js:109-131 | with two dates of different lengths, two groups share one counter. Two presses then leave it above the other group's frequency |
| `Selection.PastSessions` | src/App.js:50-52 | the filter holds only sessions of the plan that are before now, and every session of the plan that is before now |
| `Selection.NoPastSessions` | src/App.js:50-52 | the filter is empty when no session is before now |
| `Selection.LastOfPastSessions` | src/App.js:50-55 | the last element of the filter is the session at the last index that is before now |
| `Selection.PastSessionsEnds` | src/App.js:50-55 | the last element of the filter is the session at the last past index when there is one, and the filter is empty when no session is past |
| `Selection.InitialDate` | src/App.js:49-58 | no date exactly for the empty plan (the error path at lines 82-84). Otherwise the date of the session at the last past index in list order, or the first session's date when none is past |
| `Selection.LastPastIndex` | src/App.js:53-55 | when some session is past there is a last such index |
| `Selection.InitialDateIsLatestPast` | src/App.js:49-58 | on an ascending plan with a past session, the initial date is before now and no past session is later |
| `Selection.LeastCountFrom` | src/App.js:65-77 | the `reduce` step. Only a strictly smaller count replaces the pick, so the result has a minimal count (a missing key counts as 0) and is the earliest group with that count |
| `Selection.LeastCountIndex` | src/App.js:65-77 | the `reduce` seeded with the first group picks a group whose count is <= every group's count, and no earlier group has that count |
| `Selection.InitialTitle` | src/App.js:59-80 | a title exactly when the initial date's first session has groups; it is the title of the earliest least-completed group there |
| `Selection.TitleOnDateChange` | src/App.js:91-97 | after a date change the title is the first group of the first session with that date, which the title lookup then finds at index 0. If no session has the date, or it has no groups, the title is unchanged |
| `Navigation.JsRem` | src/App.js:185 | JavaScript's `%`: the remainder takes the sign of the dividend and keeps small dividends unchanged |
| `Navigation.NextIndex` | src/App.js:185 | `(i+1) % n` is a valid index; the last index wraps to 0; -1 (unknown title) goes to 0 |
| `Navigation.PreviousIndex` | src/App.js:195-197 | `(i-1+n) % n` is a valid index; 0 wraps to n-1; -1 (unknown title) lands on n-2, or on 0 when n = 1 |
| `Navigation.NextPreviousInverse` | src/App.js:180-200 | on a known position, previous undoes next and next undoes previous |
| `Navigation.NextTitle` | src/App.js:180-188 | next names a group of the session; from an unknown title it names the first group |
| `Navigation.PreviousTitle` | src/App.js:190-200 | previous names a group of the session; from an unknown title it names the next-to-last group |
| `Navigation.StepsWrapAround` | src/App.js:180-200 | with distinct titles, next from the last group is the first, and previous from the first is the last |
| `Navigation.PreviousUndoesNext` | src/App.js:180-200 | with distinct titles, previous after next, and next after previous, give back the starting title |
| `Navigation.NextTitleTimesAdvances` | src/App.js:180-188 | with distinct titles, k <= n steps of next from group i reach group i+k, wrapping once past the end |
| `Navigation.NextCycleReturnsToStart` | src/App.js:180-188 | with distinct titles, n steps of next come back to the starting title |
| `Navigation.ClassifySwipe` | src/App.js:159-167 | next exactly when both coordinates are set and start-end > 50; previous exactly when both are set and start-end < -50 |
| `Navigation.StepTitle` | src/App.js:180-200 | with no session for the selected date (`if (currentWorkout)` at lines 181 and 191) or an empty group list (the step throws), the title is unchanged. Otherwise it names a group of the session, and next from an unknown title is the first group |
| `Navigation.SwipeIsSymmetric` | src/App.js:161-166 | a swipe reversed asks for the opposite step, and a swipe too short either way asks for nothing |
| `WorkoutApp.App.constructor` | src/App.js:16-31 | the state once the mount effect (lines 27-31) has read storage: loading, nothing selected, no error, no confetti, no touch, and the stored counts (the first render itself has empty counts, line 19) |
| `WorkoutApp.NotFoundMessage` | src/App.js:44 | the not-found message is "Could not find data for " followed by the user name |
| `WorkoutApp.App.ShowPlan` | src/App.js:46-84 | stores the plan. An empty plan gives the empty-plan error. Otherwise it selects the initial date, and the initial title when that date's session has groups. Loading ends |
| `WorkoutApp.App.Load` | src/App.js:37-89 | non-success status gives the not-found message; bad JSON gives a parse error; a parsed plan is handled as ShowPlan says. Loading ends in every case |
| `WorkoutApp.App.SelectDate` | src/App.js:91-97 | sets the date and moves the title by the date-change rule; nothing else changes |
| `WorkoutApp.App.SelectTitle` | src/App.js:99-101 | sets the title; nothing else changes |
| `WorkoutApp.App.Increment` | src/App.js:107-133 | throws and changes nothing when no session has the date. Otherwise it applies the counter increment with that session's frequency for the title, and shows the confetti when the target is reached |
| `WorkoutApp.App.Decrement` | src/App.js:135-149 | applies the counter decrement; the confetti is never touched |
| `WorkoutApp.App.ConfettiTimeout` | src/App.js:125 | the confetti timer clears the confetti and nothing else |
| `WorkoutApp.App.TouchStart` | src/App.js:151-153 | records the start coordinate |
| `WorkoutApp.App.TouchMove` | src/App.js:155-157 | records the end coordinate |
| `WorkoutApp.App.SelectNextTitle` | src/App.js:180-188 | moves to the next group of the selected date's session. With no session, or a session without groups, the title is unchanged |
| `WorkoutApp.App.SelectPreviousTitle` | src/App.js:190-200 | moves to the previous group of the selected date's session. With no session, or a session without groups, the title is unchanged |
| `WorkoutApp.App.TouchEnd` | src/App.js:159-170 | steps next or previous as the swipe rule says, and always clears both touch coordinates |

## Left out

- Fetching `/my-workout/data/<user>-workout.json` and parsing it (src/App.js:38-47) is network I/O. It is replaced by the `Response` parameter of `Load`. A rejected `fetch` (a network failure) also reaches the error state at lines 82-84 with the engine's message; `Response` has no case for it. The wording of the messages thrown by the JSON parser and by reading `data[0].date` on an empty array also belongs to the JavaScript engine; the model keeps only which error happened.
- Local storage (src/App.js:27-35, 63-64) is left out:
  - The counts it holds at start-up are the constructor's `saved` parameter.
  - Writing back after every change is not modelled.
  - The unguarded `JSON.parse` at line 29 is not modelled.
  - The second read at lines 63-64 is modelled as the in-memory counts. Every change is written back, and no button can be pressed while loading, so the two are the same.
- Date parsing and comparison by the date library are replaced by `Session.instant` and integer `<`. Date formatting for display (lines 257, 263, 271) is left out.
- Timers are left out:
  - The 5000 ms confetti delay is modelled only as the separate `ConfettiTimeout` handler.
  - The 300 ms fade (lines 172-178) is modelled as an immediate title change, so the closure it captures from an earlier render is not modelled.
  - Opacity is left out, including opacity staying 0 when a step throws.
- React's deferred, batched state updates are not modelled: each handler applies to the current state at once.
- After a throw (the `Increment` handler on a date with no session, a step on a session without groups), the model leaves the state unchanged and does not model what React does next.
- JSX rendering, the exercise table, the menus' markup, the refresh button (`window.location.reload`, lines 103-105) and the display-only `frequency || 1` at line 222 are presentation.
- `src/index.js` only mounts the component under a router. It has no logic.
- Values are typed: counts, frequencies and touch coordinates are integers. JavaScript's fractional `clientX` and non-numeric or missing JSON values (such as a group without `frequency`) are not modelled.
- Counter.IncrementThenDecrement: requires the starting count to be non-negative. From a negative count loaded from storage, "-" after "+" does nothing, so the round trip does not hold there.
