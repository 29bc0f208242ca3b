# Sprint summarizer: metrics, trend decision and preferences store

A Dafny model of the three pieces of logic in the sprint summarizer backend:

- **Sprint metrics** (`summarizer.dfy`, module `Summarizer`). A sprint's task list becomes the
  structured summary: the total, completed and pending counts, the titles of blocked tasks
  (blockers), the titles of completed tasks (highlights), the velocity, and the velocity trend.
  The velocity is the completed/total ratio. JavaScript's `|| 0` turns the 0/0 of an empty
  list into 0. The trend has one point per historical sprint, in the order fetched, then one
  point labelled "Current Sprint". Tasks keep their raw status string, and every filter
  reads it through `ParseStatus`, as the `===` tests of the code do.
- **Completion-rate trend** (`trend_analysis.dfy`, module `TrendAnalysis`). The report entry
  point compares the current sprint's completion rate, `completed / total * 100`, with the
  rate of the last historical sprint. It chooses the "Improvement" wording when the current
  rate is strictly greater, and "Decline" otherwise.
- **Preferences store** (`preferences.dfy`, module `PreferencesController`). Three handlers
  work on one persisted record. Get returns the stored record, or the all-true defaults when
  no file exists. Update checks that the three flags are booleans, then overwrites the whole
  record with the request body. Reset overwrites the record with the defaults. `Handle` is the
  transition function of this state machine. The class `PreferencesStore` keeps the record in
  a mutable field, and each of its methods is proved equal to `Handle`.
- **JavaScript numbers** (`js_number.dfy`, module `JsNumber`). Dividing two non-negative
  counts can give a finite value, `Infinity` or `NaN`. This module models that division, `* 100`,
  `|| 0` and `>`.

Behaviour of the code worth knowing:

- Velocity is the completed/total ratio. Story points are not read anywhere in the code.
- The completion rate does not guard a zero total. A sprint with no tasks gives the rate
  NaN (0/0), which compares false, so the result is "Decline". A positive completed count
  over a zero total gives `Infinity`.
- An empty history is not skipped. `historicalData[length - 1]` is `undefined`, and reading
  a field of it throws. `TrendOf` therefore requires a non-empty history.
- The "Current Sprint" label is not guaranteed to differ from the historical labels. A
  historical sprint may carry that name.
- `pendingTasks` counts every task that is not completed, so blocked tasks are counted as
  pending too.

## Model

| member | source | states |
|---|---|---|
| `JsNumber.Divide` | backend/api/services/summarizer.ts:116-116 | JavaScript `/` on two counts: finite exactly when the divisor is positive, and then the exact real quotient (quotient * divisor == dividend); NaN exactly for 0/0; Infinity otherwise |
| `JsNumber.Times` | backend/index.ts:58-59 | JavaScript `* 100`: NaN stays NaN, Infinity stays Infinity, a finite value is scaled |
| `JsNumber.OrZero` | backend/api/services/summarizer.ts:116-116 | JavaScript `x \|\| 0`: never NaN; a falsy value (NaN or 0) becomes 0, any other value is kept |
| `JsNumber.GreaterThan` | backend/index.ts:61-61 | JavaScript `>`: false whenever either side is NaN and whenever the right side is Infinity; Infinity is greater than every finite value; on finite values it is the real comparison |
| `Summarizer.ParseStatus` | backend/api/services/summarizer.ts:18-21 | a status is Completed exactly for the string "completed" and Blocked exactly for "blocked"; every other string is kept as Other; every count and title filter reads task statuses through it |
| `Summarizer.CountWhere` | backend/api/services/summarizer.ts:115-115 | the number of tasks whose status string reads as the given status is at most the number of tasks |
| `Summarizer.CountNot` | backend/api/services/summarizer.ts:19-19 | the number of tasks whose status string does not read as the given status is at most the number of tasks |
| `Summarizer.PointOf` | backend/api/services/summarizer.ts:124-125 | a trend point carries the given sprint name and the velocity of the sprint's own tasks: in [0, 1], 0 with no tasks, completed/total otherwise |
| `Summarizer.TitlesWhere` | backend/api/services/summarizer.ts:20-25 | the filtered-and-mapped title list has as many entries as there are tasks with that status |
| `Summarizer.Velocity` | backend/api/services/summarizer.ts:114-117 | the velocity is always a finite number in [0, 1], never NaN; it is 0 for an empty list and completed/total otherwise |
| `Summarizer.HistoryPoints` | backend/api/services/summarizer.ts:123-126 | one point per historical sprint, same order; point i carries sprint i's name and the velocity of sprint i's own tasks |
| `Summarizer.Trends` | backend/api/services/summarizer.ts:122-135 | N historical sprints give N+1 points; the first N follow the history's order, names and velocities; the last is "Current Sprint" with the current sprint's velocity; every velocity is in [0, 1] |
| `Summarizer.Summarize` | backend/api/services/summarizer.ts:16-28 | completed and pending are the counts of tasks whose status is and is not "completed"; blockers and highlights are the titles of the blocked and completed tasks in input order; velocity is the sprint's velocity and the trend is the history's points followed by the current sprint's; hence completed + pending == total; \|highlights\| == completed; \|blockers\| <= pending; \|blockers\| + \|highlights\| <= total; velocity in [0, 1], 0 on an empty sprint, completed/total otherwise; the trend ends with the current sprint's velocity |
| `Summarizer.CountSplit` | backend/api/services/summarizer.ts:17-19 | the tasks with a status and the tasks without it partition the list |
| `Summarizer.CountWhereBelowCountNot` | backend/api/services/summarizer.ts:19-21 | for two different statuses, the tasks with the first are at most as many as the tasks without the second |
| `Summarizer.BlockedArePending` | backend/api/services/summarizer.ts:17-25 | blocked tasks are counted as pending; blocked plus completed tasks are at most the total |
| `Summarizer.TitlesAppend` | backend/api/services/summarizer.ts:20-25 | the title list of a concatenation is the concatenation of the title lists, so input order is kept |
| `Summarizer.TitlesMember` | backend/api/services/summarizer.ts:20-25 | a title is listed if and only if some task with that title has the status |
| `Summarizer.TitlePosition` | backend/api/services/summarizer.ts:23-25 | the title of matching task i sits at the index equal to the number of matching tasks before i |
| `Summarizer.VelocityIsOne` | backend/api/services/summarizer.ts:114-117 | the velocity is 1 if and only if the list is non-empty and every task is completed |
| `Summarizer.VelocityIsZero` | backend/api/services/summarizer.ts:114-117 | the velocity is 0 if and only if no task is completed, the empty list included |
| `TrendAnalysis.CompletionRate` | backend/index.ts:58-59 | with tasks, the rate is finite, rate * total == 100 * completed, and it is in [0, 100] when completed <= total; with no tasks it is NaN (0/0) or Infinity |
| `TrendAnalysis.TrendOf` | backend/index.ts:53-63 | with tasks in both sprints, Improvement if and only if current.completed * last.total > last.completed * current.total; a current sprint with no tasks improves only on a positive count against a last sprint that has tasks; a last sprint with no tasks always gives Decline; a non-empty history is required |
| `TrendAnalysis.RateOrder` | backend/index.ts:58-61 | for two sprints with tasks, comparing completion rates is comparing the cross products of their counts |
| `TrendAnalysis.EqualRatesDecline` | backend/index.ts:61-63 | equal completion rates fall into the Decline branch |
| `TrendAnalysis.OnlyLastSprintMatters` | backend/index.ts:57-57 | only the last historical sprint is compared; earlier ones do not change the result |
| `TrendAnalysis.RateIsScaledVelocity` | backend/index.ts:19-22 | for a current sprint with tasks, the completion rate of its structured summary is 100 times its velocity |
| `PreferencesController.IsBoolean` | backend/api/controllers/preferencesController.ts:36-38 | `typeof body[key] === 'boolean'` holds exactly when the field is present and is true or false |
| `PreferencesController.HasBooleanFlags` | backend/api/controllers/preferencesController.ts:35-39 | the update body is valid exactly when every one of the three flag names holds a boolean |
| `PreferencesController.ExtraFieldsIgnored` | backend/api/controllers/preferencesController.ts:35-39 | adding, changing or removing a field other than the three flags does not change the validation verdict |
| `PreferencesController.Defaults` | backend/api/controllers/preferencesController.ts:56-56 | the defaults are exactly the three flags, all true, and they pass the validation rule |
| `PreferencesController.Handle` | backend/api/controllers/preferencesController.ts:11-65 | get returns the defaults with nothing stored, otherwise exactly the stored record (500 on a read failure); update answers status 400 if and only if a flag is not a boolean and then stores nothing; a valid update stores exactly the body, extra fields included, and answers 200; reset stores and returns the defaults; failures and gets leave the record unchanged |
| `PreferencesController.ReplayKeepsWellFormed` | backend/api/controllers/preferencesController.ts:35-59 | after any sequence of requests, a stored record passes the validation rule |
| `PreferencesController.GetAnswersFlags` | backend/api/controllers/preferencesController.ts:13-21 | when the stored record passes validation (or none is stored), every successful get answers with a record whose three flags are booleans |
| `PreferencesController.GetAfterUpdate` | backend/api/controllers/preferencesController.ts:20-45 | after a successful update, get answers with exactly the body sent |
| `PreferencesController.RejectedUpdateUnobservable` | backend/api/controllers/preferencesController.ts:35-41 | a rejected update changes nothing a later get can see |
| `PreferencesController.ResetIdempotent` | backend/api/controllers/preferencesController.ts:56-60 | a second reset gives the same record and answer as one |
| `PreferencesController.GetAfterReset` | backend/api/controllers/preferencesController.ts:56-60 | after a reset, get answers with the defaults |
| `PreferencesController.PreferencesStore.constructor` | backend/api/controllers/preferencesController.ts:13-17 | the store starts with no file and in the valid state |
| `PreferencesController.PreferencesStore.GetPreferences` | backend/api/controllers/preferencesController.ts:11-26 | the answer is the one `Handle` gives for a get, the record is not changed, and, when the stored record passes validation, a successful answer carries three boolean flags |
| `PreferencesController.PreferencesStore.UpdatePreferences` | backend/api/controllers/preferencesController.ts:31-50 | the new record and the answer are those of `Handle` for the update, and the stored record still passes validation |
| `PreferencesController.PreferencesStore.ResetPreferences` | backend/api/controllers/preferencesController.ts:55-65 | the new record and the answer are those of `Handle` for the reset, and the stored record still passes validation |

## Left out

- Fetching the current and historical sprints is network I/O. `summarizeSprint` ignores its arguments and fetches again. `Summarize` takes the fetched data as parameters.
- The AI summary (`generateSummaryWithAI`) and the chart rendering (`generateTrendChart`) call a foreign endpoint and a charting library.
- The Slack message text and the trend-analysis text use `toFixed(2)` float-to-string formatting. `TrendOf` models only which wording is chosen.
- Posting to Slack, blocker notifications, the weekly scheduler, `main`, and the log-and-swallow `try`/`catch` blocks are I/O sequencing.
- Express routing, the configuration constants and the frontend are left out.
- TrendAnalysis.TrendOf: the history records are taken as `{completedTasks, totalTasks}` counts, as the function's signature declares. The same endpoint's records are read as `{name, tasks}` in summarizer.ts. Which shape the endpoint returns is not part of this model.
- Summarizer.Velocity: the velocity is an exact real. JavaScript's floating-point rounding of the division is not modelled.
- JsNumber.Divide: a finite quotient is the exact real quotient. IEEE double rounding is not modelled, so `1 / 49 * 49` is 1 here, not 0.9999999999999999 as in JavaScript.
- TrendAnalysis.CompletionRate: the rate is an exact real. Floating-point rounding of the division and of `* 100` is not modelled.
- PreferencesController.Handle: the preferences file is one optional record. JSON serialisation is assumed to round-trip the body unchanged. A failed write is assumed to leave the file as it was.
- PreferencesController.PreferencesStore.constructor: the model starts with no preferences file. A file already present at start-up, or written by anything other than these handlers, is not modelled; the boolean-flag guarantee of a get holds only for a record these handlers wrote.
- PreferencesController.Handle: the `message` strings of the HTTP responses are not modelled. Only the status and the preferences carried are.
- Concurrent requests racing on the file are not modelled. Each request runs to completion in the model.
