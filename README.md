# TaskFlow core in Dafny

TaskFlow is a task-management web application. Its server routes count a
user's tasks for charts and the dashboard. They also create, update and delete
tasks, and each change is logged as an activity. A route guard decides who may
open which page. The client pages keep boards, team members, chart series and
the chosen language in local state.

This project models that core in Dafny and proves what each part promises:

- `Analytics`: the monthly and weekly creation histograms, which are imperative
  tally loops proved against a histogram function. It also covers the status
  distribution and the key-metric formulas.
- `DashboardStats`: status counts and the three rates of the dashboard route.
- `Tasks`: task rows as these routes read them, and counting them by status.
- `TaskRoutes`: the POST, PATCH and DELETE task handlers. They run on a
  `TaskStore` class that holds the table of tasks, the activity log and the
  membership relations.
- `Middleware`: the redirect decision.
- `BoardDetail`: the board dialog's add-task form and analytics panel, and its
  progress colours.
- `BoardsPage`: the boards page: search, create, delete, icon and colour lookups.
- `TeamPage`: the team page: search, adding a member, id generation and the
  summary cards.
- `HomeChart`: the landing page chart: edits in the per-point number inputs, playback and custom mode,
  and the displayed series.
- `Welcome`: the hour-based greeting and the first name shown in the banner.
- `Language`: the language context: initial language, restoring a saved
  choice, `setLanguage`, and the exposed table.
- `Common` and `Text`: shared helpers.
  - `Common`: counting, filtering, sums.
  - `Text`: JavaScript string behaviour: `toLowerCase`, `includes`,
    `startsWith`, `trim`, `split(' ')[0]`, and `toString` of a non-negative
    integer.

Inputs that come from outside the program become parameters. These are the
clock (`asOf`, `now`, `nowId`, `hour`), `Math.random()` (`r`, `draws`), the
session (`sessionUserId`, `isAuthenticated`), database results (counts, rows,
the new row's id) and locale-dependent month and weekday names (`monthName`,
`dayName`).

Two more notes on the model:

- The PATCH handler and the language context each show a behaviour the authors
  evidently did not intend. Each one is modelled twice: once as written, and
  once corrected with the intended property proved (see "## Findings").
- A newly created task gets the status `TODO`. The POST handler sends no
  status, so this is an assumption about the database schema's default; the
  schema is not part of this model.

## Model

| member | source | states |
|---|---|---|
| Analytics.Tally | app/api/analytics/route.ts:66-74 | The counting loop returns, for each slot k, the number of tasks whose slot index is k; tasks whose index is out of range change no slot |
| Analytics.ProcessMonthlyStats | app/api/analytics/route.ts:59-80 | Six labels, the oldest month first (label k is the name of the month 5-k months back), and six counts forming the 30-day histogram |
| Analytics.ProcessWeeklyStats | app/api/analytics/route.ts:82-103 | Seven labels, the oldest day first, and seven counts forming the one-day histogram |
| Analytics.BucketInRangeIffAge | app/api/analytics/route.ts:67-72 | A task's slot index is in range exactly when its age is in [0, slots × width); future tasks and older tasks are not counted |
| Analytics.MonthlyWindow | app/api/analytics/route.ts:67-72 | The monthly chart counts a task exactly when it was created in the 180 days up to now (a future task is not counted) |
| Analytics.WeeklyWindow | app/api/analytics/route.ts:90-95 | The weekly chart counts a task exactly when it was created in the 7 days up to now |
| Analytics.CreatedNowLandsLast | app/api/analytics/route.ts:68-70 | A task created at the current instant lands in the last (newest) slot of both charts |
| Analytics.HistogramAddTask | app/api/analytics/route.ts:67-74 | One more task raises its own slot by one when that slot is in range, and leaves every other slot unchanged |
| Analytics.HistogramPrefixSum | app/api/analytics/route.ts:66-74 | The first n slots add up to the number of tasks whose index is in [0, n) |
| Analytics.HistogramTotal | app/api/analytics/route.ts:66-74 | The slots add up to the number of tasks inside the window, at most the number of tasks, and exactly that number when every task is inside the window |
| Analytics.HistogramOrderIndependent | app/api/analytics/route.ts:67-74 | The histogram depends only on the multiset of tasks, not on their order |
| Analytics.DistributionShape | app/api/analytics/route.ts:105-122 | The labels are To Do, In Progress, Completed, and each slot holds the count for the status in the same position; with counts taken over one list of rows of known status, the slots add up to its length |
| Analytics.CompletionRateRange | app/api/analytics/route.ts:139 | Completion rate is completed/total × 100; it is 0 when there are no tasks, and in [0, 100] when completed ≤ total |
| Analytics.ProductivityRateScale | app/api/analytics/route.ts:153 | Productivity rate is recent completions / 7 × 100 with no cap: 0 for none, 100 for 7, 200 for 14 |
| Analytics.ProjectProgressRange | app/api/analytics/route.ts:162-164 | Project progress counts an in-progress task as half done; it is 0 when there are no tasks, never below the completion rate, and at most 100 when completed + in progress ≤ total |
| Analytics.ProjectProgressExample | app/api/analytics/route.ts:162-164 | 10 tasks with 4 completed and 2 in progress give 50 |
| Tasks.StatusCountsPartition | app/api/dashboard/stats/route.ts:34-36 | The three status counts never exceed the number of rows, and add up to it when every row has a known status |
| Tasks.CountStatusPermutation | app/api/dashboard/stats/route.ts:34-36 | A status count does not depend on the order of the rows |
| DashboardStats.CountsAgainstTotal | app/api/dashboard/stats/route.ts:33-36 | The total is the number of rows; each count counts the rows of its status; the three counts add up to the total exactly when every status is known |
| DashboardStats.UnknownStatusIsUncounted | app/api/dashboard/stats/route.ts:34-36 | A row with any other status makes the three counts fall short of the total |
| DashboardStats.NoTasksNoRates | app/api/dashboard/stats/route.ts:38-40 | With no rows, every rate is 0 |
| DashboardStats.CompletionRateRange | app/api/dashboard/stats/route.ts:38 | Completion rate is completed/total in percent, in [0, 100] |
| DashboardStats.ProductivityRateRange | app/api/dashboard/stats/route.ts:39 | Productivity rate is (completed + in progress)/total in percent, between the completion rate and 100 |
| DashboardStats.ProjectProgressIsCompletionRate | app/api/dashboard/stats/route.ts:38-40 | Project progress always equals the completion rate |
| DashboardStats.StatsOrderIndependent | app/api/dashboard/stats/route.ts:33-40 | All figures depend only on the multiset of rows |
| TaskRoutes.TaskStore.Post | app/api/tasks/route.ts:7-78 | 401 without a session user; then 400 when title or workspace id is missing or empty; then 404 without workspace membership; then 404 when a board id is given that the user is not on. Any error leaves the store and log unchanged. Otherwise it succeeds exactly when all checks pass. It adds under the new id a task owned by the user: priority defaults to MEDIUM, status TODO, no completion time. It logs one CREATE activity "Created task: title", plus " in board" when a board id is given. Consistency of completion times is preserved |
| TaskRoutes.TaskStore.Patch | app/api/tasks/route.ts:80-125 | 401, then 400 "Task ID is required", then 404 unless the user owns that task; success exactly when all checks pass; errors change nothing. The row's status becomes the requested one, or stays as it is when none is sent. Its completion time is set to now exactly when the requested status is COMPLETED, and cleared otherwise. It logs COMPLETE "Completed task: …" or UPDATE "Updated task: …", with "undefined" for a missing title. Consistency is preserved when a status is sent |
| TaskRoutes.TaskStore.Delete | app/api/tasks/route.ts:127-170 | 401, then 400, then 404 unless the user owns that task; success exactly when all checks pass; errors change nothing. That task is removed and every other task kept. It logs DELETE "Deleted task: …", with "null" for a missing title, and answers "Task deleted successfully" |
| TaskRoutes.PatchWithStatusIsConsistent | app/api/tasks/route.ts:105-111 | A PATCH that sends a status sets that status, and sets a completion time exactly when the status is COMPLETED |
| TaskRoutes.PatchWithoutStatusClearsCompletion | app/api/tasks/route.ts:105-111 | As written: a completed task patched without a status stays COMPLETED but loses its completion time |
| TaskRoutes.PatchKeepingCompletionIsConsistent | app/api/tasks/route.ts:105-111 | Corrected PATCH: the same as written whenever a status is sent, and it never makes a consistent row inconsistent |
| TaskRoutes.TaskStore.PatchKeepingCompletion | app/api/tasks/route.ts:80-125 | Corrected handler with the same checks and errors as PATCH: 401, then 400 "Task ID is required", then 404 "Task not found or access denied" unless the user owns that task; success exactly when all checks pass; errors change nothing. On success it writes the row given by the corrected rule and logs the same COMPLETE or UPDATE entry, and every row stays consistent |
| Middleware.PublicPathsAreExact | middleware.ts:10-11 | The public paths are exactly "/", "/auth/signin", "/auth/signup" and "/home", matched whole, not by prefix |
| Middleware.AuthenticatedRouting | middleware.ts:14-16 | A signed-in user is sent to the dashboard exactly on the sign-in and sign-up pages, and passes through everywhere else |
| Middleware.AnonymousRouting | middleware.ts:19-23 | An anonymous request is sent to sign in, with its own URL as callback, exactly when the path is not public and does not start with "/api"; otherwise it passes through |
| Middleware.RedirectsExclusive | middleware.ts:6-25 | Only signed-in users are sent to the dashboard, only anonymous ones to sign in, and a sign-in redirect carries the request URL |
| BoardDetail.BoardDetailModal.HandleAddTask | app/components/boards/BoardDetailModal.tsx:102-124 | A blank or whitespace-only title changes nothing. Otherwise one task is appended with the form's fields, status todo and progress 0; the form is reset to its empty defaults with priority medium; the add form is closed. The list never becomes empty |
| BoardDetail.BoardDetailModal.Analytics | app/components/boards/BoardDetailModal.tsx:151-166 | The panel's total is the list length, and completed + in progress never exceed it |
| BoardDetail.AddTaskKeepsEarlierTasks | app/components/boards/BoardDetailModal.tsx:106-113 | The new list is one longer, starts with the old list, and ends with a todo task at progress 0 that carries the form's title and priority |
| BoardDetail.AnalyticsCounts | app/components/boards/BoardDetailModal.tsx:152-155 | Completed counts only done tasks and in progress only in-progress ones; together they never exceed the total; high-priority tasks never exceed it either |
| BoardDetail.ReviewAndTodoAreUncounted | app/components/boards/BoardDetailModal.tsx:153-154 | Adding a review or todo task leaves both the completed and the in-progress count unchanged |
| BoardDetail.CompletionRateRange | app/components/boards/BoardDetailModal.tsx:164 | Completion rate is done/total in percent, in [0, 100] |
| BoardDetail.AverageProgressRange | app/components/boards/BoardDetailModal.tsx:156 | Average progress is the progress sum over the total, in [0, 100] when every progress value is |
| BoardDetail.SeedAnalytics | app/components/boards/BoardDetailModal.tsx:69-100 | For the three seed tasks: none done, one in progress, two high priority, average progress 55, completion rate 0 |
| BoardDetail.ProgressColorBands | app/components/boards/BoardDetailModal.tsx:145-149 | Green exactly for progress ≥ 80, blue exactly for 50..79, yellow exactly below 50 |
| BoardDetail.ProgressColorMonotone | app/components/boards/BoardDetailModal.tsx:145-149 | More progress never gives a lower band's colour |
| BoardsPage.BoardsPageState.FilteredBoards | app/dashboard/boards/page.tsx:100-103 | A board is shown exactly when it is in the list and its lowercased title or description contains the lowercased query; an empty query shows all boards |
| BoardsPage.BoardsPageState.CreateBoard | app/dashboard/boards/page.tsx:105-115 | One board is appended with the given title, description and view type, 0 tasks, the DocumentTextIcon icon and colour blue; the dialog is closed |
| BoardsPage.BoardsPageState.DeleteBoard | app/dashboard/boards/page.tsx:232-234 | Every board with the given id is removed; exactly the other boards remain, in order |
| BoardsPage.FilterBoardsMembership | app/dashboard/boards/page.tsx:100-103 | The filter keeps exactly the matching boards of the list |
| BoardsPage.EmptyQueryKeepsAll | app/dashboard/boards/page.tsx:100-103 | The empty query keeps the whole list unchanged |
| BoardsPage.FilterKeepsOrder | app/dashboard/boards/page.tsx:100-103 | Filtering keeps list order: the shown boards of a concatenation are each part's shown boards in turn, so a new board is shown last if it matches |
| BoardsPage.QueryIsCaseInsensitive | app/dashboard/boards/page.tsx:100-103 | Lowercasing the query does not change which boards match |
| BoardsPage.IconLookup | app/dashboard/boards/page.tsx:117-131 | Each of the ten icons is found by its own name; any name outside the table gives DocumentTextIcon |
| BoardsPage.BoardIconsAreKnown | app/dashboard/boards/page.tsx:43-98 | Every board, seeded or created, names an icon in the table |
| BoardsPage.ColorLookup | app/dashboard/boards/page.tsx:133-143 | The table has exactly the six colours. Each maps to its own "bg-…-50" and "text-…-600" classes, and any other colour gets blue's |
| TeamPage.TeamPageState.AddMember | app/dashboard/team/page.tsx:79-91 | One member is appended. Its id is the previous length + 1 in decimal. It has the given name, role and avatar, the drawn performance, no tasks, and last active "Just now". Earlier members are unchanged and the new id is unlike every earlier one. It keeps the page invariant: ids are positions, performances lie in [80, 99], and the list is never shorter than the four seed members |
| TeamPage.SeedIdsArePositions | app/dashboard/team/page.tsx:31-72 | The seed ids "1".."4" are the positions plus one |
| TeamPage.IdsAreDistinct | app/dashboard/team/page.tsx:31-81 | While ids are positions plus one, no two members share an id |
| TeamPage.PerformanceRange | app/dashboard/team/page.tsx:85 | A new member's performance is a whole number in [80, 99], never 100, and every value in that range can be drawn |
| TeamPage.FilterMembersMembership | app/dashboard/team/page.tsx:74-77 | A member is shown exactly when its lowercased name or role contains the lowercased query; an empty query shows everyone |
| TeamPage.FilterMembersKeepsOrder | app/dashboard/team/page.tsx:74-77 | The filter keeps the list's order |
| TeamPage.AveragePerformanceBounds | app/dashboard/team/page.tsx:135 | The rounded average performance lies between any lower and upper bound of the members' performances |
| TeamPage.AveragePerformanceInIntegers | app/dashboard/team/page.tsx:135 | The rounded average equals (2 × sum + n) div (2 × n) in integer arithmetic, so halves round up |
| TeamPage.TeamPageState.AveragePerformanceCard | app/dashboard/team/page.tsx:129-138 | The "Avg. Performance" card of the current list is the rounded mean (2 × sum + n) div (2 × n), and it lies in [80, 99], on the list the page keeps non-empty |
| TeamPage.AddMemberKeepsTotals | app/dashboard/team/page.tsx:86-87 | Adding a member leaves the completed and in-progress totals unchanged |
| HomeChart.ClampProperties | app/home/page.tsx:186 | The stored value is in [0, 100]: the value itself when in range, else the nearest bound; clamping twice is clamping once |
| HomeChart.RandomPointRange | app/home/page.tsx:33-37 | A generated value is a whole number in [min, max] when min ≤ max |
| HomeChart.HomeChartState.HandleDataPointChange | app/home/page.tsx:184-188 | Only the point at the index changes, to the clamped value in [0, 100]; the length is kept |
| HomeChart.HomeChartState.ToggleCustomMode | app/home/page.tsx:190-196 | Playback stops and custom mode flips; entering custom mode copies the playback series into the custom series, and leaving keeps it |
| HomeChart.HomeChartState.TogglePlayback | app/home/page.tsx:177-182 | Custom mode is left and playing flips |
| HomeChart.HomeChartState.PlaybackTick | app/home/page.tsx:156-175 | While playing outside custom mode, the playback series becomes six freshly generated values in the data range (`dataRange`); otherwise it is unchanged |
| HomeChart.HomeChartState.DisplayedSeries | app/home/page.tsx:485 | The chart shows the custom series in custom mode, else the playback series while playing, else the static series |
| HomeChart.EditAfterEnteringCustomMode | app/home/page.tsx:184-196 | After entering custom mode and editing one point's number input, the chart shows the playback series with that point clamped, and playback is stopped |
| Welcome.GreetingBands | app/components/dashboard/WelcomeSection.tsx:17-22 | Good morning exactly before 12, Good afternoon exactly for 12..17, Good evening exactly from 18; every hour gets one of the three |
| Welcome.FirstNameProperties | app/components/dashboard/WelcomeSection.tsx:14 | The first name is the text before the first space; it is "User" without a name or when that text is empty; it is never empty and has no space |
| Welcome.SingleWordName | app/components/dashboard/WelcomeSection.tsx:14 | A non-empty name without spaces is its own first name |
| Language.TableFor | app/contexts/LanguageContext.tsx:148 | A table exists exactly for "en" and "es" |
| Language.TablesHaveSameKeys | app/contexts/LanguageContext.tsx:11-123 | The English and Spanish tables define the same keys, including "language.select" |
| Language.LanguageProvider.constructor | app/contexts/LanguageContext.tsx:129 | The provider starts in English, whatever is stored |
| Language.LanguageProvider.RestoreSavedLanguage | app/contexts/LanguageContext.tsx:131-136 | A saved non-empty code is adopted exactly when it has a table; otherwise the language stays as it is |
| Language.LanguageProvider.SetLanguage | app/contexts/LanguageContext.tsx:138-141 | The current and the stored language both become the given code, with no check; a table exists afterwards exactly when the code has one |
| Language.LanguageProvider.Translations | app/contexts/LanguageContext.tsx:148 | The exposed translations are the current language's table, and absent exactly when it has none |
| Language.OfferedCodesWithoutTable | app/components/settings/LanguageModal.tsx:16-27 | The dialog offers ten codes. Only the first two, en and es, have tables |
| Language.LanguageProvider.TranslationsOrDefault | app/contexts/LanguageContext.tsx:148 | Corrected lookup: the current language's table, or the English one when it has none; it always has every key |
| Language.TableOrDefaultIsTotal | app/contexts/LanguageContext.tsx:148 | The fallback table exists for every code, has every key, and agrees with the plain lookup wherever that finds a table |

## Left out

- Database access. This covers the Prisma queries, transactions and the 500 responses when a query throws. The store is a map plus an activity log passed to the handlers.
- Database counts. The analytics counts (`prisma.task.count`) are inputs, not queries.
- Schema constraints. Foreign keys and the schema default status are not modelled; `TODO` is assumed for new tasks.
- Analytics: the route calls `new Date()` afresh for each label and for each task's slot index; the model takes one instant `asOf` for all of them, so a task created right at a slot boundary while the route runs may land in a neighbouring slot in the running program but not in the model.
- HomeChart.HomeChartState: the data-range inputs (`setDataRange`) are not modelled. `rangeMin` and `rangeMax` keep their initial 60 and 100 and are whole numbers, although `Number(e.target.value)` can also give a fractional bound.
- Sessions and tokens. They are parameters (`sessionUserId`, `isAuthenticated`); next-auth itself is not modelled.
- Locale names and calendar arithmetic. The month and weekday names (`toLocaleString`, `setMonth`, `setDate`) are label functions passed in.
- The six-month query window. The analytics route queries rows from the last six months; the histogram counts whatever rows it is given.
- Async misuse in analytics. The route calls its two async helpers without `await`, so their results are promises. `tasks[0]` throws when the user has no tasks. The model takes the counts as already resolved and leaves out both behaviours.
- Floating point. Rates are `real`: no IEEE rounding, no `NaN` and no `Infinity`. `Math.round` is modelled as floor(x + 0.5).
- BoardDetail.CalculateAnalytics: requires a non-empty list, because the source divides by its length without a guard; the dialog class keeps the list non-empty from its seed data.
- TeamPage.AveragePerformance: requires a non-empty list for the same unguarded division. The page's list always holds at least its four seed members, which `TeamPage.TeamPageState.Valid` records and `AveragePerformanceCard` relies on.
- JavaScript property lookup on plain objects. An icon name or language code such as "constructor" finds an inherited property; the tables are modelled as maps.
- Unicode case mapping. `toLowerCase` is modelled on ASCII letters only.
- Null versus undefined in request bodies. A JSON `null` priority bypasses the MEDIUM default; the model treats every missing field as absent.
- Random values and clocks. The ids from the clock and the draws of `Math.random()` are parameters; the same goes for the avatar URL with its random colour and `encodeURIComponent`.
- The playback timer and speed. The interval timer and `playbackSpeed` are not modelled; each tick is a call of `PlaybackTick`.
- HomeChart.HomeChartState.HandleDataPointChange: requires an index inside the custom series, because the page draws one number input per point. An out-of-range index, which JavaScript would use to grow the array, is not modelled.
- Pure styling lookups. `getStatusColor` and `getPriorityColor` in the board dialog, plus all rendering and animation.
- The route matcher configuration. `config.matcher` in the middleware file is not part of this model.
- Pages that only fetch and render. The remaining pages, the activity helper, the users and task-count routes, and the sample data are not part of this model.

## Findings

| source | as written | input that shows it | evidently intended | confidence | as-written member | corrected member |
|---|---|---|---|---|---|---|
| app/api/tasks/route.ts:105-111 | `completedAt` is cleared whenever the requested status is not COMPLETED, including when no status is sent; the status then stays as stored | PATCH `{ id, title }` on a task whose status is COMPLETED: it stays COMPLETED with `completedAt` null, and later "completed in the last 7 days" counts miss it | A PATCH without a status leaves that task, including its completion time, unchanged | not executed | TaskRoutes.PatchWithoutStatusClearsCompletion | TaskRoutes.TaskStore.PatchKeepingCompletion |
| app/contexts/LanguageContext.tsx:138-148 | `setLanguage` stores any code, and `translations` is then the missing table | Choosing French (code "fr", offered at app/components/settings/LanguageModal.tsx:19) leaves `translations` undefined, so reading `translations['language.select']` (LanguageModal.tsx:68) throws | Codes without a table fall back to English | not executed | Language.OfferedCodesWithoutTable | Language.LanguageProvider.TranslationsOrDefault |
