# Financial tracker: a Dafny model of its core logic

The financial tracker is a personal-finance web application. A Django
backend stores categories, transactions and savings goals, and serves a
per-user transaction list and a statistics endpoint (summary totals, a
per-day chart, per-category pies). A React client talks to it through an
HTTP client whose interceptors attach a JWT access token and refresh it
once on a 401. The client also holds the rules behind the dashboard, the
analytics panels and the forms.

This project models that logic as pure Dafny functions over immutable data
and proves what it promises.

| file | module | what it models |
|---|---|---|
| `wrappers.dfy` | `Wrappers` | `Option` |
| `jsmath.dfy` | `JsMath` | `Math.round` of a quotient, `Math.min`, and the `>` comparison, including infinities and NaN |
| `seqs.dfy` | `Seqs` | order-preserving filter and sums (querysets and `Sum` aggregates) |
| `sorting.dfy` | `Sorting` | a stable descending sort (`order_by('-value')`) |
| `models.py` → `models.dfy` | `FinanceModels` | records, field domains, `PROTECT`, goal defaults |
| `views.py` → `views.dfy` | `FinanceViews` | transaction list, statistics (summary, chart, pies), goal list, ownership on create |
| `api.js` → `session.dfy` | `ApiSession` | one call through both interceptors, with refresh and replay |
| `LoginForm.js` → `login.dfy` | `LoginForm` | the submit handler, with the login request going through the client's interceptors, as a trace of effects |
| `RegisterForm.js` → `register.dfy` | `RegisterForm` | field edits, password guard, error extraction |
| `AddTransactionForm.js` → `transaction_form.dfy` | `TransactionForm` | category filter, flow toggle, create vs update |
| `TransactionHistory.js` → `history.dfy` | `TransactionHistory` | month and year pickers, local delete, sign prefix |
| `Dashboard.js` → `dashboard.dfy` | `Dashboard` | state defaults and the failed fetch, recent list, active pie, goal panel, goal requests and their failures |
| `Statistics/*.js` → `analytics.dfy` | `Analytics` | dominant-category share, verdict tiers, recommendations, 20 % saving |

Modelling choices:

- Money is integer kopecks. A `DecimalField(max_digits=10, decimal_places=2)` holds exactly the integers with |k| < 10^10.
- Dates are `(year, month, day)` triples. They are ordered lexicographically and sorted by an injective integer key.
- The clock, the network and the browser are parameters. The server is a function from request to reply, and the refresh endpoint a function from token to reply. The user's answer to `confirm` and whether a request failed are booleans. The page redirect is an output flag.

Points where the code behaves differently from what its comments and the
application's flow might suggest; the model follows the code:

- After a failed refresh, the interceptor rejects the ORIGINAL 401 error, not a separate session-expired error.
- With no refresh token stored, it redirects to `/login` without clearing the store.
- The chart has one point per day that has rows. Empty days are not filled in.
- Pies are grouped by category NAME, not category id. The order among equal values is whatever the database returns; the model picks the grouping order, one of the orders the database may return.
- The login request itself goes through the interceptors. A 401 from the token endpoint therefore triggers the refresh logic. Without a stored refresh token, the page is redirected to `/login` and the connection message is shown. When the refresh fails, the stored session is cleared, the page is redirected and the connection message is shown. When the refresh succeeds, the login is posted a second time, and the replay's answer decides the message and the route.

## Model

| member | source | states |
|---|---|---|
| JsMath.RoundQuotient | frontend/src/components/Statistics/FinancialHabitsAnalysis.js:14 | `Math.round(n/d)` is the integer nearest n/d with halves rounded up; a zero divisor gives an infinity of the numerator's sign, or NaN for 0/0 |
| JsMath.MinWith | frontend/src/components/Dashboard.js:562-569 | `Math.min(r, bound)` never exceeds the bound, maps +Infinity to the bound, and keeps NaN and -Infinity |
| JsMath.Exceeds | frontend/src/components/Statistics/FinancialHabitsAnalysis.js:21-26 | `r > k` compares a finite result with the bound, is false for NaN and -Infinity, and true for +Infinity |
| JsMath.PercentInRange | frontend/src/components/Statistics/FinancialHabitsAnalysis.js:14 | a rounded share of a non-negative part of a positive whole is a finite percentage in 0..100 |
| FinanceModels.ParseFlow | backend/finance/models.py:5-11 | a `type` code is accepted iff it is "IN" or "EX", and reads back to a flow with that code |
| FinanceModels.FlowCodeRoundTrip | backend/finance/models.py:5-8 | each flow's code parses back to it, and the two codes differ |
| FinanceModels.DayKeyFaithful | backend/finance/models.py:21 | the sort key of a date is injective and compares exactly as calendar order |
| FinanceModels.NewGoal | backend/finance/models.py:28-34 | a goal created with only required columns has `current_saved` 0 and `is_active` true, and fits the decimal columns |
| FinanceModels.FlowNotTiedToCategory | backend/finance/models.py:16-20 | a valid transaction may have a negative amount and a flow different from its category's |
| FinanceModels.DeleteCategory | backend/finance/models.py:20 | deleting a category is refused iff some transaction references it; otherwise exactly the rows with that id go and transactions are untouched |
| FinanceModels.DeleteKeepsCategoriesResolved | backend/finance/models.py:20 | after any allowed category delete, every transaction's category still exists |
| FinanceViews.ListQuery | backend/finance/views.py:19-28 | the chain user filter, then optional month, then optional year, selects the same rows as one combined filter |
| FinanceViews.TransactionList | backend/finance/views.py:19-30 | the list is a permutation of the requester's rows in the requested period; every such row is listed and none other; no row is dated before a later one |
| FinanceViews.NewestFirst | backend/finance/views.py:30 | non-increasing date keys mean newest first in calendar order |
| FinanceViews.StatsScope | backend/finance/views.py:43-48 | the statistics rows are the requester's rows within the inclusive bounds, an absent bound being unbounded |
| FinanceViews.StatsScopeBounds | backend/finance/views.py:43-48 | every row behind the statistics is the requester's and in range, and every such stored row is used |
| FinanceViews.FlowTotal | backend/finance/views.py:51-53 | a flow's total is 0 over no rows, and never negative when no amount is |
| FinanceViews.Summarize | backend/finance/views.py:51-55 | balance is income minus expense exactly; no rows give zeros; non-negative amounts give non-negative totals |
| Sorting.SortDesc | backend/finance/views.py:75 | the sort is a permutation and non-increasing by key |
| FinanceViews.AddToChart | backend/finance/views.py:59-67 | adding a row to an ascending chart keeps it strictly ascending by day |
| FinanceViews.AddToChartDays | backend/finance/views.py:59-62 | adding a row adds exactly its day to the chart's days |
| FinanceViews.AddToChartValues | backend/finance/views.py:63-66 | adding a row adds its amount to its own day's income or expense and changes no other day |
| FinanceViews.Chart | backend/finance/views.py:59-68 | the chart is strictly ascending by day |
| FinanceViews.ChartDays | backend/finance/views.py:59-68 | the chart's days are exactly the days that have rows, so no empty day appears |
| FinanceViews.ChartDayValues | backend/finance/views.py:63-66 | each day's income and expense are the sums of that day's rows of each flow |
| FinanceViews.ChartSums | backend/finance/views.py:51-66 | summing the chart's incomes (expenses) gives the income (expense) total |
| FinanceViews.ChartOrdered | backend/finance/views.py:67 | any earlier chart point is on a strictly earlier calendar day |
| FinanceViews.ChartPointsHoldDaySums | backend/finance/views.py:59-66 | every chart point holds its day's income and expense sums |
| FinanceViews.ChartCoversRowDays | backend/finance/views.py:59-68 | a day has a chart point iff some row falls on it |
| FinanceViews.DisplayName | backend/finance/views.py:97 | an empty category name is shown as "Без категории", any other as itself |
| FinanceViews.AddToGroups | backend/finance/views.py:73-74 | adding to a group list keeps names distinct and adds exactly the given name |
| FinanceViews.AddToGroupsValues | backend/finance/views.py:73-74 | adding an amount under a name raises that name's value by it and changes no other name |
| FinanceViews.Groups | backend/finance/views.py:73-74 | grouping gives one entry per category name |
| FinanceViews.GroupsNames | backend/finance/views.py:73 | the group names are exactly the rows' category names |
| FinanceViews.GroupsValues | backend/finance/views.py:74 | each group holds the sum of its name's rows, and the groups add up to the total |
| FinanceViews.PieGroups | backend/finance/views.py:71-83 | a pie is sorted non-increasing by value, has distinct names, and is a permutation of the groups of that flow's rows |
| FinanceViews.PieData | backend/finance/views.py:95-106 | the pie as sent relabels each group's name for display and keeps its value and position |
| FinanceViews.PieSliceValue | backend/finance/views.py:71-83 | a slice holds the total of its flow's rows under its name, and that name occurs among them |
| FinanceViews.PieSliceValues | backend/finance/views.py:71-83 | every slice holds the total of its flow's rows under its name |
| FinanceViews.PieCoversNames | backend/finance/views.py:71-83 | every category name among a flow's rows has a slice in that flow's pie |
| FinanceViews.PieSum | backend/finance/views.py:51-106 | a pie's values add up to its flow's total |
| FinanceViews.Stats | backend/finance/views.py:38-109 | the response's balance is income minus expense, both pies are sorted by value, and the chart is strictly ascending by day |
| FinanceViews.StatsConsistent | backend/finance/views.py:51-106 | the chart's and each pie's sums equal the summary's totals in one response |
| FinanceViews.CreateTransaction | backend/finance/views.py:32-33 | a created transaction is appended owned by the requester, whatever owner the body named |
| FinanceViews.CreatedRowIsListedForCreator | backend/finance/views.py:19-33 | a created transaction appears in its creator's list, and every other user's list is unchanged |
| FinanceViews.GoalList | backend/finance/views.py:115-116 | the goal list holds exactly the requester's goals |
| FinanceViews.CreateGoal | backend/finance/views.py:118-119 | a created goal is appended owned by the requester |
| FinanceViews.CreatedGoalIsListedForCreator | backend/finance/views.py:115-119 | a created goal joins its creator's list (last, in the insertion order the model picks for the unordered queryset), and other users' lists are unchanged |
| ApiSession.Call | frontend/src/services/api.js:15-68 | one call sends the token-bearing request first, makes at most one refresh call and one replay, and a replay is always marked retried; a retried request is never refreshed |
| ApiSession.AttachToken | frontend/src/services/api.js:18-23 | the request interceptor changes only the `Authorization` header: `Bearer <token>` when a truthy access token is stored, and nothing otherwise |
| ApiSession.BearerAttached | frontend/src/services/api.js:18-22 | with an access token stored, the request carries `Bearer <token>`; otherwise it goes out unchanged |
| ApiSession.PassThrough | frontend/src/services/api.js:31-67 | a success, a non-401 error, or a 401 on a retried request settles as received, with the store untouched, no refresh and no redirect |
| ApiSession.RefreshAndReplay | frontend/src/services/api.js:41-56 | a successful refresh overwrites only the access token, replays once with the new token and the retry mark, and returns the replay's own result |
| ApiSession.RefreshFailureLogsOut | frontend/src/services/api.js:57-62 | a failed refresh clears both tokens, redirects to `/login` and rejects with the original error |
| ApiSession.MissingRefreshTokenRedirects | frontend/src/services/api.js:63-67 | with no refresh token, the call redirects, leaves the store as it was and rejects with the original error |
| ApiSession.CallInvariants | frontend/src/services/api.js:37-67 | on every path the refresh token is kept or cleared along with the access token; a redirect rejects the first reply; a refresh uses the stored refresh token |
| ApiSession.ExpiredTokenScenario | frontend/src/services/api.js:37-56 | an expired token followed by a successful refresh yields one refresh, one replay and the replay's 200 |
| LoginForm.Classify | frontend/src/components/LoginForm.js:41-45 | a failure is "wrong credentials" iff its status is 400; any other failure, including no answer, is a connection failure |
| LoginForm.HandleSubmit | frontend/src/components/LoginForm.js:13-48 | the handler turns loading on, clears the error, posts the credentials through the client first, and turns loading off last |
| LoginForm.TransportEffect | frontend/src/services/api.js:37-67 | while the login is awaited, each request the client sends is the login post; the store becomes the one the response interceptor leaves, and the page is on `/login` iff the interceptor redirected |
| LoginForm.SettledEffect | frontend/src/components/LoginForm.js:26-45 | on a resolved call both tokens read from the answer are stored before `onLogin`, then the route becomes the dashboard; on a rejected one only the message classified from its status changes |
| LoginForm.SubmitOutcome | frontend/src/components/LoginForm.js:13-48 | every request the client sends (one, or two after a refresh) carries exactly `{email, password}` and leaves while loading with no error; loading is off after every path; on success the tokens, then the notice, then the dashboard; on failure the classified message, the store the interceptor left, and `/login` iff it redirected |
| LoginForm.FailedLoginEffects | frontend/src/services/api.js:37-67 | a failed login other than 401 keeps store and route; a 401 without a refresh token redirects to `/login` and keeps the store; a 401 whose refresh fails clears the store and redirects; after a successful refresh the login is posted twice, nothing redirects, and the replay's answer decides the outcome: the dashboard on success, its classified message otherwise |
| LoginForm.MessagesDistinct | frontend/src/components/LoginForm.js:41-45 | the two messages differ, and a 401 or no answer gives the connection message |
| RegisterForm.Change | frontend/src/components/RegisterForm.js:16-21 | an edit sets the named field and leaves the other three |
| RegisterForm.ChangeKeepsMatch | frontend/src/components/RegisterForm.js:16-28 | editing the username or e-mail does not change whether the passwords match |
| RegisterForm.FirstErrorMessage | frontend/src/components/RegisterForm.js:40-43 | the message is the first item of the first field's list (undefined when that list is empty), and the generic message when that value is not a list |
| RegisterForm.FailureMessage | frontend/src/components/RegisterForm.js:40-46 | without a truthy response body, the message is the connection error; with one, it is the first-error message |
| RegisterForm.Submit | frontend/src/components/RegisterForm.js:23-50 | loading is off after every path; the form is posted as-is iff the passwords match; navigation to `/login` with the success message happens iff they match and the post succeeds |
| RegisterForm.MismatchSendsNothing | frontend/src/components/RegisterForm.js:28-32 | mismatched passwords show the mismatch message and send nothing, whatever the server would answer |
| RegisterForm.FieldErrorShown | frontend/src/components/RegisterForm.js:40-43 | for a field-keyed error body, the first message of the first field is shown |
| TransactionForm.InitialForm | frontend/src/components/AddTransactionForm.js:21-27 | the form starts as an expense with empty amount, category and description and today's date |
| TransactionForm.FilteredCategories | frontend/src/components/AddTransactionForm.js:93-95 | the offered categories are exactly the loaded ones of the form's flow |
| TransactionForm.FilteredCategoriesKeepOrder | frontend/src/components/AddTransactionForm.js:93-95 | the offered categories keep their loaded order |
| TransactionForm.TogglesPartitionCategories | frontend/src/components/AddTransactionForm.js:93-95 | each loaded category is offered under exactly one of the two flows |
| TransactionForm.ToggleFlow | frontend/src/components/AddTransactionForm.js:128-138 | a toggle sets the flow and clears the category, and keeps amount, date and description |
| TransactionForm.ToggleLastWins | frontend/src/components/AddTransactionForm.js:128-138 | two toggles in a row act as the last one alone |
| TransactionForm.Change | frontend/src/components/AddTransactionForm.js:66-72 | an edit sets the named input only and keeps the flow |
| TransactionForm.EditMode | frontend/src/components/AddTransactionForm.js:19 | edit mode iff the route id is present and non-empty, so an empty id means creating |
| TransactionForm.SubmitRequest | frontend/src/components/AddTransactionForm.js:18-84 | with a truthy route id the form is PUT to `transactions/<id>/`; otherwise it is POSTed to `transactions/`; the body is the form |
| TransactionForm.EditPathsDistinct | frontend/src/components/AddTransactionForm.js:80-84 | an update never targets the creation path, and different ids target different paths |
| TransactionForm.Submit | frontend/src/components/AddTransactionForm.js:74-91 | on failure the error is shown and loading reset; on success the page goes to the dashboard with no error |
| TransactionHistory.MonthsInOrder | frontend/src/components/TransactionHistory.js:16-29 | the month picker lists ids 1 to 12 in order |
| TransactionHistory.DefaultMonth | frontend/src/components/TransactionHistory.js:12 | the preselected month is the clock's zero-based month plus one, a valid picker id |
| TransactionHistory.YearOptions | frontend/src/components/TransactionHistory.js:32 | five strictly descending years starting at the current one, exactly the years current-4 to current |
| TransactionHistory.Listing | frontend/src/components/TransactionHistory.js:40-45 | the page shows exactly the user's stored rows of the picked month and year, each as often as stored, newest first |
| TransactionHistory.HandleDelete | frontend/src/components/TransactionHistory.js:58-69 | a declined confirm changes nothing and sends nothing; a failed delete alerts and keeps the list; the list only ever loses entries |
| TransactionHistory.DeleteRemovesExactly | frontend/src/components/TransactionHistory.js:63 | a successful delete removes every entry with that id and keeps every other |
| TransactionHistory.DeleteKeepsOrder | frontend/src/components/TransactionHistory.js:63 | the remaining entries keep their order |
| TransactionHistory.DeleteIdempotent | frontend/src/components/TransactionHistory.js:63 | deleting the same id again changes nothing |
| TransactionHistory.SignPrefix | frontend/src/components/TransactionHistory.js:76 | the sign is "+" iff the type code is "IN", and "-" otherwise |
| TransactionHistory.FormatAmount | frontend/src/components/TransactionHistory.js:71-77 | the shown amount is the formatted text behind one sign character, "+" iff the type is "IN" |
| TransactionHistory.SignOfFlow | frontend/src/components/TransactionHistory.js:76 | incomes are shown with "+", expenses with "-" |
| Dashboard.Recent | frontend/src/components/Dashboard.js:101 | the recent list is the first min(5, n) entries, in order |
| Dashboard.RecentIgnoresTail | frontend/src/components/Dashboard.js:101 | entries after the fifth never appear, and taking the recent list twice changes nothing |
| Dashboard.Load | frontend/src/components/Dashboard.js:74-108 | a missing summary gives zeros, a missing list gives an empty one, and present values are kept |
| Dashboard.Fetch | frontend/src/components/Dashboard.js:59-112 | answered, the state is filled from the answers; when any request fails, the previous state is kept |
| Dashboard.LoadFromServer | frontend/src/components/Dashboard.js:61-108 | loaded from the server's answers, balance is income minus expense, each pie adds up to its total, and the recent entries are the user's, newest first |
| Dashboard.ActivePie | frontend/src/components/Dashboard.js:169-172 | the expense pie is shown for "EX" and the income pie for anything else |
| Dashboard.ActivePieTotal | frontend/src/components/Dashboard.js:169-172 | the active pie adds up to the total of the flow whose code is selected |
| Dashboard.GoalProgress | frontend/src/components/Dashboard.js:562-569 | progress is never +Infinity, is at most 100 when finite, and is finite for a positive target |
| Dashboard.ProgressInRange | frontend/src/components/Dashboard.js:562-569 | with a positive target and non-negative savings, progress is in 0..100, and is 100 iff 200 * saved >= 199 * target, so once the target is reached |
| Dashboard.FullBarBeforeCompletion | frontend/src/components/Dashboard.js:542-569 | 995 of 1000 shows a full bar while the goal is not completed |
| Dashboard.ProgressOfZeroTarget | frontend/src/components/Dashboard.js:562-569 | a zero target shows 100 when something is saved and NaN when nothing is |
| Dashboard.Completed | frontend/src/components/Dashboard.js:542-549 | a goal that the badge calls completed, with a positive target, always shows a full bar |
| Dashboard.FirstActive | frontend/src/components/Dashboard.js:558-560 | the bar's goal is the first active goal, and there is none iff no goal is active |
| Dashboard.Panel | frontend/src/components/Dashboard.js:539-569 | the badge exists iff there are goals and reports whether `goals[0]` is completed; the bar shows the first active goal's progress |
| Dashboard.BadgeAndBarDisagree | frontend/src/components/Dashboard.js:539-569 | an inactive completed first goal shows "completed" over another goal's 0 % bar |
| Dashboard.BadgeAndBarAgree | frontend/src/components/Dashboard.js:539-569 | when the first goal is active, badge and bar describe it, and a completed one shows a full bar |
| Dashboard.CreateGoalRequest | frontend/src/components/Dashboard.js:119-129 | a goal is posted iff the title is non-empty and the target positive, with saved 0 and active true, the model's column defaults |
| Dashboard.HandleCreateGoal | frontend/src/components/Dashboard.js:118-141 | the POST is the guarded request; a failed POST alerts; only a successful one closes the modal and fetches again |
| Dashboard.CreatedGoalStartsEmpty | frontend/src/components/Dashboard.js:124-129 | a newly created goal is not completed and shows a 0 % bar |
| Dashboard.FindGoal | frontend/src/components/Dashboard.js:149 | the lookup finds the first loaded goal with the id, and none iff no loaded goal has it |
| Dashboard.AddContribution | frontend/src/components/Dashboard.js:144-166 | a non-positive amount does nothing; a PATCH of the old saved amount plus the amount is sent iff a loaded goal has the id; the alert appears iff the amount is positive and the goal is unknown or the PATCH fails; only a successful PATCH closes the modal and fetches again |
| Dashboard.ContributionIncreases | frontend/src/components/Dashboard.js:145-154 | a sent contribution raises the saved amount of the first loaded goal with that id |
| Analytics.TopPercent | frontend/src/components/Statistics/FinancialHabitsAnalysis.js:12-14 | the first entry's rounded share is a finite number iff the list's total is non-zero |
| Analytics.TopPercentInRange | frontend/src/components/Statistics/FinancialHabitsAnalysis.js:12-14 | with non-negative values and a positive total, the share is in 0..100 |
| Analytics.FirstIsNotTheLargest | frontend/src/components/Statistics/FinancialHabitsAnalysis.js:13-14 | the first entry is used even when a later one is larger |
| Analytics.ServerFirstIsLargest | backend/finance/views.py:78-83 | in the server's expense pie the first entry is the largest |
| Analytics.Total | frontend/src/components/Statistics/FinancialHabitsAnalysis.js:12 | the total of no entries is 0, and with no negative value every entry lies between 0 and the total |
| Analytics.TierOf | frontend/src/components/Statistics/FinancialHabitsAnalysis.js:16-31 | "too large" iff above 50, "watch" iff above 30 and at most 50, "balanced" iff at most 30; NaN stays balanced |
| Analytics.TierBoundaries | frontend/src/components/Statistics/FinancialHabitsAnalysis.js:21-30 | 50 is "watch" and 30 is "balanced" |
| Analytics.Habits | frontend/src/components/Statistics/FinancialHabitsAnalysis.js:3-31 | a missing or empty list gives the placeholder; otherwise the first entry's name, share and tier |
| Analytics.HalfIsWatch | frontend/src/components/Statistics/FinancialHabitsAnalysis.js:12-30 | expenses of 150, 120 and 30 give the first exactly 50 %, a "watch" verdict and the "watch" advice |
| Analytics.Advice | frontend/src/components/Statistics/FinancialRecommendations.js:14-32 | each tier has three lines; the upper tiers name the category in line one, "too large" says more than half of all spending, and exactly "balanced" gives the fixed advice |
| Analytics.LastLineLength | frontend/src/components/Statistics/FinancialRecommendations.js:18-31 | each tier's closing line, which does not depend on the name, has its own length (60, 53 and 57 characters) |
| Analytics.AdviceDistinct | frontend/src/components/Statistics/FinancialRecommendations.js:14-32 | different tiers never give the same lines, whatever the category names |
| Analytics.Recommendations | frontend/src/components/Statistics/FinancialRecommendations.js:3-32 | a missing or empty list gives no lines; otherwise exactly three |
| Analytics.RecommendationsFollowVerdict | frontend/src/components/Statistics/FinancialRecommendations.js:14-32 | for any non-empty list, the lines shown are the advice of the tier the habits verdict gives, with the first category's name, so both use the same > 50 and > 30 boundaries |
| Analytics.PossibleSaving | frontend/src/components/Statistics/MaxCategorySaving.js:19-20 | the saving is the nearest whole rouble to 20 % of the value |
| Analytics.SavingBounded | frontend/src/components/Statistics/MaxCategorySaving.js:20 | for a non-negative value the saving is non-negative and no larger than the value |
| Analytics.SavingMonotone | frontend/src/components/Statistics/MaxCategorySaving.js:20 | a larger value never gives a smaller saving |
| Analytics.Saving | frontend/src/components/Statistics/MaxCategorySaving.js:3-20 | a missing or empty list gives the placeholder; otherwise the first entry, the fixed 20 % cut and its saving |
| Analytics.PanelsAgree | frontend/src/components/Statistics/MaxCategorySaving.js:4-18 | the three panels agree on when there is data, and the habits and saving panels show the same share |

## Left out

- `parseFloat`/`parseNum` and binary floating point: amounts are exact integers of kopecks, and `Math.round` is exact half-up rounding of rationals.
- `Intl.NumberFormat`, `toLocaleString`, `getFontSizeClass` and `strftime('%d.%m')` labels: the locale's text is a parameter (`FormatAmount`) or is not modelled.
- Rendering: JSX, styles and icons. Only the values a component shows are modelled.
- Concurrency: the three parallel dashboard requests, each able to start its own refresh, are not modelled. One call is modelled at a time.
- `localStorage`, `window.location`, `confirm`, `alert` and router navigation: these are state fields, parameters or output values.
- Axios configuration (base URL, 10-second timeout): a timeout is a `NoResponse` reply.
- The ORM and SQL translation, serializers, permission classes, URL routing, the user model and `on_delete=CASCADE` of users.
- FinanceViews.CreateTransaction and FinanceViews.CreateGoal keep the `id` given in the row. The database assigns it, and the serializer makes it read-only; the model does not allocate ids.
- FinanceViews.CreateGoal assumes the request passes validation. `UserSavingGoalSerializer` lists `fields = '__all__'` (backend/finance/serializers.py:16-19), which makes `user` a required input, so the dashboard's goal POST, which sends no `user`, is likely refused with a 400 before `perform_create` runs. This validation is not modelled.
- FinanceViews.GoalList and FinanceViews.CreatedGoalIsListedForCreator: the goal queryset (backend/finance/views.py:115-116) has no `order_by` and `UserSavingGoal` has no `Meta.ordering`, so the database may return goals in any order, and an update may change it. The model picks insertion order, one of the orders the database may return; the claim that a new goal comes last, and which goal is `goals[0]` in `Dashboard.Panel`, hold for that order only.
- Real dates: the current date is a parameter, and days per month are not checked (any day 1..31 is a date).
- `Object.values` enumeration order: an error body is given as its keys in enumeration order, so the integer-key reordering JavaScript applies is not modelled.
- Pagination (`response.data.results`): lists are taken as the plain arrays the views return.
- Malformed query parameters: `month`, `year`, `start_date` and `end_date` reach the ORM as raw strings, and one that is not a number or a date makes the lookup raise a server error. The model takes them as already parsed (`Option<int>`, `Option<Date>`), so `FinanceViews.ListQuery`, `FinanceViews.TransactionList`, `FinanceViews.StatsScope` and `FinanceViews.Stats` do not model that error path.
- Reading the login answer's body (`response.data`) is a parameter of `LoginForm.HandleSubmit`: the model does not follow a body without `access` or `refresh`.
- Fetching categories and the edited transaction in the transaction form: their results are parameters (`FilteredCategories`' input and the form state).
- Category listing (`CategoryViewSet`): it is a plain queryset of all rows with no logic to state.
