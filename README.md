# taskmind, modelled in Dafny

taskmind is a Next.js task manager with an advisory assistant. Users keep tasks, each with a
title, a status (pending, in progress, done), a priority (low, medium, high), an optional due
date and a creation time. Around the task store sits a deterministic analysis layer:
- it picks up to three focus tasks for today, with a reason for each;
- it ranks tasks for a summary and writes summary, warning and tip texts;
- it classifies deadline risk into at most three warnings and a low, medium or high tier;
- it answers a few canned chat questions, memoising replies for 30 seconds.

An assistant may suggest changes to a task. A route applies them only after a fixed sequence of
guards, and only to whitelisted fields. The rest of the core is made of small validators and
state machines:
- the task routes and the weekly-summary route;
- the extraction and shape check of a language model's JSON answer;
- the authentication redirect middleware;
- the assistant preferences kept in browser storage;
- the dashboard's list updates and filter;
- the task form, the status cycle, the onboarding steps, the weekly summary card, the profile
  page and the task statistics.

The model has one module per source file:

| module | source |
|---|---|
| `Common` | shared values: options, JSON values, moments, strings, counting, filtering, stable sorting, integer parsing |
| `TaskModel` | models/Task.ts |
| `AiRules` | lib/ai.ts |
| `DeadlineRisk` | lib/deadline-risk.ts |
| `AiActions` | lib/ai-actions.ts |
| `ApplyRoute` | app/api/ai/actions/apply/route.ts |
| `TasksRoute` | app/api/tasks/route.ts |
| `WeeklySummaryRoute` | app/api/ai/weekly-summary/route.ts |
| `OpenAi` | lib/openai.ts |
| `Middleware` | middleware.ts |
| `AiPreferences` | lib/ai-preferences.ts |
| `Assistant` | components/AIAssistant.tsx |
| `Dashboard` | app/dashboard/page.tsx |
| `TaskModal` | components/TaskModal.tsx |
| `TaskList` | components/TaskList.tsx |
| `Onboarding` | components/Onboarding.tsx |
| `WeeklySummaryView` | components/WeeklySummary.tsx |
| `Profile` | components/profile/ProfileClient.tsx |
| `TaskStats` | components/TaskStats.tsx |

Pure logic becomes datatypes, functions and lemmas. Code that changes state becomes a class:
- the chat cache and the focus picker's loop;
- the stored task the apply route updates;
- the preference store, the client memo and the assistant's queues;
- the dashboard list, the task form, the onboarding dialog, the summary card and the profile page.

Each class method states its whole new state in terms of specification functions, and the
properties are proved about those functions. Days are integers, with day 0 being 1 January 1970.
A moment is a day plus a time of day in milliseconds. Wherever the source compares full
timestamps, so does the model.

Some behaviour of the code is easy to miss; the model keeps it as written:
- The chat reply cache is keyed only by the lower-cased, trimmed message and the number of
  tasks (lib/ai.ts:73). A different task list with the same count, or the same message in
  other case or spacing, hits the same entry, so within 30 seconds a reply can be stale.
  `AiRules.RepeatWithinTtlIsCached` proves exactly this.
- `summarizeTasks` and `chatReply` compare due dates with a full timestamp, so a task due today
  already counts as overdue there (lib/ai.ts:23, 88). `insightsForToday` compares at midnight.
- The task statistics count the status "completed", which no stored task has. The completed
  count and the completion rate are therefore always 0 (`TaskStats.CompletedNeverCounted`).

## Model

| member | source | states |
|---|---|---|
| AiActions.ParseActionType | lib/ai-actions.ts:5-12 | a string reads as an action type exactly when it is one of the four names of `AI_ACTION_TYPES`; otherwise no type bears it |
| AiActions.IsActionTypeExactly | lib/ai-actions.ts:34-36 | `isAIActionType` holds iff the string is the name of one of the four action types |
| AiActions.SanitizeSuggestedChange | lib/ai-actions.ts:38-46 | the loop over the whitelist returns exactly the whitelisted keys whose raw value is defined, with their raw values |
| AiActions.SanitizedKeys | lib/ai-actions.ts:15-23 | every key of a sanitised change is one of the seven allowed keys; a key is kept iff allowed and defined, and its value is unchanged |
| AiActions.SanitizeIdempotent | lib/ai-actions.ts:38-46 | sanitising a sanitised change returns it unchanged |
| AiActions.SanitizedEmpty | lib/ai-actions.ts:42-44 | the result is empty iff no allowed key has a defined value |
| AiPreferences.PreferenceStore.constructor | lib/ai-preferences.ts:7 | the store starts with the given `localStorage` item and no events dispatched |
| AiPreferences.PreferenceStore.GetPreferences | lib/ai-preferences.ts:24-39 | the preferences read are the defaults overridden by the parsed item's fields, or the defaults without a window, an item or a parse; all three default keys are always present |
| AiPreferences.PreferenceStore.Save | lib/ai-preferences.ts:44-57 | without a window nothing changes; otherwise the item becomes the serialised merge of the current preferences and the update, and one `aiPreferencesChanged` event carries that merge |
| AiPreferences.PreferenceStore.Reset | lib/ai-preferences.ts:84-88 | without a window nothing changes; otherwise the item is removed and one event carries the defaults |
| AiPreferences.NothingStoredGivesDefaults | lib/ai-preferences.ts:15-38 | with no window, no item, an empty item, an unparsable item or an empty record, the preferences are the defaults: enabled, manual insights, short answers |
| AiPreferences.StoredFieldsOverride | lib/ai-preferences.ts:29-33 | a stored field wins over its default, a default survives only where nothing is stored, and the keys are the union of both |
| AiPreferences.SaveThenLoad | lib/ai-preferences.ts:44-50 | when serialisation round-trips JSON values, reading after a save of JSON values gives exactly the merged preferences that were saved |
| AiPreferences.LoadIsJsonSafe | lib/ai-preferences.ts:24-39 | the preferences read back hold only JSON values: the defaults and what `JSON.parse` produced |
| AiPreferences.DefaultsAbsorbed | lib/ai-preferences.ts:32 | merging the defaults under preferences that already hold every default key leaves them unchanged |
| AiPreferences.ResetThenLoad | lib/ai-preferences.ts:84-88 | reading after a reset gives the defaults |
| AiPreferences.ShowDailyMeaning | lib/ai-preferences.ts:69-72 | daily insights show iff enabled and the frequency is "daily", hence never with the defaults |
| AiRules.PriorityRank | lib/ai.ts:129-133 | the rank lies in 1..3, and is 3 exactly for high and 2 exactly for medium priority |
| AiRules.DaysBetween | lib/ai.ts:124-127 | the whole days between the two midnights: 0 iff the same day, positive iff the first midnight comes earlier, and moving the first day by it lands on the second |
| AiRules.SortByTitle | lib/ai.ts:153 | `sortByTitle` returns a permutation of its input, ordered by title |
| AiRules.AddFromKeeps | lib/ai.ts:170-177 | one `addFrom` keeps `seen` equal to the chosen titles and those distinct, chooses at most three, only appends tasks of its pool, and stops short of three only after every title of the pool is seen |
| AiRules.AddFromPoolsKeeps | lib/ai.ts:179-183 | the guarded `addFrom` calls keep the same invariant over all five pools; fewer than three chosen means every pool's titles were seen |
| AiRules.ReasonFor | lib/ai.ts:185-193 | the focus reason: overdue by the day count iff due before today, "Due today" iff due today, "High priority" iff high and not due by today, "Due in 1–2 day(s)" iff not high and due in one or two days, otherwise "Recommended for today" |
| AiRules.InsightWarnings | lib/ai.ts:195-197 | the overdue warning appears iff some task is overdue, the overload warning iff more than five active high-priority tasks, and no other |
| AiRules.InsightTip | lib/ai.ts:199-201 | the overdue tip iff something is overdue; otherwise the overload tip iff more than three high-priority tasks; otherwise the default tip |
| AiRules.FocusTasks | lib/ai.ts:185-193 | one focus entry per chosen task, in order, carrying its title |
| AiRules.FocusPicker.constructor | lib/ai.ts:168-169 | `chosen` and `seen` start empty |
| AiRules.FocusPicker.AddFromLoop | lib/ai.ts:170-177 | the loop with `continue` and `break` leaves `chosen` and `seen` as the reference `addFrom` does |
| AiRules.InsightsForToday | lib/ai.ts:140-218 | the imperative `insightsForToday` returns exactly the reference insights |
| AiRules.InsightsFocusProperties | lib/ai.ts:168-185 | at most three focus tasks, with distinct titles, each the title of an input task; fewer than three only when every input title is among them |
| AiRules.OverdueComesFirst | lib/ai.ts:179-193 | with an active overdue task on the given day, the first task chosen for focus is an input task that is overdue, and its focus entry reads "Overdue by N day(s)" with N its days overdue |
| AiRules.FirstPoolLeads | lib/ai.ts:179 | a non-empty first pool supplies the first chosen task |
| AiRules.InsightsGreatJob | lib/ai.ts:203-210 | the summary is "No active tasks — great job!" iff no task is active |
| AiRules.DueTodayOverdueAfterMidnight | lib/ai.ts:23 | a task due today counts as overdue for `summarizeTasks` at any instant after midnight, while `insightsForToday` does not count it |
| AiRules.FocusLeMeaning | lib/ai.ts:29-35 | the priority comparator orders by rank descending, then by due date with missing dates last, then by creation time |
| AiRules.FocusLeConnex | lib/ai.ts:29-35 | the comparator relates every pair in one direction at least |
| AiRules.TopPending | lib/ai.ts:28-36 | the top list has min(3, active count) entries |
| AiRules.TopPendingActiveSorted | lib/ai.ts:25-36 | the top entries are active input tasks, ordered by the comparator |
| AiRules.FindById | lib/ai.ts:49 | finds a task iff some task carries that id (an absent id matches an id-less task), returning one such task |
| AiRules.FindByIdIsFirst | lib/ai.ts:49 | the task found is the first in list order with that id, as `find` returns |
| AiRules.IdlessPicksExplainFirstTask | lib/ai.ts:48-63 | when no task carries an id, every lookup finds the first task, so each pick is explained by its reasons: the first pick at the given day, later picks at the day that lookup left behind |
| AiRules.SummarizeWithoutIds | app/api/ai/chat/route.ts:26-31 | for tasks read without their ids, as the chat route reads them, every priority of the summary is explained by the first task of the list |
| AiRules.ReasonsForMeaning | lib/ai.ts:50-58 | "marked high priority" iff high; "overdue" iff the due midnight precedes the current instant; "due soon" iff at most two days past due and not done; a dated task truncates the shared `today` to midnight |
| AiRules.OverdueNotes | lib/ai.ts:40 | one overdue note per overdue task |
| AiRules.TipsFor | lib/ai.ts:115-122 | one to three tips: the reschedule tip iff overdue, the overload tip iff more than three high-priority tasks, the focus tip iff more than five pending, and the momentum tip alone otherwise |
| AiRules.GenerateTips | lib/ai.ts:115-122 | the pushes build exactly the reference tips |
| AiRules.SummarizeTasks | lib/ai.ts:21-69 | the imperative `summarizeTasks` returns exactly the reference summary |
| AiRules.ReasonPicks | lib/ai.ts:48-61 | the loop over the top tasks yields the reference reasoned picks, threading the truncated `today` |
| AiRules.CollectReasons | lib/ai.ts:50-58 | the reason pushes and the in-place truncation match the reference reasons and the new `today` |
| AiRules.SummarizeRanksActiveTasks | lib/ai.ts:28-37 | the priorities are min(3, active) entries, carrying the ids and titles of the sorted active tasks |
| AiRules.PicksShape | lib/ai.ts:48-61 | one reasoned pick per top task, with its id and title |
| AiRules.PicksAlwaysFound | lib/ai.ts:49-51 | a top task always finds a task with its id, so "Task still exists in your list" is never the reason |
| AiRules.OverdueNotesNonNegative | lib/ai.ts:40 | every overdue note reports a non-negative day count |
| AiRules.SummarizeGreatJob | lib/ai.ts:108-113 | the summary is "No active tasks — great job!" iff no task is active |
| AiRules.IntentOf | lib/ai.ts:80-94 | a focus question iff one of the three phrases occurs; otherwise an overdue question iff "overdue" occurs; a plan request only with "plan" |
| AiRules.PlanIntent | lib/ai.ts:91 | a plan request iff no focus phrase and no "overdue" occur and "plan" does ("help me plan" adds nothing) |
| AiRules.FindMentioned | lib/ai.ts:96 | finds a task iff the lowered message contains some lowered title, and the task found is the first in list order whose title is mentioned |
| AiRules.Details | lib/ai.ts:98 | the details are the description's first 200 characters (all of a shorter one), and "no details" exactly when the description is missing or empty |
| AiRules.FocusWithoutActiveTasks | lib/ai.ts:81-83 | a focus question over tasks that are all done gets the "no active tasks" reply |
| AiRules.UnknownMessageFallsBack | lib/ai.ts:94-101 | an unclassified message that names no task title gets the fallback reply |
| AiRules.ChatKeyInjective | lib/ai.ts:73 | two chat keys are equal only for the same normalised message and the same task count |
| AiRules.Lookup | lib/ai.ts:7-15 | an entry is served iff present and no older than 30 seconds, with its stored payload |
| AiRules.RepeatWithinTtlIsCached | lib/ai.ts:71-75 | a repeat of the same normalised message over as many tasks within 30 seconds returns the first reply, whatever the tasks now are |
| AiRules.ExpiredIsRecomputed | lib/ai.ts:10-13 | an expired entry is dropped, the reply recomputed and stored with the current time |
| AiRules.ChatCache.constructor | lib/ai.ts:4 | the cache starts empty |
| AiRules.ChatCache.Get | lib/ai.ts:7-15 | returns the live entry's payload, and deletes an expired entry |
| AiRules.ChatCache.Set | lib/ai.ts:17-19 | stores the payload under the key with the current time |
| AiRules.ChatCache.ChatReply | lib/ai.ts:71-106 | returns the cached reply or the computed one, and leaves the cache as the reference lookup-then-store does |
| ApplyRoute.CoerceDueDate | app/api/ai/actions/apply/route.ts:71-75 | a falsy `dueDate` becomes `null`, a parsable one the date it names, and any other an invalid date |
| ApplyRoute.PathOf | lib/ai-actions.ts:15-23 | a key names a task path exactly when it is one of the seven allowed keys |
| ApplyRoute.CopyDefined | app/api/ai/actions/apply/route.ts:67-70 | the copy loop keeps exactly the entries whose value is defined |
| ApplyRoute.SetFieldEffect | app/api/ai/actions/apply/route.ts:77 | assigning one path stores the value there and leaves the id, the owner, the creation time and every other path unchanged |
| ApplyRoute.AssignKeysEffect | app/api/ai/actions/apply/route.ts:77 | `Object.assign` over a key list changes exactly the listed paths present in the change |
| ApplyRoute.RejectionWritesNothing | app/api/ai/actions/apply/route.ts:15-107 | every rejection (400, 401, 403, 404, 500) leaves the task collection unchanged |
| ApplyRoute.GuardOrder | app/api/ai/actions/apply/route.ts:20-65 | a missing token or unknown user gives 401 before anything else; a signed-in request without a string `targetTaskId` gives 400; 404 and 403 arise only after the id and a non-empty whitelisted change have passed |
| ApplyRoute.SavedOnlyWhenGuardsPass | app/api/ai/actions/apply/route.ts:55-99 | a save happens only for a signed-in owner of an existing task with a non-empty change; only that task changes, as the coerced assignment says, and the answer projects it with `""` defaults; no tags are stored, but the answer echoes a suggested non-null `tags`, which `Object.assign` left on the document, and gives `[]` otherwise |
| ApplyRoute.AssignChangesOnlyNamedPaths | app/api/ai/actions/apply/route.ts:67-77 | after the update, paths the change does not name keep their values and the named ones (other than `dueDate`) hold the suggested values; id, owner and creation time never change |
| ApplyRoute.AssignCoercesDueDate | app/api/ai/actions/apply/route.ts:71-77 | the stored due date is cleared by a falsy suggestion and otherwise becomes the parsed date |
| ApplyRoute.TaskCollection.constructor | app/api/ai/actions/apply/route.ts:55-57 | the collection holds the given tasks |
| ApplyRoute.TaskCollection.Apply | app/api/ai/actions/apply/route.ts:15-107 | the handler's answer and the new collection are those of the reference outcome |
| Assistant.GenerateSuggestions | components/AIAssistant.tsx:336-401 | the pushes and the final slice yield exactly the reference list of tips |
| Assistant.RenderTellsKindsApart | components/AIAssistant.tsx:344-398 | each rule pushes its tip with its own icon, so tips of different rules never share one, and the welcome tip's text is the fixed sentence |
| Assistant.SuggestionsShape | components/AIAssistant.tsx:342-400 | one to four tips; the welcome tip alone iff no rule fires, and no rule fires iff there is no high-priority, due-today, complex or done task and at most three pending ones |
| Assistant.SuggestionsOrdered | components/AIAssistant.tsx:344-390 | the tips keep the fixed order high priority, due today, break down, completed, spread, each at most once |
| Assistant.Tagged | components/AIAssistant.tsx:48-54 | each added suggestion gets its own id, consecutive from the next free one, in order |
| Assistant.AssistantState.constructor | components/AIAssistant.tsx:31-44 | no insights, no messages, an empty input, an empty suggestion queue and nothing being applied |
| Assistant.AssistantState.AddSuggestions | components/AIAssistant.tsx:48-54 | the new suggestions are appended, each with a fresh id, and nothing else changes |
| Assistant.AssistantState.Dismiss | components/AIAssistant.tsx:56-58 | the queue loses exactly the entries with that id, in order, and nothing else changes |
| Assistant.AssistantState.Apply | components/AIAssistant.tsx:60-82 | a successful apply dismisses the suggestion and reports an update; a failure keeps the queue and alerts the error or the fallback text; either way nothing is left applying |
| Assistant.AssistantState.SendChat | components/AIAssistant.tsx:84-118 | a blank input does nothing; otherwise the trimmed user message and the reply are appended, the input cleared, and the reply's suggestions queued |
| Assistant.AssistantState.FetchInsights | components/AIAssistant.tsx:141-163 | an answer other than `null` becomes the insights, and its suggestion array is queued with consecutive ids; a failure or a `null` body (reading `data.suggestions` then throws) shows "No insights available today" and queues nothing; nothing else changes |
| Assistant.FilterKeepsOrder | components/AIAssistant.tsx:56-58 | dismissing keeps the queue's ids increasing and below the next free id |
| Assistant.DismissRemovesExactly | components/AIAssistant.tsx:57 | an entry survives a dismissal iff it was queued and has a different id |
| Assistant.CardTruncates | components/AIAssistant.tsx:208-227 | the card shows at most two focus tasks and two warnings, taken from the front, and a "+n more" exactly when more than two focus tasks exist, n being the rest |
| Dashboard.FilteredMeaning | app/dashboard/page.tsx:32-40 | the filtered list keeps the tasks' order, holds exactly the tasks that match status, category and search, and is the whole list with "all", "all" and a blank query |
| Dashboard.SearchIgnoresCase | app/dashboard/page.tsx:35-38 | queries that lower-case alike select the same tasks |
| Dashboard.LowerKeepsSpaces | app/dashboard/page.tsx:36-37 | lower-casing the query keeps its white space where it was, so the blank test is unaffected |
| Dashboard.FetchParamsMeaning | app/dashboard/page.tsx:45-48 | at most three parameters: the status iff one is chosen, the category iff it is non-empty and not "all", the trimmed search iff non-blank |
| Dashboard.DistinctMeaning | app/dashboard/page.tsx:131 | the distinct categories have no duplicates, the same members as the input, form a subsequence of it, and come in the order of their first occurrence in the input |
| Dashboard.CategoriesMeaning | app/dashboard/page.tsx:131 | the category list starts with "all", then holds every task's category once, ordered by where each category first occurs among the tasks |
| Dashboard.ReplaceById | app/dashboard/page.tsx:88 | replacing by id keeps the list's length |
| Dashboard.ReplaceByIdMeaning | app/dashboard/page.tsx:88 | every task with the answered id is replaced by the answered task, and every other task is kept in place |
| Dashboard.DeleteMeaning | app/dashboard/page.tsx:103 | after a delete, exactly the tasks with another id remain, in order |
| Dashboard.DashboardState.constructor | app/dashboard/page.tsx:22-29 | no tasks, no alerts, the modal closed and nothing being edited |
| Dashboard.DashboardState.FetchTasks | app/dashboard/page.tsx:42-60 | a fetched list replaces the tasks; a failed fetch alerts "Failed to fetch tasks" and keeps them |
| Dashboard.DashboardState.AddTask | app/dashboard/page.tsx:62-77 | a created task goes first and the modal closes; a failure alerts the server's error or "Failed to create task" and changes nothing else |
| Dashboard.DashboardState.UpdateTask | app/dashboard/page.tsx:79-95 | an updated task replaces the one with its id, editing ends and the modal closes; a failure only alerts |
| Dashboard.DashboardState.StatusChange | app/dashboard/page.tsx:115-129 | the answered task replaces the one with its id; a failure only alerts "Failed to update status" or the server's error |
| Dashboard.DashboardState.DeleteTask | app/dashboard/page.tsx:97-108 | nothing happens unless confirmed; a confirmed delete removes every task with that id; a failure only alerts |
| DeadlineRisk.DaysUntil | lib/deadline-risk.ts:33-39 | the whole days from today's midnight to the due day's midnight: negative iff the due day is past, 0 iff it is today |
| DeadlineRisk.OverdueAndUpcomingDisjoint | lib/deadline-risk.ts:59-82 | no task is both overdue and upcoming |
| DeadlineRisk.Analysis | lib/deadline-risk.ts:107-124 | at most three warnings, and the note is present, with its fixed text, iff some warning was emitted |
| DeadlineRisk.WarningsFollowRules | lib/deadline-risk.ts:58-105 | warnings come in the order overdue, upcoming, overload, each at most once; overdue appears iff an active task is past due, upcoming iff one is due in 0–3 days, overload iff at least four active high-priority tasks are due in 0–7 days |
| DeadlineRisk.TierRules | lib/deadline-risk.ts:110-113 | the risk is high iff something is overdue or at least five high-priority tasks are due within a week; otherwise medium iff at least two warnings or at least three such tasks; otherwise low |
| DeadlineRisk.AnalyzeDeadlineRisk | lib/deadline-risk.ts:45-125 | the imperative analysis returns exactly the reference result |
| DeadlineRisk.AllDoneIsCalm | lib/deadline-risk.ts:52 | when every task is done (or there are none) the risk is low, with no warnings and no note |
| DeadlineRisk.DoneTaskIgnored | lib/deadline-risk.ts:52-53 | adding a done task changes nothing in the result |
| DeadlineRisk.OverdueNeverLowersRisk | lib/deadline-risk.ts:112 | adding an overdue active task makes the risk high, so never lowers it |
| DeadlineRisk.OverdueMessages | lib/deadline-risk.ts:71 | the overdue message reads "1 task is past due." for one task and "n tasks are past due." otherwise |
| Middleware.TokenValidity | middleware.ts:20-38 | a valid token has exactly three dot-separated parts whose middle decodes to a truthy payload; then a numeric `exp` makes it valid iff `exp` exceeds the current whole second, and a payload without one is valid |
| Middleware.AuthPagesArePublic | middleware.ts:3-18 | every auth page is public, a public path is never sent to the login page, and "/" always passes without a cache header |
| Middleware.DecisionCases | middleware.ts:40-68 | a signed-in visit to an auth page goes to "/dashboard"; an unsigned visit to a non-public path goes to "/auth/login" with "no-store, no-cache, must-revalidate"; everything else passes, with "private, no-store, must-revalidate" exactly under "/dashboard" |
| Onboarding.Walkthrough.constructor | components/Onboarding.tsx:12-14 | the dialog starts hidden at the first step with the stored flag and no completion reported |
| Onboarding.Walkthrough.Mount | components/Onboarding.tsx:16-25 | without the flag the dialog becomes visible; with it, completion is reported at once and the dialog stays hidden |
| Onboarding.Walkthrough.Complete | components/Onboarding.tsx:27-49 | skipping or completing stores "true", hides the dialog and reports completion once |
| Onboarding.Walkthrough.Next | components/Onboarding.tsx:33-43 | before the last step it advances one step and changes nothing else; at the last step it completes |
| Onboarding.Walkthrough.Back | components/Onboarding.tsx:51-59 | goes one step back, and does nothing at the first step |
| Onboarding.Walkthrough.Reset | components/Onboarding.tsx:233-236 | in the browser the flag is removed; on the server nothing changes |
| Onboarding.CompletionIsRemembered | components/Onboarding.tsx:227-230 | once completed the walk-through is not offered again; with no flag it is offered exactly in the browser |
| Onboarding.ThreeNextsComplete | components/Onboarding.tsx:33-49 | from the first step, three presses of the forward button complete the walk-through and report completion once |
| OpenAi.ClientMemo.constructor | lib/openai.ts:17 | no client is held at first |
| OpenAi.ClientMemo.GetClient | lib/openai.ts:19-25 | returns and keeps the client the reference memoisation gives |
| OpenAi.ResolveMemoises | lib/openai.ts:19-25 | the client returned is the one kept; with none kept, there is none iff the key is missing or empty; once kept, later calls return the same client whatever the key |
| OpenAi.DropWord | lib/openai.ts:29 | the optional `\w+` after a fence removes exactly the leading word characters |
| OpenAi.StripFencesMeaning | lib/openai.ts:27-30 | after removing fences no triple backtick is left, the result is a subsequence of the input, and text without backticks is untouched |
| OpenAi.SanitizeMeaning | lib/openai.ts:27-30 | the sanitised text holds no fence, is already trimmed, and for text without backticks is just the trimmed text |
| OpenAi.FirstIndex | lib/openai.ts:34 | `indexOf`: -1 iff the character is absent, otherwise its first position |
| OpenAi.LastIndex | lib/openai.ts:35 | `lastIndexOf`: -1 iff the character is absent, otherwise its last position |
| OpenAi.SpanAbsent | lib/openai.ts:34-36 | no candidate is extracted iff no `{` is followed later by a `}` |
| OpenAi.SpanIsFirstToLast | lib/openai.ts:34-37 | the candidate runs from the first `{` to the last `}`, inclusive |
| OpenAi.ShapeRoundTrip | lib/openai.ts:45-55 | every insights record, written out, passes `validateShape` and reads back unchanged; a value passing it is an object |
| OpenAi.InsightsOnlyValidated | lib/openai.ts:85-98 | an accepted answer always passes `validateShape` and is the extracted span or the whole text parsed; a valid extracted span is preferred |
| OpenAi.CompletionIsSanitised | lib/openai.ts:57-98 | without a client nothing is produced; otherwise the completion is sanitised before acceptance, and one without backticks is only trimmed |
| TaskList.StatusCycle | components/TaskList.tsx:109-114 | every click moves the status on (pending, in progress, done, pending), three clicks restore it, and the table maps each stored name to its successor |
| TaskList.UnknownValuesLookNeutral | components/TaskList.tsx:30-67 | a priority outside the enumeration gets the default colour, and a status outside it the colour and icon of a pending task |
| TaskList.NoDateLabel | components/TaskList.tsx:69-76 | a missing or empty date reads "No due date"; a January date reads "Jan" and the day |
| TaskList.CapitalizeMeaning | components/TaskList.tsx:141 | the label keeps the length, upper-cases the first character only, and gives "Low", "Medium" and "High" |
| TaskModal.TaskForm.constructor | components/TaskModal.tsx:24-33 | a new form holds an empty title, description and due date, medium priority, pending status, category "Work" and no tags; an edited task fills the form, an empty category falling back to "Work" |
| TaskModal.TaskForm.SetText | components/TaskModal.tsx:35-43 | typing in a field replaces that field only |
| TaskModal.TaskForm.SetPriority | components/TaskModal.tsx:35-43 | the priority select replaces the priority |
| TaskModal.TaskForm.SetStatus | components/TaskModal.tsx:35-43 | the status select replaces the status |
| TaskModal.TaskForm.AddTag | components/TaskModal.tsx:45-53 | the trimmed input is appended and the input cleared only when non-blank and not already a tag; otherwise nothing changes; tags stay free of duplicates |
| TaskModal.TaskForm.RemoveTag | components/TaskModal.tsx:55-60 | removing a tag keeps every other tag, in order |
| TaskModal.TaskForm.Submit | components/TaskModal.tsx:62-91 | a blank title or a missing due date alerts and saves nothing; otherwise the payload is saved once and nothing is alerted |
| TaskModal.RejectionMeaning | components/TaskModal.tsx:65-73 | the form is accepted iff the title has a non-space character and the due date is set; the title message comes first, exactly for a blank title |
| TaskModal.PayloadMeaning | components/TaskModal.tsx:75-90 | an edit saves the edited task, id and creation time kept, overridden by the form (including its `tagInput`); a new task carries the form's fields |
| TaskModal.RemoveTagMeaning | components/TaskModal.tsx:58 | a tag survives iff it was there and differs from the removed one, and the order is kept |
| TaskModel.ParseStatus | models/Task.ts:18 | a status text parses exactly when it is one of the schema's enum values, and then to the status bearing that name |
| TaskModel.ParsePriority | models/Task.ts:19 | a priority text parses exactly when it is one of the schema's enum values, and then to the priority bearing that name |
| TaskModel.StatusNamesRoundTrip | models/Task.ts:18 | every status's stored name parses back to that status |
| TaskModel.PriorityNamesRoundTrip | models/Task.ts:19 | every priority's stored name parses back to that priority |
| TaskModel.Create | models/Task.ts:14-27 | a task is created iff its title is non-empty after trimming; the stored title is the trimmed title, every other given field is kept, and the result is well formed |
| TaskModel.CreateWithDefaults | models/Task.ts:17-21 | fields left out take the schema defaults: pending, medium, empty description, category "General", no due date |
| TasksRoute.PostUnauthorized | app/api/tasks/route.ts:9-15 | without a token cookie, or with a token that names no user, creating a task answers 401 and stores nothing |
| TasksRoute.PostRejectsBlankTitleOrNoDueDate | app/api/tasks/route.ts:20-21 | a signed-in caller whose title is missing or blank, or whose due date is falsy, gets 400 and nothing is stored |
| TasksRoute.PostCreates | app/api/tasks/route.ts:17-38 | a stored task belongs to the caller, has the trimmed title, the body's fields and parsed due date, the new id and creation time, satisfies the schema, and is returned as mapped with no tags |
| TasksRoute.PostDefaults | app/api/tasks/route.ts:18 | fields the body leaves out default to an empty description, status pending, priority medium and category "General" |
| TasksRoute.BuildFilter | app/api/tasks/route.ts:62-66 | the filter always holds the caller; status and category narrow it exactly when given and not "all"; the title search exactly when non-empty |
| TasksRoute.GetTasks | app/api/tasks/route.ts:45-71 | without a token or for an unknown user the list answer is 401; otherwise it lists the caller's tasks under exactly the narrowing the query parameters ask for, newest first |
| TasksRoute.NewerFirstConnex | app/api/tasks/route.ts:68 | the newest-first order relates every pair of tasks, so sorting by it is total |
| TasksRoute.ListTasksMeaning | app/api/tasks/route.ts:68-70 | the list is exactly the caller's tasks matching the filter, each once, newest first, each mapped for the response |
| TasksRoute.UnfilteredListsAllOwnTasks | app/api/tasks/route.ts:63-68 | with no narrowing parameter every task of the caller, and no other, is listed |
| WeeklySummaryRoute.BuildHighlights | app/api/ai/weekly-summary/route.ts:66-75 | the conditional pushes yield exactly the highlight list the rules define |
| WeeklySummaryRoute.WindowIsSevenDays | app/api/ai/weekly-summary/route.ts:19-30 | the window starts seven calendar days before its end at the same time of day, and a task falls in it iff created between the two, both ends included |
| WeeklySummaryRoute.InvalidWeekEndThrows | app/api/ai/weekly-summary/route.ts:8-30 | no token or an unknown user gets 401; a signed-in caller whose truthy `weekEnd` is no date makes the unguarded query throw, so the framework's bare 500 answers, and only then |
| WeeklySummaryRoute.EmptyWeekReply | app/api/ai/weekly-summary/route.ts:40-50 | a signed-in caller without tasks created in the window gets the fixed reply, with one highlight, whatever the model would say |
| WeeklySummaryRoute.CompletedPlusPending | app/api/ai/weekly-summary/route.ts:57-58 | the completed and still-pending counts add up to the number of tasks in the window |
| WeeklySummaryRoute.HighlightsRules | app/api/ai/weekly-summary/route.ts:66-75 | one or two highlights; the completed line first iff something was completed; "stayed on top" iff nothing is overdue and something is pending; the generic line iff neither applies |
| WeeklySummaryRoute.FallbackRules | app/api/ai/weekly-summary/route.ts:77-86 | the fallback asks for focus iff more than three tasks are pending, and keeps one to three highlights |
| WeeklySummaryRoute.ModelSummaryCapped | app/api/ai/weekly-summary/route.ts:103-129 | a model summary is used iff it is truthy with a string summary and an array of highlights, and then keeps at most its first three highlights; otherwise the fixed fallback is sent |
| WeeklySummaryRoute.TaskCountMeaning | app/api/ai/weekly-summary/route.ts:64 | a count in the summary reads back as its number, and says "tasks" exactly when the count is not 1 |
| WeeklySummaryView.WeekDay | components/WeeklySummary.tsx:18 | the weekday of a day number lies between 0 (Sunday) and 6 |
| WeeklySummaryView.WeekStartIsMonday | components/WeeklySummary.tsx:15-20 | the week key's start is a Monday zero to six days back; a Sunday belongs to the week that began six days earlier, a Monday starts its own |
| WeeklySummaryView.SameWeekSameKey | components/WeeklySummary.tsx:15-20 | any two moments of the same Monday-to-Sunday week produce the same week key |
| WeeklySummaryView.CacheServesOnlyThisWeek | components/WeeklySummary.tsx:23-38 | a cached summary is served only when the stored record parses, carries the current week key and truthy data, and the item is then kept; a changed item is always a removal with nothing served |
| WeeklySummaryView.CacheRoundTrip | components/WeeklySummary.tsx:40-50 | a truthy summary cached this week is read back in the same week, when its serialisation parses back |
| WeeklySummaryView.ViewPrecedence | components/WeeklySummary.tsx:132-214 | a mounted, enabled card shows the summary whenever there is one, even after an error; the retry, generating, prompt and disabled views each have their exact condition |
| WeeklySummaryView.SummaryCard.constructor | components/WeeklySummary.tsx:54-59 | the card starts unmounted, collapsed, not loading, without error or summary, the assistant assumed enabled; every method keeps a mounted card with a summary expanded, as the auto-expand effect does |
| WeeklySummaryView.SummaryCard.Mount | components/WeeklySummary.tsx:62-66 | mounting reads this week's cached summary (dropping a stale item), reads the preference switch and opens the card when a summary was found |
| WeeklySummaryView.SummaryCard.FetchSummary | components/WeeklySummary.tsx:76-122 | a disabled assistant only sets the error and changes nothing else; a cached summary this week is shown and the card opened without a request, the cache item kept or its stale record dropped; otherwise one request is sent, loading ends, and a well-formed answer is shown, cached and the card opened, while anything else sets the error and keeps the old summary and the card as it was |
| WeeklySummaryView.SummaryCard.PreferencesChanged | components/WeeklySummary.tsx:69-74 | once mounted, a preference change re-reads the switch; before mounting it changes nothing |
| WeeklySummaryView.SummaryCard.Toggle | components/WeeklySummary.tsx:124-129 | the button flips the expanded state, and the auto-expand effect that follows reopens a mounted card with a summary, so a collapse of such a card does not persist; a mounted card with a summary is always expanded afterwards |
| TaskStats.CompletionRateMeaning | components/TaskStats.tsx:26 | the rate is 0 without tasks, otherwise the percentage of completed tasks rounded half up, and never above 100 when completed tasks do not exceed the total |
| TaskStats.CompletedNeverCounted | components/TaskStats.tsx:21 | since no stored status is named "completed", the completed count and the rate it feeds are always 0 |
| TaskStats.CountsBounded | components/TaskStats.tsx:20-24 | the completed, in-progress and pending counts together, and the high-priority count, never exceed the total |
| TaskStats.DisjointCounts | components/TaskStats.tsx:22-23 | no task is counted both in progress and pending |
| TaskStats.StatsShape | components/TaskStats.tsx:28-53 | exactly four cards in the order total, in progress, completed, rate; the total card shows the number of tasks and the completed card 0 |
| Profile.InitialsMeaning | components/profile/ProfileClient.tsx:134-140 | at most two upper-case characters; "U" exactly for an empty name, nothing exactly for a name of white space, and otherwise led by the upper-cased first character of the trimmed name |
| Profile.Heading | components/profile/ProfileClient.tsx:164 | the heading is never empty, and is the name whenever one is given |
| Profile.PanelDefaults | components/profile/ProfileClient.tsx:131-132 | without stored preferences, and with the defaults, the panel shows the assistant enabled, manual insights and short replies |
| Profile.PanelAgreesWithSwitch | components/profile/ProfileClient.tsx:131 | the panel's enabled badge agrees with the assistant's switch, except that a null or missing `enabled` shows as enabled while the switch reads it as off |
| Profile.ActivityMeaning | components/profile/ProfileClient.tsx:77-122 | completed tasks never outnumber created ones; a failed request, a non-OK status, a `null` body or a malformed list zeroes all three counters; a body without `tasks` counts none but still reads the insights counter; a good one counts the listed tasks and reads the stored insights counter |
| Profile.InsightsViewedMeaning | components/profile/ProfileClient.tsx:94-101 | the insights counter reads back a stored number, and is 0 when nothing is stored, storage throws, or the text starts with no digits |
| Profile.ProfilePage.constructor | components/profile/ProfileClient.tsx:31-37 | the page starts without preferences, with zero activity, loading |
| Profile.ProfilePage.LoadPreferences | components/profile/ProfileClient.tsx:54-59 | mounting shows the stored preferences |
| Profile.ProfilePage.PreferencesChanged | components/profile/ProfileClient.tsx:61-70 | a change event replaces the preferences shown with the event's |
| Profile.ProfilePage.BeginLoad | components/profile/ProfileClient.tsx:82 | the activity load marks the page as loading |
| Profile.ProfilePage.Unmount | components/profile/ProfileClient.tsx:126-128 | unmounting cancels the pending load |
| Profile.ProfilePage.FinishLoad | components/profile/ProfileClient.tsx:103-122 | while the page is mounted the answer sets the activity snapshot and ends loading; after unmounting nothing changes |

## Left out

- React rendering, JSX and styling: only the handlers, effects and helper logic of the components are modelled. The weekly card's and dashboard's "…" loading labels and colour classes are left out.
- MongoDB and mongoose: the database is a sequence of tasks, or a map from id to task, passed in and returned. Casting of ids and values and cast errors are left out, except the weekly-summary route's invalid `weekEnd` date, which is modelled as the handler throwing. The `$regex` title search is a case-insensitive substring test, so regular-expression metacharacters in the search text are left out.
- JWT signing and verification, bcrypt and cookie parsing are left out. The middleware's base64url decoding and `JSON.parse` of the token payload are a `decode` parameter. `getUserFromToken` is a `userOf` parameter.
- Network calls to the language model, `fetch` and the thin insights, chat and deadline-risk routes are left out. What a call returns is a parameter: an answer, or `None` for a failure.
- `JSON.parse` and `JSON.stringify` are parameters. Round-trip properties assume that parsing the serialised value gives it back, and only for JSON values: no `undefined` and no `Date`, which `JSON.stringify` drops or writes as text.
- The weekly-summary route imports `generateWeeklySummaryWithOpenAI` from lib/openai.ts, which exports no such function, so with a client configured the call cannot succeed as written. The model's answer is the `generated` parameter of `WeeklySummaryRoute.WeeklySummary`, and the proofs hold for any answer, including the failure that yields the "not available" reply.
- Clocks are left out: `new Date()` and `Date.now()` are explicit `now` parameters. Local time is taken as UTC, so time zones and daylight saving are left out. Date-string parsing is a parameter, with an unparsable date as absent.
- `toLocaleDateString` and the other locale formatting are a `format` parameter. `localeCompare` on titles is lexicographic order on characters.
- Floating point: `Math.round` of day and percentage divisions is exact integer rounding, half up.
- Case mapping covers ASCII letters only. String lengths count characters, not UTF-16 code units.
- `Math.random` suggestion ids are fresh ids drawn from a counter. `setTimeout` animation delays are immediate transitions.
- Window event listeners are modelled as explicit notification methods. Event dispatch order and listener removal are left out.
- The weekly-summary route's `catch` around the deterministic fallback is left out, because nothing in that block throws.
- The deadline-risk overdue rule sums the overdue days into `days` (lib/deadline-risk.ts:65-68), but never uses the sum. It is not modelled.
- TaskStats: the high-priority count is computed but never displayed. It is modelled and bounded, but it is not part of the cards.
- Fields given explicitly as `undefined` in a mongoose save, and a stored array or string spread into the preferences, are left out. The model treats preferences as objects.
- The weekly summary card compares week keys as text, and the model does too. It does not model how the key text is printed beyond the decimal digits of the millisecond time.
- Dashboard.DashboardState.FetchTasks: any failure alerts "Failed to fetch tasks". A network error's own message, which the source would alert instead, is left out.
- Profile.ProfilePage.PreferencesChanged: the event always carries preferences, as the only dispatcher always sets them. The source's guard against an event without `detail` is therefore not modelled.
