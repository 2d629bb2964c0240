# AI-Lifehub task manager: the client task flows, the task API's validation, and the display helpers

This Dafny project models the logic under the views of AI-Lifehub, a Next.js task manager with a chat interface. The modelled parts are:

- **Task list page** (`TasksSection`). An in-memory task list plus one toast slot. Toggle replaces a task by id. Delete filters by id and offers an undo that re-creates the task and appends it. Cancelled toggles are absorbed. The header shows "completed / total".
- **Task service** (`Service`). The shared rule that a response that is not ok throws the server's `error` text. The global toggle `AbortController` slot: each toggle aborts the previous controller and installs a fresh one.
- **Task API route** (`TasksRoute`). The POST validation chain (title, recurring, priority, dueDate) and the record it stores. PATCH, which writes one row's `completed`.
- **Chat submission** (`ChatSection`). The input guard, the transcript, the loading flag, and the toast for each outcome: AI failure, unparsable reply, `create_task` success/null/failure, or another action.
- **Edit form** (`EditTask`). The form data copied from the task, per-field edits with clamping (50/200/20), and submit.
- **Task card and helpers** (`TaskCard`, `Overdue`, `DateFormat`, `PriorityColour`). `shortenText`, the card style, badge and chip visibility, and the button callbacks. `isOverdue` at day granularity, `formatDate`'s Today/Tomorrow classification, and `getPriorityColour`.
- **Theme provider** (`ThemeProvider`). The initial choice, light/dark toggling, the persisted value, the document class list, and the `useTheme` guard.
- **Round trips** (`RoundTrips`). What the client's toggle and undo requests do once the route handlers receive them.

Conventions:

- Dates are integer local day numbers. "Parses as a date" is an oracle parameter: `dayOf: string -> Option<int>` for display, and `instantOf: JsonValue -> Option<int>` for the route.
- The network, the database, the AI service and `JSON.parse` are oracles passed in as parameters.
- Optional fields (`x?: T | null`) are `Option<T>`. None stands for both null and undefined.
- A thrown error rendered through `${error}` is `Describe(e)`, which gives `name: message` (only the name or only the message when the other is empty).
- The undo closure `onRestore` is an explicit value: the toast carries the id-less snapshot it would re-create.
- State the source changes in place is a class: `TasksPage`, `TaskService`, `ChatView`, `EditModal` and `Provider`. Each class keeps the source's state slots as fields. The decisions those classes make are pure functions (`ToggleSettled`, `DeleteSettled`, `RestoreSettled`, `ReplyOutcome`, `ApplyEdit`, `NextTheme`, …). The method contracts tie each new state to those functions.

Behaviours of the code worth knowing, which the model follows:

- An undo-restore re-creates only title, description, dueDate, priority and recurring, because those are all the POST handler stores. `completed`, `recurringInterval` and `createdAt` take the database's values (`RoundTrips.RestoreSnapshotIsAccepted`).
- `getPriorityColour('high')` returns the classes in the code, not the different ones in its doc comment.
- A non-empty stored theme is used as it is, even when it is neither light nor dark. If it is empty or contains ASCII white space, `classList.add` throws. The mount effect then stops after removing the light/dark classes: the theme stays as it was, nothing is stored and `mounted` stays false (`ThemeProvider.Provider.Mount`).
- Toggle cancellation is global (one slot for every task), not per task.

## Model

| member | source | states |
|---|---|---|
| `TasksSection.Find` | src/Components/Views/TasksSection.tsx:36-38 | the result is None iff no task has the id; otherwise it is the first task with that id |
| `TasksSection.ReplaceById` | src/Components/Views/TasksSection.tsx:49 | length and order are kept; entries with the updated id become the updated task; all others are unchanged |
| `TasksSection.RemoveById` | src/Components/Views/TasksSection.tsx:70 | a task survives iff it was present and its id differs; the list never grows |
| `TasksSection.RemoveByIdConcat` | src/Components/Views/TasksSection.tsx:70 | removal distributes over concatenation, so survivors keep their relative order |
| `TasksSection.RemoveAbsentId` | src/Components/Views/TasksSection.tsx:70 | removing an id no task carries leaves the list unchanged |
| `TasksSection.RemoveUniqueId` | src/Components/Views/TasksSection.tsx:70 | with unique ids, removing a present id shortens the list by exactly one |
| `TasksSection.CompletedCount` | src/Components/Views/TasksSection.tsx:106-107 | the completed count is at most the total, and equals it iff every task is completed |
| `TasksSection.CompletedCountAppend` | src/Components/Views/TasksSection.tsx:79 | appending a task raises the completed count by one iff that task is completed |
| `TasksSection.HeaderColourOf` | src/Components/Views/TasksSection.tsx:106 | green iff every task is completed (so for the empty list too), yellow otherwise |
| `TasksSection.ToggleSettled` | src/Components/Views/TasksSection.tsx:42-57 | on success: replace by the returned id, and the toast is 'Task Complete!' iff the returned task is completed, else 'Task complete undone'; an AbortError changes nothing; any other error keeps the list and shows 'Failed to toggle task: …' |
| `TasksSection.DeleteSettled` | src/Components/Views/TasksSection.tsx:66-89 | on success: every entry with the id is removed and the toast is the success toast 'Task Deleted Successfully!' offering undo of the returned task without its id; on failure the list is kept and 'Failed to delete task: …' is shown |
| `TasksSection.DeletedToast` | src/Components/Views/TasksSection.tsx:71-76 | the delete toast is a success toast reading 'Task Deleted Successfully!' whose Undo button is shown and re-creates the task without its id |
| `TasksSection.ShowsUndo` | src/Components/Toast.tsx:40 | the Undo button is shown only for a toast with `undo` set and a restore action |
| `TasksSection.RestoreSettled` | src/Components/Views/TasksSection.tsx:76-84 | on success the re-created task is appended at the end with 'Task Restored!'; on failure the list is kept and 'Failed to restore task: …' is shown; the new toast offers no undo |
| `TasksSection.DeleteThenRestore` | src/Components/Views/TasksSection.tsx:60-85 | delete then a successful undo: the deleted entries are gone, the re-created task is last, and with unique ids the length is restored |
| `TasksSection.RenderInlineCard` | src/Components/Views/TasksSection.tsx:123-184 | the card the page renders shows the full title and description, and an interval badge for every recurring task (empty without an interval); style, due chip and priority are those of Task.tsx's card |
| `TasksSection.InlineCardMatchesTaskCard` | src/Components/Views/TasksSection.tsx:146-168 | for a title of at most 40 and a description of at most 50 characters, and a recurring task that has its interval, the inline card equals Task.tsx's card |
| `TasksSection.InlineClick` | src/Components/Views/TasksSection.tsx:136-176 | the inline card has a toggle and a delete button that pass `task.id`, and no edit button |
| `TasksSection.TasksPage.constructor` | src/Components/Views/TasksSection.tsx:15-16 | the page starts with an empty list and no toast |
| `TasksSection.TasksPage.Load` | src/Components/Views/TasksSection.tsx:18-32 | a loaded list replaces the tasks; a failure keeps them and shows 'Failed to fetch tasks: …' |
| `TasksSection.TasksPage.ToggleTask` | src/Components/Views/TasksSection.tsx:35-58 | an unknown id issues no request and changes neither the page nor the controller slot; a known id aborts the previous toggle controller, installs a fresh live one (appended to the history), PATCHes `api/tasks` with `{id, !completed}` under its signal, and the page becomes `ToggleSettled` of the outcome |
| `TasksSection.TasksPage.DeleteTask` | src/Components/Views/TasksSection.tsx:60-90 | an unknown id issues no request; otherwise the DELETE is issued and the page becomes `DeleteSettled` of the outcome |
| `TasksSection.TasksPage.Restore` | src/Components/Views/TasksSection.tsx:75-85 | without an Undo button nothing happens; otherwise the snapshot is POSTed and the page becomes `RestoreSettled` of the outcome |
| `TasksSection.TasksPage.DismissToast` | src/Components/Views/TasksSection.tsx:99 | closing clears the toast and keeps the list |
| `TasksSection.TasksPage.Header` | src/Components/Views/TasksSection.tsx:106-107 | completed ≤ total = list length; green iff they are equal |
| `Service.Settle` | src/services/taskService.ts:12-14 | a response that is not ok throws an Error with the server's `error` text; an ok response returns its body unchanged; a rejection propagates |
| `Service.ToggleBody` | src/services/taskService.ts:50 | the toggle body has exactly the keys `id` and `completed`, with the given values |
| `Service.AbortController.Abort` | src/services/taskService.ts:40 | the controller is aborted afterwards |
| `Service.TaskService.constructor` | src/services/taskService.ts:3 | the slot starts empty and no controller exists yet |
| `Service.TaskService.AtMostOneLive` | src/services/taskService.ts:39-43 | every controller that is not aborted is the one in the slot |
| `Service.TaskService.GetTasks` | src/services/taskService.ts:7-15 | GET `api/tasks` without a body or signal, settled by the shared rule; as a function without reads it cannot touch the slot |
| `Service.TaskService.CreateTask` | src/services/taskService.ts:17-34 | POST of the given JSON without a signal, settled by the shared rule; it cannot touch the slot |
| `Service.TaskService.DeleteTask` | src/services/taskService.ts:62-78 | DELETE with body `{id}`, settled by the shared rule; it cannot touch the slot |
| `Service.TaskService.ToggleTask` | src/services/taskService.ts:36-59 | the previous controller (even a settled one) is aborted; the slot holds a fresh, live controller; the PATCH carries `{id, completed}` and that controller's signal |
| `TaskTypes.ParsePriority` | src/app/api/tasks/route.ts:36 | a string is accepted iff it is low, medium or high, and the result spells it back |
| `TaskTypes.PriorityNameRoundTrip` | src/types/task.ts:6 | parsing a priority's wire name gives the priority back |
| `TaskTypes.Present` | src/Components/Task.tsx:51 | an optional string field is truthy iff it is set and non-empty |
| `TaskTypes.EncodeDraft` | src/services/taskService.ts:25 | `JSON.stringify` of a snapshot carries title, description, dueDate, priority, recurring, the interval, completed and createdAt, with null for absent optional fields, and no id |
| `TaskTypes.Describe` | src/Components/Views/TasksSection.tsx:27 | `${error}` renders an error as 'name: message', or only the name when the message is empty, or only the message when the name is empty |
| `TaskTypes.WithoutId` | src/Components/Views/TasksSection.tsx:68 | the snapshot is the task with its id removed: adding any id back gives the task with that id |
| `JsStrings.Trim` | src/app/api/tasks/route.ts:29 | `trim()` is a contiguous slice of the string with only white space cut off before and after it, and it neither starts nor ends with white space |
| `JsStrings.TrimEmptyIff` | src/app/api/tasks/route.ts:29 | `trim()` is empty iff the string is all white space |
| `JsStrings.TrimIdentity` | src/app/api/tasks/route.ts:45 | a string that neither starts nor ends with white space is its own trim |
| `JsStrings.TrimIdempotent` | src/app/api/tasks/route.ts:45 | trimming a trimmed title changes nothing |
| `JsStrings.Take` | src/Components/EditTask.tsx:59 | `slice(0, n)` is a prefix of length min(n, length) |
| `TasksRoute.ValidateCreate` | src/app/api/tasks/route.ts:27-42 | checks run title → recurring → priority → dueDate and the first failure decides the message; null/undefined priority defaults to medium; a truthy unparseable dueDate is rejected; it succeeds iff the body passes all four checks (`CreateAccepted`); an accepted record has the trimmed title, the truthy description or null, the priority, the flag and the parsed date or null |
| `Json.Field` | src/app/api/tasks/route.ts:27 | reading a property of the parsed body gives its value iff the body is an object with that key, and undefined otherwise |
| `Json.Truthy` | src/app/api/tasks/route.ts:39 | JavaScript truthiness of a parsed JSON value: null, false, 0 and the empty string are falsy |
| `TasksRoute.TitleValid` | src/app/api/tasks/route.ts:29 | the title check passes iff `title` is a string that is not all white space |
| `TasksRoute.TitleValidIffTrimmed` | src/app/api/tasks/route.ts:29 | the title check passes iff `title` is a string whose `trim()` is non-empty |
| `TasksRoute.CreateAccepted` | src/app/api/tasks/route.ts:29-42 | a body passes all four POST checks: title, recurring, priority (defaulted) and a parseable due date when one is given |
| `TasksRoute.RecurringValid` | src/app/api/tasks/route.ts:32 | the recurring check passes iff `recurring` is a boolean |
| `TasksRoute.HasDueDate` | src/app/api/tasks/route.ts:39 | a Date is built only when `body.dueDate` is present and truthy |
| `TasksRoute.PriorityOrDefault` | src/app/api/tasks/route.ts:35 | undefined and null priority become 'medium'; any other value is kept |
| `TasksRoute.ValidateCreateAccepts` | src/app/api/tasks/route.ts:43-51 | a body passing all four checks is accepted with exactly the five-field record |
| `TasksRoute.Post` | src/app/api/tasks/route.ts:22-58 | nothing is written unless every check passed; a failed check answers 400 with its message; an unreadable body or a failed insert answers 500; otherwise 201 with the stored row |
| `TasksRoute.PatchAccepted` | src/app/api/tasks/route.ts:65-68 | the update succeeds iff `id` is a string naming a stored row and `completed` is a boolean or absent |
| `TasksRoute.Patch` | src/app/api/tasks/route.ts:61-76 | 200 iff the update is accepted; then that row's `completed` becomes the sent boolean, or the table is unchanged when none was sent, no other row or field changes, and the reply is the updated row; otherwise 500 'Failed to toggle task complete' with the table as it was |
| `RoundTrips.TogglePatchesOneField` | src/app/api/tasks/route.ts:65-68 | the client's toggle body sets exactly that row's `completed` to the requested value; an unknown id is a 500 that changes nothing |
| `RoundTrips.RestoreSnapshotIsAccepted` | src/Components/Views/TasksSection.tsx:68-78 | an undo snapshot of a stored task passes every POST check and keeps title, description, priority, recurring and due date; completed and the interval are not carried |
| `RoundTrips.StoredTitleIsTrimmed` | src/app/api/tasks/route.ts:45 | every body passing the checks is accepted, and its stored title is non-empty and already trimmed |
| `ChatSection.IsCreate` | src/components/Views/ChatSection.tsx:49 | the reply is a create request iff its action is the string 'create_task' |
| `ChatSection.ReplyOutcome` | src/components/Views/ChatSection.tsx:44-93 | AI failure gives the 'Sorry, I encountered an error' text in both the toast and the reply; an unparsable reply gives 'There was an error with the response' in both; `createTask` is called iff the action is create_task, with `parsed.task`; another action relays the message and leaves the toast alone; create_task gives 'Task Created Successfully!' for a truthy saved task, 'Created task returned null' otherwise, and the database error text in both on a throw |
| `ChatSection.SuccessOnlyOnCreation` | src/components/Views/ChatSection.tsx:54-60 | a success toast appears iff a task was created and the store returned a truthy task |
| `ChatSection.ChatView.constructor` | src/components/Views/ChatSection.tsx:14-22 | no toast, not loading, only the greeting, empty input |
| `ChatSection.ChatView.Type` | src/components/Views/ChatSection.tsx:153-156 | while not loading (the input is disabled otherwise), the input takes the typed value |
| `ChatSection.ChatView.DismissToast` | src/components/Views/ChatSection.tsx:106 | the toast is cleared |
| `ChatSection.ChatView.Submit` | src/components/Views/ChatSection.tsx:33-40 | blank input or a loading request changes nothing; otherwise the input is cleared, the trimmed text is appended as the user's message and sent, and loading is set |
| `ChatSection.ChatView.Complete` | src/components/Views/ChatSection.tsx:42-96 | exactly one assistant message (the reply of `ReplyOutcome`) is appended; the toast is set only when `ReplyOutcome` sets one; `createTask` is requested iff `ReplyOutcome` says so; loading ends false |
| `ChatSection.ChatView.HandleSubmit` | src/components/Views/ChatSection.tsx:33-97 | a submission is accepted iff the trimmed input is non-empty and nothing is loading; an accepted one appends exactly the user's message and one assistant message, clears the input, leaves loading false, sets the toast and the `createTask` request as `ReplyOutcome` decides; a rejected one changes nothing |
| `EditTask.InitialForm` | src/Components/EditTask.tsx:19-28 | the form holds exactly title, description, priority, dueDate, recurring and the interval copied from the task |
| `EditTask.ApplyEdit` | src/Components/EditTask.tsx:58-147 | title, description and interval are clamped to 50, 200 and 20 characters (shorter text is kept); an empty date input removes the due date; every other field keeps its value |
| `EditTask.ClampIdempotent` | src/Components/EditTask.tsx:59 | re-entering the clamped text changes nothing |
| `EditTask.DisplayedPriority` | src/Components/EditTask.tsx:97 | the select shows medium when the form has no priority |
| `EditTask.ShowsIntervalInput` | src/Components/EditTask.tsx:136 | the interval input is rendered only while `recurring` is true |
| `EditTask.CanSubmit` | src/Components/EditTask.tsx:57-64 | the required title input lets the form submit only when the title is non-empty |
| `EditTask.UntickKeepsInterval` | src/Components/EditTask.tsx:128-136 | unticking recurring hides the interval input but keeps the interval |
| `EditTask.EditModal.constructor` | src/Components/EditTask.tsx:17 | the form starts empty |
| `EditTask.EditModal.Initialise` | src/Components/EditTask.tsx:19-28 | the effect sets the form to the task's editable fields |
| `EditTask.EditModal.Change` | src/Components/EditTask.tsx:58-148 | a change event applies `ApplyEdit` to the current form |
| `EditTask.EditModal.Submit` | src/Components/EditTask.tsx:30-64 | `onSave` receives the form data unchanged iff the title is non-empty |
| `TaskCard.ShortenText` | src/Components/Task.tsx:20-22 | text of at most `max` characters is unchanged; longer text becomes its first `max` characters plus '...' (length max+3) |
| `TaskCard.ShortenTextBounds` | src/Components/Task.tsx:21 | the result is at most max+3 long, within max iff the text was, and starts with the text's first min(max, length) characters |
| `TaskCard.RenderCard` | src/Components/Task.tsx:25-75 | completed style iff completed; overdue style iff not completed and overdue; title shortened at 40 and description at 50; description, due chip and recurring badge appear only for present fields, and the badge needs `recurring` as well; the chip is red iff `isOverdue` and is labelled by `formatDate` |
| `TaskCard.NoBadgeUnlessRecurring` | src/Components/Task.tsx:66 | a task that is not recurring shows no interval badge, whatever interval it holds |
| `TaskCard.NearDayChipNotOverdue` | src/Components/Task.tsx:58-63 | a chip labelled Today or Tomorrow is never red |
| `TaskCard.Click` | src/Components/Task.tsx:37-88 | toggle and delete pass `task.id`; edit passes the whole task |
| `Overdue.IsOverdue` | src/utils/isOverdue.ts:14-26 | overdue iff not completed, the due date is present and parses, and its day is strictly before today |
| `Overdue.NotOverdueCases` | src/utils/isOverdue.ts:15-25 | completed, missing, empty, unparseable, due-today and future dates are never overdue |
| `Overdue.OverdueMonotone` | src/utils/isOverdue.ts:25 | a task overdue today is still overdue on any later day |
| `DateFormat.FormatDate` | src/utils/formatDate.ts:17-31 | None iff the input is falsy or does not parse; Today iff it falls on today; Tomorrow iff it falls on the next day; any other day gets its own day-and-month label |
| `PriorityColour.GetPriorityColour` | src/utils/getPriorityColour.ts:13-20 | total; high, medium and low map to the red, yellow and green classes; every other string (also '') maps to gray |
| `PriorityColour.ColourDistinguishesPriorities` | src/utils/getPriorityColour.ts:15-18 | two priorities share classes iff they are equal or both unknown, so the four outputs are pairwise distinct |
| `ThemeProvider.InitialTheme` | src/Components/Themes/ThemeProvider.tsx:20-22 | a non-empty stored value wins as it is; otherwise dark iff the system prefers dark |
| `ThemeProvider.NextTheme` | src/Components/Themes/ThemeProvider.tsx:41 | light goes to dark and every other value, a custom stored theme included, goes to light; the result always differs from the input |
| `ThemeProvider.ToggleTwice` | src/Components/Themes/ThemeProvider.tsx:41 | toggling twice from light or dark returns the start |
| `ThemeProvider.ThemeClassesAreTokens` | src/Components/Themes/ThemeProvider.tsx:22 | 'light' and 'dark' are tokens `classList.add` accepts, so toggling and the system preference never make it throw |
| `ThemeProvider.ValidToken` | src/Components/Themes/ThemeProvider.tsx:25 | `classList.add` accepts a token iff it is non-empty and holds no ASCII white space |
| `ThemeProvider.WithThemeClass` | src/Components/Themes/ThemeProvider.tsx:24-25 | a valid theme token ends up in the class list; no other of light/dark remains; other classes are kept; an empty token or one containing ASCII white space makes `add` throw, leaving the list with light and dark removed |
| `ThemeProvider.UseTheme` | src/Components/Themes/ThemeProvider.tsx:51-55 | outside a provider the call fails with 'useTheme must be used within ThemeProvider'; inside, it returns the context |
| `ThemeProvider.Provider.constructor` | src/Components/Themes/ThemeProvider.tsx:16-17 | the theme starts as light and not mounted |
| `ThemeProvider.Provider.Mount` | src/Components/Themes/ThemeProvider.tsx:19-30 | runs once, before mounting; the initial theme is written to the class list; if `add` accepts it, it becomes the theme, is stored and `mounted` becomes true; otherwise the effect throws with theme, storage and `mounted` unchanged |
| `ThemeProvider.Provider.ToggleTheme` | src/Components/Themes/ThemeProvider.tsx:32-42 | the theme becomes `NextTheme`; once mounted, storage and the class list follow it; before mounting neither is touched |

## Left out

- Network, database and AI I/O. `fetch`, Prisma and the OpenRouter proxy become oracle parameters. `res.json()` is taken as already parsed; a body that is not JSON is not modelled on the client side.
- `TasksSection.ToggleSettled`: the source tests `error instanceof Error && error.name === 'AbortError'`; the model's rejections are always Error objects, so a rejection with a non-Error value is not represented.
- Async interleavings and real AbortSignal behaviour. Each task-page handler runs to completion, so an AbortError is only an outcome the oracle may supply. Two Undo clicks before the first restore settles are not modelled. The chat's one suspension point is modelled as `Submit` / `Complete`.
- Rendering and styling, meaning JSX and CSS other than the class choices above. This includes Button, Sidebar, ThemeSwitcher, the pages, Toast's 3000 ms timer and STT. The inline card of TasksSection.tsx:123-184, which the task page renders, is modelled as `TasksSection.RenderInlineCard`. It differs from Task.tsx's card in three ways: it does not shorten the title or the description, its interval badge checks only `recurring`, and it has no edit button.
- Date and locale behaviour: `new Date` parsing, `toLocaleDateString` and time zones. Days are integers, parsing is an oracle, and the 'D MMM' text is the day number it renders.
- The GET list ordering, which the database performs.
- The update-with-undo flow, `updateTask` and `getTaskCount`. They appear only in tests, not in the code.
- The AI service's payload (`{input}` versus `{prompt}`), which is plumbing.
- JavaScript strings are UTF-16 code units; here a character is a Dafny `char`.
- The JSON `null`/`undefined` distinction inside optional task fields is merged into None. The route sees both as falsy.
- `TasksRoute.Patch`: Prisma's own validation is reduced to three rules. An unknown or non-string id fails, a non-boolean `completed` fails, and an absent `completed` updates nothing.
- The chat's parsed `message` is taken to be a string.
- A task-page restore whose create returns JSON `null` would append `null` to the list. The model types that payload as a task, so this case is not modelled.
