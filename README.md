# Tasks and application-status state of a to-do list client

This project models, in Dafny, the client-side state layer of a to-do list
application: the tasks slice (a map from to-do list id to that list's tasks,
newest first), the asynchronous task operations that call the server and
report their progress, the global application-status slice (`status`,
`error`, `isInitialized`) that observes every operation's lifecycle actions,
and the handler that turns an application-level server rejection into a
failed status and an error message.

- `wrappers.dfy`: `Option`, where `None` stands for JavaScript's `null` and `undefined`.
- `app_reducer.dfy` (module `App`): the status slice. `AppStore` is a class with the
  slice's three fields; `AppStore.Dispatch` runs the setters or the ordered matcher
  chain in place and is proved equal to `Step`, a reference definition organised by
  action kind. `ApplyAll` runs a stream of actions.
- `handle_server_app_error.dfy` (module `ServerAppError`): the application-error
  handler, as the list of actions it dispatches and as a method that dispatches them
  into an `AppStore`.
- `tasks_reducer.dfy` (module `Tasks`): task records, the partial patch, the merge
  used by the reducer and the complete snapshot sent by the update operation, the
  `findIndex` search, recursive reference definitions of "remove the first match"
  and "merge into the first match", and `TasksStore`, a class whose case-reducer
  methods reassign its `tasks` map.
- `task_thunks.dfy` (module `TaskThunks`): `fetchTasks`, `addTask`, `updateTask` and
  `removeTaskTC`. The gateway's answer is a parameter: `Ok(resultCode, messages, data)`
  or `Thrown(message)`. Each operation returns its outcome (`Fulfilled(value)` or
  `RejectedNull`) and the ordered effects it dispatched. `ObservedStream` composes a
  run with the lifecycle actions the status slice sees.

Behaviour worth noting, each point read off the source and modelled as written:

- `addTask` and `updateTask` reject with `rejectWithValue(null)`
  (src/features/TodolistsList/tasks.reducer.ts:115, 154). The status slice's allow-list
  sits inside `if (action.payload)` (src/app/app.reducer.ts:45-51), so it never protects
  these two, although "addTask" is on it. The
  error they dispatched first ("Task not found", or the server's first message) is then
  overwritten by the rejection's own error message or by the fallback
  (`TaskThunks.RejectedRunShowsRejectionMessage`).
- The "Task not found" path (src/features/TodolistsList/tasks.reducer.ts:133-136)
  dispatches loading and the error but no failed status, unlike the handler it stands in
  for. The failed status comes only from the rejection matcher.
- `setTodolists` (src/features/TodolistsList/tasks.reducer.ts:64-68) overwrites an
  existing list's tasks with an empty list, so reloading the lists drops tasks already fetched.
- `removeTaskTC` (src/features/TodolistsList/tasks.reducer.ts:94-98) dispatches
  `removeTask` whenever the call resolves, whatever the result code, where `addTask` and
  `updateTask` check `resultCode === 0`. It has no status or error handling.
- `setAppInitialized(false)` (src/app/app.reducer.ts:33-35) can clear `isInitialized` again. Without it, the flag never
  reverts (`App.InitializedNeverReverts`).
- `addTask.fulfilled` (src/features/TodolistsList/tasks.reducer.ts:48) files the new task under the task's own `todoListId`, not under the
  list id the caller passed.
- On a rejection whose payload has an empty `messages` list (src/app/app.reducer.ts:53), `error` becomes `undefined`
  (`None` here).

## Model

| member | source | states |
|---|---|---|
| App.AppStore.constructor | src/app/app.reducer.ts:14-18 | the slice starts idle, with no error and not initialized |
| App.AppStore.Dispatch | src/app/app.reducer.ts:27-66 | running the setters, or the matchers one after another in registration order, yields exactly the reference transition `Step` |
| App.Step | src/app/app.reducer.ts:27-66 | status changes only on a setter or a lifecycle action; error only on its setter or a rejection; isInitialized only on its setter or initializeApp settling; once set it stays set unless its setter clears it |
| App.Includes | src/app/app.reducer.ts:46-51 | the substring test holds exactly when the part occurs at some position of the type string |
| App.FirstMessage | src/app/app.reducer.ts:53 | `messages[0]` is present exactly when the list is non-empty, and is then its first element |
| App.RejectionMessage | src/app/app.reducer.ts:55 | the action's error message when it is truthy (present and non-empty), else the fallback; never empty |
| App.MatchesInitializeAppSettled | src/app/app.reducer.ts:61 | the `isAnyOf` type-string matcher accepts exactly initializeApp's fulfilled and rejected actions |
| App.AllowListed | src/app/app.reducer.ts:46-50 | holds exactly when one of "addTodolist", "addTask", "initializeApp" occurs somewhere in the action type |
| App.ErrorAfterRejection | src/app/app.reducer.ts:45-56 | with a payload: error kept when allow-listed, else the first message; without a payload: the truthy error.message, else "Some error occurred" |
| App.SettersOverwriteOnlyTheirField | src/app/app.reducer.ts:27-35 | each setter writes its payload into its own field and leaves the other two unchanged |
| App.PendingSetsLoading | src/app/app.reducer.ts:39-41 | any pending action sets loading and leaves error and isInitialized unchanged |
| App.RejectedAllowListedKeepsError | src/app/app.reducer.ts:42-51 | a rejection with a payload whose type contains an allow-listed name sets failed and keeps error |
| App.RejectedWithPayloadShowsFirstMessage | src/app/app.reducer.ts:44-53 | a rejection with a payload and a type outside the allow-list sets failed and error to the first message, undefined for an empty list |
| App.RejectedWithoutPayloadOverwritesError | src/app/app.reducer.ts:54-56 | a rejection without payload sets failed and error to its truthy error message or "Some error occurred", whatever error held before |
| App.FulfilledSetsSucceeded | src/app/app.reducer.ts:58-60 | any fulfilled action sets succeeded and keeps error |
| App.InitializeAppSettles | src/app/app.reducer.ts:39-63 | initializeApp fulfilled or rejected sets isInitialized and, in the same step, succeeded or failed |
| App.InitializeAppIsAllowListed | src/app/app.reducer.ts:46-51 | initializeApp's rejected type contains "initializeApp", so its payload-carrying rejections keep error |
| App.UnmatchedIsNoOp | src/app/app.reducer.ts:64-66 | an action that no case or matcher accepts leaves the state unchanged |
| App.ApplyAllConcat | src/app/app.reducer.ts:39-66 | running two action streams in turn equals running their concatenation |
| App.InitializedNeverReverts | src/app/app.reducer.ts:61-63 | once initialized, no stream without `setAppInitialized(false)` clears the flag |
| ServerAppError.ShownError | src/common/utils/handle-server-app-error.ts:21 | the first message when there is one, else "Some error occurred" |
| ServerAppError.ServerAppErrorActions | src/common/utils/handle-server-app-error.ts:13-26 | at most two actions: the error (only when showError, which defaults to true) before the failed status, which is always last |
| ServerAppError.ServerAppErrorOutcome | src/common/utils/handle-server-app-error.ts:19-25 | afterwards status is failed; error is the first message or the fallback when showError, else unchanged; isInitialized unchanged |
| ServerAppError.HandleServerAppError | src/common/utils/handle-server-app-error.ts:13-26 | dispatching into the store step by step sends exactly those actions and leaves the state they describe |
| Tasks.Overlay | src/features/TodolistsList/tasks.reducer.ts:55 | the merged task takes every field the patch gives and keeps the others, its id and its list id |
| Tasks.ApiModel | src/features/TodolistsList/tasks.reducer.ts:138-146 | each of the six sent fields is the patch's value if given, else the current task's |
| Tasks.SentModelMatchesCommittedTask | src/features/TodolistsList/tasks.reducer.ts:138-146 | the snapshot sent to the server equals the updatable fields of the record the reducer commits on success |
| Tasks.FirstIndexOf | src/features/TodolistsList/tasks.reducer.ts:27 | -1 exactly when no task has the id; otherwise the position of the first task with it |
| Tasks.WithoutFirstIsSplice | src/features/TodolistsList/tasks.reducer.ts:25-29 | removing the first match (reference definition) equals splicing at findIndex, and is the identity when findIndex is -1 |
| Tasks.UpdateFirstIsIndexedWrite | src/features/TodolistsList/tasks.reducer.ts:51-57 | merging into the first match (reference definition) equals writing the merged task at findIndex, and is the identity when findIndex is -1 |
| Tasks.RemoveTaskEffect | src/features/TodolistsList/tasks.reducer.ts:25-29 | with no match the list is unchanged; otherwise the length drops by one and the tasks before and after the first match keep their order |
| Tasks.UpdateTaskEffect | src/features/TodolistsList/tasks.reducer.ts:51-57 | length and every other task are unchanged; the first match becomes its merge with the patch; no match is a no-op |
| Tasks.TasksStore.constructor | src/features/TodolistsList/tasks.reducer.ts:19 | the slice starts as the empty map |
| Tasks.TasksStore.RemoveTask | src/features/TodolistsList/tasks.reducer.ts:25-29 | on an existing list, its entry loses its first task with the id; other entries unchanged |
| Tasks.TasksStore.FetchTasksFulfilled | src/features/TodolistsList/tasks.reducer.ts:44-46 | the list's entry becomes exactly the fetched tasks (replace, not merge); other entries unchanged |
| Tasks.TasksStore.AddTaskFulfilled | src/features/TodolistsList/tasks.reducer.ts:47-50 | the task goes first in the existing list named by its own list id, before the old tasks |
| Tasks.TasksStore.UpdateTaskFulfilled | src/features/TodolistsList/tasks.reducer.ts:51-57 | on an existing list, the first task with the id is merged with the patch; other entries unchanged |
| Tasks.TasksStore.AddTodolist | src/features/TodolistsList/tasks.reducer.ts:58-60 | the new list id maps to no tasks |
| Tasks.TasksStore.RemoveTodolist | src/features/TodolistsList/tasks.reducer.ts:61-63 | exactly that key is deleted |
| Tasks.TasksStore.SetTodolists | src/features/TodolistsList/tasks.reducer.ts:64-68 | every incoming id maps to no tasks, overwriting any existing ones; other keys keep their tasks |
| Tasks.TasksStore.ClearTasksAndTodolists | src/features/TodolistsList/tasks.reducer.ts:69-71 | the slice becomes the empty map |
| TaskThunks.FetchTasks | src/features/TodolistsList/tasks.reducer.ts:77-92 | fulfilled with the fetched tasks and list id whenever the call returns, whatever the result code, after loading then succeeded; a raised failure goes to the network handler and rejects |
| TaskThunks.AddTask | src/features/TodolistsList/tasks.reducer.ts:102-122 | fulfilled with the created task exactly when the result code is 0; a non-zero code runs the application-error handler; a raised failure runs the network handler; both reject with null |
| TaskThunks.FindsTask | src/features/TodolistsList/tasks.reducer.ts:132-133 | `.find` yields a task exactly when the list exists and holds a task with the id |
| TaskThunks.ServerAppErrorEffects | src/features/TodolistsList/tasks.reducer.ts:114 | the handler's effects are all dispatches to the application slice, and the slice sees exactly the handler's actions |
| TaskThunks.AppViewOfDispatches | src/features/TodolistsList/tasks.reducer.ts:153 | the application slice sees exactly the actions dispatched to it, in order |
| TaskThunks.UpdateTask | src/features/TodolistsList/tasks.reducer.ts:124-160 | the gateway is called exactly when the task is found, with the overlaid snapshot; a missing task dispatches "Task not found"; a missing list goes to the network handler; fulfilled with the original argument exactly when the result code is 0 |
| TaskThunks.RemoveTaskTC | src/features/TodolistsList/tasks.reducer.ts:94-98 | dispatches removeTask exactly when the call resolves, and nothing else |
| TaskThunks.RejectedRunShowsRejectionMessage | src/app/app.reducer.ts:42-56 | whatever a run dispatched, its null-payload rejection leaves status failed and error the rejection's own message or the fallback |
| TaskThunks.FulfilledRunShowsSucceeded | src/app/app.reducer.ts:58-60 | a fulfilled run ends succeeded, with the error its own dispatches left |
| TaskThunks.AddTaskIsAllowListed | src/app/app.reducer.ts:46-51 | addTask's rejected type contains "addTask", so only a payload-carrying rejection of it would keep error |

## Left out

- Redux Toolkit machinery (slice creation, draft objects, action creators, action-type string generation) is replaced by explicit action datatypes, methods and ordered guards.
- The `error.message` of a rejected action is a field of the action here. The framework fills it in; for a `rejectWithValue` rejection it is "Rejected".
- Promise sequencing and operations in flight at the same time, racing on the shared status cell, are not modelled: each operation is a single run.
- The HTTP calls are not modelled: the gateway's answer is a parameter of each operation.
- The network-error handler is not part of this model. It appears only as a `HandleNetworkError` effect carrying its cause; its own dispatches are unknown.
- A missing list in `updateTask` makes `.find` throw inside the try block. This is modelled as a `MissingTaskList` cause handed to the network handler. The engine's exception text is not modelled.
- The `debugger` statement and the default case's console logging have no state effect and are left out. So are the commented-out reducers and the commented-out download helper.
- The to-do list slice, the authentication slice and the API type file are not part of this model. Their action shapes are modelled: list ids for the list actions, and `auth/initializeApp` as the initialization type prefix. The task record's fields and the status and priority enumerations follow the API type's field names; their numeric codes are not modelled.
- Because the to-do list slice is not modelled, the invariant that every list key of the tasks slice is also a key of the list slice is not modelled either.
- Tasks.TasksStore.RemoveTask: requires the list key to exist. On a missing key the reducer throws, and that failure is not modelled.
- Tasks.TasksStore.AddTaskFulfilled: requires the list key to exist, for the same reason.
- Tasks.TasksStore.UpdateTaskFulfilled: requires the list key to exist, for the same reason.
- Tasks.Overlay: a patch key present with the value `undefined` would overwrite the field in JavaScript. A patch here only has given and absent fields.
- TaskThunks.AddTask: the operation calls `handleServerAppError` imported from `utils/error-utils`, which is not part of this model; its effects are assumed to be those of the handler in src/common/utils/handle-server-app-error.ts (`ServerAppErrorEffects`).
- TaskThunks.UpdateTask: likewise assumes that the `handleServerAppError` it imports from `utils/error-utils` dispatches exactly the actions of the handler in src/common/utils/handle-server-app-error.ts.
- TaskThunks.AddTask: does not return the list id and title it sends to the gateway. They are fixed by the argument.
- TaskThunks.FetchTasks: does not return the list id it sends to the gateway.
- The tasks slice's case reducers update arrays in place (`splice`, `unshift`, indexed assignment). Here each reassigns the list's entry in the `tasks` map; no two entries share an array, so aliasing is not modelled.
