# Task cache, mock backend and theme of a Vue task manager, modelled in Dafny

This project models three parts of a small Vue single-page task manager:

- **The optimistic task cache of the `useTasks` composable.** Three mutations share one lifecycle: create, delete and change-status.
  - `onMutate` snapshots the cached `['tasks']` list and writes an optimistic list.
  - `onError` writes the snapshot back and shows a toast.
  - `onSettled` invalidates the cache entry.
  - The composable also holds the new-task form. Its `addTask` guard runs the create mutation only when both fields are non-blank after trimming.
- **The mock backend.** It is an in-memory task store seeded with three tasks, served through GET, POST, PUT and DELETE handlers on `/api/tasks`.
- **The `useTheme` composable.** `isDark` is loaded from the stored `'theme'` value and the system colour-scheme preference. It is toggled and persisted as `'dark'`/`'light'`, and mirrored as the `dark-theme` class of the document element.

Files and modules:

- `wrappers.dfy` (`Wrappers`): `Option`.
- `tasks.dfy` (`Tasks`): the `Task` record.
- `js_text.dfy` (`JsText`): ECMAScript `trim` and the truthiness of its result.
- `optimistic.dfy` (`OptimisticUpdates`): the three optimistic updaters as pure functions, with their lemmas.
- `use_tasks.dfy` (`UseTasks`): the class `TasksComposable`.
  - Its fields are the cache entry (`data`), its `stale` flag, the form fields and a ghost log of toasts.
  - Each mutation phase is a method: `onMutate` returns the snapshot as an explicit `Context` value, and `OnError` consumes it.
- `mock_handlers.dfy` (`MockHandlers`): the store as the class `TaskStore`, and the `findIndex` scan as a loop.
  - Specification functions state the store after PUT and after DELETE.
  - Lemmas prove that, with unique ids, the server's results equal the client's optimistic lists.
- `use_theme.dfy` (`UseTheme`): the class `ThemeComposable`.
  - `isDark` is a tri-state `Flag`, because the code can leave it `undefined`.
  - `localStorage` is a `map<string, string>`, and the document class is a `bool`.

Inputs from outside are method parameters:

- the clock reading `Date.now()`;
- how each request ended (`Outcome`);
- whether `window.matchMedia` exists and what it reports (`media`).

How the model reads the JavaScript:

- `context?.previousTasks` is truthy for an empty array too. So `OnError` restores every snapshot that exists, including an empty list. It keeps the optimistic list only when the cache was `undefined` before the mutation.
- `!savedTheme` treats the empty string like `null`.
- `window.matchMedia && ….matches` is `undefined` when `matchMedia` is missing. When no non-empty theme is stored, `isDark` itself then becomes `undefined`, and `!undefined` is `true`.

Two consequences of the code worth stating:

- A failing mutation writes back its own snapshot over anything written after its `onMutate`, so a later mutation's optimistic write is lost from the cache until the refetch (`UseTasks.InterleavedRollback`).
- `Date.now()` ids are never checked for collisions; no lemma assumes a fresh id unless its `requires` says so.

## Model

| member | source | states |
|---|---|---|
| `JsText.LeadingWhitespace` | src/composables/useTasks.ts:91 | the count of leading characters that `trim` strips: all of them are ECMAScript whitespace and the next character, if any, is not |
| `JsText.TrailingWhitespace` | src/composables/useTasks.ts:91 | the count of trailing characters that `trim` strips: all of them are whitespace and the character before them, if any, is not |
| `JsText.Trim` | src/composables/useTasks.ts:91 | `s.trim()` is the slice of `s` after its leading whitespace that neither starts nor ends with whitespace, with only whitespace around it |
| `JsText.HasContent` | src/composables/useTasks.ts:91 | `s.trim()` is truthy exactly when `s` has a character that is not whitespace |
| `OptimisticUpdates.OptimisticCreate` | src/composables/useTasks.ts:30-33 | the placeholder `{id = now, title, description, completed = false}` is at index 0, followed by the cached list unchanged; with nothing cached the result is just the placeholder |
| `OptimisticUpdates.RemoveId` | src/composables/useTasks.ts:53 | the result is no longer than the input, and no task in it carries the deleted id |
| `OptimisticUpdates.RemoveIdMembers` | src/composables/useTasks.ts:53 | a task is in the filtered list exactly when it was in the list and does not carry the deleted id |
| `OptimisticUpdates.OptimisticDelete` | src/composables/useTasks.ts:52-54 | with a cached list, the result is that list filtered by id; with nothing cached it is the empty list |
| `OptimisticUpdates.RemoveIdAppend` | src/composables/useTasks.ts:53 | filtering distributes over concatenation, so the surviving tasks keep their relative order |
| `OptimisticUpdates.RemoveIdAbsent` | src/composables/useTasks.ts:53 | filtering out an id that no task carries leaves the list as it was |
| `OptimisticUpdates.RemoveIdUnique` | src/composables/useTasks.ts:53 | on a list with unique ids, the filter keeps ids unique and removes exactly one task when the id is present, none otherwise |
| `OptimisticUpdates.SetStatus` | src/composables/useTasks.ts:75 | length, order, and every id, title and description are kept; `completed` becomes the argument exactly at the tasks whose id matches, and keeps its old value elsewhere |
| `OptimisticUpdates.OptimisticChangeStatus` | src/composables/useTasks.ts:74-76 | with a cached list, the result is the status map of that list; with nothing cached it is the empty list |
| `OptimisticUpdates.SetStatusPointwise` | src/composables/useTasks.ts:75 | a task whose id does not match is left identical; a matching one differs only in `completed` |
| `OptimisticUpdates.SetStatusUnique` | src/composables/useTasks.ts:75 | the status map keeps the ids of a list unique |
| `OptimisticUpdates.SetStatusIdempotent` | src/composables/useTasks.ts:74-76 | applying the same status change twice equals applying it once |
| `OptimisticUpdates.CreateThenDelete` | src/composables/useTasks.ts:30-33 | when the placeholder id is not in use, deleting it undoes the optimistic create |
| `UseTasks.ErrorToast` | src/composables/useTasks.ts:40 | every toast starts with `Failed to ` and ends with the error's message; the create prefix `Failed to create task: ` is used exactly for a create (lines 61 and 83 give the delete and status texts) |
| `UseTasks.TasksComposable.constructor` | src/composables/useTasks.ts:9-11 | the form fields start empty, `isAddingTask` starts false, and the cache holds the given value with no toast shown |
| `UseTasks.TasksComposable.CreateOnMutate` | src/composables/useTasks.ts:27-35 | the returned context is the cache value read before the write, and the cache becomes the optimistic create list |
| `UseTasks.TasksComposable.DeleteOnMutate` | src/composables/useTasks.ts:49-56 | the returned context is the cache value read before the write, and the cache becomes the optimistic delete list |
| `UseTasks.TasksComposable.ChangeStatusOnMutate` | src/composables/useTasks.ts:71-78 | the returned context is the cache value read before the write, and the cache becomes the optimistic status list |
| `UseTasks.TasksComposable.OnError` | src/composables/useTasks.ts:36-41 | a present snapshot, even an empty list, is written back in place of whatever the cache holds; with no snapshot the cache is left alone; the kind's toast is appended (lines 57-62 and 79-84 are the same handler) |
| `UseTasks.TasksComposable.OnSettled` | src/composables/useTasks.ts:42-44 | the cache entry is invalidated (lines 63-65 and 85-87 are the same handler) |
| `UseTasks.TasksComposable.Mutate` | src/composables/useTasks.ts:24-45 | after one lifecycle, the cache is the pre-mutation list if the request failed and a list was cached, else the optimistic list; it is invalidated on success and on failure alike; a toast is shown exactly on failure |
| `UseTasks.TasksComposable.AddTask` | src/composables/useTasks.ts:90-104 | nothing changes unless both trimmed fields are non-empty; otherwise it submits the untrimmed fields; `isAddingTask` ends false; the fields are cleared only on success; the promise rejects with the request's error on failure |
| `UseTasks.TasksComposable.SubmitNewTask` | src/composables/useTasks.ts:92-101 | the create mutation runs with the fields exactly as typed; `isAddingTask` ends false; the fields are cleared on success and kept on failure; the result is a rejection carrying the request's message on failure |
| `UseTasks.TasksComposable.HandleTaskStatusChange` | src/composables/useTasks.ts:106-108 | runs the change-status mutation for `(id, completed)`, with the lifecycle outcome of `Mutate` |
| `UseTasks.TasksComposable.HandleDeleteTask` | src/composables/useTasks.ts:110-112 | runs the delete mutation for `id`, with the lifecycle outcome of `Mutate` |
| `UseTasks.InterleavedRollback` | src/composables/useTasks.ts:57-60 | a delete fails after a later status change has written its optimistic list: the cache becomes the list from before the delete, and the status change's write is lost |
| `MockHandlers.InitialData` | src/mocks/handlers.ts:6-25 | the seed holds three tasks with distinct ids 1, 2 and 3; task 1 is completed, and tasks 2 and 3 are not |
| `MockHandlers.FirstIndex` | src/mocks/handlers.ts:50 | the result is -1 exactly when no task carries the id; otherwise it is the first index carrying it |
| `MockHandlers.FindIndex` | src/mocks/handlers.ts:66 | the scan returns the first index carrying the id, or -1 |
| `MockHandlers.UpdatedStore` | src/mocks/handlers.ts:52-56 | the length is kept; for a present id, only the first matching task changes, and only in `completed`; for an absent id nothing changes |
| `MockHandlers.DeletedStore` | src/mocks/handlers.ts:68-72 | for a present id, exactly the first matching task is removed: the length drops by one, and the tasks before and after it stay in order; for an absent id nothing changes |
| `MockHandlers.TaskStore.constructor` | src/mocks/handlers.ts:27 | the store starts with the seed |
| `MockHandlers.TaskStore.Get` | src/mocks/handlers.ts:32-35 | returns status 200 with the store contents and changes nothing |
| `MockHandlers.TaskStore.Post` | src/mocks/handlers.ts:37-43 | the store grows by one: the new task `{id = now, title, description, completed = false}` is in front and the older tasks follow unchanged; the response is 201 with that task |
| `MockHandlers.TaskStore.Put` | src/mocks/handlers.ts:45-62 | the store becomes the PUT store; a present id answers 200 with the updated task; an absent id answers 404 `Task not found` |
| `MockHandlers.TaskStore.Delete` | src/mocks/handlers.ts:64-77 | the store becomes the DELETE store; a present id answers 200 with the success message; an absent id answers 404 `Task not found` |
| `MockHandlers.ServerDeleteAgrees` | src/mocks/handlers.ts:66-73 | with pairwise distinct ids, the server's splice equals the client's optimistic delete |
| `MockHandlers.ServerPutAgrees` | src/mocks/handlers.ts:50-57 | with pairwise distinct ids, the server's update equals the client's optimistic status change |
| `MockHandlers.DuplicateIdsDisagree` | src/mocks/handlers.ts:54 | with two tasks sharing an id, the server updates only the first, so the server and client lists differ |
| `MockHandlers.ServerPostAgrees` | src/mocks/handlers.ts:37-43 | running `TaskStore.Post` with the clock reading the client's placeholder used leaves the store equal to the client's optimistic create list over the old store |
| `MockHandlers.StoreKeepsUniqueIds` | src/mocks/handlers.ts:37-73 | PUT and DELETE keep ids unique; POST keeps them unique when the new id is not already in use |
| `UseTheme.SavedTheme` | src/composables/useTheme.ts:7 | `getItem('theme')` is null exactly when no `'theme'` key is stored, and is the stored string otherwise |
| `UseTheme.SavedAfterSet` | src/composables/useTheme.ts:16 | after `setItem('theme', v)`, `getItem('theme')` reads `v` back, whatever was stored before |
| `UseTheme.ThemeName` | src/composables/useTheme.ts:16 | the stored name is `'dark'` exactly for a dark theme and `'light'` exactly for a light one |
| `UseTheme.LoadedIsDark` | src/composables/useTheme.ts:6-12 | `isDark` is true exactly when the stored value is `'dark'`, or when nothing non-empty is stored and the system prefers dark; it is `undefined` exactly when nothing non-empty is stored and `matchMedia` is missing; any other non-empty stored value gives false |
| `UseTheme.Toggled` | src/composables/useTheme.ts:15 | the result is a boolean that is the negation of the old value's truthiness, so `undefined` becomes true |
| `UseTheme.ReloadRestores` | src/composables/useTheme.ts:16 | a stored `'dark'`/`'light'` loads back as the theme it names, whatever the system prefers (the persistence of e2e/ThemeSwitcher.spec.ts:19-23) |
| `UseTheme.ThemeComposable.constructor` | src/composables/useTheme.ts:24-25 | after construction, storage is untouched, `isDark` is the loaded value, and the class follows `isDark` whenever it is a boolean |
| `UseTheme.ThemeComposable.LoadTheme` | src/composables/useTheme.ts:6-12 | `isDark` becomes the value loaded from the stored preference and the system preference |
| `UseTheme.ThemeComposable.ApplyTheme` | src/composables/useTheme.ts:20-22 | the document has the `dark-theme` class exactly when `isDark` is true, whenever `isDark` is a boolean |
| `UseTheme.ThemeComposable.ToggleTheme` | src/composables/useTheme.ts:14-18 | `isDark` becomes its negation; `'theme'` is set to `'dark'` if the new value is true, else `'light'`; the class is then on exactly when `isDark` is true |
| `UseTheme.ToggleTwice` | src/composables/useTheme.ts:15-16 | starting from a boolean, two toggles give the original `isDark` back, and the stored value then names it |

## Left out

- The vue-query library. Refetching is not modelled, and neither are `useQuery`'s `isLoading`/`isPending`/`isError`/`error` flags (src/composables/useTasks.ts:13-22).
  - `cancelQueries` is a no-op, because no background refresh exists in the model.
  - `invalidateQueries` only sets `stale`. The refetch that would replace the list, and the server's authoritative record replacing a placeholder, are library behaviour that is not modelled.
- Asynchrony. There are no `await` points and no interleaving inside one handler. Interleaving between mutations is modelled by calling the phases of several mutations in sequence.
- `isAddingTask` is true while the create request is in flight. Each method runs atomically, so that intermediate value is never observable in the model.
- Toasts are kept only as a ghost log of their text. `vue3-toastify` itself is not part of this model.
- The HTTP wrappers of src/api/tasks.ts, MSW request interception, JSON encoding and the `LiveStorage` persistence are not modelled. Each request's result is the `Outcome` parameter, and the store is a sequence field.
- `Number(id)` parsing of the path parameter is not modelled. The id is an `int`, and the DELETE success message shows the decimal form of that `int` instead of the raw path text.
- `Date.now()` is a parameter, and no uniqueness of it is assumed.
- `UseTheme.ThemeComposable.ApplyTheme`: for an `undefined` `isDark`, the effect of `classList.toggle('dark-theme', undefined)` is DOM behaviour that this model does not specify. The resulting class state is the `fallback` parameter.
- The `watch(isDark, applyTheme)` watcher (src/composables/useTheme.ts:27) is not modelled separately. It re-applies the value that `toggleTheme` has already applied.
- The filter/search/sort pipeline: it lives in `TaskFilter.vue`, which this model does not cover. Routing, the application entry point and the component markup are not modelled either.
- JavaScript strings are UTF-16. The model's strings are sequences of Unicode scalar values, and `trim` uses the ECMAScript whitespace set over them.
