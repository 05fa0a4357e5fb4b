# Client-side state layer of a kanban task tracker

This project models the client-side state layer of a small Vue task tracker with Dafny, and proves properties of the model.
The layer is a set of shared, module-level stores that sit between the UI and a remote service:

- **Task store** (`useTasks`): the task list of the loaded project, with a `loading` flag, an `error` slot and a live `doingCount`.
  The store refuses to create a task in "doing", or to move one there, when 3 are already in "doing" (the WIP limit); it checks this before calling the service.
- **Project store** (`useProjects`): the project list, with `loading` and `error`.
  It keeps the shared **active-project holder** (`activeProject`) pointing into that list.
- **Session store** (`useAuth`): the signed-in `user`, with the derived `isAuthenticated`.
  A run-once bootstrap reads the session and subscribes to session-change notifications.
- **Route guard**: a pure decision taken before each navigation. It proceeds, redirects to `login` or redirects to `home`.

Each store is a `class`. Its fields are the refs of the source, and the source's `computed` values (`DoingCount`, `IsAuthenticated`) are functions of those fields.
A remote call is a `reply` parameter, a `Reply(data, error)` value standing for the `{data, error}` result the service would return.
Each store also keeps a ghost `requests` log of the service calls it has issued. This is how "no service call is made" becomes a postcondition.
The list primitives the stores use (`findIndex`, `find`, `filter` by id, and replacement at an index) are generic functions in `Collections`.
Each has a contract that is independent of its body.
`Scenarios` replays typical usage sequences as client code, and asserts each outcome from the contracts alone.

The source calls `initSession()` once when the session module loads. In the model, that module-level call is the first `InitSession` a client makes on a freshly constructed `SessionStore`; the constructor gives the state just before it.

Files: `remote.dfy` (the `{data, error}` shape), `collections.dfy`, `tasks.dfy`, `project_types.dfy`, `active_project.dfy`, `projects.dfy`, `auth.dfy`, `router.dfy`, `scenarios.dfy`.

## Model

| member | source | states |
|---|---|---|
| Collections.FindIndex | src/modules/tasks/composables/useTasks.ts:71 | -1 exactly when no element has the id; otherwise the index of the first element that has it |
| Collections.Find | src/modules/tasks/composables/useTasks.ts:53 | null exactly when no element has the id; otherwise the element at the first matching position |
| Collections.Without | src/modules/tasks/composables/useTasks.ts:90 | keeps exactly the elements whose id differs (each survivor comes from the input, each non-matching input element survives), never grows, and is the identity when the id is absent |
| Collections.WithoutConcat | src/modules/tasks/composables/useTasks.ts:90 | filtering distributes over concatenation, so survivors keep their original relative order |
| Collections.ReplaceFirst | src/modules/tasks/composables/useTasks.ts:70-73 | keeps the length; without a match the list is unchanged; with a first match at i the result is the list with only position i replaced |
| Tasks.CountDoing | src/modules/tasks/composables/useTasks.ts:10 | the count is at most the list length, and is zero exactly when no task is in "doing" |
| Tasks.CountDoingCountsPositions | src/modules/tasks/composables/useTasks.ts:10 | the count equals the number of positions that hold a "doing" task |
| Tasks.CountDoingConcat | src/modules/tasks/composables/useTasks.ts:10 | the count of a concatenation is the sum of the counts |
| Tasks.CountDoingReplace | src/modules/tasks/composables/useTasks.ts:72 | replacing one task changes the count by the new task's weight minus the old one's |
| Tasks.CountDoingWithout | src/modules/tasks/composables/useTasks.ts:90 | deleting by id never raises the count |
| Tasks.BlocksUpdate | src/modules/tasks/composables/useTasks.ts:50-57 | the update is rejected exactly when all three hold: status "doing" is requested, the count is at least 3, and the first task with the id is not already "doing" (an unknown id counts as not "doing") |
| Tasks.CreateKeepsWipLimit | src/modules/tasks/composables/useTasks.ts:28-46 | an accepted create keeps the count at or below 3, when it was so before and the stored record has the requested status |
| Tasks.UpdateKeepsWipLimit | src/modules/tasks/composables/useTasks.ts:50-73 | an accepted update keeps the count at or below 3, when it was so before and the stored record echoes the requested status (or the old status when none is sent) |
| Tasks.TaskStore.constructor | src/modules/tasks/composables/useTasks.ts:5-7 | the store starts with no tasks, `loading` false and no error |
| Tasks.TaskStore.DoingCount | src/modules/tasks/composables/useTasks.ts:10 | recomputed from the current list on every read: the number of positions of `tasks` that hold a "doing" task |
| Tasks.TaskStore.FetchTasks | src/modules/tasks/composables/useTasks.ts:12-25 | one call is made and `loading` ends false; on error the list is kept and the error stored; otherwise the list is the data, or [] when the data is null, and the error is cleared |
| Tasks.TaskStore.CreateTask | src/modules/tasks/composables/useTasks.ts:27-47 | with status "doing" at count 3 or more it returns false, stores the WIP error and changes no list, no `loading` and no call log; otherwise one call is made and `loading` ends false; on error it returns false with the list unchanged; on success it returns true and appends the stored record (old indices kept, length one more); the WIP limit is kept |
| Tasks.TaskStore.UpdateTask | src/modules/tasks/composables/useTasks.ts:49-76 | the same outcome shape as CreateTask, with the rejection test of BlocksUpdate; on success the first task with the id is replaced in place (nothing else changes, and nothing changes without a match); the WIP limit is kept |
| Tasks.TaskStore.UpdateStatus | src/modules/tasks/composables/useTasks.ts:95-97 | meets exactly the postcondition UpdateTask meets for the payload `{id, status}` |
| Tasks.TaskStore.DeleteTask | src/modules/tasks/composables/useTasks.ts:78-93 | one call is made and `loading` ends false; on error it returns false and keeps the list; on success it returns true and keeps exactly the tasks with a different id; the count never rises |
| Tasks.TaskStore.UpdatePosition | src/modules/tasks/composables/useTasks.ts:99-113 | always issues its call (there is no WIP test) and never writes `loading`; on error it stores the error and keeps the list; on success it keeps the error slot and replaces the first task with the id; the count is unchanged when the record keeps its status |
| Tasks.TaskStore.ClearError | src/modules/tasks/composables/useTasks.ts:115-117 | only `error` changes, to null |
| ActiveProject.ActiveProjectStore.constructor | src/store/activeProject.ts:4 | the holder starts with no active project |
| ActiveProject.ActiveProjectStore.SetActiveProject | src/store/activeProject.ts:7-9 | afterwards the active project is exactly the given one, whatever it was before |
| ActiveProject.ActiveProjectStore.ClearActiveProject | src/store/activeProject.ts:11-13 | afterwards nothing is active; the new state does not depend on the old one, so clearing is idempotent |
| Projects.ProjectStore.constructor | src/modules/projects/composables/useProjects.ts:6-11 | the store starts with no projects, `loading` false, no error, and shares the given holder |
| Projects.ProjectStore.FetchProjects | src/modules/projects/composables/useProjects.ts:13-31 | one call is made and `loading` ends false; on error the list and the active project are kept; on success the list is the data, or [] when the data is null, and the first project becomes active only when nothing was active and the list is non-empty; the active project then lies in the list whenever nothing was active before |
| Projects.ProjectStore.CreateProject | src/modules/projects/composables/useProjects.ts:33-51 | on error it returns false and keeps the list and the active project; on success the stored record is put at index 0 ahead of the old list and made active unconditionally; consistency is kept |
| Projects.ProjectStore.UpdateProject | src/modules/projects/composables/useProjects.ts:53-72 | on error it keeps everything but `error` and `loading`; on success the first project with the id is replaced in place, and the active project is replaced only when its id is the updated id; consistency is kept |
| Projects.ProjectStore.DeleteProject | src/modules/projects/composables/useProjects.ts:74-98 | on error it keeps everything but `error` and `loading`; on success it keeps exactly the projects with a different id; an active project with that id is replaced by the new first project, or cleared when the list is empty; any other active project is left alone; consistency is kept |
| Projects.ProjectStore.SelectProject | src/modules/projects/composables/useProjects.ts:100-102 | only the active project changes, to the given project; choosing a listed project keeps consistency |
| Projects.UpdateKeepsActiveInList | src/modules/projects/composables/useProjects.ts:65-69 | an update keeps the active project inside the list, and keeps something active while the list is non-empty |
| Projects.DeleteKeepsActiveInList | src/modules/projects/composables/useProjects.ts:86-95 | a delete, with its re-pointing of the active project, keeps the active project inside the list and keeps something active while the list is non-empty |
| Auth.SessionStore.constructor | src/modules/auth/composables/useAuth.ts:5-10 | the store starts with no user, `loading` false, no error and the bootstrap not yet run |
| Auth.SessionStore.IsAuthenticated | src/modules/auth/composables/useAuth.ts:36 | true exactly when `user` is non-null, recomputed on every read |
| Auth.SessionStore.InitSession | src/modules/auth/composables/useAuth.ts:12-31 | the first call sets `user` to the session lookup's data (null when the lookup failed), issues one lookup and subscribes once; while `initialized` holds, later calls change nothing; exactly one subscription is live once initialized |
| Auth.SessionStore.OnSessionChange | src/modules/auth/composables/useAuth.ts:20-22 | a notification overwrites `user` with the notified value, which may be null, and so decides `isAuthenticated` |
| Auth.SessionStore.Dispose | src/modules/auth/composables/useAuth.ts:25-30 | teardown unsubscribes and clears `initialized`, so the bootstrap may run again |
| Auth.SessionStore.SignUp | src/modules/auth/composables/useAuth.ts:38-52 | `loading` ends false; on error it returns false, stores the error and keeps `user`; on success it returns true and sets `user` to the returned identity |
| Auth.SessionStore.SignIn | src/modules/auth/composables/useAuth.ts:54-68 | the same as SignUp, against the sign-in call |
| Auth.SessionStore.SignOut | src/modules/auth/composables/useAuth.ts:70-83 | `loading` ends false; on error it stores the error and keeps `user`; on success nobody is signed in, whatever the prior user was |
| Auth.SessionStore.ClearError | src/modules/auth/composables/useAuth.ts:85-87 | only `error` changes, to null; `user` and `loading` are untouched |
| Router.IsPublic | src/router/index.ts:41 | a route is public only when its `meta.public` is the boolean `true`; a missing `meta.public`, `false` or any other value makes it non-public |
| Router.RouteMeta | src/router/index.ts:6-30 | the route table's `meta.public`: exactly `login` and `register` are public; `home`, `design-system` and unknown names are not |
| Router.Guard | src/router/index.ts:38-50 | no user data and a non-public target redirects to `login`; user data and a public target redirects to `home`; navigation proceeds in exactly the two other cases; only the value `true` makes a route public, and a failed lookup with null data counts as unauthenticated |
| Router.RedirectSettles | src/router/index.ts:5-50 | with the session unchanged, the guard lets through the route it redirected to, so no redirect loop arises |

## Left out

- The remote service modules (the task, project and auth services) are not modelled. Each call is a `reply` parameter chosen by the caller. So the server-side ordering of fetched lists by creation time is not modelled either, and fetched lists are taken as given.
- The position coordinates are `real`. JavaScript's NaN, infinities and floating-point rounding are not modelled; the stores only pass the coordinates on.
- Asynchrony is not modelled. Each operation runs atomically, from its start to its reply, so the model does not capture overlapping calls on one store. In particular, the asynchronous session lookup in `initSession` lands at once in the model.
- Vue reactivity is not modelled: refs are fields, and computed values are functions read on demand.
- A service call that throws is not modelled. The code has no `try`/`finally`, so a throwing call leaves `loading` true; nothing is claimed about that case.
- The subscription handle and the hot-reload hook are reduced to the ghost subscription count and `Dispose`. Router construction, the lazy view imports, `main.ts` and the lint configuration hold no logic and are out of scope.
- The code has no energy-level or impact-score fields, does not cascade task deletion when a project is deleted, and does not re-validate an active project against a fetched list; the model follows the code. So `FetchProjects` keeps an active project that the new list may no longer contain, and it preserves consistency only when nothing was active.
- `fetchTasks` takes the server's list as it is, so a fetched list may hold more than 3 "doing" tasks. The WIP limit is a client-side check on create and update only; it is not an invariant of the store.
- Tasks.TaskStore.CreateTask: the WIP limit is proved only when the stored record has the requested status, because the server decides what it stores.
- Tasks.TaskStore.UpdateTask: the WIP limit is proved only when the stored record echoes the requested status (or the old status when none is sent), for the same reason.
- Tasks.TaskStore.UpdatePosition: the count is proved unchanged only when the stored record keeps its status, for the same reason.
- Auth.SessionStore.OnSessionChange: it requires a live subscription, because notifications only arrive after the bootstrap subscribed.
