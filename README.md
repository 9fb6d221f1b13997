# Project management client: session and resource-state model

A Dafny model of the state logic of a browser client for managing projects and their tasks.
The client has three stateful pieces, and each is modelled as a class whose methods are proved
against functions of the old state:

- **Resource store** (`ResourceStore.Store`, from `ProjectProvider`). It holds four cells:
  `projects`, `tasks`, `loading` and `error`. Each of its eight operations runs the same steps.
  It sets `loading` and clears `error`, receives the server's outcome, then applies one
  transform: replace, append, replace-by-id or remove-by-id. Deleting a project also removes
  that project's tasks. A failure sets the operation's fixed message. Every operation ends by
  clearing `loading`.
- **Session manager** (`Session.SessionManager`, from `AuthProvider`). It keeps the in-memory
  `user`, `token` and `loading`, plus the browser's string storage with the entries
  `Usertoken` and `authUser`. Restore reads both entries. Login and register commit the session
  only when the response user carries a token. Logout clears the session.
- **Mock backend** (`MockApi.Backend`, from `MockAPI`). It keeps tables of users, projects and
  tasks, each under its own storage key. Operations are lookup, register with a
  duplicate-email check, create, update by `findIndex` plus merge, and delete with cascade.

Shared modules:

- `Wrappers`: `Option`, `Result` and the `list || []` default.
- `Records`: the record shapes of `src/types/index.ts`.
- `Tables`: the array transforms both sides use. These are `filter` on a key (`Keep`, `Drop`),
  `map` replace-by-key (`Replace`) and `findIndex` (`IndexOf`, `FindIndex`). The module also
  holds the lemmas that relate them.
- `Codec`: a text encoding of the user record with a proved round trip. It stands for
  `JSON.stringify`/`JSON.parse`.

The server is not modelled. Each HTTP call becomes an input: `Outcome.Failure`, or
`Outcome.Success(payload)` carrying the part of the response the client reads. Fresh ids,
timestamps and tokens are inputs too.

Behaviours of the code that the model keeps as written:

- Restore with a user entry that does not parse. `JSON.parse` throws after `setToken` has been
  called (src/contexts/AuthContext.tsx:26-27), so the effect stops before `setLoading(false)`.
  The model's restore ends in that state: the token is set, the user stays null and `loading`
  stays true. What React does with the escaping exception afterwards is not modelled.
- Restore tests truthiness, so an empty stored string counts as absent.
- `updateProject`/`updateTask` in the store replace every held record with that id (`map`).
  The mock backend's update changes only the first match (`findIndex`).
- `createTask` appends only when the response has a `result`. Otherwise nothing changes and
  `error` stays cleared.
- Held records have the shapes of `src/types/index.ts`: `id`, a string `projectId`,
  `completed` and `priority`. The store's id comparisons are those of the code as typed.

## Model

| member | source | states |
|---|---|---|
| `Wrappers.OrEmpty` | src/services/mockApi.ts:6-9 | a missing list (absent storage key, absent `projects`/`tasks` field) reads as the empty list, a present one as itself |
| `Tables.Keep` | src/services/mockApi.ts:62 | `filter(x => key(x) === k)`: every result element is from the input and has key `k`; every input element with key `k` is kept; order is kept (subsequence); an input where all keys are `k` is unchanged (multiplicities: `KeepDropCounts`) |
| `Tables.Drop` | src/contexts/ProjectContext.tsx:141 | `filter(x => key(x) !== k)`: every result element is from the input and lacks key `k`; every other element is kept; order is kept; nothing to remove means the input is unchanged |
| `Tables.Replace` | src/contexts/ProjectContext.tsx:119 | `map` replace-by-key: length kept; each position holds the new record where the key matched and the old one elsewhere; no match means unchanged |
| `Tables.IndexOf` | src/services/mockApi.ts:86 | `findIndex`: -1 exactly when no element has the key, otherwise the first position that has it |
| `Tables.FindIndex` | src/services/mockApi.ts:86 | the linear scan returns `IndexOf` |
| `Tables.KeepDropCounts` | src/services/mockApi.ts:62 | filtering on key `k` keeps every record of that key exactly as many times as the input holds it and no record of another key; filtering it out does the opposite |
| `Tables.KeepDropPartition` | src/services/mockApi.ts:106-119 | keeping and dropping one key split a list: the two multisets add up to the list's, and so do the lengths |
| `Tables.DropIdempotent` | src/contexts/ProjectContext.tsx:228 | removing by id twice equals removing once |
| `Tables.KeepAfterDrop` | src/services/mockApi.ts:110-119 | after dropping key `k`, selecting `k` gives nothing and selecting any other key gives what it gave before |
| `Tables.DropAfterReplace` | src/contexts/ProjectContext.tsx:119-142 | an update (record keeps its id) followed by a delete of that id equals the delete alone |
| `Tables.DropKeepsUnique` | src/services/mockApi.ts:105-112 | deleting keeps ids unique |
| `Tables.AppendFreshKeepsUnique` | src/services/mockApi.ts:69-77 | appending a record with a fresh id keeps ids unique |
| `Tables.ReplaceIsIndexUpdate` | src/services/mockApi.ts:86-99 | with unique ids, the client's replace-by-id equals the backend's single-index write at `findIndex` |
| `Codec.DecodeEncode` | src/contexts/AuthContext.tsx:51 | decoding the encoded field list gives the list back |
| `Session.EncodeUser` | src/contexts/AuthContext.tsx:51 | the serialised user record (`JSON.stringify`) is never empty and parses back to the same record |
| `Session.DecodeUser` | src/contexts/AuthContext.tsx:27 | parsing (`JSON.parse`) succeeds exactly when the text decodes to five fields, and the user holds those fields in order |
| `Session.Lookup` | src/contexts/AuthContext.tsx:22-25 | a missing entry reads as the empty string, a present one as its value |
| `Session.ReadSession` | src/contexts/AuthContext.tsx:22-28 | no session exactly when either entry is missing or empty; a found session takes the token entry and the parsed user entry |
| `Session.RestoreAfterPersist` | src/contexts/AuthContext.tsx:48-51 | what login/register persists is restored as the same token and user |
| `Session.RestoreAfterForget` | src/contexts/AuthContext.tsx:94-99 | restore after logout finds no session |
| `Session.ForgetIdempotent` | src/contexts/AuthContext.tsx:97-98 | removing both entries twice equals removing them once |
| `Session.ForgetAfterPersist` | src/contexts/AuthContext.tsx:80-81 | login then logout leaves storage as logout alone does |
| `Session.Persist` | src/contexts/AuthContext.tsx:50-51 | the token entry holds the user's token, the user entry holds the serialised user, and every other entry is unchanged |
| `Session.Forget` | src/contexts/AuthContext.tsx:97-98 | both session entries are removed and every other entry is unchanged |
| `Session.SessionManager.constructor` | src/contexts/AuthContext.tsx:17-19 | mount state: no user, no token, `loading` true |
| `Session.SessionManager.Restore` | src/contexts/AuthContext.tsx:21-31 | both entries present sets token and user and clears `loading`; either missing changes nothing but `loading`; an unparsable user entry sets only the token and leaves `loading` set; storage unchanged |
| `Session.SessionManager.Authenticate` | src/contexts/AuthContext.tsx:42-61 | the shared commit step of login and register (their contract) |
| `Session.SessionManager.Login` | src/contexts/AuthContext.tsx:34-62 | true exactly when the response user has a token; then user, token and both entries are written with that token; otherwise user, token and storage are unchanged; `loading` ends false |
| `Session.SessionManager.Register` | src/contexts/AuthContext.tsx:65-92 | the same contract as login; success establishes the session at once |
| `Session.SessionManager.Logout` | src/contexts/AuthContext.tsx:94-99 | user and token cleared, both entries removed, the rest unchanged |
| `Session.LoginThenRestart` | src/contexts/AuthContext.tsx:43-51 | login succeeds exactly when the token is non-empty, and then a fresh mount's restore yields that user and token |
| `Session.LogoutTwiceThenRestart` | src/contexts/AuthContext.tsx:94-99 | a second logout leaves the storage the first left, and a restart after it has no user and `loading` false |
| `ResourceStore.Store.constructor` | src/contexts/ProjectContext.tsx:20-23 | empty collections, not loading, no error |
| `ResourceStore.Store.Begin` | src/contexts/ProjectContext.tsx:32-33 | every operation's start: loading, error cleared, collections unchanged |
| `ResourceStore.Store.FetchProjects` | src/contexts/ProjectContext.tsx:29-61 | without a user all four cells are unchanged; success replaces `projects` by the server list (empty if absent); failure keeps it and sets "Failed to fetch projects"; `tasks` unchanged; `loading` ends false |
| `ResourceStore.Store.FetchTasks` | src/contexts/ProjectContext.tsx:64-84 | success replaces `tasks` by the server list (empty if absent), dropping all earlier tasks; failure keeps it and sets its message; `loading` ends false |
| `ResourceStore.Store.CreateProject` | src/contexts/ProjectContext.tsx:86-104 | without a user nothing changes; success appends exactly the server record at the end; failure keeps `projects` and sets its message |
| `ResourceStore.Store.UpdateProject` | src/contexts/ProjectContext.tsx:106-126 | success is `Replace` by id with the server record; failure leaves both collections and sets its message |
| `ResourceStore.Store.DeleteProject` | src/contexts/ProjectContext.tsx:128-149 | success drops the projects with that id and the tasks with that project id; failure removes nothing and sets its message |
| `ResourceStore.Store.CreateTask` | src/contexts/ProjectContext.tsx:151-189 | appends the record only when the response has a `result`; without one, tasks are unchanged and error is cleared; failure sets its message |
| `ResourceStore.Store.UpdateTask` | src/contexts/ProjectContext.tsx:192-210 | success is `Replace` by id; failure leaves `tasks` and sets its message |
| `ResourceStore.Store.DeleteTask` | src/contexts/ProjectContext.tsx:212-235 | success drops the tasks with that id; failure leaves `tasks` and sets its message |
| `ResourceStore.DeleteProjectCascade` | src/contexts/ProjectContext.tsx:141-142 | after the cascade no project has the id and no task references it; every other project and task stays; the counts drop by exactly the matching ones |
| `ResourceStore.FetchScenario` | src/contexts/ProjectContext.tsx:54-60 | a failed fetch keeps the earlier projects and reports its message; a second task fetch holds only the second list |
| `ResourceStore.SignedOutScenario` | src/contexts/ProjectContext.tsx:30 | without a user, fetching and creating projects leave the store as it was |
| `MockApi.MergeProject` | src/services/mockApi.ts:92-96 | fields absent from the update keep their old values, present ones take the new value, `updatedAt` is the supplied time |
| `MockApi.MergeTask` | src/services/mockApi.ts:149-153 | the same merge for tasks |
| `MockApi.MergeIdempotent` | src/services/mockApi.ts:92-96 | merging the same update twice at the same time equals merging once |
| `MockApi.Strip` | src/services/mockApi.ts:23 | the user handed out has the stored id, email, name and creation time, and no password field |
| `MockApi.FindUser` | src/services/mockApi.ts:20 | none exactly when no stored user has both the email and the password, otherwise the first user that does |
| `MockApi.FindRegistered` | src/services/mockApi.ts:37-50 | a user appended under an email nobody had is what a credential lookup finds |
| `MockApi.Backend.constructor` | src/services/mockApi.ts:185 | the backend over the storage as found |
| `MockApi.Backend.Users` | src/services/mockApi.ts:6-9 | the `users` table: empty when its storage key is absent, the stored list otherwise |
| `MockApi.Backend.Projects` | src/services/mockApi.ts:6-9 | the `projects` table read the same way |
| `MockApi.Backend.Tasks` | src/services/mockApi.ts:6-9 | the `tasks` table read the same way |
| `MockApi.Backend.Login` | src/services/mockApi.ts:16-29 | a payload exactly when some stored user has both credentials; it holds the first such user (as `find` returns) without password, and the minted token |
| `MockApi.Backend.Register` | src/services/mockApi.ts:31-56 | "User already exists" exactly when the email is stored, and then `users` is unchanged; success appends one row with the given fields, returns it without password, and a later login with the same credentials finds it |
| `MockApi.Backend.GetProjects` | src/services/mockApi.ts:59-63 | exactly the projects of that user, each as many times as stored, in stored order |
| `MockApi.Backend.CreateProject` | src/services/mockApi.ts:65-80 | appends the draft with the fresh id and timestamps; other tables unchanged; fresh id keeps ids unique |
| `MockApi.Backend.UpdateProject` | src/services/mockApi.ts:82-100 | unknown id: "Project not found" and storage unchanged; otherwise only position `findIndex` changes, to the merge, and that stored record is returned |
| `MockApi.Backend.DeleteProject` | src/services/mockApi.ts:102-113 | removes the projects with the id and the tasks with that project id; afterwards that project has no tasks and every other project's tasks are as before |
| `MockApi.Backend.GetTasks` | src/services/mockApi.ts:116-120 | exactly the tasks of that project, each as many times as stored, in stored order |
| `MockApi.Backend.CreateTask` | src/services/mockApi.ts:122-137 | appends the draft with the fresh id and timestamps; fresh id keeps ids unique |
| `MockApi.Backend.UpdateTask` | src/services/mockApi.ts:139-157 | unknown id: "Task not found" and storage unchanged; otherwise only position `findIndex` changes, to the merge, and that record is returned |
| `MockApi.Backend.DeleteTask` | src/services/mockApi.ts:159-165 | removes the tasks with that id, nothing else |

## Left out

- HTTP calls (axios), URLs, request bodies and auth headers: every request is replaced by its
  outcome. This includes the `statusFilter=active` form field and the token each store
  request reads from storage.
- `src/services/api.ts`: a thin wrapper around the HTTP client. It is not part of this model.
- Concurrency. Two operations in flight race on the shared `loading`/`error` cells, and
  `MockAPI.delay` waits on a timer. Neither is modelled: each operation is one atomic step.
  Only its start (`Store.Begin`) and its final state are stated.
- JSON. The session's user entry uses the `Codec` encoding instead of JSON text. The mock
  backend's tables are kept decoded, so a stored empty string, which `getFromStorage` also reads
  as `[]`, is not represented. Text that parses to something other than a user record is not
  represented either.
- Response fields that are missing in the client. A missing `result.project` on project
  update, or a missing `result` on project create or task update, puts `undefined` into the
  list (src/contexts/ProjectContext.tsx:97, 119, 203), and a `seq<Project>` or `seq<Task>`
  cannot hold it. A missing `result` on project update throws inside the state updater passed
  to `setProjects` (line 119), which React runs outside the `try`, and only when some held
  project has that id: no error message is set, `loading` is still cleared, and the throw
  surfaces when the provider renders. The model's success payload is always a record. A missing `result` on a fetch is a thrown
  `TypeError`, so it is modelled as `Failure`.
- JavaScript spread of an update object that holds an explicitly `undefined` value. The model
  treats that field as absent.
- `uuidv4`, `Date`, `toISOString`, `btoa` and `generateJWTToken`: their values are inputs.
  Freshness of ids is a hypothesis of the uniqueness contracts, not a fact.
- `Session.SessionManager.Login`, `Session.SessionManager.Register`: the email, password and name
  go only to the server, so they are not parameters.
- `Session.SessionManager.Restore`: an exception escaping the effect is not followed past the
  effect itself (React's handling of it is out of scope).
- Record shapes the pages read. The pages key held records by `_id`
  (src/pages/DashboardPage.tsx:125, src/pages/ProjectDetailsPage.tsx:184-189,
  src/pages/TaskFormPage.tsx:15) and read a task `status`, a `dueDate` and a populated
  `projectId._id` (src/pages/TaskFormPage.tsx:14, 42-43, src/pages/ProjectDetailsPage.tsx:14,
  87, 192-210). The store compares `id` and `projectId`
  (src/contexts/ProjectContext.tsx:119, 141-142, 203, 228). The model holds records of the
  `src/types/index.ts` shapes only. With records of the shape the pages read, those
  comparisons would match nothing, and that case is not modelled.
- Storage writes failing. `localStorage.setItem` and `removeItem` are assumed not to throw. In
  the code, a quota error after `setToken`/`setUser` makes login or register return false with
  the in-memory session already set (src/contexts/AuthContext.tsx:48-51, 78-81). The model's
  `Persist` always succeeds.
- Pages, layout and routing, `src/data/demoData.js` (commented out) and console logging.
