# Kanban board and auth server, modelled in Dafny

This project models the core of a kanban-style task board: a browser client
that groups tasks into three columns and moves them by drag and drop, and a
small API server that keeps a user table and issues access/refresh token
pairs.

- `js_runtime.dfy` (module `JsRuntime`): the JavaScript behaviour the code
  relies on — `findIndex`, `filter` with an inequality, dictionary lookup
  giving `undefined`, and string truthiness.
- `interfaces.dfy` (module `Interfaces`): tasks, columns and the board
  (`src/types/interfaces.ts`). A status is a plain string: the declared
  `"todo" | "inprogress" | "done" | custom-N` is not enforced on data from the
  server, and every status other than the three base ones (a `custom-N` in
  particular) names no column. The board is a class, because the updaters
  change its column list and task dictionary in place.
- `kanban_app.dfy` (module `KanbanApp`): `createInitialBoard` as a method
  with a loop, proved equal to reference functions (`InitialColumns`,
  `TaskIndex`), and the two `setBoard` updaters as methods of the `App`
  state. The updaters spread the previous board (`{ ...prev }`), which copies
  only the outer object: the new board shares the previous board's column
  array and task dictionary, so every change they make is a change to the
  one board, and the model updates that `Board` object. When `findIndex`
  gives -1 the updater reads `columns[-1].taskIds` and throws a TypeError;
  the model returns `MissingColumn` and keeps what had already been changed
  before the throw (the filtered source column in a move, the stored task
  in a create).
- `board_component.dfy` (module `BoardComponent`): the drag decision shared
  by `handleDragOver` and `handleDragEnd`, the `activeTask` field, and a
  lemma that a move the drag handlers issue on a board with distinct column
  ids always finds both columns in the application's updater.
- `auth_server.dfy` (module `AuthServer`): register (a `UserStore` class
  whose list is appended to), login, refresh and `generateTokens`. Password
  hashing, JWT signing and verification, the clock and the database file are
  opaque: the hash, the user id (`Date.now().toString()`) and the clock
  reading are parameters, and signing/verification are the two functions of
  a `Jwt` value; verification is given the clock reading in seconds.
  Properties that need a signer whose tokens verify to their own payload
  state that assumption as `Sound(jwt)`: a signed token verifies to its
  payload while the reading is before the payload's `exp` and is rejected
  as expired from then on, as `jsonwebtoken`'s `verify` does with no clock
  tolerance.

The client has no token-refresh queue or request-retry logic: its request
layer (`src/services/api.ts:16-22`) only attaches a bearer token read from
local storage, so no such component is modelled.

## Model

| member | source | states |
|---|---|---|
| `JsRuntime.FindIndex` | src/App.tsx:96-98 | the result is -1 exactly when no element satisfies the test, otherwise the index of the first element that does |
| `JsRuntime.Without` | src/App.tsx:99-101 | the filtered ids no longer contain the task id; every other id keeps its multiplicity; a list without the id is returned unchanged |
| `JsRuntime.WithoutConcat` | src/App.tsx:99-101 | filtering keeps the order of the remaining ids: filtering a concatenation is the concatenation of the filtered parts |
| `KanbanApp.IndexOf` | src/App.tsx:96-98 | `findIndex` by column id: -1 exactly when no column has the id, otherwise the first column that has it |
| `KanbanApp.TaskIndex` | src/App.tsx:20-22 | every input task's id is a key; every key is the id of some input task; every entry is a full task stored under its own id |
| `KanbanApp.CreateInitialBoard` | src/App.tsx:9-33 | a fresh board with exactly three columns `todo`/"To Do", `inprogress`/"In Progress", `done`/"Done" in that order, whose columns and dictionary equal the reference grouping and index of the input, and which satisfies the board invariant |
| `KanbanApp.IdsWithStatusExactly` | src/App.tsx:21-27 | an id is in the column for status `s` if and only if some input task has status `s` and that id |
| `KanbanApp.IdsWithStatusAppend` | src/App.tsx:21-27 | column ids follow input order: the ids for a concatenation of task lists are those of the first list followed by those of the second |
| `KanbanApp.TaskIndexLastWins` | src/App.tsx:20-22 | with duplicate ids, the dictionary holds the last task carrying the id |
| `KanbanApp.StatusOutsideColumnsUnplaced` | src/App.tsx:21-27 | a task whose status is none of the three column ids (a `custom-N` status) is in the dictionary but in no column, unless another task shares its id |
| `KanbanApp.InitialBoardValid` | src/App.tsx:9-33 | the initial board's column ids are distinct and each column lists only ids with a dictionary entry |
| `KanbanApp.DropFrom` | src/App.tsx:95-101 | after the source column's filter the task id occurs nowhere in it, its other ids keep their multiplicities, ids and titles of all columns and all other columns are unchanged |
| `KanbanApp.PushOnto` | src/App.tsx:103-107 | the pushed column has one more id, the task id is its last, the earlier ids are the old ones; every other column is unchanged |
| `KanbanApp.MovedColumns` | src/App.tsx:95-107 | after a move the task id is absent from the source column (when source and destination differ), is the last id of the destination, whose earlier ids are its old ids (the filtered ones when source and destination coincide), and every other column is unchanged |
| `KanbanApp.Restamped` | src/App.tsx:110-114 | the restamped entry has the destination status and the given update time and keeps every other field; a missing entry becomes a status-and-stamp fragment |
| `KanbanApp.MovePreservesValid` | src/App.tsx:91-117 | a move keeps column ids distinct and keeps every listed id in the dictionary |
| `KanbanApp.App.Load` | src/App.tsx:72-73 | the board becomes the initial board built from the fetched task list |
| `KanbanApp.App.HandleTaskMove` | src/App.tsx:87-117 | a null board is left null; a missing source column throws with nothing changed; a missing destination throws after the source has been filtered; otherwise the columns are the moved columns and only the moved task's entry changes, to its restamped form; the board invariant is kept |
| `KanbanApp.App.HandleCreateTask` | src/App.tsx:136-150 | a null board is left null; otherwise the task is stored under its id, then its id is appended to the column whose id is its status, or a TypeError is thrown with the columns unchanged when there is none; the board invariant is kept |
| `BoardComponent.ColumnHolding` | src/components/Board.tsx:59-61 | the source column is the first column listing the dragged id, -1 exactly when none does |
| `BoardComponent.ColumnUnder` | src/components/Board.tsx:63-65 | the target column is the first column whose id is the target id or which lists it, -1 exactly when none is |
| `BoardComponent.HandleDragOver` | src/components/Board.tsx:47-70 | no move without a drop target, when the dragged id is the target id, or when the item is not a "Task"; a move names the dragged id, the source and the target column ids, which are non-empty and differ; and whenever all those conditions hold a move is issued |
| `BoardComponent.DragMoveLocatesColumns` | src/components/Board.tsx:67-69 | on a board with distinct column ids, an issued move names two different existing columns, the source lists the task, and the application's move then removes it from the source and appends it to the destination |
| `BoardComponent.BoardView.HandleDragStart` | src/components/Board.tsx:42-45 | the active task becomes the dragged id |
| `BoardComponent.BoardView.HandleDragEnd` | src/components/Board.tsx:72-96 | the active task is cleared on every path, and the move issued is the drag-over decision |
| `BoardComponent.BoardView.GetActiveTask` | src/components/Board.tsx:98-101 | nothing while no (or an empty) id is active, otherwise the dictionary entry of the active id |
| `AuthServer.GenerateTokens` | server/server.js:3-26 | with a sound signer, at every clock reading before its expiry the access token verifies to a payload of type "access" and the refresh token to one of type "refresh", both for the given user and issued at the same second, with `exp` the issue second plus the token's own lifetime; at and after that expiry each is rejected |
| `AuthServer.FindByEmail` | server/server.js:66 | nothing exactly when no user has the email, otherwise the first user that has it |
| `AuthServer.UserStore.Register` | server/server.js:31-59 | an existing email gives 400 "User already exists" and leaves the table unchanged; otherwise exactly one user with the given id, email and hash is appended, existing users stay as they were, and the reply carries the pair generated for the new id; email uniqueness is preserved; the last two hold for a registration that runs without another one interleaved |
| `AuthServer.Login` | server/server.js:61-80 | an unknown email gives 400 "User not found"; a known email with a failing password check gives 400 "Invalid password"; tokens are issued exactly when the password check passes, for that user's id |
| `AuthServer.Refresh` | server/server.js:82-102 | a missing or empty token gives 400 "Refresh token required"; otherwise tokens are issued exactly when verification at the current second succeeds with type "refresh", for the verified user id, and every other case (bad signature, expired token, wrong type) gives 401 "Invalid refresh token" |
| `AuthServer.RegisterKeepsEmailsUnique` | server/server.js:36-49 | appending a user whose email is not present keeps all emails distinct |
| `AuthServer.LoginFindsTheUser` | server/server.js:66 | when emails are unique, the login lookup for a user's email finds that very user |
| `AuthServer.LoginAfterRegister` | server/server.js:43-75 | after registering a new email, login with it checks the password against the stored hash and, when the check passes, issues the pair for the new user's id |
| `AuthServer.RefreshAcceptsIssuedRefreshToken` | server/server.js:90-97 | with a sound signer, the refresh token of an issued pair is accepted while its lifetime has not passed and yields a new pair for the same user |
| `AuthServer.RefreshRejectsExpiredRefreshToken` | server/server.js:90-100 | with a sound signer, the refresh token of an issued pair presented at or after its expiry gives 401 "Invalid refresh token" |
| `AuthServer.RefreshRejectsAccessToken` | server/server.js:90-100 | with a sound signer, an access token presented for refresh gives 401 "Invalid refresh token", expired or not |

## Left out

- Rendering, forms and the other UI components (login, register, task forms, cards, columns): markup and form state, not board logic.
- The calls to the API (`getTasks`, `createTask`, `updateTask`) and the refetch on a failed move (src/App.tsx:119-128): network I/O. `App.Load` takes the fetched list as a parameter; `App.HandleCreateTask` takes the created task as a parameter.
- What React does with a TypeError thrown inside a `setBoard` updater: the model returns the fault and the partially changed board.
- Each updater is applied once; a development-mode double invocation of an updater, which would push the id a second time onto the shared column array, is not modelled.
- The effects that sync the token with local storage and follow the URL hash: browser I/O.
- `JsRuntime.Lookup`: task ids are taken never to name a property `tasksById` inherits from `Object.prototype` (src/App.tsx:20 creates it as `{}`): a lookup of `"constructor"` would not give `undefined`, and storing under `"__proto__"` would set the prototype instead of an entry.
- Drag sensors and collision detection: the drop target arrives as the `over` id. Drag ids are modelled as strings; numeric identifiers are not.
- `BoardComponent.BoardView.GetActiveTask`: returns nothing both for `null` (no active task) and for `undefined` (an active id with no entry); the two are not distinguished.
- `AuthServer.GenerateTokens`: the four `Date.now()` readings in it are one clock reading; the model does not capture a second boundary passing between them.
- `AuthServer.GenerateTokens`: states the payloads only under `Sound(jwt)`, a signer whose tokens verify to their own payload until their `exp`; the signature scheme itself is opaque, and a token not produced by the signer may verify to anything.
- `AuthServer.UserStore.Register`: the email check (server/server.js:36) and the push (:49) are one step here, but the route awaits `bcrypt.genSalt` and `bcrypt.hash` (:40-41) between them. Two interleaved registrations of one email can both pass the check: with a shared document both users are pushed and two users carry the email; with a document read afresh each time, the later `saveDb` drops the earlier user, who has already been sent tokens. With a document read afresh on each request (`getDb()` at :34, `saveDb(db)` at :50), two interleaved registrations of different emails also lose the earlier user. So both "existing users stay as they were" and uniqueness are promised only for registrations that do not interleave.
- The 500 replies of register and login when hashing, signing or saving throws: failures of opaque collaborators. A missing password is one of them: `bcrypt` throws inside the `try`, which answers 500 (server/server.js:55-58, :76-79).
- A request body without an email: the model's `email: string` cannot express `undefined`. In the route, `email` destructures to `undefined` (server/server.js:33), the `some` test at :36 is false while every stored user has an email, and a user without an email is pushed, saved and sent tokens (:43-54). A login without an email then finds that user (:66), and a second registration without one gets 400 "User already exists".
- `AuthServer.Refresh`: signing is taken never to throw. In the route a throwing `jwt.sign` inside `generateTokens` (server/server.js:96) is within the `try`, so it would be answered 401 "Invalid refresh token" (:98-100), not 500; the model issues tokens whenever verification passes with type "refresh". The token is also modelled as an optional string: in the route it is any JSON value, and a truthy non-string (a number, an object) passes the test at :85, after which `jwt.verify` throws ("jwt must be a string") and the route answers 401 (:98-100).
- `getDb`/`saveDb`: the `UserStore` object stands for the stored document; persistence to the file is not modelled.
- The JSON-server configuration, the Tailwind configuration and the compile-time type tests: no runtime logic.
