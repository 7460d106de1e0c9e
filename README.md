# sample-todo-psql, modelled in Dafny

This project models the core of `sample-todo-psql`, a Next.js todo and
user-management application. Its parts are:

- an audit-logged todo store (`PgTodoRepository`) with soft delete;
- the `todoService` and `userService` layers over the repositories;
- the zod input schemas of the todo operations;
- the app/role configuration;
- the in-memory user repository and the Date-to-string serialisers;
- the selection and display rules embedded in the React components (column
  filters, the user form, the audit log entry, the org chart);
- the three DBML code generators under `scripts/`.

Each core source file is one module:

| module | source | form |
|---|---|---|
| `TodoRepository` | `src/server/repositories/todoRepository.ts` | step functions over a `Db` value, plus the class `PgTodoRepository` whose methods update its tables in place and are proved equal to the step functions |
| `TodoService` | `src/server/services/todoService.ts` | a class holding the repository; each method forwards to it |
| `Validations` | `src/lib/validations.ts` | parsers from a JSON-like `Value` to typed input |
| `AppsConfig` | `src/lib/apps-config.ts` | functions over the fixed configuration |
| `UserRepository` | `src/server/repositories/userRepository.ts` | functions over the seeded arrays, which nothing writes |
| `UserService` | `src/server/services/userService.ts` | projection functions |
| `TypesDb` | `src/lib/types-db.ts` | serialiser functions; `toISOString` is a parameter |
| `AuditLogItem` | `src/components/AuditLogItem.tsx` | display functions |
| `ColumnFilterOptions`, `ColumnFilter` | `src/components/ColumnFilterOptions.tsx`, `src/components/ui/column-filter.tsx` | selection functions over insertion-ordered sets |
| `UserForm` | `src/components/users/UserForm.tsx` | the class `UserFormState` for the form's two sets and its values, plus the parsing functions |
| `OrgChartFlow`, `OrgChartTestPage` | `src/components/OrgChartFlow.tsx`, `src/app/org-chart-test/page.tsx` | node/edge derivation and the chart-data updaters |
| `Dbml`, `DbmlTypes`, `DbmlDrizzle`, `DbmlSchema` | `scripts/generate-types-from-dbml.js`, `scripts/generate-from-dbml.js`, `scripts/generate-schema.js` | string builders; the loops of the scripts are methods with invariants |

Three modules model JavaScript's built-in behaviour:

- `Wrappers`: `Option`, `Result`, and `Nullable`, which distinguishes `undefined` from `null`.
- `Strings`: `split` and `join` on one character, `startsWith`/`endsWith`, ASCII case mapping, and number-to-text.
- `JsCollections`: `Set` and `Map` as duplicate-free sequences in insertion order, plus `filter` and `findIndex`.

`Time` stands for `Date` values, which are only compared and copied.

The todo store keeps `todos` as a sequence in which the row with id `i` sits
at index `i - 1`, and `auditLogs` as an append-only sequence. Every operation
takes as its argument `now`, the instant that `new Date()` and the column
default `defaultNow()` would give.

`DeleteStep` follows `todoRepository.ts:96-110`: an existing row, even one
already soft-deleted, gets a new `deleted_at` and another DELETE entry.

## Model

| member | source | states |
|---|---|---|
| TodoRepository.Select | src/server/repositories/todoRepository.ts:65 | the row lookup by id finds a row exactly when some row has that id, and the row it finds has that id |
| TodoRepository.SelectById | src/server/repositories/todoRepository.ts:65-66 | in a well-formed store, id `i` is the row at index `i - 1`; a row exists iff `1 <= id` and id is at most the number of rows, and is live iff, in addition, its `deleted_at` is null |
| TodoRepository.SelectFirst | src/server/repositories/todoRepository.ts:65 | in a well-formed store, looking up the id of any row gives that row back |
| TodoRepository.Apply | src/server/repositories/todoRepository.ts:72 | `.set({...data, updated_at})` keeps the id and `created_at` of the row |
| TodoRepository.WriteWhere | src/server/repositories/todoRepository.ts:70-74 | `update ... where id = ?` keeps the number of rows, rewrites the rows with that id and leaves every other row as it was |
| TodoRepository.CreateStep | src/server/repositories/todoRepository.ts:41-60 | create keeps the store well formed. The new row has the next id, the given title, a null due date when none is given, `done_flag = false`, `deleted_at = null` and both timestamps `now`. Exactly one entry is appended to the old log: a CREATE for the new id, with null old values and new values (title, due date, done flag) of the new row |
| TodoRepository.UpdateStep | src/server/repositories/todoRepository.ts:62-92 | update fails with "not found or deleted", changing nothing, iff the id is missing or soft-deleted. Otherwise only the supplied title and due date change (an explicit null clears the due date), `updated_at` becomes `now`, and `done_flag` is kept. One UPDATE entry is appended, with the triple before and after the write. At most one entry is appended per call, and only for that id |
| TodoRepository.DeleteStep | src/server/repositories/todoRepository.ts:94-113 | delete always reports success. An unknown id changes nothing. An existing row, even one already deleted, gets `deleted_at = now`, and one DELETE entry is appended with the old triple and null new values |
| TodoRepository.ToggleStep | src/server/repositories/todoRepository.ts:115-134 | toggle fails, changing nothing, iff the id is missing or soft-deleted. Otherwise `done_flag` is negated and `updated_at` becomes `now`, with nothing else changed. One TOGGLE entry is appended, holding only the old and new flag |
| TodoRepository.Insert | src/server/repositories/todoRepository.ts:34-37 | inserting into a newest-first list adds exactly that element and keeps the list newest first |
| TodoRepository.HeadIsNewest | src/server/repositories/todoRepository.ts:34-37 | the head of a newest-first list is at least as new as every element of the rest after an insertion |
| TodoRepository.SortNewestFirst | src/server/repositories/todoRepository.ts:34-37 | `orderBy: desc(created_at)` gives a permutation of its input, ordered newest first |
| TodoRepository.LiveTodos | src/server/repositories/todoRepository.ts:31 | `where deleted_at is null` keeps exactly the rows with a null `deleted_at` |
| TodoRepository.LogsOf | src/server/repositories/todoRepository.ts:32-35 | the `auditLogs` relation of a todo holds exactly the entries whose `todo_id` is that todo's id |
| TodoRepository.WithLogs | src/server/repositories/todoRepository.ts:32-36 | each listed todo carries its own entries sorted newest first, in list order |
| TodoRepository.TodosOf | src/server/repositories/todoRepository.ts:28-39 | the todos of a `getAll` result, one per entry, in order |
| TodoRepository.TodosOfWithLogs | src/server/repositories/todoRepository.ts:32-37 | attaching the audit entries does not change the list of todos |
| TodoRepository.GetAllView | src/server/repositories/todoRepository.ts:28-39 | `getAll` lists exactly the live todos, as a permutation of them, newest `created_at` first. Each todo has exactly its own audit entries, newest first |
| TodoRepository.DeletedRowIsGone | src/server/repositories/todoRepository.ts:31-68 | after a delete, the row is no longer listed, and update and toggle of it fail and change nothing |
| TodoRepository.ToggleTwiceRestores | src/server/repositories/todoRepository.ts:115-134 | two toggles of a live row first negate and then restore the flag, adding two TOGGLE entries after the old log |
| TodoRepository.LogsOfConcat | src/server/repositories/todoRepository.ts:32-35 | the entries of one todo in a log made of two parts are the entries of each part, in order |
| TodoRepository.PairNewestFirst | src/server/repositories/todoRepository.ts:34 | two entries with different timestamps have exactly one newest-first order |
| TodoRepository.LaterEntryListedFirst | src/server/repositories/todoRepository.ts:28-39 | a live todo whose only entries are an earlier and a later one is listed with the later entry first |
| TodoRepository.CreatedAlone | src/server/repositories/todoRepository.ts:41-56 | after `create` the new row is live, has the next id, and its CREATE entry is appended as the only entry concerning it |
| TodoRepository.FollowUpListedFirst | src/server/repositories/todoRepository.ts:28-39 | when a second call appends a later entry for a created row and keeps it live, `getAll` lists that entry first and the CREATE entry second |
| TodoRepository.ToggleListedBeforeCreate | src/server/repositories/todoRepository.ts:28-39 | create, then toggle at a later instant: `getAll` lists that todo with two entries, TOGGLE first and CREATE second |
| TodoRepository.UpdateListedBeforeCreate | src/server/repositories/todoRepository.ts:28-39 | create, then update at a later instant: `getAll` lists that todo with two entries, UPDATE first and CREATE second |
| TodoRepository.DeletedStaysDeleted | src/server/repositories/todoRepository.ts:41-134 | no operation clears the `deleted_at` of a soft-deleted row |
| TodoRepository.CreateThenGetAll | src/server/repositories/todoRepository.ts:28-60 | a todo created in an empty store is listed alone, with no due date, not done, and with exactly one CREATE entry |
| TodoRepository.PgTodoRepository.constructor | src/server/repositories/todoRepository.ts:137-143 | the repository starts with empty tables |
| TodoRepository.PgTodoRepository.GetAll | src/server/repositories/todoRepository.ts:28-39 | returns the `getAll` view of its current tables |
| TodoRepository.PgTodoRepository.Create | src/server/repositories/todoRepository.ts:41-60 | updates its tables in place exactly as `CreateStep` says and returns the new row |
| TodoRepository.PgTodoRepository.Update | src/server/repositories/todoRepository.ts:62-92 | updates its tables in place exactly as `UpdateStep` says, error included |
| TodoRepository.PgTodoRepository.Delete | src/server/repositories/todoRepository.ts:94-113 | updates its tables in place exactly as `DeleteStep` says |
| TodoRepository.PgTodoRepository.Toggle | src/server/repositories/todoRepository.ts:115-134 | updates its tables in place exactly as `ToggleStep` says, error included |
| TodoService.TodoService.constructor | src/server/services/todoService.ts:1-3 | the service holds the repository it was given |
| TodoService.TodoService.GetAll | src/server/services/todoService.ts:4 | returns exactly the repository's `getAll` result |
| TodoService.TodoService.Create | src/server/services/todoService.ts:5-6 | forwards its input unchanged: the repository's effect and result |
| TodoService.TodoService.Update | src/server/services/todoService.ts:7-8 | forwards its input unchanged: the repository's effect, result and error |
| TodoService.TodoService.Delete | src/server/services/todoService.ts:9 | forwards the id and reports success |
| TodoService.TodoService.Toggle | src/server/services/todoService.ts:10 | forwards the id: the repository's effect, result and not-found error |
| TodoService.ToggleBackScenario | src/__tests__/server/todoService.integration.test.ts:146-157 | through the service, a new todo is not done, is done after one toggle, and is not done again after a second |
| TodoService.MissingIdScenario | src/__tests__/server/todoService.integration.test.ts:176-188 | in an empty store, update and toggle of an unknown id fail with "Todo not found or has been deleted" |
| Validations.ParseCreate | src/lib/validations.ts:3-6 | a create input is accepted iff it is an object whose title is a string of length 1..255 and whose `due_date` is absent, null or a string; the title is kept |
| Validations.ParseUpdate | src/lib/validations.ts:8-13 | an update input is accepted iff `id` is a number, a present title is a string of length 1..255, `due_date` is absent, null or a string, and `done_flag` is absent or a boolean; the id is kept |
| Validations.ParseId | src/lib/validations.ts:15-21 | the delete and toggle inputs are accepted iff `id` is a number, and the id is returned |
| Validations.CreateRoundTrip | src/lib/validations.ts:3-6 | a create input sent over the wire is read back unchanged iff its title is 1..255 long, whatever its due date text |
| Validations.UpdateRoundTrip | src/lib/validations.ts:8-13 | an update input is read back unchanged iff a present title is 1..255 long |
| Validations.SchemaExamples | src/lib/validations.ts:3-21 | an empty title and a missing id are refused, and extra keys are ignored |
| AppsConfig.Ids | src/lib/apps-config.ts:18-20 | the ids of a list of apps, in order |
| AppsConfig.GetAppNames | src/lib/apps-config.ts:18-20 | the app names are exactly `usermanager` and `quoteapp`, in that order |
| AppsConfig.RolesIn | src/lib/apps-config.ts:22-24 | the roles of the first app with that id, or [] when no app has it |
| AppsConfig.GetAppRoles | src/lib/apps-config.ts:22-24 | a known app gives its configured role list; any other name gives [] |
| AppsConfig.GetAllApps | src/lib/apps-config.ts:26-33 | the entry ids are exactly the app names, in order, and each entry carries that app's configured roles |
| AppsConfig.GetAppRole | src/lib/apps-config.ts:35-37 | composes `app + "-" + role` |
| AppsConfig.ParseAppRole | src/lib/apps-config.ts:39-47 | a parsed app never holds '-'; `ParseAppRoleSplitsAtFirstHyphen` states that parsing fails, where the source throws, exactly when there is no '-', and gives the split point |
| AppsConfig.ParseAppRoleSplitsAtFirstHyphen | src/lib/apps-config.ts:39-47 | parsing fails iff there is no '-'. Otherwise `app` is the text before the first '-' and `role` is everything after it, later hyphens kept |
| AppsConfig.ParseGetAppRole | src/lib/apps-config.ts:35-47 | for an app name without '-', parsing a composed role gives back the app and the role |
| AppsConfig.GetParsedAppRole | src/lib/apps-config.ts:35-47 | composing a parsed role string gives the string back |
| AppsConfig.ConfiguredRolesParse | src/lib/apps-config.ts:2-47 | the configured role strings already carry their app name: "usermanager-approver" parses to (usermanager, approver) and "quoteapp-trader" to (quoteapp, trader) |
| UserRepository.Seeded | src/server/repositories/userRepository.ts:50-115 | the seed has 5 users, 13 app rows and 9 role rows |
| UserRepository.AppsOf | src/server/repositories/userRepository.ts:120 | exactly the seeded app rows whose `user_id` is that id |
| UserRepository.RolesOf | src/server/repositories/userRepository.ts:121 | exactly the seeded role rows whose `user_id` is that id |
| UserRepository.GetAll | src/server/repositories/userRepository.ts:117-123 | one entry per seeded user, in seed order, each with exactly its apps and roles |
| UserRepository.GetById | src/server/repositories/userRepository.ts:125-134 | null iff no seeded user has that id; otherwise a seeded user with that id |
| UserRepository.GetByIdIsGetAllEntry | src/server/repositories/userRepository.ts:117-134 | a user found by id equals the `getAll` entry of the first user with that id |
| UserRepository.AppsKeepSeedOrder | src/server/repositories/userRepository.ts:120 | apps keep the seed order: the filter distributes over concatenation |
| UserRepository.SeedJohnApps | src/server/repositories/userRepository.ts:51-103 | the first seeded user is john_doe, with apps app1, app2 and app3 in that order |
| UserRepository.SeedJohnRoles | src/server/repositories/userRepository.ts:105-115 | john_doe has the roles admin and user, in that order |
| UserRepository.SeedUnknownId | src/server/repositories/userRepository.ts:125-127 | no seeded user has id 6 |
| UserService.AppNames | src/server/services/userService.ts:12 | the `app_name` of each app in order, or [] when the list is missing |
| UserService.RoleKeys | src/server/services/userService.ts:13 | `app_name + "-" + role` of each role in order, or [] when the list is missing |
| UserService.Project | src/server/services/userService.ts:7-14 | the client record keeps id, name and e-mail, converts `created_at`, and derives apps and roles as above |
| UserService.GetAll | src/server/services/userService.ts:5-15 | one client record per repository user, in order |
| UserService.GetById | src/server/services/userService.ts:17-29 | null iff the repository gives null; otherwise the same projection |
| UserService.GetByIdAgreesWithGetAll | src/server/services/userService.ts:5-29 | `getById` of a user gives the same record as that user's `getAll` entry |
| UserService.RoleKeysParse | src/server/services/userService.ts:13 | a client role string parses back to its app and role when the app name has no '-' |
| TypesDb.SerializeTodo | src/lib/types-db.ts:54-61 | every non-timestamp field is kept and both timestamps are converted; `deleted_at` is null iff it was null, and converted otherwise |
| TypesDb.SerializeAuditLog | src/lib/types-db.ts:63-68 | every field is kept except `created_at`, which is converted |
| TypesDb.SerializeTodoWithAuditLogs | src/lib/types-db.ts:70-75 | the todo is serialised and its audit entries are serialised element-wise, keeping length and order |
| TypesDb.SerializeTodoInjective | src/lib/types-db.ts:54-61 | with a one-to-one `toISOString`, two todos with equal serialisations are equal |
| TypesDb.GetAllSerializesLive | src/lib/types-db.ts:59 | every todo `getAll` lists serialises with a null `deleted_at` |
| TypesDb.SerializeUser | src/lib/types-db.ts:77-83 | every other field is kept and both timestamps are converted |
| TypesDb.SerializeStamped | src/lib/types-db.ts:85-97 | a user app or role keeps every field and converts `created_at` |
| TypesDb.SerializeAll | src/lib/types-db.ts:102-103 | `map(serialize…)` is element-wise, keeping length and order |
| TypesDb.SerializeUserWithAppsAndRoles | src/lib/types-db.ts:99-105 | the user part is `serializeUser`'s; `apps` and `roles` are `user_apps` and `user_roles` serialised element by element, each `created_at` converted, length and order kept; the raw `user_apps` and `user_roles` that the spread copies are carried unchanged |
| AuditLogItem.GetActionText | src/components/AuditLogItem.tsx:25-43 | CREATE, UPDATE and DELETE map to their fixed texts and any other action to '不明な操作'. For TOGGLE, false→true gives '完了にしました', true→false gives '未完了に戻しました', and anything else the generic text |
| AuditLogItem.FormatDate | src/components/AuditLogItem.tsx:45-61 | for a minute difference m: m < 1 (negative included) gives 'たった今'; m < 60 gives `m分前`; m < 1440 gives `⌊m/60⌋時間前`; otherwise `⌊m/1440⌋日前` |
| AuditLogItem.DueDateText | src/components/AuditLogItem.tsx:87 | a missing, null or empty due date shows as '未設定', any other as itself |
| AuditLogItem.ChangeLines | src/components/AuditLogItem.tsx:82-88 | the UPDATE list has a title line iff the titles differ and a due-date line iff the due dates differ, in that order |
| AuditLogItem.RenderValueChanges | src/components/AuditLogItem.tsx:63-113 | nothing when both payloads are absent. For CREATE, the new title and the due date when it is a non-empty string; neither without a new payload. For UPDATE with both payloads, exactly `Changed(ChangeLines(old, new))` when that list is non-empty, and nothing when neither the title nor the due date differs. For TOGGLE with both payloads, the old and the new status. UPDATE or TOGGLE with a payload missing, and every other action (DELETE included), fall through to nothing |
| AuditLogItem.ToggleEntryText | src/components/AuditLogItem.tsx:32-36 | the entry a repository toggle appends reads '完了にしました' when the todo became done and '未完了に戻しました' otherwise, and shows the status change |
| AuditLogItem.UnchangedUpdateShowsNothing | src/components/AuditLogItem.tsx:81-102 | the entry of a repository update that supplies no new title or due date renders no change block |
| AuditLogItem.TitleUpdateShowsTitleLine | src/components/AuditLogItem.tsx:83-85 | the entry of a repository update that changes the title shows a change list whose first line is the old and the new title |
| ColumnFilterOptions.ToggleAll | src/components/ColumnFilterOptions.tsx:13-19 | `toggleAll(true)` gives undefined and `toggleAll(false)` gives [] |
| ColumnFilterOptions.ToggleAllRoundTrip | src/components/ColumnFilterOptions.tsx:11-19 | after `toggleAll(c)`, "all" reads as checked iff `c` holds or there are no values |
| ColumnFilterOptions.Base | src/components/ColumnFilterOptions.tsx:22 | a toggle starts from `selected`, or from all values when `selected` is undefined |
| ColumnFilterOptions.Toggle | src/components/ColumnFilterOptions.tsx:21-30 | a toggle flips the membership of exactly that value and leaves the others as they were; the result is undefined iff its size reaches the number of values; an added value goes at the end and a removed one leaves the rest in their order (`Filter` of the base) |
| JsCollections.DeleteIsFilter | src/components/ColumnFilterOptions.tsx:24 | `Set.delete` on a duplicate-free sequence keeps exactly the other elements, in their order, as `filter(y => y !== x)` would |
| ColumnFilterOptions.IsCheckedCases | src/components/ColumnFilterOptions.tsx:44 | every option shows as checked when "all" is checked; otherwise an option shows as checked iff it is selected |
| ColumnFilter.ValuesOf | src/components/ui/column-filter.tsx:56-64 | the option values, in order |
| ColumnFilter.SelectedValues | src/components/ui/column-filter.tsx:40 | the set of filter values, without duplicates, or no values when the filter is undefined |
| ColumnFilter.SelectAll | src/components/ui/column-filter.tsx:56-64 | select-all clears the filter when every option is selected, and otherwise selects all option values |
| ColumnFilter.SelectAllLabel | src/components/ui/column-filter.tsx:77 | the label reads "Unselect all" iff the selected count equals the option count |
| ColumnFilter.HighlightedIffSomeValue | src/components/ui/column-filter.tsx:46 | the icon is highlighted iff the selection is non-empty |
| ColumnFilter.SelectAllThenLabel | src/components/ui/column-filter.tsx:57-77 | after select-all on a partial selection, the label reads "Unselect all" |
| ColumnFilter.ToggleOption | src/components/ui/column-filter.tsx:89-98 | an option click flips the membership of that value only; an empty result is stored as undefined; an added value goes at the end and a removed one leaves the rest in their order (`Filter` of the selection) |
| UserForm.ExistingAppRoles | src/components/users/UserForm.tsx:62-70 | the parsed pairs are exactly those of the stored strings that parse, so strings with no '-' are dropped |
| UserForm.RoleKeys | src/components/users/UserForm.tsx:72-74 | the key of each parsed pair is `app_name + "-" + role`, in order |
| UserForm.InitialKeysAreStoredRoles | src/components/users/UserForm.tsx:62-74 | the initial keys are exactly the stored role strings that contain a '-' |
| UserForm.KeyToAppRole | src/components/users/UserForm.tsx:137-140 | a key with a '-' maps to its parse; a key without one maps to (key, "") |
| UserForm.KeyToAppRoleOfKey | src/components/users/UserForm.tsx:137-144 | mapping a composed key back gives the pair, for an app name without '-' |
| UserForm.FormAppRoles | src/components/users/UserForm.tsx:137-140 | the form's `appRoles` are the keys mapped back, in order |
| UserForm.WithoutRolesOf | src/components/users/UserForm.tsx:125-129 | exactly the keys that do not start with `app + "-"` |
| UserForm.UserFormState.constructor | src/components/users/UserForm.tsx:57-86 | the initial apps are the given ones, the role keys are those of the parsed roles, and the form values match |
| UserForm.UserFormState.HandleAppToggle | src/components/users/UserForm.tsx:116-141 | checking adds the app and keeps the role keys. Unchecking removes the app and every key starting with `app + "-"`, with all other keys kept. The form values are re-derived and the text fields are unchanged |
| UserForm.UserFormState.HandleAppRoleToggle | src/components/users/UserForm.tsx:143-160 | adds or removes exactly the key `app + "-" + role`. The apps are unchanged and `appRoles` is re-derived |
| UserForm.RemoveRolesOf | src/components/users/UserForm.tsx:125-129 | the `forEach` delete over a snapshot leaves exactly the keys of other apps, without duplicates |
| UserForm.FreshFormInvalid | src/components/users/UserForm.tsx:33-36 | a form with empty fields fails the schema's bounds |
| UserForm.ConfiguredRoleKey | src/components/users/UserForm.tsx:267-268 | a configured role, which already carries its app name, gives the key "usermanager-usermanager-approver", which maps back to that pair |
| OrgChartFlow.Truthy | src/components/OrgChartFlow.tsx:77-78 | `value \|\| undefined` drops exactly the missing and the empty string |
| OrgChartFlow.FindSaved | src/components/OrgChartFlow.tsx:67 | the first saved node whose `data.user_id` matches, or none iff no saved node matches |
| OrgChartFlow.DeriveNodes | src/components/OrgChartFlow.tsx:66-86 | one node per user, in user order, with id and `data.user_id` equal to `user_id`, its name, and `draggable` and `isEditMode` both equal to the edit mode |
| OrgChartFlow.DerivedPosition | src/components/OrgChartFlow.tsx:67-68 | a node sits at the position of the first matching saved node, or at (200, 200) when none matches |
| OrgChartFlow.DeriveEdges | src/components/OrgChartFlow.tsx:89-108 | the chart's edges in order, each with `deletable` equal to the edit mode; a missing edge list gives [] |
| OrgChartFlow.IsValidConnection | src/components/OrgChartFlow.tsx:135-143 | a connection is invalid iff its source equals its target |
| OrgChartFlow.ForwardedConnectionsAreValid | src/components/OrgChartFlow.tsx:125-131 | a connection is forwarded only in edit mode, and only when it is valid |
| OrgChartFlow.EdgeDeleteCalls | src/components/OrgChartFlow.tsx:146-150 | `onEdgeDelete` is called with the id of each deleted edge, in order |
| OrgChartTestPage.OnConnect | src/app/org-chart-test/page.tsx:55-66 | one edge is appended at the end, with the given endpoints, type 'smoothstep' and id `edge-<source>-<target>-<now>`; the nodes and earlier edges are unchanged |
| OrgChartTestPage.OnNodeDragStop | src/app/org-chart-test/page.tsx:67-76 | exactly the nodes with that id get the new position, with count and order kept; the edges are unchanged |
| OrgChartTestPage.OnEdgeDelete | src/app/org-chart-test/page.tsx:77-82 | the edges left are exactly those without that id; the nodes are unchanged |
| OrgChartTestPage.ConnectThenDelete | src/app/org-chart-test/page.tsx:55-82 | deleting an edge just connected gives the chart back, when no earlier edge has its id |
| OrgChartTestPage.DragMovesDerivedNode | src/app/org-chart-test/page.tsx:67-76 | after a drag, the node `OrgChartFlow` derives of that user sits at the new position |
| OrgChartTestPage.InitialPositions | src/app/org-chart-test/page.tsx:10-23 | on first render, each mock user's node sits at its saved position |
| Dbml.TsTypeMapping | scripts/generate-types-from-dbml.js:17-29 | the eleven mapped type names, each to one of four TypeScript types |
| Dbml.CapitalizeAll | scripts/generate-types-from-dbml.js:40-42 | each word capitalised, in order |
| Dbml.PascalCase | scripts/generate-types-from-dbml.js:39-43 | the converted name holds no '_'; `PascalCaseWord`, `PascalCaseStep` and `PascalCaseWithout` give its value word by word |
| Dbml.PascalCaseWord | scripts/generate-types-from-dbml.js:39-43 | a name without '_' is only capitalised |
| Dbml.PascalCaseStep | scripts/generate-types-from-dbml.js:39-43 | the first word of a snake_case name is capitalised and the rest is converted on its own |
| Dbml.ConcatWithout | scripts/generate-types-from-dbml.js:42 | joining parts without a character gives text without it |
| Dbml.PascalCaseWithout | scripts/generate-types-from-dbml.js:39-43 | the converted name has no '_', and no other non-upper-case character that was not in the name |
| Dbml.PascalCaseTodos | scripts/generate-types-from-dbml.js:39-43 | "todos" converts to "Todos" |
| Dbml.PascalCaseAuditLogs | scripts/generate-types-from-dbml.js:39-43 | "audit_logs" converts to "AuditLogs" |
| Dbml.PascalCaseUserApps | scripts/generate-types-from-dbml.js:39-43 | "user_apps" converts to "UserApps" |
| Dbml.PascalCaseUsers | scripts/generate-types-from-dbml.js:39-43 | "users" converts to "Users" |
| Dbml.PascalCaseUserRoles | scripts/generate-types-from-dbml.js:39-43 | "user_roles" converts to "UserRoles" |
| Dbml.CapitalizedWord | scripts/generate-types-from-dbml.js:39-43 | a one-word name converts to its capitalised form |
| Dbml.SnakeName | scripts/generate-types-from-dbml.js:39-43 | a two-part name converts to the capitalised first word followed by the converted rest |
| Dbml.CreateFieldsPartition | scripts/generate-types-from-dbml.js:75-88 | the required and the optional create fields partition the non-key fields: each lands in exactly one of them, and their counts add up |
| Dbml.RelationCodes | scripts/generate-from-dbml.js:155-164 | one relation line per relation, in order |
| Dbml.RelationsBlock | scripts/generate-from-dbml.js:166-168 | the block opens with `export const <table>Relations = relations(<table>, ` and closes with the `}));` line |
| DbmlTypes.BaseTypeName | scripts/generate-types-from-dbml.js:39-43 | the base name has no '_'; a name without '_' is only capitalised |
| DbmlTypes.TypeName | scripts/generate-types-from-dbml.js:32-36 | `getTypeName` is `getBaseTypeName` followed by "Type" |
| DbmlTypes.BaseType | scripts/generate-types-from-dbml.js:48 | the lower-cased type cut before its first '(', with no '(' left |
| DbmlTypes.FieldTsType | scripts/generate-types-from-dbml.js:46-50 | the mapped type of the base type, or 'string' when unmapped |
| DbmlTypes.FieldTsTypeIgnoresArguments | scripts/generate-types-from-dbml.js:48 | `varchar(256)` maps like `varchar`: an argument list does not change the type |
| DbmlTypes.BaseTypeIgnoresArguments | scripts/generate-types-from-dbml.js:48 | an appended argument list is cut off again |
| DbmlTypes.LineShapes | scripts/generate-types-from-dbml.js:56-88 | an optional line ends in " \| null;", a required one does not, and both start with the field name |
| DbmlTypes.InterfaceLine | scripts/generate-types-from-dbml.js:56-62 | an interface line is optional iff the field is neither `not_null` nor a key |
| DbmlTypes.InterfaceLines | scripts/generate-types-from-dbml.js:56-63 | one line per field, in order |
| DbmlTypes.GenerateInterface | scripts/generate-types-from-dbml.js:53-68 | the text opens with the `export interface <TypeName> {` line and closes with the `}` line; `InterfaceLinesInOrder` gives every line in between |
| DbmlTypes.InterfaceLinesInOrder | scripts/generate-types-from-dbml.js:53-68 | read back line by line, an interface is its header, one line per field in order, and "}" |
| DbmlTypes.HeaderWithoutBreak | scripts/generate-types-from-dbml.js:65 | the interface header is one line |
| DbmlTypes.WrappedLines | scripts/generate-types-from-dbml.js:65-67 | lines between a header and a footer split back into header, lines and footer |
| DbmlTypes.InterfaceLineWithoutBreak | scripts/generate-types-from-dbml.js:62 | an interface line is one line |
| DbmlTypes.CreateRequiredLines | scripts/generate-types-from-dbml.js:75-80 | one required line per required create field, in order |
| DbmlTypes.CreateOptionalLines | scripts/generate-types-from-dbml.js:83-88 | one optional line per optional create field, in order |
| DbmlTypes.UpdateLine | scripts/generate-types-from-dbml.js:95-102 | an update line is optional iff the field is not a key |
| DbmlTypes.UpdateLines | scripts/generate-types-from-dbml.js:95-102 | one update line per field, in order |
| DbmlTypes.CreateLinesCoverNonKeyFields | scripts/generate-types-from-dbml.js:75-92 | the create interface has one line per non-key field, with the required lines first and then the optional ones |
| DbmlTypes.GenerateCrudTypes | scripts/generate-types-from-dbml.js:71-109 | the create interface holds the required lines, a break only when both groups are non-empty, and the optional lines; the update interface holds one line per field |
| DbmlTypes.JoinSeparated | scripts/generate-types-from-dbml.js:91 | adding the break only when both lists are non-empty equals joining their concatenation |
| DbmlTypes.GenerateTypeAliases | scripts/generate-types-from-dbml.js:114-127 | a header line, then two aliases per table, in table order |
| DbmlDrizzle.DrizzleTypeMapping | scripts/generate-from-dbml.js:13-25 | exactly the eleven listed type names are mapped |
| DbmlDrizzle.DrizzleBase | scripts/generate-from-dbml.js:45-60 | a varchar with arguments gives the `varchar(..., { length })` form, a varchar without gives `text`, and others go through the mapping, defaulting to `text` |
| DbmlDrizzle.DefaultSuffix | scripts/generate-from-dbml.js:71-86 | nothing iff there is no default; otherwise a `.default` suffix, `.defaultNow()` exactly for 'now()'. Booleans and integers are raw (integers in decimal), objects are their JSON text, and other strings are quoted |
| DbmlDrizzle.ColumnSuffixShapes | scripts/generate-from-dbml.js:62-69 | `.primaryKey()` comes first iff the field is a key, and `.notNull()` follows iff it is `not_null` or a key |
| DbmlDrizzle.GenerateDrizzleColumn | scripts/generate-from-dbml.js:43-89 | the column is the base call followed by the constraint and default suffixes |
| DbmlDrizzle.AppendSuffix | scripts/generate-from-dbml.js:62-86 | the `+=` steps append exactly the suffix |
| DbmlDrizzle.SuffixAfterBase | scripts/generate-from-dbml.js:62-86 | appending three parts in turn equals appending them at once |
| DbmlDrizzle.ReferencesMap | scripts/generate-from-dbml.js:93-115 | the map has distinct keys |
| DbmlDrizzle.GenerateReferences | scripts/generate-from-dbml.js:92-119 | the method builds exactly the references map |
| DbmlDrizzle.ReferencesGrouped | scripts/generate-from-dbml.js:95-115 | each table's entry holds exactly the references of the linked refs leaving it, in ref order; a table has an entry iff such a ref exists |
| DbmlDrizzle.ReferencesOfMembers | scripts/generate-from-dbml.js:100-114 | a reference is listed under a table iff a linked ref from that table gives it |
| DbmlDrizzle.LinksOfEntry | scripts/generate-from-dbml.js:127-128 | the references of one map entry, each paired with its table |
| DbmlDrizzle.RelationsMap | scripts/generate-from-dbml.js:127-151 | the relations map has distinct keys |
| DbmlDrizzle.RelationsGrouped | scripts/generate-from-dbml.js:127-151 | each table's relations are, in order, a 'one' entry for each link leaving it and a 'many' entry for each link reaching it |
| DbmlDrizzle.RelationsCount | scripts/generate-from-dbml.js:127-151 | a table's relation count is the number of links leaving it plus the number reaching it |
| DbmlDrizzle.RelationsMapSnoc | scripts/generate-from-dbml.js:130-149 | one more link pushes its 'one' entry on its table and then its 'many' entry on the referenced table |
| DbmlDrizzle.LinksStep | scripts/generate-from-dbml.js:127-128 | the links grow by one reference at a time |
| DbmlDrizzle.PushLink | scripts/generate-from-dbml.js:130-149 | the two pushes of one link give the map of one more link |
| DbmlDrizzle.LinksSnoc | scripts/generate-from-dbml.js:127 | one more map entry appends its links |
| DbmlDrizzle.GenerateRelations | scripts/generate-from-dbml.js:122-172 | one relations block per table of the relations map, in key order, each rendering that table's relations |
| DbmlDrizzle.RenderRelations | scripts/generate-from-dbml.js:154-169 | one block per map entry, in order |
| DbmlDrizzle.AddEntryRelations | scripts/generate-from-dbml.js:128-150 | the inner loop adds the relations of one entry's links |
| DbmlDrizzle.EntityName | scripts/generate-from-dbml.js:178-195 | fixed singular names for the five known tables, and PascalCase for the rest (the same choice as lines 225-241) |
| DbmlDrizzle.EntityNamesDifferFromConvention | scripts/generate-from-dbml.js:179-195 | for "todos" this generator and `generate-types-from-dbml.js` give different interface names ("TodoType" and "TodosType") |
| DbmlDrizzle.InterfaceTsType | scripts/generate-from-dbml.js:199-206 | 'string' for any varchar, the mapping of the whole lower-cased name otherwise, and 'string' when unmapped |
| DbmlDrizzle.ArgumentListsDisagree | scripts/generate-from-dbml.js:199-206 | `int(11)` maps to 'string' here and to 'number' in the other generator |
| DbmlDrizzle.ArgumentListHere | scripts/generate-from-dbml.js:199-206 | `int(11)` maps to 'string' here |
| DbmlDrizzle.ArgumentListThere | scripts/generate-types-from-dbml.js:46-50 | `int(11)` maps to 'number' in the types generator |
| DbmlDrizzle.LowerAscii | scripts/generate-from-dbml.js:199 | lower-casing a name without upper-case letters changes nothing |
| DbmlDrizzle.TsInterfaceLine | scripts/generate-from-dbml.js:197-213 | a line is optional iff the field is neither `not_null` nor a key |
| DbmlDrizzle.TsInterfaceLines | scripts/generate-from-dbml.js:197-214 | one line per field, in order |
| DbmlDrizzle.GenerateTsInterface | scripts/generate-from-dbml.js:174-219 | the text opens with the header named by the table's entity name plus `Type` and closes with the `}` line; `TsInterfaceLinesInOrder` gives every line in between |
| DbmlDrizzle.TsInterfaceLinesInOrder | scripts/generate-from-dbml.js:174-219 | for any table whose names hold no line break, the interface reads back line by line as the entity-name header, one line per field in table order (one empty line for no fields) and "}" |
| DbmlDrizzle.TsInterfaceOfTodos | scripts/generate-from-dbml.js:175-219 | as a case of the above, the interface of `todos` is "export interface TodoType {", one line per field, and "}" |
| DbmlDrizzle.TsInterfaceLineWithoutBreak | scripts/generate-from-dbml.js:213 | an interface line is one line |
| DbmlDrizzle.CreateRequiredLines | scripts/generate-from-dbml.js:244-255 | one required line per required create field, in order |
| DbmlDrizzle.CreateOptionalLines | scripts/generate-from-dbml.js:258-269 | one optional line per optional create field, in order |
| DbmlDrizzle.UpdateFieldLines | scripts/generate-from-dbml.js:279-290 | one optional line per non-key field, in order |
| DbmlDrizzle.NonKeyFilter | scripts/generate-from-dbml.js:279-280 | the non-key filter is non-empty iff some field is not a key |
| DbmlDrizzle.FirstKey | scripts/generate-from-dbml.js:292 | `find(field => field.pk)` finds a field iff some field is a key |
| DbmlDrizzle.CreateType | scripts/generate-from-dbml.js:271-276 | the create interface is non-empty iff some create line exists, and then holds the required lines followed by the optional ones |
| DbmlDrizzle.UpdateType | scripts/generate-from-dbml.js:303-309 | the update interface is non-empty iff there is a key and some update line, and then holds the key line followed by the update lines |
| DbmlDrizzle.KeyField | scripts/generate-from-dbml.js:292 | a key field iff the table has one, and then the first one in field order, as `find` returns it |
| DbmlDrizzle.GenerateCrudTypes | scripts/generate-from-dbml.js:222-312 | a create interface iff the table has a non-key field, and an update interface iff it also has a key |
| DbmlSchema.SchemaTypeMapping | scripts/generate-schema.js:13-22 | the eight mapped names, each to itself |
| DbmlSchema.DrizzleType | scripts/generate-schema.js:28 | the mapping falls back to the raw type name, so the Drizzle type is always the type name |
| DbmlSchema.SchemaBase | scripts/generate-schema.js:28-36 | a varchar whose first argument is truthy gives the `{ length }` form; every other column gives `type('name')` |
| DbmlSchema.SchemaDefault | scripts/generate-schema.js:47-63 | nothing iff there is no default; otherwise a `.default` suffix, `.defaultNow()` exactly for 'now()'. Booleans and integers are raw (integers in decimal), strings in braces are raw and other strings are quoted; an object prints as `[object Object]` |
| DbmlSchema.SchemaSuffixShapes | scripts/generate-schema.js:39-45 | `.primaryKey()` comes first iff `settings.pk`, and `.notNull()` follows iff `settings.not_null`, so a key alone does not imply it |
| DbmlSchema.GenerateColumn | scripts/generate-schema.js:25-66 | the `+=` steps build the base call followed by the constraints and the default |
| DbmlSchema.AppendConstraints | scripts/generate-schema.js:38-63 | the constraint and default steps append exactly that suffix |
| DbmlSchema.DefaultPart | scripts/generate-schema.js:47-63 | the if-chain gives exactly the default suffix |
| DbmlSchema.KeyNotNullDiffers | scripts/generate-schema.js:39-45 | for a key that is not marked `not_null`, the DBML generator appends `.notNull()` and this one does not |
| DbmlSchema.GenerateReferences | scripts/generate-schema.js:69-83 | always returns [] |
| DbmlSchema.SchemaRelationsMap | scripts/generate-schema.js:93-122 | the relations map has distinct keys |
| DbmlSchema.SchemaRelationsGrouped | scripts/generate-schema.js:93-122 | each table's relations are, in ref order, a 'many' entry for each ref whose right side it is and a 'one' entry for each ref whose left side it is |
| DbmlSchema.SchemaRelationsCount | scripts/generate-schema.js:93-122 | a table's relation count is the number of refs on its right plus the number on its left |
| DbmlSchema.OneRefRelations | scripts/generate-schema.js:93-122 | one ref between two named tables gives the referenced table a 'many' entry and then the source table a 'one' entry |
| DbmlSchema.MissingTableRelatesToItself | scripts/generate-schema.js:94-99 | when one endpoint has no table, both sides fall back to the other endpoint, so that table relates to itself |
| DbmlSchema.SchemaRelationsMapSnoc | scripts/generate-schema.js:100-121 | one more ref pushes its 'many' entry and then its 'one' entry |
| DbmlSchema.GenerateRelations | scripts/generate-schema.js:86-144 | without refs, no blocks; otherwise one block per map entry, in key order |
| DbmlSchema.RenderSchemaRelations | scripts/generate-schema.js:125-140 | one block per map entry, in order |
| DbmlSchema.TypeAliases | scripts/generate-schema.js:150-184 | two aliases per table, in table order, then the composite block |
| DbmlSchema.GenerateTypes | scripts/generate-schema.js:147-187 | the aliases are named by PascalCase of the table name |
| DbmlSchema.GenerateEntityTypes | scripts/generate-schema.js:147-187 | the same list with the entity names of `generate-from-dbml.js`, which the composite block refers to |
| DbmlSchema.DeclaredNames | scripts/generate-schema.js:156-157 | the names the aliases declare, two per table |
| DbmlSchema.PascalCaseAppTables | scripts/generate-schema.js:152-154 | the PascalCase name of each table of this schema ends in 's' |
| DbmlSchema.CompositeNamesUndeclared | scripts/generate-schema.js:150-184 | none of Todo, AuditLog, User, UserApp and UserRole is declared by the generated aliases |
| DbmlSchema.CompositeNamesDeclared | scripts/generate-schema.js:161-184 | with entity names, the aliases declare exactly the names the composite block uses |
| DbmlSchema.FkLines | scripts/generate-schema.js:213-221 | one line or null per candidate, in order |
| DbmlSchema.KnownFkLines | scripts/generate-schema.js:215-219 | the fixed line of each known foreign key, in order |
| DbmlSchema.ForeignKeyColumns | scripts/generate-schema.js:211-222 | the extra columns are exactly the fixed lines of the integer fields named `todo_id` or `user_id`, in order |
| DbmlSchema.KnownFkCandidate | scripts/generate-schema.js:212-219 | a known foreign key is an FK candidate |
| DbmlSchema.FkLinesCons | scripts/generate-schema.js:213-221 | the candidate lines of a longer list grow by one |
| DbmlSchema.KnownFkLinesCons | scripts/generate-schema.js:215-219 | the known lines of a longer list grow by one |
| DbmlSchema.PresentLinesCons | scripts/generate-schema.js:222 | `filter(Boolean)` keeps a present line and drops a null one |
| DbmlSchema.ForeignKeyColumnsFixed | scripts/generate-schema.js:211-222 | there is one extra column per integer field named `todo_id` or `user_id`, and each is one of the two fixed lines |
| DbmlSchema.ColumnLines | scripts/generate-schema.js:205-208 | one column line per field, in order |
| DbmlSchema.ColumnLineKey | scripts/generate-schema.js:207 | each column line starts with its field name as a key |
| DbmlSchema.TodoFkLineKey | scripts/generate-schema.js:216 | the `todo_id` foreign-key line starts with the `todo_id` key |
| DbmlSchema.TodoFkListed | scripts/generate-schema.js:211-222 | for a table with an integer `todo_id` field, the extra columns include the fixed `todo_id` line |
| DbmlSchema.AllColumns | scripts/generate-schema.js:224 | the foreign-key lines come last, after at least one column line; `AllColumnsLines` gives the whole list |
| DbmlSchema.AllColumnsLines | scripts/generate-schema.js:224 | when no column line holds a break, all columns are the column lines followed by the foreign-key lines |
| DbmlSchema.TableDefinition | scripts/generate-schema.js:226-228 | the definition opens with the `export const <name> = pgTable('<name>', {` line and closes with the `});` line |
| DbmlSchema.TodoIdListedTwice | scripts/generate-schema.js:205-224 | a table with an integer `todo_id` field lists the key `todo_id` twice: once as a column and once as a foreign key |

## Left out

- Drizzle and Postgres access: the queries, the lazy `getDb` import, the repository singletons and `PgUserRepository` are not modelled; the tables are in-memory values.
- Concurrency: each repository call is atomic; the unguarded read-then-write sequences of update, toggle and delete are not modelled.
- Row order for equal `created_at`: Postgres leaves it unspecified; the model keeps table order (a stable sort).
- `JSON.stringify` snapshots are records, not text; `JSON.parse` in the audit display takes the parsed payload as input.
- `new Date()`, `defaultNow()`, `Date.now()` (edge ids) are the `now` argument; `toISOString` is a function parameter (`iso`), and `toLocaleDateString` is left out.
- The clock: the store keeps no clock, and nothing ties the `now` of successive calls together. The most-recent-first listing of a todo's entries is proved when the later call's instant is strictly later (`ToggleListedBeforeCreate`, `UpdateListedBeforeCreate`). With equal instants the stable sort keeps log order, so the earlier entry comes first.
- The todo router in `src/server/api/routers/todo.ts` bypasses the repository (no deleted filter, physical delete, no audit); it is not part of this model.
- `src/server/db/schema.ts` declares only `todos`; the audit table shape is taken from how the repository writes it.
- `userService` reads fields (`user_id` on users, `app_name` on roles) that `MemoryUserRepository` records do not carry, and calls repository `create`/`update`/`delete` methods the interface lacks; the service is modelled over its own input records, and those three calls (`src/server/services/userService.ts:31-41`) are left out: they return whatever a repository method that is not part of this model returns.
- DbmlSchema.SchemaDefault: `scripts/generate-schema.js:47-62` also prints `default: null` as `.default(null)` and a fractional number as itself; `DefaultValue` has no null case and `DefNumber` holds an integer, so neither is modelled.
- zod's e-mail check is the `isEmail` parameter; numbers are integers, so floats, `NaN` and `Infinity` are not modelled.
- JavaScript strings are sequences of characters: UTF-16 lengths and Unicode case mapping are not modelled (upper/lower case is ASCII only).
- Property lookups on the type mappings do not model inherited keys such as `constructor` or `__proto__`.
- JSX rendering, React hooks, icons (`getActionIcon`), navigation, tRPC mutations and styling (the edge style constants) are left out; only the rules computed from state are modelled.
- The `isEditMode && onNodeDragStop` guard of `handleNodeDragStop` only decides whether a callback is called; it is not modelled.
- Node positions are copied, never computed; they are `real` pairs.
- `column` of `ColumnFilter` is an optional prop (`src/components/ui/column-filter.tsx:26`); the model takes it to be present, so the handlers' `column?.` calls that do nothing without a column are not modelled.
- A missing `type.type_name`: `scripts/generate-from-dbml.js:45` and `:199` call `toLowerCase()` on it and throw, while `scripts/generate-types-from-dbml.js:47` maps it like an unknown type; the model takes the type name to be present.
- The @dbml/core parser is not part of this model: its output is taken as the `Field`, `Table`, `Ref` and `Column` records, and its `settings` object is assumed present.
- `args[0]` in `generate-schema.js` is modelled as an optional first argument string; `type.args` of the other generators as an optional string.
- The script entry points (`generateTypesFromDBML`, `generateDrizzleSchema` of both scripts) read and write files, print and exit; they are left out, except the foreign-key column choice and the column list of `generate-schema.js`, which are modelled on their own.
- JavaScript `Set` and `Map` values are duplicate-free sequences in insertion order; their object identity and aliasing are not modelled.
- OrgChartTestPage.OnEdgeDelete: its contract states membership; order is kept by the `Filter` it uses, which is not restated there.
- TodoRepository.SortNewestFirst: states a newest-first permutation, not which of several equal-time orders Postgres returns.

## Findings

| source | as written | input that shows it | evidently intended | confidence | as-written member | corrected member |
|---|---|---|---|---|---|---|
| scripts/generate-schema.js:150-184 | the aliases are named by PascalCase of the table name (`Todos`, `AuditLogs`, `Users`, `UserApps`, `UserRoles`), while the composite block that follows refers to `Todo`, `AuditLog`, `User`, `UserApp` and `UserRole`, none of which is declared | the tables `todos`, `audit_logs`, `users`, `user_apps`, `user_roles` (as in `src/server/db/schema.ts:3`) | the singular entity names, as `generate-from-dbml.js:225-241` chooses them | medium, not executed | DbmlSchema.GenerateTypes, DbmlSchema.CompositeNamesUndeclared | DbmlSchema.GenerateEntityTypes, DbmlSchema.CompositeNamesDeclared |
