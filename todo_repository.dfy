/** `PgTodoRepository`: the audit-logged todo store.
    The two tables (`todos` and `auditLogs`) are held in memory. Every
    operation is given as a step function from the old tables to the new
    tables and the result; the class `PgTodoRepository` performs the same
    reads and writes in place and is proved to agree with those
    functions. `new Date()` and the database's `defaultNow()` are the
    `now` argument of each call. */
module TodoRepository {
  import opened Wrappers
  import opened Time

  /** A row of `todos`. */
  datatype Todo = Todo(
    id: int,
    title: string,
    dueDate: Option<string>,
    doneFlag: bool,
    createdAt: Instant,
    updatedAt: Instant,
    deletedAt: Option<Instant>)

  datatype Action = Create | Update | Toggle | Delete

  /** The text stored in the `action` column. */
  function ActionName(a: Action): string {
    match a
    case Create => "CREATE"
    case Update => "UPDATE"
    case Toggle => "TOGGLE"
    case Delete => "DELETE"
  }

  /** What `old_values` / `new_values` hold, before `JSON.stringify`:
      the `{title, due_date, done_flag}` triple, or `{done_flag}` alone. */
  datatype Snapshot =
    | Fields(title: string, dueDate: Option<string>, doneFlag: bool)
    | DoneFlagOnly(doneFlag: bool)

  function FieldsOf(t: Todo): Snapshot {
    Fields(t.title, t.dueDate, t.doneFlag)
  }

  /** A row of `auditLogs`. */
  datatype AuditLog = AuditLog(
    id: int,
    todoId: int,
    action: Action,
    oldValues: Option<Snapshot>,
    newValues: Option<Snapshot>,
    createdAt: Instant)

  /** One element of `getAll`'s result: a todo with its audit entries. */
  datatype TodoWithAuditLogs = TodoWithAuditLogs(todo: Todo, auditLogs: seq<AuditLog>)

  /** `{ title: string; due_date?: string | null }` */
  datatype CreateInput = CreateInput(title: string, dueDate: Nullable<string>)

  /** `{ id: number; title?: string; due_date?: string | null }` */
  datatype UpdateInput = UpdateInput(id: int, title: Option<string>, dueDate: Nullable<string>)

  /** The one error the repository throws itself. */
  datatype Error = NotFoundOrDeleted

  function Message(e: Error): string {
    "Todo not found or has been deleted"
  }

  /** `{ success: true }` */
  datatype DeleteResult = DeleteResult(success: bool)

  /** Both tables. */
  datatype Db = Db(todos: seq<Todo>, auditLogs: seq<AuditLog>)

  /** The empty database. */
  const Empty := Db([], [])

  /** Serial ids start at 1 and rows are never removed, so the row with
      id `k + 1` sits at index `k`; every audit entry names an existing row. */
  ghost predicate Valid(db: Db) {
    && (forall k :: 0 <= k < |db.todos| ==> db.todos[k].id == k + 1)
    && (forall k :: 0 <= k < |db.auditLogs| ==> db.auditLogs[k].id == k + 1)
    && (forall k :: 0 <= k < |db.auditLogs| ==> 1 <= db.auditLogs[k].todoId <= |db.todos|)
  }

  /** Some row has this id. */
  ghost predicate Exists(db: Db, id: int) {
    exists k :: 0 <= k < |db.todos| && db.todos[k].id == id
  }

  /** Some row has this id and has not been soft-deleted. */
  ghost predicate IsLive(db: Db, id: int) {
    exists k :: 0 <= k < |db.todos| && db.todos[k].id == id && db.todos[k].deletedAt.None?
  }

  /** `select().from(todos).where(eq(todos.id, id))`, first row. */
  function Select(todos: seq<Todo>, id: int): (r: Option<Todo>)
    ensures r.Some? <==> exists k :: 0 <= k < |todos| && todos[k].id == id
    ensures r.Some? ==> r.value in todos && r.value.id == id
  {
    if |todos| == 0 then None
    else if todos[0].id == id then Some(todos[0])
    else
      var r := Select(todos[1..], id);
      assert forall k :: 1 <= k < |todos| ==> todos[k] == todos[1..][k - 1];
      r
  }

  /** Under `Valid`, the row with a given id is found by its position. */
  lemma SelectById(db: Db, id: int)
    requires Valid(db)
    ensures Select(db.todos, id) == if 1 <= id <= |db.todos| then Some(db.todos[id - 1]) else None
    ensures Exists(db, id) <==> 1 <= id <= |db.todos|
    ensures IsLive(db, id) <==> 1 <= id <= |db.todos| && db.todos[id - 1].deletedAt.None?
    decreases |db.todos|
  {
    if 1 <= id <= |db.todos| {
      SelectFirst(db.todos, id - 1);
    }
  }

  lemma SelectFirst(todos: seq<Todo>, k: nat)
    requires k < |todos|
    requires forall j :: 0 <= j < |todos| ==> (todos[j].id == todos[k].id <==> j == k)
    ensures Select(todos, todos[k].id) == Some(todos[k])
  {
    if k > 0 {
      SelectFirst(todos[1..], k - 1);
    }
  }

  /** The columns an `update(todos).set(...)` writes. */
  datatype Change =
    | SetFields(title: Option<string>, dueDate: Nullable<string>, updatedAt: Instant)
    | SetDone(doneFlag: bool, updatedAt: Instant)
    | SetDeleted(deletedAt: Instant)

  /** A row after a `set`: keys whose value is `undefined` are left alone. */
  function Apply(t: Todo, c: Change): (r: Todo)
    ensures r.id == t.id && r.createdAt == t.createdAt
  {
    match c
    case SetFields(title, dueDate, now) =>
      t.(title := if title.Some? then title.value else t.title,
         dueDate := match dueDate
                    case Undefined => t.dueDate
                    case Null => None
                    case Present(d) => Some(d),
         updatedAt := now)
    case SetDone(flag, now) => t.(doneFlag := flag, updatedAt := now)
    case SetDeleted(now) => t.(deletedAt := Some(now))
  }

  /** `update(todos).set(c).where(eq(todos.id, id))` */
  function WriteWhere(todos: seq<Todo>, id: int, c: Change): (r: seq<Todo>)
    ensures |r| == |todos|
    ensures forall k :: 0 <= k < |todos| ==>
              r[k] == if todos[k].id == id then Apply(todos[k], c) else todos[k]
  {
    seq(|todos|, k requires 0 <= k < |todos| =>
      if todos[k].id == id then Apply(todos[k], c) else todos[k])
  }

  /** The next entry appended to `auditLogs`. */
  function Entry(db: Db, todoId: int, action: Action, oldValues: Option<Snapshot>,
                 newValues: Option<Snapshot>, now: Instant): AuditLog
  {
    AuditLog(|db.auditLogs| + 1, todoId, action, oldValues, newValues, now)
  }

  /** The audit log only grows, by at most one entry, and that entry
      concerns the row `id`. */
  ghost predicate AppendsAtMostOne(db: Db, db': Db, id: int) {
    && |db.auditLogs| <= |db'.auditLogs| <= |db.auditLogs| + 1
    && db'.auditLogs[..|db.auditLogs|] == db.auditLogs
    && (|db'.auditLogs| > |db.auditLogs| ==> db'.auditLogs[|db.auditLogs|].todoId == id)
  }

  /** Rows other than `id` are untouched; no row is added or removed, and
      no row changes its id or creation time. */
  ghost predicate OnlyRowChanges(db: Db, db': Db, id: int) {
    && |db'.todos| == |db.todos|
    && (forall k :: 0 <= k < |db.todos| ==> db'.todos[k].id == db.todos[k].id)
    && (forall k :: 0 <= k < |db.todos| ==> db'.todos[k].createdAt == db.todos[k].createdAt)
    && (forall k :: 0 <= k < |db.todos| && db.todos[k].id != id ==> db'.todos[k] == db.todos[k])
  }

  /** Writing one existing row and logging it keeps the tables well formed
      and touches nothing else. */
  lemma WriteOneRow(db: Db, id: int, c: Change, e: AuditLog)
    requires Valid(db) && 1 <= id <= |db.todos|
    requires e.id == |db.auditLogs| + 1 && e.todoId == id
    ensures var db' := Db(WriteWhere(db.todos, id, c), db.auditLogs + [e]);
      && Valid(db')
      && OnlyRowChanges(db, db', id)
      && AppendsAtMostOne(db, db', id)
      && db'.todos[id - 1] == Apply(db.todos[id - 1], c)
  {
    var db' := Db(WriteWhere(db.todos, id, c), db.auditLogs + [e]);
    assert db'.auditLogs[..|db.auditLogs|] == db.auditLogs;
  }

  // ---------------------------------------------------------------------
  // create

  /** `create(input)`: inserts a live, not-done row and one CREATE entry. */
  function CreateStep(db: Db, input: CreateInput, now: Instant): (r: (Db, Todo))
    requires Valid(db)
    ensures Valid(r.0)
    ensures var t := r.1;
      && t.title == input.title
      && t.dueDate == (if input.dueDate.Present? then Some(input.dueDate.value) else None)
      && !t.doneFlag
      && t.deletedAt == None
      && t.createdAt == now && t.updatedAt == now
      && !Exists(db, t.id)
      && r.0.todos == db.todos + [t]
    ensures |r.0.auditLogs| == |db.auditLogs| + 1
    ensures r.0.auditLogs[..|db.auditLogs|] == db.auditLogs
    ensures var e := r.0.auditLogs[|db.auditLogs|];
      && e.todoId == r.1.id
      && e.action == Create
      && e.oldValues == None
      && e.newValues == Some(Fields(input.title, r.1.dueDate, false))
      && e.createdAt == now
  {
    var t := Todo(|db.todos| + 1, input.title, input.dueDate.OrNull(), false, now, now, None);
    var db' := db.(todos := db.todos + [t]);
    var e := Entry(db, t.id, Create, None, Some(FieldsOf(t)), now);
    (db'.(auditLogs := db.auditLogs + [e]), t)
  }

  // ---------------------------------------------------------------------
  // update

  /** `update(input)`: on a live row, writes only the supplied fields and
      refreshes `updated_at`, then appends one UPDATE entry holding the
      triple before and after the write; otherwise throws and writes
      nothing. */
  function UpdateStep(db: Db, input: UpdateInput, now: Instant): (r: (Db, Result<Todo, Error>))
    requires Valid(db)
    ensures Valid(r.0)
    ensures r.1.Failure? <==> !IsLive(db, input.id)
    ensures r.1.Failure? ==> r.0 == db && r.1.error == NotFoundOrDeleted
    ensures r.1.Success? ==>
      var before := db.todos[input.id - 1];
      var after := r.1.value;
      && 1 <= input.id <= |db.todos| == |r.0.todos|
      && after == r.0.todos[input.id - 1]
      && after.id == input.id
      && after.title == (if input.title.Some? then input.title.value else before.title)
      && after.dueDate == (match input.dueDate
                           case Undefined => before.dueDate
                           case Null => None
                           case Present(d) => Some(d))
      && after.doneFlag == before.doneFlag
      && after.createdAt == before.createdAt
      && after.updatedAt == now
      && after.deletedAt == None
      && OnlyRowChanges(db, r.0, input.id)
      && |r.0.auditLogs| == |db.auditLogs| + 1
      && r.0.auditLogs[|db.auditLogs|] ==
           AuditLog(|db.auditLogs| + 1, input.id, Update, Some(FieldsOf(before)), Some(FieldsOf(after)), now)
    ensures AppendsAtMostOne(db, r.0, input.id)
  {
    SelectById(db, input.id);
    var existing := Select(db.todos, input.id);
    if existing.None? || existing.value.deletedAt.Some? then
      (db, Failure(NotFoundOrDeleted))
    else
      var todos' := WriteWhere(db.todos, input.id, SetFields(input.title, input.dueDate, now));
      var updated := todos'[input.id - 1];
      var e := Entry(db, updated.id, Update, Some(FieldsOf(existing.value)), Some(FieldsOf(updated)), now);
      WriteOneRow(db, input.id, SetFields(input.title, input.dueDate, now), e);
      (Db(todos', db.auditLogs + [e]), Success(updated))
  }

  // ---------------------------------------------------------------------
  // delete

  /** `delete(id)`: always succeeds. When a row with this id exists (live
      or already deleted) it gets `deleted_at = now` and one DELETE entry
      is appended; otherwise nothing changes. */
  function DeleteStep(db: Db, id: int, now: Instant): (r: (Db, DeleteResult))
    requires Valid(db)
    ensures Valid(r.0)
    ensures r.1.success
    ensures !Exists(db, id) ==> r.0 == db
    ensures Exists(db, id) ==>
      var before := db.todos[id - 1];
      && 1 <= id <= |db.todos| == |r.0.todos|
      && r.0.todos[id - 1] == before.(deletedAt := Some(now))
      && OnlyRowChanges(db, r.0, id)
      && |r.0.auditLogs| == |db.auditLogs| + 1
      && r.0.auditLogs[|db.auditLogs|] ==
           AuditLog(|db.auditLogs| + 1, id, Delete, Some(FieldsOf(before)), None, now)
    ensures AppendsAtMostOne(db, r.0, id)
  {
    SelectById(db, id);
    var existing := Select(db.todos, id);
    var todos' := WriteWhere(db.todos, id, SetDeleted(now));
    if existing.Some? then
      var e := Entry(db, id, Delete, Some(FieldsOf(existing.value)), None, now);
      WriteOneRow(db, id, SetDeleted(now), e);
      (Db(todos', db.auditLogs + [e]), DeleteResult(true))
    else
      assert todos' == db.todos;
      (Db(todos', db.auditLogs), DeleteResult(true))
  }

  // ---------------------------------------------------------------------
  // toggle

  /** `toggle(id)`: on a live row, negates `done_flag`, refreshes
      `updated_at` and appends one TOGGLE entry with the flag before and
      after; otherwise throws and writes nothing. */
  function ToggleStep(db: Db, id: int, now: Instant): (r: (Db, Result<Todo, Error>))
    requires Valid(db)
    ensures Valid(r.0)
    ensures r.1.Failure? <==> !IsLive(db, id)
    ensures r.1.Failure? ==> r.0 == db && r.1.error == NotFoundOrDeleted
    ensures r.1.Success? ==>
      var before := db.todos[id - 1];
      && 1 <= id <= |db.todos| == |r.0.todos|
      && r.1.value == r.0.todos[id - 1]
      && r.1.value == before.(doneFlag := !before.doneFlag, updatedAt := now)
      && OnlyRowChanges(db, r.0, id)
      && |r.0.auditLogs| == |db.auditLogs| + 1
      && r.0.auditLogs[|db.auditLogs|] ==
           AuditLog(|db.auditLogs| + 1, id, Toggle,
                    Some(DoneFlagOnly(before.doneFlag)), Some(DoneFlagOnly(!before.doneFlag)), now)
    ensures AppendsAtMostOne(db, r.0, id)
  {
    SelectById(db, id);
    var existing := Select(db.todos, id);
    if existing.None? || existing.value.deletedAt.Some? then
      (db, Failure(NotFoundOrDeleted))
    else
      var todo := existing.value;
      var todos' := WriteWhere(db.todos, id, SetDone(!todo.doneFlag, now));
      var updated := todos'[id - 1];
      var e := Entry(db, updated.id, Toggle, Some(DoneFlagOnly(todo.doneFlag)),
                     Some(DoneFlagOnly(updated.doneFlag)), now);
      WriteOneRow(db, id, SetDone(!todo.doneFlag, now), e);
      (Db(todos', db.auditLogs + [e]), Success(updated))
  }

  // ---------------------------------------------------------------------
  // getAll

  /** Ordered newest first by `key`. */
  ghost predicate NewestFirst<T>(s: seq<T>, key: T -> int) {
    forall i, j :: 0 <= i < j < |s| ==> key(s[i]) >= key(s[j])
  }

  /** Places `x` in front of the first element that is not newer than it. */
  function Insert<T(==)>(x: T, s: seq<T>, key: T -> int): (r: seq<T>)
    ensures multiset(r) == multiset(s) + multiset{x}
    ensures NewestFirst(s, key) ==> NewestFirst(r, key)
  {
    if |s| == 0 then [x]
    else if key(s[0]) <= key(x) then [x] + s
    else
      var rest := Insert(x, s[1..], key);
      assert s == [s[0]] + s[1..];
      HeadIsNewest(x, s, key, rest);
      InsertBehindHead(s, key, rest);
      [s[0]] + rest
  }

  lemma HeadIsNewest<T>(x: T, s: seq<T>, key: T -> int, rest: seq<T>)
    requires |s| > 0 && key(s[0]) > key(x)
    requires multiset(rest) == multiset(s[1..]) + multiset{x}
    ensures NewestFirst(s, key) ==> forall j :: 0 <= j < |rest| ==> key(s[0]) >= key(rest[j])
  {
    if NewestFirst(s, key) {
      forall j | 0 <= j < |rest| ensures key(s[0]) >= key(rest[j]) {
        var y := rest[j];
        assert y in multiset(rest);
        if y != x {
          assert y in multiset(s[1..]);
          var m :| 0 <= m < |s[1..]| && s[1..][m] == y;
          assert s[m + 1] == y;
        }
      }
    }
  }

  /** Keeping the head in front of an ordered tail that it precedes keeps
      the order. */
  lemma InsertBehindHead<T>(s: seq<T>, key: T -> int, rest: seq<T>)
    requires |s| > 0
    requires NewestFirst(s[1..], key) ==> NewestFirst(rest, key)
    requires NewestFirst(s, key) ==> forall j :: 0 <= j < |rest| ==> key(s[0]) >= key(rest[j])
    ensures NewestFirst(s, key) ==> NewestFirst([s[0]] + rest, key)
  {
    if NewestFirst(s, key) {
      assert NewestFirst(s[1..], key) by {
        forall i, j | 0 <= i < j < |s[1..]| ensures key(s[1..][i]) >= key(s[1..][j]) {
          assert s[1..][i] == s[i + 1] && s[1..][j] == s[j + 1];
        }
      }
      var r := [s[0]] + rest;
      forall i, j | 0 <= i < j < |r| ensures key(r[i]) >= key(r[j]) {
        assert r[j] == rest[j - 1];
        if i > 0 {
          assert r[i] == rest[i - 1];
        }
      }
    }
  }

  /** `orderBy: desc(created_at)`: a newest-first permutation of `s`
      (rows with equal times keep their table order). */
  function SortNewestFirst<T(==)>(s: seq<T>, key: T -> int): (r: seq<T>)
    ensures multiset(r) == multiset(s)
    ensures |r| == |s|
    ensures NewestFirst(r, key)
  {
    if |s| == 0 then []
    else
      assert s == [s[0]] + s[1..];
      var r := Insert(s[0], SortNewestFirst(s[1..], key), key);
      assert |r| == |multiset(r)|;
      r
  }

  /** `where: isNull(todos.deleted_at)` */
  function LiveTodos(todos: seq<Todo>): (r: seq<Todo>)
    ensures forall t :: t in r <==> t in todos && t.deletedAt.None?
  {
    if |todos| == 0 then []
    else if todos[0].deletedAt.None? then [todos[0]] + LiveTodos(todos[1..])
    else LiveTodos(todos[1..])
  }

  /** The audit entries of one todo (the `auditLogs` relation). */
  function LogsOf(logs: seq<AuditLog>, id: int): (r: seq<AuditLog>)
    ensures forall e :: e in r <==> e in logs && e.todoId == id
  {
    if |logs| == 0 then []
    else if logs[0].todoId == id then [logs[0]] + LogsOf(logs[1..], id)
    else LogsOf(logs[1..], id)
  }

  function TodoCreatedAt(t: Todo): Instant { t.createdAt }
  function LogCreatedAt(e: AuditLog): Instant { e.createdAt }

  function WithLogs(logs: seq<AuditLog>, todos: seq<Todo>): (r: seq<TodoWithAuditLogs>)
    ensures |r| == |todos|
    ensures forall i :: 0 <= i < |r| ==>
      r[i].todo == todos[i] &&
      r[i].auditLogs == SortNewestFirst(LogsOf(logs, todos[i].id), LogCreatedAt)
  {
    if |todos| == 0 then []
    else
      var rest := WithLogs(logs, todos[1..]);
      var r := [TodoWithAuditLogs(todos[0], SortNewestFirst(LogsOf(logs, todos[0].id), LogCreatedAt))] + rest;
      assert forall i :: 1 <= i < |r| ==> r[i] == rest[i - 1] && todos[i] == todos[1..][i - 1];
      r
  }

  /** The todos of a `getAll` result, in order. */
  function TodosOf(r: seq<TodoWithAuditLogs>): (ts: seq<Todo>)
    ensures |ts| == |r|
    ensures forall i :: 0 <= i < |r| ==> ts[i] == r[i].todo
  {
    if |r| == 0 then [] else [r[0].todo] + TodosOf(r[1..])
  }

  /** Two sequences that are permutations of each other hold the same
      elements. */
  lemma SameElements<T>(a: seq<T>, b: seq<T>)
    requires multiset(a) == multiset(b)
    ensures forall x :: x in a <==> x in b
  {
    forall x ensures x in a <==> x in b {
      assert x in a <==> x in multiset(a);
      assert x in b <==> x in multiset(b);
    }
  }

  lemma TodosOfWithLogs(logs: seq<AuditLog>, todos: seq<Todo>)
    ensures TodosOf(WithLogs(logs, todos)) == todos
  {
  }

  /** `getAll()`: exactly the live todos, newest first, each with exactly
      its own audit entries, newest first. */
  function GetAllView(db: Db): (r: seq<TodoWithAuditLogs>)
    ensures multiset(TodosOf(r)) == multiset(LiveTodos(db.todos))
    ensures forall t :: t in TodosOf(r) <==> t in db.todos && t.deletedAt.None?
    ensures NewestFirst(TodosOf(r), TodoCreatedAt)
    ensures forall i :: 0 <= i < |r| ==>
      && multiset(r[i].auditLogs) == multiset(LogsOf(db.auditLogs, r[i].todo.id))
      && (forall e :: e in r[i].auditLogs <==> e in db.auditLogs && e.todoId == r[i].todo.id)
      && NewestFirst(r[i].auditLogs, LogCreatedAt)
  {
    var sorted := SortNewestFirst(LiveTodos(db.todos), TodoCreatedAt);
    var r := WithLogs(db.auditLogs, sorted);
    TodosOfWithLogs(db.auditLogs, sorted);
    SameElements(sorted, LiveTodos(db.todos));
    forall i | 0 <= i < |r|
      ensures forall e :: e in r[i].auditLogs <==> e in db.auditLogs && e.todoId == r[i].todo.id
    {
      SameElements(r[i].auditLogs, LogsOf(db.auditLogs, r[i].todo.id));
    }
    r
  }

  // ---------------------------------------------------------------------
  // Properties across calls

  /** A soft-deleted row is never listed, and update and toggle on it fail
      and leave the tables as they were. */
  lemma DeletedRowIsGone(db: Db, id: int, now: Instant, input: UpdateInput)
    requires Valid(db) && Exists(db, id) && input.id == id
    ensures var db' := DeleteStep(db, id, now).0;
      && (forall t :: t in TodosOf(GetAllView(db')) ==> t.id != id)
      && UpdateStep(db', input, now) == (db', Failure(NotFoundOrDeleted))
      && ToggleStep(db', id, now) == (db', Failure(NotFoundOrDeleted))
  {
    var db' := DeleteStep(db, id, now).0;
    DeletedRowUnlisted(db, id, now);
    DeletedRowFails(db, id, now, input);
  }

  lemma DeletedRowUnlisted(db: Db, id: int, now: Instant)
    requires Valid(db) && Exists(db, id)
    ensures forall t :: t in TodosOf(GetAllView(DeleteStep(db, id, now).0)) ==> t.id != id
  {
    var db' := DeleteStep(db, id, now).0;
    SelectById(db', id);
    forall t | t in TodosOf(GetAllView(db')) ensures t.id != id {
      var k :| 0 <= k < |db'.todos| && db'.todos[k] == t;
      assert db'.todos[k].id == k + 1;
    }
  }

  lemma DeletedRowFails(db: Db, id: int, now: Instant, input: UpdateInput)
    requires Valid(db) && Exists(db, id) && input.id == id
    ensures var db' := DeleteStep(db, id, now).0;
      && UpdateStep(db', input, now) == (db', Failure(NotFoundOrDeleted))
      && ToggleStep(db', id, now) == (db', Failure(NotFoundOrDeleted))
  {
    var db' := DeleteStep(db, id, now).0;
    SelectById(db', id);
  }

  /** Two successive toggles restore `done_flag` and append two TOGGLE
      entries for the row. */
  lemma ToggleTwiceRestores(db: Db, id: int, now1: Instant, now2: Instant)
    requires Valid(db) && IsLive(db, id)
    ensures var (db1, r1) := ToggleStep(db, id, now1);
      var (db2, r2) := ToggleStep(db1, id, now2);
      && r1.Success? && r2.Success?
      && r2.value.doneFlag == db.todos[id - 1].doneFlag
      && r1.value.doneFlag == !db.todos[id - 1].doneFlag
      && |db2.auditLogs| == |db.auditLogs| + 2
      && db2.auditLogs[|db.auditLogs|].action == Toggle
      && db2.auditLogs[|db.auditLogs| + 1].action == Toggle
      && db2.auditLogs[..|db.auditLogs|] == db.auditLogs
  {
    SelectById(db, id);
    var (db1, r1) := ToggleStep(db, id, now1);
    SelectById(db1, id);
    assert db1.todos[id - 1].deletedAt == None;
  }

  /** Deletion is absorbing: no operation brings a soft-deleted row back. */
  lemma DeletedStaysDeleted(db: Db, k: nat, input: UpdateInput, c: CreateInput, id: int, now: Instant)
    requires Valid(db) && k < |db.todos| && db.todos[k].deletedAt.Some?
    ensures CreateStep(db, c, now).0.todos[k].deletedAt.Some?
    ensures UpdateStep(db, input, now).0.todos[k].deletedAt.Some?
    ensures ToggleStep(db, id, now).0.todos[k].deletedAt.Some?
    ensures DeleteStep(db, id, now).0.todos[k].deletedAt.Some?
  {
    CreateKeepsDeleted(db, k, c, now);
    UpdateKeepsDeleted(db, k, input, now);
    ToggleKeepsDeleted(db, k, id, now);
    DeleteKeepsDeleted(db, k, id, now);
  }

  lemma CreateKeepsDeleted(db: Db, k: nat, c: CreateInput, now: Instant)
    requires Valid(db) && k < |db.todos| && db.todos[k].deletedAt.Some?
    ensures CreateStep(db, c, now).0.todos[k].deletedAt.Some?
  {
  }

  lemma UpdateKeepsDeleted(db: Db, k: nat, input: UpdateInput, now: Instant)
    requires Valid(db) && k < |db.todos| && db.todos[k].deletedAt.Some?
    ensures UpdateStep(db, input, now).0.todos[k].deletedAt.Some?
  {
    SelectById(db, input.id);
  }

  lemma ToggleKeepsDeleted(db: Db, k: nat, id: int, now: Instant)
    requires Valid(db) && k < |db.todos| && db.todos[k].deletedAt.Some?
    ensures ToggleStep(db, id, now).0.todos[k].deletedAt.Some?
  {
    SelectById(db, id);
  }

  lemma DeleteKeepsDeleted(db: Db, k: nat, id: int, now: Instant)
    requires Valid(db) && k < |db.todos| && db.todos[k].deletedAt.Some?
    ensures DeleteStep(db, id, now).0.todos[k].deletedAt.Some?
  {
    SelectById(db, id);
  }

  /** A new todo is listed by `getAll` with a single CREATE entry when it
      is the only row. */
  lemma CreateThenGetAll(title: string, now: Instant)
    ensures var (db, t) := CreateStep(Empty, CreateInput(title, Null), now);
      var view := GetAllView(db);
      && t.dueDate == None && !t.doneFlag
      && |view| == 1 && view[0].todo == t
      && |view[0].auditLogs| == 1 && view[0].auditLogs[0].action == Create
  {
    var (db, t) := CreateStep(Empty, CreateInput(title, Null), now);
    assert db.todos == [t];
    assert LiveTodos(db.todos) == [t];
    assert SortNewestFirst([t], TodoCreatedAt) == [t];
    var e := db.auditLogs[0];
    assert db.auditLogs == [e];
    assert LogsOf(db.auditLogs, t.id) == [e];
    assert SortNewestFirst([e], LogCreatedAt) == [e];
    assert GetAllView(db) == [TodoWithAuditLogs(t, [e])];
  }

  // ---------------------------------------------------------------------
  // Most recent first: with a clock that moves forward, the later entry of
  // a todo is listed before the earlier one

  /** The entries of one todo in a log made of two parts. */
  lemma {:induction false} LogsOfConcat(a: seq<AuditLog>, b: seq<AuditLog>, id: int)
    ensures LogsOf(a + b, id) == LogsOf(a, id) + LogsOf(b, id)
    decreases |a|
  {
    if |a| > 0 {
      LogsOfConcat(a[1..], b, id);
      assert (a + b)[0] == a[0];
      assert (a + b)[1..] == a[1..] + b;
    } else {
      assert a + b == b;
    }
  }

  /** A log without entries for `id` contributes none. */
  lemma LogsOfNone(logs: seq<AuditLog>, id: int)
    requires forall k :: 0 <= k < |logs| ==> logs[k].todoId != id
    ensures LogsOf(logs, id) == []
  {
  }

  /** Both entries of a pair that concern `id` are its entries. */
  lemma LogsOfPair(c: AuditLog, g: AuditLog, id: int)
    requires c.todoId == id && g.todoId == id
    ensures LogsOf([c, g], id) == [c, g]
  {
    var s := [c, g];
    assert s[1..] == [g];
    assert LogsOf([g], id) == [g] + LogsOf([g][1..], id);
    assert [g][1..] == [];
    assert LogsOf(s, id) == [c] + LogsOf(s[1..], id);
  }

  /** Two two-element multisets that are equal hold the same pair. */
  lemma PairMultiset<T>(x: T, y: T, a: T, b: T)
    requires multiset{x, y} == multiset{a, b}
    ensures (x == a && y == b) || (x == b && y == a)
  {
    assert x in multiset{a, b};
    if x == a {
      assert multiset{y} == multiset{x, y} - multiset{a} == multiset{b};
      assert y in multiset{b};
    } else {
      assert multiset{y} == multiset{x, y} - multiset{b} == multiset{a};
      assert y in multiset{a};
    }
  }

  /** Two elements with different keys have one newest-first order. */
  lemma PairNewestFirst<T>(s: seq<T>, a: T, b: T, key: T -> int)
    requires multiset(s) == multiset([a, b])
    requires NewestFirst(s, key)
    requires key(a) < key(b)
    ensures s == [b, a]
  {
    assert |s| == |multiset(s)| == 2;
    assert s == [s[0], s[1]];
    assert multiset(s) == multiset{s[0], s[1]};
    assert multiset([a, b]) == multiset{a, b};
    PairMultiset(s[0], s[1], a, b);
    assert key(s[0]) >= key(s[1]);
  }

  /** A live todo is listed by `getAll` with its own entries, newest
      first. */
  lemma ListedWithLogs(db: Db, k: nat)
    requires k < |db.todos| && db.todos[k].deletedAt.None?
    ensures var view := GetAllView(db);
      exists i :: 0 <= i < |view| && view[i].todo == db.todos[k] &&
        multiset(view[i].auditLogs) == multiset(LogsOf(db.auditLogs, db.todos[k].id)) &&
        NewestFirst(view[i].auditLogs, LogCreatedAt)
  {
    var view := GetAllView(db);
    assert db.todos[k] in TodosOf(view);
    var i :| 0 <= i < |view| && TodosOf(view)[i] == db.todos[k];
    assert view[i].todo == db.todos[k];
  }

  /** The entries of a todo whose first two entries close the log. */
  lemma LastTwoEntries(pre: seq<AuditLog>, c: AuditLog, g: AuditLog)
    requires forall j :: 0 <= j < |pre| ==> pre[j].todoId != c.todoId
    requires g.todoId == c.todoId
    ensures LogsOf(pre + [c, g], c.todoId) == [c, g]
  {
    LogsOfConcat(pre, [c, g], c.todoId);
    LogsOfNone(pre, c.todoId);
    LogsOfPair(c, g, c.todoId);
  }

  /** When the log of a live todo ends with its first entry `c` and a
      later entry `g`, and nothing before them concerns it, `getAll`
      lists exactly `g` then `c` for it. */
  lemma LaterEntryListedFirst(db: Db, pre: seq<AuditLog>, c: AuditLog, g: AuditLog, k: nat)
    requires db.auditLogs == pre + [c, g]
    requires forall j :: 0 <= j < |pre| ==> pre[j].todoId != c.todoId
    requires g.todoId == c.todoId && c.createdAt < g.createdAt
    requires k < |db.todos| && db.todos[k].id == c.todoId && db.todos[k].deletedAt.None?
    ensures var view := GetAllView(db);
      exists i :: 0 <= i < |view| && view[i].todo == db.todos[k] && view[i].auditLogs == [g, c]
  {
    var view := GetAllView(db);
    LastTwoEntries(pre, c, g);
    ListedWithLogs(db, k);
    var i :| 0 <= i < |view| && view[i].todo == db.todos[k] &&
      multiset(view[i].auditLogs) == multiset(LogsOf(db.auditLogs, db.todos[k].id)) &&
      NewestFirst(view[i].auditLogs, LogCreatedAt);
    PairNewestFirst(view[i].auditLogs, c, g, LogCreatedAt);
  }

  /** What a create leaves for the next call: the new row is live and
      its CREATE entry is the only entry that concerns it. */
  lemma CreatedAlone(db: Db, input: CreateInput, t1: Instant)
    requires Valid(db)
    ensures var (db1, todo) := CreateStep(db, input, t1);
      var n := |db.auditLogs|;
      && todo.id == |db.todos| + 1
      && IsLive(db1, todo.id)
      && |db1.auditLogs| == n + 1 && db1.auditLogs[..n] == db.auditLogs
      && db1.auditLogs[n].todoId == todo.id && db1.auditLogs[n].createdAt == t1
      && db1.auditLogs[n].action == Create
      && (forall j :: 0 <= j < n ==> db.auditLogs[j].todoId != todo.id)
  {
    var (db1, todo) := CreateStep(db, input, t1);
    assert db1.todos[|db.todos|] == todo;
    SelectById(db1, todo.id);
  }

  /** A second call that appends an entry for the same row at a later
      instant, leaving it live: `getAll` lists that entry first, then the
      CREATE entry. */
  lemma FollowUpListedFirst(db: Db, db1: Db, db2: Db, id: int)
    requires |db1.auditLogs| == |db.auditLogs| + 1 && db1.auditLogs[..|db.auditLogs|] == db.auditLogs
    requires forall j :: 0 <= j < |db.auditLogs| ==> db.auditLogs[j].todoId != id
    requires |db2.auditLogs| == |db1.auditLogs| + 1 && db2.auditLogs[..|db1.auditLogs|] == db1.auditLogs
    requires db1.auditLogs[|db.auditLogs|].todoId == id && db2.auditLogs[|db1.auditLogs|].todoId == id
    requires db1.auditLogs[|db.auditLogs|].createdAt < db2.auditLogs[|db1.auditLogs|].createdAt
    requires 1 <= id <= |db2.todos| && db2.todos[id - 1].id == id && db2.todos[id - 1].deletedAt.None?
    ensures var view := GetAllView(db2);
      exists i :: 0 <= i < |view| && view[i].todo.id == id &&
        view[i].auditLogs == [db2.auditLogs[|db1.auditLogs|], db1.auditLogs[|db.auditLogs|]]
  {
    var n := |db.auditLogs|;
    var c, g := db1.auditLogs[n], db2.auditLogs[n + 1];
    assert db2.auditLogs == db.auditLogs + [c, g] by {
      assert db2.auditLogs == db2.auditLogs[..n + 1] + [g];
      assert db1.auditLogs == db1.auditLogs[..n] + [c];
    }
    LaterEntryListedFirst(db2, db.auditLogs, c, g, id - 1);
  }

  /** Create a todo, then toggle it at a later instant: `getAll` lists its
      TOGGLE entry first and its CREATE entry second, as the integration
      test expects. */
  lemma ToggleListedBeforeCreate(db: Db, input: CreateInput, t1: Instant, t2: Instant)
    requires Valid(db) && t1 < t2
    ensures var (db1, todo) := CreateStep(db, input, t1);
      var db2 := ToggleStep(db1, todo.id, t2).0;
      var view := GetAllView(db2);
      exists i :: 0 <= i < |view| && view[i].todo.id == todo.id &&
        |view[i].auditLogs| == 2 && view[i].auditLogs[0].action == Toggle && view[i].auditLogs[1].action == Create
  {
    var (db1, todo) := CreateStep(db, input, t1);
    CreatedAlone(db, input, t1);
    var db2 := ToggleStep(db1, todo.id, t2).0;
    FollowUpListedFirst(db, db1, db2, todo.id);
  }

  /** Create a todo, then update it at a later instant: `getAll` lists its
      UPDATE entry first and its CREATE entry second. */
  lemma UpdateListedBeforeCreate(db: Db, input: CreateInput, title: Option<string>, due: Nullable<string>,
                                 t1: Instant, t2: Instant)
    requires Valid(db) && t1 < t2
    ensures var (db1, todo) := CreateStep(db, input, t1);
      var db2 := UpdateStep(db1, UpdateInput(todo.id, title, due), t2).0;
      var view := GetAllView(db2);
      exists i :: 0 <= i < |view| && view[i].todo.id == todo.id &&
        |view[i].auditLogs| == 2 && view[i].auditLogs[0].action == Update && view[i].auditLogs[1].action == Create
  {
    var (db1, todo) := CreateStep(db, input, t1);
    CreatedAlone(db, input, t1);
    var db2 := UpdateStep(db1, UpdateInput(todo.id, title, due), t2).0;
    FollowUpListedFirst(db, db1, db2, todo.id);
  }

  // ---------------------------------------------------------------------
  // The steps on a row that is there, written out

  lemma UpdateStepLive(db: Db, input: UpdateInput, now: Instant)
    requires Valid(db) && IsLive(db, input.id)
    ensures var todos' := WriteWhere(db.todos, input.id, SetFields(input.title, input.dueDate, now));
      var updated := todos'[input.id - 1];
      UpdateStep(db, input, now) ==
        (Db(todos', db.auditLogs + [AuditLog(|db.auditLogs| + 1, updated.id, Update,
                                             Some(FieldsOf(db.todos[input.id - 1])), Some(FieldsOf(updated)), now)]),
         Success(updated))
  {
    SelectById(db, input.id);
  }

  lemma ToggleStepLive(db: Db, id: int, now: Instant)
    requires Valid(db) && IsLive(db, id)
    ensures var todo := db.todos[id - 1];
      var todos' := WriteWhere(db.todos, id, SetDone(!todo.doneFlag, now));
      var updated := todos'[id - 1];
      ToggleStep(db, id, now) ==
        (Db(todos', db.auditLogs + [AuditLog(|db.auditLogs| + 1, updated.id, Toggle,
                                             Some(DoneFlagOnly(todo.doneFlag)),
                                             Some(DoneFlagOnly(updated.doneFlag)), now)]),
         Success(updated))
  {
    SelectById(db, id);
  }

  lemma UpdateStepDead(db: Db, input: UpdateInput, now: Instant)
    requires Valid(db) && !IsLive(db, input.id)
    ensures UpdateStep(db, input, now) == (db, Failure(NotFoundOrDeleted))
  {
  }

  lemma ToggleStepDead(db: Db, id: int, now: Instant)
    requires Valid(db) && !IsLive(db, id)
    ensures ToggleStep(db, id, now) == (db, Failure(NotFoundOrDeleted))
  {
  }

  lemma DeleteStepExisting(db: Db, id: int, now: Instant)
    requires Valid(db) && Exists(db, id)
    ensures DeleteStep(db, id, now) ==
      (Db(WriteWhere(db.todos, id, SetDeleted(now)),
          db.auditLogs + [AuditLog(|db.auditLogs| + 1, id, Delete, Some(FieldsOf(db.todos[id - 1])), None, now)]),
       DeleteResult(true))
  {
    SelectById(db, id);
  }

  // ---------------------------------------------------------------------
  // The repository object

  /** `PgTodoRepository` against in-memory tables. */
  class PgTodoRepository {
    var todos: seq<Todo>
    var auditLogs: seq<AuditLog>

    function State(): Db
      reads this
    {
      Db(todos, auditLogs)
    }

    ghost predicate Inv()
      reads this
    {
      Valid(State())
    }

    constructor ()
      ensures Inv() && State() == Empty
    {
      todos := [];
      auditLogs := [];
    }

    method GetAll() returns (r: seq<TodoWithAuditLogs>)
      requires Inv()
      ensures r == GetAllView(State())
    {
      var live := LiveTodos(todos);
      var sorted := SortNewestFirst(live, TodoCreatedAt);
      r := WithLogs(auditLogs, sorted);
    }

    method Create(input: CreateInput, now: Instant) returns (newTodo: Todo)
      requires Inv()
      modifies this
      ensures Inv()
      ensures (State(), newTodo) == CreateStep(old(State()), input, now)
    {
      newTodo := Todo(|todos| + 1, input.title, input.dueDate.OrNull(), false, now, now, None);
      todos := todos + [newTodo];
      auditLogs := auditLogs + [AuditLog(|auditLogs| + 1, newTodo.id, Action.Create, None,
                                         Some(Fields(newTodo.title, newTodo.dueDate, newTodo.doneFlag)), now)];
    }

    method Update(input: UpdateInput, now: Instant) returns (r: Result<Todo, Error>)
      requires Inv()
      modifies this
      ensures Inv()
      ensures (State(), r) == UpdateStep(old(State()), input, now)
    {
      ghost var db := State();
      SelectById(db, input.id);
      var existing := Select(todos, input.id);
      if existing.None? || existing.value.deletedAt.Some? {
        UpdateStepDead(db, input, now);
        return Failure(NotFoundOrDeleted);
      }
      var written := WriteWhere(todos, input.id, SetFields(input.title, input.dueDate, now));
      var updated := written[input.id - 1];
      var entry := AuditLog(|auditLogs| + 1, updated.id, Action.Update,
                            Some(FieldsOf(existing.value)), Some(FieldsOf(updated)), now);
      UpdateStepLive(db, input, now);
      todos, auditLogs := written, auditLogs + [entry];
      r := Success(updated);
    }

    method Delete(id: int, now: Instant) returns (r: DeleteResult)
      requires Inv()
      modifies this
      ensures Inv()
      ensures (State(), r) == DeleteStep(old(State()), id, now)
    {
      ghost var db := State();
      SelectById(db, id);
      var existing := Select(todos, id);
      var written := WriteWhere(todos, id, SetDeleted(now));
      if existing.Some? {
        var entry := AuditLog(|auditLogs| + 1, id, Action.Delete, Some(FieldsOf(existing.value)), None, now);
        DeleteStepExisting(db, id, now);
        todos, auditLogs := written, auditLogs + [entry];
      } else {
        assert written == todos;
        todos := written;
      }
      r := DeleteResult(true);
    }

    method Toggle(id: int, now: Instant) returns (r: Result<Todo, Error>)
      requires Inv()
      modifies this
      ensures Inv()
      ensures (State(), r) == ToggleStep(old(State()), id, now)
    {
      ghost var db := State();
      SelectById(db, id);
      var todo := Select(todos, id);
      if todo.None? || todo.value.deletedAt.Some? {
        ToggleStepDead(db, id, now);
        return Failure(NotFoundOrDeleted);
      }
      var written := WriteWhere(todos, id, SetDone(!todo.value.doneFlag, now));
      var updated := written[id - 1];
      var entry := AuditLog(|auditLogs| + 1, updated.id, Action.Toggle,
                            Some(DoneFlagOnly(todo.value.doneFlag)), Some(DoneFlagOnly(updated.doneFlag)), now);
      ToggleStepLive(db, id, now);
      todos, auditLogs := written, auditLogs + [entry];
      r := Success(updated);
    }
  }
}
