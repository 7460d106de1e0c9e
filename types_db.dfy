/** The database-to-client serialisers: every `Date` field is turned into
    its ISO text by `toISOString`, here the parameter `iso`; every other
    field is copied by the object spread. The user, app and role records
    are declared in `src/lib/types-generated.ts`, which is not part of this
    model; their other fields are carried as an opaque part `rest`. */
module TypesDb {
  import opened Wrappers
  import opened Time
  import opened TodoRepository

  /** `TodoType`: a todo with text timestamps. */
  datatype TodoType = TodoType(
    id: int,
    title: string,
    dueDate: Option<string>,
    doneFlag: bool,
    createdAt: string,
    updatedAt: string,
    deletedAt: Option<string>)

  /** `AuditLogType`: an audit entry with a text timestamp. */
  datatype AuditLogType = AuditLogType(
    id: int,
    todoId: int,
    action: Action,
    oldValues: Option<Snapshot>,
    newValues: Option<Snapshot>,
    createdAt: string)

  datatype TodoWithAuditLogsType = TodoWithAuditLogsType(todo: TodoType, auditLogs: seq<AuditLogType>)

  /** `serializeTodo` */
  function SerializeTodo(t: Todo, iso: Instant -> string): (r: TodoType)
    ensures r.id == t.id && r.title == t.title && r.dueDate == t.dueDate && r.doneFlag == t.doneFlag
    ensures r.createdAt == iso(t.createdAt) && r.updatedAt == iso(t.updatedAt)
    ensures r.deletedAt.None? <==> t.deletedAt.None?
    ensures t.deletedAt.Some? ==> r.deletedAt == Some(iso(t.deletedAt.value))
  {
    TodoType(t.id, t.title, t.dueDate, t.doneFlag, iso(t.createdAt), iso(t.updatedAt),
             match t.deletedAt case None => None case Some(d) => Some(iso(d)))
  }

  /** `serializeAuditLog` */
  function SerializeAuditLog(e: AuditLog, iso: Instant -> string): (r: AuditLogType)
    ensures r.id == e.id && r.todoId == e.todoId && r.action == e.action
    ensures r.oldValues == e.oldValues && r.newValues == e.newValues
    ensures r.createdAt == iso(e.createdAt)
  {
    AuditLogType(e.id, e.todoId, e.action, e.oldValues, e.newValues, iso(e.createdAt))
  }

  /** `serializeTodoWithAuditLogs` */
  function SerializeTodoWithAuditLogs(t: TodoWithAuditLogs, iso: Instant -> string): (r: TodoWithAuditLogsType)
    ensures r.todo == SerializeTodo(t.todo, iso)
    ensures |r.auditLogs| == |t.auditLogs|
    ensures forall k :: 0 <= k < |r.auditLogs| ==> r.auditLogs[k] == SerializeAuditLog(t.auditLogs[k], iso)
  {
    TodoWithAuditLogsType(
      SerializeTodo(t.todo, iso),
      seq(|t.auditLogs|, k requires 0 <= k < |t.auditLogs| => SerializeAuditLog(t.auditLogs[k], iso)))
  }

  /** With an injective `toISOString`, serialising loses nothing: two todos
      with the same serial form are the same todo. */
  lemma SerializeTodoInjective(t1: Todo, t2: Todo, iso: Instant -> string)
    requires forall a: Instant, b: Instant :: iso(a) == iso(b) ==> a == b
    requires SerializeTodo(t1, iso) == SerializeTodo(t2, iso)
    ensures t1 == t2
  {
    assert iso(t1.createdAt) == iso(t2.createdAt);
    assert iso(t1.updatedAt) == iso(t2.updatedAt);
    if t1.deletedAt.Some? {
      assert iso(t1.deletedAt.value) == iso(t2.deletedAt.value);
    }
  }

  /** Every todo `getAll` lists serialises with a null `deleted_at`. */
  lemma GetAllSerializesLive(db: Db, k: nat, iso: Instant -> string)
    requires k < |GetAllView(db)|
    ensures SerializeTodoWithAuditLogs(GetAllView(db)[k], iso).todo.deletedAt.None?
  {
    var r := GetAllView(db);
    assert r[k].todo == TodosOf(r)[k];
    assert r[k].todo in TodosOf(r);
  }

  /** `UserDB`: a user with its two `Date` fields. */
  datatype UserDB<U> = UserDB(rest: U, createdAt: Instant, updatedAt: Instant)
  datatype UserType<U> = UserType(rest: U, createdAt: string, updatedAt: string)
  /** `UserAppDB` and `UserRoleDB`: a record with one `Date` field. */
  datatype StampedDB<A> = StampedDB(rest: A, createdAt: Instant)
  datatype StampedType<A> = StampedType(rest: A, createdAt: string)

  datatype UserWithAppsAndRolesDB<U, A, R> =
    UserWithAppsAndRolesDB(user: UserDB<U>, userApps: seq<StampedDB<A>>, userRoles: seq<StampedDB<R>>)
  /** The spread of the whole composite record also carries the raw
      `user_apps` and `user_roles`, with their `Date` values unconverted. */
  datatype UserWithAppsAndRolesType<U, A, R> =
    UserWithAppsAndRolesType(user: UserType<U>, userApps: seq<StampedDB<A>>, userRoles: seq<StampedDB<R>>,
                             apps: seq<StampedType<A>>, roles: seq<StampedType<R>>)

  /** `serializeUser` */
  function SerializeUser<U>(u: UserDB<U>, iso: Instant -> string): (r: UserType<U>)
    ensures r.rest == u.rest
    ensures r.createdAt == iso(u.createdAt) && r.updatedAt == iso(u.updatedAt)
  {
    UserType(u.rest, iso(u.createdAt), iso(u.updatedAt))
  }

  /** `serializeUserApp` and `serializeUserRole` */
  function SerializeStamped<A>(x: StampedDB<A>, iso: Instant -> string): (r: StampedType<A>)
    ensures r.rest == x.rest && r.createdAt == iso(x.createdAt)
  {
    StampedType(x.rest, iso(x.createdAt))
  }

  function SerializeAll<A>(xs: seq<StampedDB<A>>, iso: Instant -> string): (r: seq<StampedType<A>>)
    ensures |r| == |xs|
    ensures forall k :: 0 <= k < |r| ==> r[k] == SerializeStamped(xs[k], iso)
  {
    seq(|xs|, k requires 0 <= k < |xs| => SerializeStamped(xs[k], iso))
  }

  /** `serializeUserWithAppsAndRoles`: `apps` come from `user_apps` and
      `roles` from `user_roles`, element by element. */
  function SerializeUserWithAppsAndRoles<U, A, R>(u: UserWithAppsAndRolesDB<U, A, R>, iso: Instant -> string)
    : (r: UserWithAppsAndRolesType<U, A, R>)
    ensures r.user == SerializeUser(u.user, iso)
    ensures r.userApps == u.userApps && r.userRoles == u.userRoles
    ensures r.apps == SerializeAll(u.userApps, iso) && r.roles == SerializeAll(u.userRoles, iso)
    ensures |r.apps| == |u.userApps| && |r.roles| == |u.userRoles|
    ensures forall k :: 0 <= k < |r.apps| ==>
      r.apps[k].rest == u.userApps[k].rest && r.apps[k].createdAt == iso(u.userApps[k].createdAt)
    ensures forall k :: 0 <= k < |r.roles| ==>
      r.roles[k].rest == u.userRoles[k].rest && r.roles[k].createdAt == iso(u.userRoles[k].createdAt)
  {
    UserWithAppsAndRolesType(SerializeUser(u.user, iso), u.userApps, u.userRoles,
                             SerializeAll(u.userApps, iso), SerializeAll(u.userRoles, iso))
  }
}
