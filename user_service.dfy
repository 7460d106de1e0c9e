/** `userService`: the client projection of stored users and three
    forwarding calls. The service reads `user_id`, `app_name` on roles and
    an optional app and role list, a shape the in-memory repository does
    not produce; the projection is therefore stated over the record the
    service reads. `toISOString` is the parameter `iso`. */
module UserService {
  import opened Wrappers
  import opened Time
  import AppsConfig

  datatype StoredApp = StoredApp(appName: string)
  datatype StoredRole = StoredRole(appName: string, role: string)

  /** The user record as the service reads it from the repository. */
  datatype StoredUser = StoredUser(
    userId: string,
    name: string,
    email: string,
    createdAt: Instant,
    apps: Option<seq<StoredApp>>,
    roles: Option<seq<StoredRole>>)

  /** `UserWithAppsAndRoles` of the client: apps and roles as strings. */
  datatype ClientUser = ClientUser(
    userId: string,
    name: string,
    email: string,
    createdAt: string,
    apps: seq<string>,
    roles: seq<string>)

  /** `user.apps?.map(app => app.app_name) || []` */
  function AppNames(apps: Option<seq<StoredApp>>): (r: seq<string>)
    ensures apps.None? ==> r == []
    ensures apps.Some? ==> |r| == |apps.value| && forall k :: 0 <= k < |r| ==> r[k] == apps.value[k].appName
  {
    match apps
    case None => []
    case Some(a) => seq(|a|, k requires 0 <= k < |a| => a[k].appName)
  }

  /** `` user.roles?.map(role => `${role.app_name}-${role.role}`) || [] `` */
  function RoleKeys(roles: Option<seq<StoredRole>>): (r: seq<string>)
    ensures roles.None? ==> r == []
    ensures roles.Some? ==> |r| == |roles.value|
    ensures roles.Some? ==>
      forall k :: 0 <= k < |r| ==> r[k] == AppsConfig.GetAppRole(roles.value[k].appName, roles.value[k].role)
  {
    match roles
    case None => []
    case Some(s) => seq(|s|, k requires 0 <= k < |s| => AppsConfig.GetAppRole(s[k].appName, s[k].role))
  }

  /** The object literal both `getAll` and `getById` build. */
  function Project(u: StoredUser, iso: Instant -> string): (c: ClientUser)
    ensures c.userId == u.userId && c.name == u.name && c.email == u.email
    ensures c.createdAt == iso(u.createdAt)
    ensures c.apps == AppNames(u.apps) && c.roles == RoleKeys(u.roles)
  {
    ClientUser(u.userId, u.name, u.email, iso(u.createdAt), AppNames(u.apps), RoleKeys(u.roles))
  }

  /** `getAll()` over what the repository's `getAll` returned. */
  function GetAll(users: seq<StoredUser>, iso: Instant -> string): (r: seq<ClientUser>)
    ensures |r| == |users|
    ensures forall k :: 0 <= k < |r| ==> r[k] == Project(users[k], iso)
  {
    seq(|users|, k requires 0 <= k < |users| => Project(users[k], iso))
  }

  /** `getById(user_id)` over what the repository's `getById` returned. */
  function GetById(user: Option<StoredUser>, iso: Instant -> string): (r: Option<ClientUser>)
    ensures r.None? <==> user.None?
    ensures user.Some? ==> r == Some(Project(user.value, iso))
  {
    match user
    case None => None
    case Some(u) => Some(Project(u, iso))
  }

  /** `getById` gives the same projection as the `getAll` entry of the same
      stored user. */
  lemma GetByIdAgreesWithGetAll(users: seq<StoredUser>, k: nat, iso: Instant -> string)
    requires k < |users|
    ensures GetById(Some(users[k]), iso) == Some(GetAll(users, iso)[k])
  {
  }

  /** The client role strings parse back into the stored pairs whenever the
      app names hold no '-'. */
  lemma RoleKeysParse(roles: seq<StoredRole>, k: nat)
    requires k < |roles|
    requires '-' !in roles[k].appName
    ensures AppsConfig.ParseAppRole(RoleKeys(Some(roles))[k]) ==
            Some(AppsConfig.AppRole(roles[k].appName, roles[k].role))
  {
    AppsConfig.ParseGetAppRole(roles[k].appName, roles[k].role);
  }
}
