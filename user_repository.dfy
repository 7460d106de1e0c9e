/** `MemoryUserRepository`: three seeded arrays that are only read. A user
    is listed together with its apps and roles, found by filtering the
    other two arrays on `user_id`. The repository is a value; its
    operations are functions of it, so none of them can change the seed. */
module UserRepository {
  import opened Wrappers
  import opened Time
  import opened JsCollections

  datatype User = User(id: int, name: string, email: string, createdAt: Instant, updatedAt: Instant)
  datatype UserApp = UserApp(id: int, userId: int, appName: string, createdAt: Instant)
  datatype UserRole = UserRole(id: int, userId: int, role: string, createdAt: Instant)
  datatype UserWithAppsAndRoles = UserWithAppsAndRoles(user: User, apps: seq<UserApp>, roles: seq<UserRole>)

  datatype MemoryUserRepository = MemoryUserRepository(users: seq<User>, userApps: seq<UserApp>, userRoles: seq<UserRole>)

  /** The seed. `users` carry fixed January 2024 dates; the apps and roles
      are stamped with `new Date()` when the repository is built, here
      `now`. */
  function Seeded(now: Instant): (repo: MemoryUserRepository)
    ensures |repo.users| == 5 && |repo.userApps| == 13 && |repo.userRoles| == 9
  {
    MemoryUserRepository(
      [ User(1, "john_doe", "john@example.com", January2024(1), January2024(1)),
        User(2, "jane_smith", "jane@example.com", January2024(2), January2024(2)),
        User(3, "bob_wilson", "bob@example.com", January2024(3), January2024(3)),
        User(4, "alice_brown", "alice@example.com", January2024(4), January2024(4)),
        User(5, "charlie_davis", "charlie@example.com", January2024(5), January2024(5)) ],
      [ UserApp(1, 1, "app1", now), UserApp(2, 1, "app2", now), UserApp(3, 1, "app3", now),
        UserApp(4, 2, "app2", now), UserApp(5, 2, "app4", now),
        UserApp(6, 3, "app1", now), UserApp(7, 3, "app3", now), UserApp(8, 3, "app5", now),
        UserApp(9, 4, "app1", now), UserApp(10, 4, "app2", now), UserApp(11, 4, "app4", now),
        UserApp(12, 4, "app5", now),
        UserApp(13, 5, "app3", now) ],
      [ UserRole(1, 1, "admin", now), UserRole(2, 1, "user", now),
        UserRole(3, 2, "user", now), UserRole(4, 2, "moderator", now),
        UserRole(5, 3, "user", now),
        UserRole(6, 4, "admin", now), UserRole(7, 4, "super_admin", now),
        UserRole(8, 5, "user", now), UserRole(9, 5, "guest", now) ])
  }

  /** `this.userApps.filter(app => app.user_id === id)` */
  function AppsOf(repo: MemoryUserRepository, id: int): (r: seq<UserApp>)
    ensures forall a :: a in r <==> a in repo.userApps && a.userId == id
  {
    Filter(repo.userApps, (a: UserApp) => a.userId == id)
  }

  /** `this.userRoles.filter(role => role.user_id === id)` */
  function RolesOf(repo: MemoryUserRepository, id: int): (r: seq<UserRole>)
    ensures forall x :: x in r <==> x in repo.userRoles && x.userId == id
  {
    Filter(repo.userRoles, (x: UserRole) => x.userId == id)
  }

  /** `{ ...user, apps, roles }` */
  function Joined(repo: MemoryUserRepository, u: User): UserWithAppsAndRoles {
    UserWithAppsAndRoles(u, AppsOf(repo, u.id), RolesOf(repo, u.id))
  }

  /** `getAll()`: one entry per seeded user, in seed order. */
  function GetAll(repo: MemoryUserRepository): (r: seq<UserWithAppsAndRoles>)
    ensures |r| == |repo.users|
    ensures forall k :: 0 <= k < |r| ==> r[k].user == repo.users[k]
    ensures forall k :: 0 <= k < |r| ==>
      forall a :: a in r[k].apps <==> a in repo.userApps && a.userId == repo.users[k].id
    ensures forall k :: 0 <= k < |r| ==>
      forall x :: x in r[k].roles <==> x in repo.userRoles && x.userId == repo.users[k].id
  {
    seq(|repo.users|, k requires 0 <= k < |repo.users| => Joined(repo, repo.users[k]))
  }

  /** `getById(id)`: the first user with that id, joined, or `null`. */
  function GetById(repo: MemoryUserRepository, id: int): (r: Option<UserWithAppsAndRoles>)
    ensures r.None? <==> forall k :: 0 <= k < |repo.users| ==> repo.users[k].id != id
    ensures r.Some? ==> r.value.user.id == id && r.value.user in repo.users
  {
    var i := FindIndex(repo.users, (u: User) => u.id == id);
    if i.None? then None else Some(Joined(repo, repo.users[i.value]))
  }

  /** `getById` agrees with `getAll`: a found user is the `getAll` entry at
      the first position holding that id. */
  lemma GetByIdIsGetAllEntry(repo: MemoryUserRepository, id: int)
    ensures GetById(repo, id).Some? ==>
      exists k :: 0 <= k < |repo.users| && repo.users[k].id == id &&
                  (forall j :: 0 <= j < k ==> repo.users[j].id != id) &&
                  GetById(repo, id).value == GetAll(repo)[k]
  {
    var i := FindIndex(repo.users, (u: User) => u.id == id);
    if i.Some? {
      var k := i.value;
      assert GetAll(repo)[k] == Joined(repo, repo.users[k]);
    }
  }

  /** Apps and roles keep the seed order: the apps of a user in a repository
      whose app list is `a + b` are the apps of `a` followed by those of `b`. */
  lemma AppsKeepSeedOrder(repo: MemoryUserRepository, a: seq<UserApp>, b: seq<UserApp>, id: int)
    requires repo.userApps == a + b
    ensures AppsOf(repo, id) == AppsOf(repo.(userApps := a), id) + AppsOf(repo.(userApps := b), id)
  {
    FilterConcat(a, b, (x: UserApp) => x.userId == id);
  }

  /** In the seed, john_doe has app1, app2 and app3, in that order. */
  lemma SeedJohnApps(now: Instant)
    ensures GetAll(Seeded(now))[0].user.name == "john_doe"
    ensures GetAll(Seeded(now))[0].apps ==
      [UserApp(1, 1, "app1", now), UserApp(2, 1, "app2", now), UserApp(3, 1, "app3", now)]
  {
    JohnAppsInSeed(now);
  }

  lemma JohnAppsInSeed(now: Instant)
    ensures AppsOf(Seeded(now), 1) ==
      [UserApp(1, 1, "app1", now), UserApp(2, 1, "app2", now), UserApp(3, 1, "app3", now)]
  {
    FilterPrefix(Seeded(now).userApps, 3, (a: UserApp) => a.userId == 1);
  }

  /** In the seed, john_doe has the roles admin and user, in that order. */
  lemma SeedJohnRoles(now: Instant)
    ensures GetAll(Seeded(now))[0].roles == [UserRole(1, 1, "admin", now), UserRole(2, 1, "user", now)]
  {
    JohnRolesInSeed(now);
  }

  lemma JohnRolesInSeed(now: Instant)
    ensures RolesOf(Seeded(now), 1) == [UserRole(1, 1, "admin", now), UserRole(2, 1, "user", now)]
  {
    FilterPrefix(Seeded(now).userRoles, 2, (x: UserRole) => x.userId == 1);
  }

  /** No seeded user has id 6. */
  lemma SeedUnknownId(now: Instant)
    ensures GetById(Seeded(now), 6).None?
  {
  }
}
