/** The application and role configuration: a constant table of two apps,
    and the `app-role` string form used for role keys. */
module AppsConfig {
  import opened Wrappers
  import Strings

  datatype App = App(id: string, name: string, description: string, roles: seq<string>)

  /** `APPS_CONFIG`, in key order. */
  const Config: seq<App> := [
    App("usermanager", "User Manager", "User management and administration",
        ["usermanager-approver", "usermanager-admin"]),
    App("quoteapp", "Quote App", "Quote management application",
        ["quoteapp-sales", "quoteapp-trader"])
  ]

  function Ids(apps: seq<App>): (r: seq<string>)
    ensures |r| == |apps|
    ensures forall k :: 0 <= k < |apps| ==> r[k] == apps[k].id
  {
    if |apps| == 0 then [] else [apps[0].id] + Ids(apps[1..])
  }

  /** `getAppNames()`: `Object.keys(APPS_CONFIG)`. */
  function GetAppNames(): (r: seq<string>)
    ensures r == ["usermanager", "quoteapp"]
  {
    Ids(Config)
  }

  /** `APPS_CONFIG[appName]?.roles || []` over a list of apps. */
  function RolesIn(apps: seq<App>, appName: string): (r: seq<string>)
    ensures appName !in Ids(apps) ==> r == []
    ensures forall k :: 0 <= k < |apps| && apps[k].id == appName && appName !in Ids(apps[..k]) ==> r == apps[k].roles
  {
    if |apps| == 0 then []
    else if apps[0].id == appName then apps[0].roles
    else
      assert forall k :: 1 <= k <= |apps| ==> Ids(apps[..k]) == [apps[0].id] + Ids(apps[1..][..k - 1]);
      RolesIn(apps[1..], appName)
  }

  /** `getAppRoles(appName)`. */
  function GetAppRoles(appName: string): (r: seq<string>)
    ensures appName == "usermanager" ==> r == ["usermanager-approver", "usermanager-admin"]
    ensures appName == "quoteapp" ==> r == ["quoteapp-sales", "quoteapp-trader"]
    ensures appName !in GetAppNames() ==> r == []
  {
    assert Ids(Config[..0]) == [];
    assert Ids(Config[..1]) == ["usermanager"];
    RolesIn(Config, appName)
  }

  /** `getAllApps()`: every entry with its key as `id`. */
  function GetAllApps(): (r: seq<App>)
    ensures Ids(r) == GetAppNames()
    ensures forall k :: 0 <= k < |r| ==> r[k].roles == GetAppRoles(r[k].id)
  {
    Config
  }

  /** `getAppRole(appName, role)`. */
  function GetAppRole(appName: string, role: string): (r: string)
    ensures r == appName + "-" + role
    ensures |r| == |appName| + 1 + |role|
  {
    appName + "-" + role
  }

  datatype AppRole = AppRole(app: string, role: string)

  /** `parseAppRole(appRole)`: split on '-', the first part is the app, the
      rest joined again is the role; fewer than two parts throws. */
  function ParseAppRole(appRole: string): (r: Option<AppRole>)
    ensures r.Some? ==> '-' !in r.value.app
  {
    var parts := Strings.Split(appRole, '-');
    if |parts| < 2 then None
    else Some(AppRole(parts[0], Strings.Join(parts[1..], '-')))
  }

  /** Parsing fails exactly when the string has no '-'; otherwise the app is
      the text before the first '-' and the role all the text after it,
      later hyphens included. */
  lemma ParseAppRoleSplitsAtFirstHyphen(s: string)
    ensures ParseAppRole(s).None? <==> '-' !in s
    ensures ParseAppRole(s).Some? ==>
      var i := Strings.IndexOf(s, '-');
      ParseAppRole(s).value == AppRole(s[..i], s[i + 1..])
  {
    Strings.SplitFirstPart(s, '-');
  }

  /** For an app name without '-', parsing the composed key gives back the
      app and the role, whatever hyphens the role holds. */
  lemma ParseGetAppRole(app: string, role: string)
    requires '-' !in app
    ensures ParseAppRole(GetAppRole(app, role)) == Some(AppRole(app, role))
  {
    Strings.SplitJoinHead(app, '-', role);
  }

  /** Composing the parsed parts gives the original string back. */
  lemma GetParsedAppRole(s: string)
    requires ParseAppRole(s).Some?
    ensures GetAppRole(ParseAppRole(s).value.app, ParseAppRole(s).value.role) == s
  {
    ParseAppRoleSplitsAtFirstHyphen(s);
    var i := Strings.IndexOf(s, '-');
    assert s == s[..i] + "-" + s[i + 1..];
  }

  /** Every configured role is itself an `app-role` key of its own app. */
  lemma ConfiguredRolesParse()
    ensures ParseAppRole("usermanager-approver") == Some(AppRole("usermanager", "approver"))
    ensures ParseAppRole("quoteapp-trader") == Some(AppRole("quoteapp", "trader"))
  {
    assert "usermanager" + "-" + "approver" == "usermanager-approver";
    assert "quoteapp" + "-" + "trader" == "quoteapp-trader";
    ParseGetAppRole("usermanager", "approver");
    ParseGetAppRole("quoteapp", "trader");
  }
}
