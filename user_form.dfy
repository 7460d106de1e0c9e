/** The app and role selection of `UserForm`. The component keeps two
    sets of strings, the selected app names and the selected role keys
    (`app-role`), and mirrors them into the form fields `apps` and
    `appRoles`; the toggle handlers copy the sets, change the copies and
    write them back. */
module UserForm {
  import opened Wrappers
  import opened Strings
  import opened JsCollections
  import opened AppsConfig

  /** `initialData.roles?.map(parse).filter(ar => ar !== null) || []`:
      each stored role string of the form `app-role` becomes its pair,
      the others are dropped. */
  function ExistingAppRoles(roles: seq<string>): (r: seq<AppRole>)
    ensures |r| <= |roles|
    ensures forall ar :: ar in r <==> exists s :: s in roles && ParseAppRole(s) == Some(ar)
    decreases |roles|
  {
    if |roles| == 0 then []
    else
      var rest := ExistingAppRoles(roles[1..]);
      assert forall s :: s in roles <==> s == roles[0] || s in roles[1..];
      var head := ParseAppRole(roles[0]);
      if head.Some? then [head.value] + rest else rest
  }

  /** `` existingAppRoles.map(ar => `${ar.app_name}-${ar.role}`) `` */
  function RoleKeys(ars: seq<AppRole>): (r: seq<string>)
    ensures |r| == |ars|
    ensures forall k :: 0 <= k < |r| ==> r[k] == GetAppRole(ars[k].app, ars[k].role)
  {
    seq(|ars|, k requires 0 <= k < |ars| => GetAppRole(ars[k].app, ars[k].role))
  }

  /** The initial role keys are exactly the stored role strings that hold a
      '-': parsing and composing again gives each string back. */
  lemma InitialKeysAreStoredRoles(roles: seq<string>)
    ensures forall key :: key in RoleKeys(ExistingAppRoles(roles)) <==> key in roles && '-' in key
  {
    var ars := ExistingAppRoles(roles);
    forall key | key in RoleKeys(ars)
      ensures key in roles && '-' in key
    {
      var k :| 0 <= k < |ars| && RoleKeys(ars)[k] == key;
      var s :| s in roles && ParseAppRole(s) == Some(ars[k]);
      GetParsedAppRole(s);
      ParseAppRoleSplitsAtFirstHyphen(s);
    }
    forall key | key in roles && '-' in key
      ensures key in RoleKeys(ars)
    {
      ParseAppRoleSplitsAtFirstHyphen(key);
      var ar := ParseAppRole(key).value;
      assert ar in ars;
      var k :| 0 <= k < |ars| && ars[k] == ar;
      GetParsedAppRole(key);
      assert RoleKeys(ars)[k] == key;
    }
  }

  /** `const [app, ...roleParts] = roleKey.split('-')`, giving
      `{ app_name: app, role: roleParts.join('-') }`; a key without '-'
      gives an empty role. */
  function KeyToAppRole(key: string): (r: AppRole)
    ensures '-' in key ==> Some(r) == ParseAppRole(key)
    ensures '-' !in key ==> r == AppRole(key, "")
  {
    var parts := Split(key, '-');
    if '-' in key then
      SplitFirstPart(key, '-');
      AppRole(parts[0], Join(parts[1..], '-'))
    else
      SplitNoSeparator(key, '-');
      AppRole(parts[0], Join(parts[1..], '-'))
  }

  /** Mapping the role keys back to pairs undoes `app-role` composition for
      every app name without '-'. */
  lemma KeyToAppRoleOfKey(app: string, role: string)
    requires '-' !in app
    ensures KeyToAppRole(GetAppRole(app, role)) == AppRole(app, role)
  {
    ParseGetAppRole(app, role);
  }

  /** `Array.from(keys).map(...)`: the form's `appRoles`. */
  function FormAppRoles(keys: seq<string>): (r: seq<AppRole>)
    ensures |r| == |keys|
    ensures forall k :: 0 <= k < |r| ==> r[k] == KeyToAppRole(keys[k])
  {
    seq(|keys|, k requires 0 <= k < |keys| => KeyToAppRole(keys[k]))
  }

  /** The role keys that do not belong to `appName`. */
  function WithoutRolesOf(keys: seq<string>, appName: string): (r: seq<string>)
    ensures forall k :: k in r <==> k in keys && !StartsWith(k, appName + "-")
  {
    Filter(keys, (k: string) => !StartsWith(k, appName + "-"))
  }

  /** `initialData` of the edit page. */
  datatype InitialData = InitialData(userId: string, name: string, email: string, apps: seq<string>, roles: seq<string>)

  class UserFormState {
    var selectedApps: seq<string>
    var selectedAppRoles: seq<string>
    var userId: string
    var name: string
    var email: string
    /** The form's `apps` and `appRoles` values. */
    var apps: seq<string>
    var appRoles: seq<AppRole>

    ghost predicate Valid()
      reads this
    {
      NoDups(selectedApps) && NoDups(selectedAppRoles) && apps == selectedApps
    }

    /** The state after the first render. */
    constructor (initialData: Option<InitialData>)
      ensures Valid()
      ensures initialData.None? ==>
        selectedApps == [] && selectedAppRoles == [] && appRoles == [] && userId == "" && name == "" && email == ""
      ensures initialData.Some? ==>
        && selectedApps == SetOf(initialData.value.apps)
        && appRoles == ExistingAppRoles(initialData.value.roles)
        && selectedAppRoles == SetOf(RoleKeys(appRoles))
        && userId == initialData.value.userId && name == initialData.value.name && email == initialData.value.email
    {
      var existing := if initialData.Some? then ExistingAppRoles(initialData.value.roles) else [];
      selectedApps := SetOf(if initialData.Some? then initialData.value.apps else []);
      selectedAppRoles := SetOf(RoleKeys(existing));
      userId := if initialData.Some? then initialData.value.userId else "";
      name := if initialData.Some? then initialData.value.name else "";
      email := if initialData.Some? then initialData.value.email else "";
      apps := selectedApps;
      appRoles := existing;
    }

    /** `handleAppToggle(appName, checked)`: checking adds the app and keeps
        the role keys; unchecking removes the app and every role key of
        that app, keeping the other keys in their order. */
    method HandleAppToggle(appName: string, checked: bool)
      requires Valid()
      modifies this
      ensures Valid()
      ensures selectedApps == if checked then Add(old(selectedApps), appName) else Delete(old(selectedApps), appName)
      ensures checked ==> selectedAppRoles == old(selectedAppRoles)
      ensures !checked ==> selectedAppRoles == WithoutRolesOf(old(selectedAppRoles), appName)
      ensures appRoles == FormAppRoles(selectedAppRoles)
      ensures userId == old(userId) && name == old(name) && email == old(email)
    {
      var newSelectedApps := selectedApps;
      var newSelectedAppRoles := selectedAppRoles;
      if checked {
        newSelectedApps := Add(newSelectedApps, appName);
      } else {
        newSelectedApps := Delete(newSelectedApps, appName);
        newSelectedAppRoles := RemoveRolesOf(newSelectedAppRoles, appName);
      }
      selectedApps := newSelectedApps;
      selectedAppRoles := newSelectedAppRoles;
      apps := selectedApps;
      appRoles := FormAppRoles(selectedAppRoles);
    }

    /** `handleAppRoleToggle(appName, role, checked)`: adds or removes
        exactly the key `appName-role`. */
    method HandleAppRoleToggle(appName: string, role: string, checked: bool)
      requires Valid()
      modifies this
      ensures Valid()
      ensures var key := GetAppRole(appName, role);
        selectedAppRoles == if checked then Add(old(selectedAppRoles), key) else Delete(old(selectedAppRoles), key)
      ensures selectedApps == old(selectedApps) && apps == old(apps)
      ensures appRoles == FormAppRoles(selectedAppRoles)
      ensures userId == old(userId) && name == old(name) && email == old(email)
    {
      var roleKey := GetAppRole(appName, role);
      var newSelectedAppRoles := selectedAppRoles;
      if checked {
        newSelectedAppRoles := Add(newSelectedAppRoles, roleKey);
      } else {
        newSelectedAppRoles := Delete(newSelectedAppRoles, roleKey);
      }
      selectedAppRoles := newSelectedAppRoles;
      appRoles := FormAppRoles(selectedAppRoles);
    }
  }

  /** The `forEach` over a snapshot of the role keys that deletes from the
      live set every key starting with `appName-`. */
  method RemoveRolesOf(roleKeys: seq<string>, appName: string) returns (r: seq<string>)
    requires NoDups(roleKeys)
    ensures NoDups(r)
    ensures r == WithoutRolesOf(roleKeys, appName)
  {
    var keys := roleKeys;
    var p := appName + "-";
    var q := (k: string) => !StartsWith(k, p);
    r := roleKeys;
    var i := 0;
    while i < |keys|
      invariant 0 <= i <= |keys|
      invariant r == Filter(keys[..i], q) + keys[i..]
      invariant NoDups(r)
    {
      var key := keys[i];
      FilterDeleteStep(keys, i, q);
      if StartsWith(key, p) {
        r := Delete(r, key);
      }
      i := i + 1;
    }
    assert keys[..|keys|] == keys;
  }

  /** `userFormSchema`: the field bounds, with zod's e-mail check given as
      `isEmail`. */
  predicate FormDataValid(userId: string, name: string, email: string, isEmail: string -> bool) {
    && 1 <= |userId| <= 256
    && 1 <= |name| <= 255
    && isEmail(email) && |email| <= 255
  }

  /** A fresh create form is not submittable: its fields start empty. */
  lemma FreshFormInvalid(isEmail: string -> bool)
    ensures !FormDataValid("", "", "", isEmail)
  {
  }

  /** The role checkbox of a configured role composes the app name with a
      role that already carries it, and maps back to that pair. */
  lemma ConfiguredRoleKey()
    ensures GetAppRole("usermanager", "usermanager-approver") == "usermanager-usermanager-approver"
    ensures KeyToAppRole("usermanager-usermanager-approver") == AppRole("usermanager", "usermanager-approver")
  {
    assert "usermanager" + "-" + "usermanager-approver" == "usermanager-usermanager-approver";
    KeyToAppRoleOfKey("usermanager", "usermanager-approver");
  }
}
