/** The five settings the commercetools client reads from the environment, and
    `validateConfig`, which lists the ones that are unset or empty. */
module Config {
  import opened Wrappers

  /** The environment as the module sees it; each setting may be undefined. */
  datatype Settings = Settings(
    authUrl: Option<string>,
    apiUrl: Option<string>,
    projectKey: Option<string>,
    clientId: Option<string>,
    clientSecret: Option<string>)

  const AuthUrlName := "NEXT_PUBLIC_COMMERCETOOLS_AUTH_URL"
  const ApiUrlName := "NEXT_PUBLIC_COMMERCETOOLS_API_URL"
  const ProjectKeyName := "NEXT_PUBLIC_COMMERCETOOLS_PROJECT_KEY"
  const ClientIdName := "NEXT_PUBLIC_COMMERCETOOLS_CLIENT_ID"
  const ClientSecretName := "COMMERCETOOLS_CLIENT_SECRET"

  /** The settings' names in the order they are checked. */
  const SettingNames: seq<string> := [AuthUrlName, ApiUrlName, ProjectKeyName, ClientIdName, ClientSecretName]

  /** The settings' values, in the same order as `SettingNames`. */
  function Values(s: Settings): (vs: seq<Option<string>>)
    ensures |vs| == |SettingNames|
  {
    [s.authUrl, s.apiUrl, s.projectKey, s.clientId, s.clientSecret]
  }

  /** JavaScript `!value` on an environment variable: undefined or empty. */
  predicate Unset(value: Option<string>) {
    value.None? || value.value == ""
  }

  /** Reference definition: the names whose values are unset, keeping the names' order. */
  function UnsetNames(names: seq<string>, values: seq<Option<string>>): (r: seq<string>)
    requires |names| == |values|
    ensures |r| <= |names|
    ensures forall n :: n in r ==> exists i :: 0 <= i < |names| && names[i] == n && Unset(values[i])
    ensures forall i :: 0 <= i < |names| && Unset(values[i]) ==> names[i] in r
  {
    if |names| == 0 then []
    else (if Unset(values[0]) then [names[0]] else []) + UnsetNames(names[1..], values[1..])
  }

  /** The missing settings, one `push` per unset setting, in the fixed order. */
  function ValidateConfig(s: Settings): (missing: seq<string>)
    ensures forall i :: 0 <= i < |SettingNames| ==> (SettingNames[i] in missing <==> Unset(Values(s)[i]))
    ensures forall n :: n in missing ==> n in SettingNames
    ensures |missing| <= |SettingNames|
  {
    (if Unset(s.authUrl) then [AuthUrlName] else [])
    + ((if Unset(s.apiUrl) then [ApiUrlName] else [])
    + ((if Unset(s.projectKey) then [ProjectKeyName] else [])
    + ((if Unset(s.clientId) then [ClientIdName] else [])
    + (if Unset(s.clientSecret) then [ClientSecretName] else []))))
  }

  /** Unfolding `UnsetNames` once at the front of the list. */
  lemma UnsetNamesCons(n: string, v: Option<string>, names: seq<string>, values: seq<Option<string>>)
    requires |names| == |values|
    ensures UnsetNames([n] + names, [v] + values) == (if Unset(v) then [n] else []) + UnsetNames(names, values)
  {
  }

  /** The list `validateConfig` reports is exactly the unset settings, in the fixed order. */
  lemma ValidateConfigInOrder(s: Settings)
    ensures ValidateConfig(s) == UnsetNames(SettingNames, Values(s))
  {
    var n5, v5 := [ClientSecretName], [s.clientSecret];
    var n4, v4 := [ClientIdName] + n5, [s.clientId] + v5;
    var n3, v3 := [ProjectKeyName] + n4, [s.projectKey] + v4;
    var n2, v2 := [ApiUrlName] + n3, [s.apiUrl] + v3;
    assert SettingNames == [AuthUrlName] + n2;
    assert Values(s) == [s.authUrl] + v2;
    assert n5 == [ClientSecretName] + [] && v5 == [s.clientSecret] + [];
    UnsetNamesCons(ClientSecretName, s.clientSecret, [], []);
    UnsetNamesCons(ClientIdName, s.clientId, n5, v5);
    UnsetNamesCons(ProjectKeyName, s.projectKey, n4, v4);
    UnsetNamesCons(ApiUrlName, s.apiUrl, n3, v3);
    UnsetNamesCons(AuthUrlName, s.authUrl, n2, v2);
    var m1 := if Unset(s.authUrl) then [AuthUrlName] else [];
    var m2 := if Unset(s.apiUrl) then [ApiUrlName] else [];
    var m3 := if Unset(s.projectKey) then [ProjectKeyName] else [];
    var m4 := if Unset(s.clientId) then [ClientIdName] else [];
    var m5 := if Unset(s.clientSecret) then [ClientSecretName] else [];
    assert UnsetNames(SettingNames, Values(s)) == m1 + (m2 + (m3 + (m4 + m5)));
  }
}
