/**
 * Configuration of the checkout provider client, read from the environment when the
 * configuration module is loaded: the required credentials are checked first (loading
 * throws when one is missing), then every field takes its variable or a default.
 */
module DinteroConfig {
  import opened Wrappers
  import opened Runtime

  const ClientIdVar := "DINTERO_CLIENT_ID"
  const ClientSecretVar := "DINTERO_CLIENT_SECRET"
  const RequiredVars: seq<string> := [ClientIdVar, ClientSecretVar]
  const MissingPrefix := "Missing required Dintero environment variables: "

  const DefaultAccount := "T11223674"
  const DefaultSessionUrl := "https://checkout.test.dintero.com/v1/sessions-profile"
  const DefaultSessionStatusUrl := "https://checkout.test.dintero.com/v1/sessions"
  const DefaultProfileId := "default"

  /** The `DINTERO_CONFIG` record. */
  datatype Config = Config(
    authUrl: string,
    sessionUrl: string,
    sessionStatusUrl: string,
    clientId: string,
    clientSecret: string,
    profileId: string,
    audience: string)

  /** The names in `names` whose variable is unset or empty, in their order in `names`. */
  function Missing(names: seq<string>, env: Env): (m: seq<string>)
    ensures |m| <= |names|
    ensures forall x :: x in m <==> x in names && !IsSet(env, x)
    ensures |m| == |names| <==> forall x :: x in names ==> !IsSet(env, x)
  {
    if names == [] then []
    else if IsSet(env, names[0]) then Missing(names[1..], env)
    else [names[0]] + Missing(names[1..], env)
  }

  /** `Array.prototype.join`. */
  function Join(parts: seq<string>, sep: string): string
  {
    if parts == [] then ""
    else if |parts| == 1 then parts[0]
    else parts[0] + sep + Join(parts[1..], sep)
  }

  /**
   * `validateDinteroConfig`: the message it throws, or None when both credentials are
   * set. The message lists the missing names, client id first, separated by ", ".
   */
  function ValidateDinteroConfig(env: Env): (err: Option<string>)
    ensures err.None? <==> IsSet(env, ClientIdVar) && IsSet(env, ClientSecretVar)
    ensures !IsSet(env, ClientIdVar) && IsSet(env, ClientSecretVar) ==>
              err == Some(MissingPrefix + "DINTERO_CLIENT_ID")
    ensures IsSet(env, ClientIdVar) && !IsSet(env, ClientSecretVar) ==>
              err == Some(MissingPrefix + "DINTERO_CLIENT_SECRET")
    ensures !IsSet(env, ClientIdVar) && !IsSet(env, ClientSecretVar) ==>
              err == Some(MissingPrefix + "DINTERO_CLIENT_ID, DINTERO_CLIENT_SECRET")
  {
    var missing := Missing(RequiredVars, env);
    MissingRequired(env);
    JoinPair(ClientIdVar, ClientSecretVar, ", ");
    assert ClientIdVar + ", " + ClientSecretVar == "DINTERO_CLIENT_ID, DINTERO_CLIENT_SECRET";
    if |missing| > 0 then Some(MissingPrefix + Join(missing, ", ")) else None
  }

  /** Which of the two required names are missing, in their declared order. */
  lemma MissingRequired(env: Env)
    ensures Missing(RequiredVars, env)
         == (if IsSet(env, ClientIdVar) then [] else [ClientIdVar])
          + (if IsSet(env, ClientSecretVar) then [] else [ClientSecretVar])
  {
    assert RequiredVars[1..] == [ClientSecretVar];
    assert [ClientSecretVar][1..] == [];
  }

  lemma JoinPair(a: string, b: string, sep: string)
    ensures Join([a], sep) == a
    ensures Join([a, b], sep) == a + sep + b
  {
    assert [a, b][1..] == [b];
  }

  /** `ACCOUNT`: the account variable, or the test account. */
  function Account(env: Env): (account: string)
    ensures IsSet(env, "DINTERO_ACCOUNT") ==> account == env["DINTERO_ACCOUNT"]
    ensures !IsSet(env, "DINTERO_ACCOUNT") ==> account == DefaultAccount
  {
    EnvOr(env, "DINTERO_ACCOUNT", DefaultAccount)
  }

  /** `DINTERO_CONFIG`: each field is its variable when set and non-empty, otherwise its default. */
  function ConfigOf(env: Env): (c: Config)
    ensures IsSet(env, "DINTERO_AUTH_URL") ==> c.authUrl == env["DINTERO_AUTH_URL"]
    ensures !IsSet(env, "DINTERO_AUTH_URL") ==>
      c.authUrl == "https://test.dintero.com/v1/accounts/" + Account(env) + "/auth/token"
    ensures IsSet(env, "DINTERO_SESSION_URL") ==> c.sessionUrl == env["DINTERO_SESSION_URL"]
    ensures !IsSet(env, "DINTERO_SESSION_URL") ==> c.sessionUrl == DefaultSessionUrl
    ensures IsSet(env, "DINTERO_SESSION_STATUS_URL") ==> c.sessionStatusUrl == env["DINTERO_SESSION_STATUS_URL"]
    ensures !IsSet(env, "DINTERO_SESSION_STATUS_URL") ==> c.sessionStatusUrl == DefaultSessionStatusUrl
    ensures IsSet(env, ClientIdVar) ==> c.clientId == env[ClientIdVar]
    ensures !IsSet(env, ClientIdVar) ==> c.clientId == ""
    ensures IsSet(env, ClientSecretVar) ==> c.clientSecret == env[ClientSecretVar]
    ensures !IsSet(env, ClientSecretVar) ==> c.clientSecret == ""
    ensures IsSet(env, "DINTERO_PROFILE_ID") ==> c.profileId == env["DINTERO_PROFILE_ID"]
    ensures !IsSet(env, "DINTERO_PROFILE_ID") ==> c.profileId == DefaultProfileId
    ensures IsSet(env, "DINTERO_AUDIENCE") ==> c.audience == env["DINTERO_AUDIENCE"]
    ensures !IsSet(env, "DINTERO_AUDIENCE") ==> c.audience == "https://test.dintero.com/v1/accounts/" + Account(env)
  {
    var account := Account(env);
    Config(
      EnvOr(env, "DINTERO_AUTH_URL", "https://test.dintero.com/v1/accounts/" + account + "/auth/token"),
      EnvOr(env, "DINTERO_SESSION_URL", DefaultSessionUrl),
      EnvOr(env, "DINTERO_SESSION_STATUS_URL", DefaultSessionStatusUrl),
      EnvOr(env, ClientIdVar, ""),
      EnvOr(env, ClientSecretVar, ""),
      EnvOr(env, "DINTERO_PROFILE_ID", DefaultProfileId),
      EnvOr(env, "DINTERO_AUDIENCE", "https://test.dintero.com/v1/accounts/" + account))
  }

  /**
   * Loading the configuration module: it throws the validation message, or yields
   * `DINTERO_CONFIG`, whose credentials are then the (non-empty) variables and whose
   * every other field is non-empty too.
   */
  function LoadConfig(env: Env): (r: Result<Config, string>)
    ensures r.Failure? <==> ValidateDinteroConfig(env).Some?
    ensures r.Failure? ==> r.error == ValidateDinteroConfig(env).value
    ensures r.Success? ==> r.value == ConfigOf(env)
    ensures r.Success? ==> r.value.clientId == env[ClientIdVar] && r.value.clientId != ""
    ensures r.Success? ==> r.value.clientSecret == env[ClientSecretVar] && r.value.clientSecret != ""
    ensures r.Success? ==> r.value.authUrl != "" && r.value.sessionUrl != "" && r.value.sessionStatusUrl != ""
    ensures r.Success? ==> r.value.profileId != "" && r.value.audience != ""
  {
    match ValidateDinteroConfig(env)
    case Some(message) => Failure(message)
    case None => Success(ConfigOf(env))
  }

  /** With only the credentials set, every other field takes its documented default. */
  lemma DefaultsWhenUnset(env: Env)
    requires IsSet(env, ClientIdVar) && IsSet(env, ClientSecretVar)
    requires forall name :: name in env ==> name == ClientIdVar || name == ClientSecretVar
    ensures LoadConfig(env) == Success(Config(
      "https://test.dintero.com/v1/accounts/T11223674/auth/token",
      "https://checkout.test.dintero.com/v1/sessions-profile",
      "https://checkout.test.dintero.com/v1/sessions",
      env[ClientIdVar],
      env[ClientSecretVar],
      "default",
      "https://test.dintero.com/v1/accounts/T11223674"))
  {
    assert !IsSet(env, "DINTERO_ACCOUNT") && !IsSet(env, "DINTERO_AUTH_URL") && !IsSet(env, "DINTERO_AUDIENCE");
    assert !IsSet(env, "DINTERO_SESSION_URL") && !IsSet(env, "DINTERO_SESSION_STATUS_URL");
    assert !IsSet(env, "DINTERO_PROFILE_ID");
    assert "https://test.dintero.com/v1/accounts/" + "T11223674" + "/auth/token"
        == "https://test.dintero.com/v1/accounts/T11223674/auth/token";
    assert "https://test.dintero.com/v1/accounts/" + "T11223674"
        == "https://test.dintero.com/v1/accounts/T11223674";
  }

  /** The default auth URL and audience interpolate the account variable when it is set. */
  lemma AccountDerivedUrls(env: Env)
    requires IsSet(env, "DINTERO_ACCOUNT")
    requires !IsSet(env, "DINTERO_AUTH_URL") && !IsSet(env, "DINTERO_AUDIENCE")
    ensures ConfigOf(env).authUrl == "https://test.dintero.com/v1/accounts/" + env["DINTERO_ACCOUNT"] + "/auth/token"
    ensures ConfigOf(env).audience == "https://test.dintero.com/v1/accounts/" + env["DINTERO_ACCOUNT"]
  {
  }

  /** Explicit URL and audience overrides win over anything derived from the account. */
  lemma OverridesWin(env: Env, account: string)
    requires IsSet(env, "DINTERO_AUTH_URL") && IsSet(env, "DINTERO_AUDIENCE")
    ensures ConfigOf(env["DINTERO_ACCOUNT" := account]).authUrl == env["DINTERO_AUTH_URL"]
    ensures ConfigOf(env["DINTERO_ACCOUNT" := account]).audience == env["DINTERO_AUDIENCE"]
  {
    var env' := env["DINTERO_ACCOUNT" := account];
    assert env'["DINTERO_AUTH_URL"] == env["DINTERO_AUTH_URL"];
    assert env'["DINTERO_AUDIENCE"] == env["DINTERO_AUDIENCE"];
  }
}
