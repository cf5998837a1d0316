/**
 * Credentials providers of src/auth.ts: a provider is a capability that yields
 * a client id and secret each time it is invoked. The process environment it
 * may read is passed in as a map from variable name to value.
 */
module Credentials {
  import opened Wrappers

  datatype ClientCredentials = ClientCredentials(clientId: string, clientSecret: string)

  /** The process environment: variables that are set, with their values. */
  type Env = map<string, string>

  /** The two built-in provider kinds. */
  datatype Provider =
    | Constant(credentials: ClientCredentials)
    | FromEnv(prefix: string)

  const DefaultPrefix: string := "TB"

  /** A provider that always yields the credentials it was created with. */
  function ConstantCredentials(credentials: ClientCredentials): Provider {
    Constant(credentials)
  }

  /** A provider that reads `{prefix}_CLIENT_ID` and `{prefix}_CLIENT_SECRET` on every invocation. */
  function EnvCredentials(prefix: string := DefaultPrefix): Provider {
    FromEnv(prefix)
  }

  function IdVar(prefix: string): string { prefix + "_CLIENT_ID" }

  function SecretVar(prefix: string): string { prefix + "_CLIENT_SECRET" }

  function IdMissing(prefix: string): string { "Client ID not set in " + IdVar(prefix) }

  function SecretMissing(prefix: string): string { "Client Secret not set in " + SecretVar(prefix) }

  /** A variable is usable when it is set to a truthy, that is non-empty, string. */
  predicate IsSet(env: Env, name: string) {
    name in env && env[name] != ""
  }

  /** One invocation of the environment provider. */
  function ReadEnv(prefix: string, env: Env): (r: Result<ClientCredentials, string>)
    ensures r.Ok? <==> IsSet(env, IdVar(prefix)) && IsSet(env, SecretVar(prefix))
    ensures r.Ok? ==> r.value == ClientCredentials(env[IdVar(prefix)], env[SecretVar(prefix)])
    ensures !IsSet(env, IdVar(prefix)) ==> r == Err(IdMissing(prefix))
    ensures IsSet(env, IdVar(prefix)) && !IsSet(env, SecretVar(prefix)) ==> r == Err(SecretMissing(prefix))
  {
    if !IsSet(env, IdVar(prefix)) then Err(IdMissing(prefix))
    else if !IsSet(env, SecretVar(prefix)) then Err(SecretMissing(prefix))
    else Ok(ClientCredentials(env[IdVar(prefix)], env[SecretVar(prefix)]))
  }

  /** Invoking a provider with the environment as it is at the time of the call. */
  function Invoke(p: Provider, env: Env): Result<ClientCredentials, string> {
    match p
    case Constant(c) => Ok(c)
    case FromEnv(prefix) => ReadEnv(prefix, env)
  }

  /** The constant provider yields exactly its credentials, whatever the environment. */
  lemma ConstantYieldsCredentials(c: ClientCredentials, env: Env)
    ensures Invoke(ConstantCredentials(c), env) == Ok(c)
  {
  }

  /** The two failure messages are distinct, so a caller can tell which variable is missing. */
  lemma MissingMessagesDistinct(prefix: string)
    ensures IdMissing(prefix) != SecretMissing(prefix)
  {
  }

  /** A failure's message tells the caller exactly which variable is missing or empty. */
  lemma MessageNamesTheMissingVariable(prefix: string, env: Env)
    ensures var r := ReadEnv(prefix, env);
      r.Err? ==>
        && (r.error == IdMissing(prefix) <==> !IsSet(env, IdVar(prefix)))
        && (r.error == SecretMissing(prefix) <==> IsSet(env, IdVar(prefix)) && !IsSet(env, SecretVar(prefix)))
  {
    MissingMessagesDistinct(prefix);
  }

  /**
   * The environment provider depends on nothing but its two variables at the
   * time of the call: credential rotation between calls is seen by the next call.
   */
  lemma EnvReadsOnlyItsVariables(prefix: string, e1: Env, e2: Env)
    requires IdVar(prefix) in e1 <==> IdVar(prefix) in e2
    requires SecretVar(prefix) in e1 <==> SecretVar(prefix) in e2
    requires IdVar(prefix) in e1 ==> e1[IdVar(prefix)] == e2[IdVar(prefix)]
    requires SecretVar(prefix) in e1 ==> e1[SecretVar(prefix)] == e2[SecretVar(prefix)]
    ensures Invoke(EnvCredentials(prefix), e1) == Invoke(EnvCredentials(prefix), e2)
  {
  }

  /** With the default prefix, TB_CLIENT_ID=foo and TB_CLIENT_SECRET=bar yield foo/bar, whatever else is set. */
  lemma DefaultPrefixExample(env: Env)
    requires "TB_CLIENT_ID" in env && env["TB_CLIENT_ID"] == "foo"
    requires "TB_CLIENT_SECRET" in env && env["TB_CLIENT_SECRET"] == "bar"
    ensures Invoke(EnvCredentials(), env) == Ok(ClientCredentials("foo", "bar"))
  {
    assert IdVar(DefaultPrefix) == "TB_CLIENT_ID";
    assert SecretVar(DefaultPrefix) == "TB_CLIENT_SECRET";
  }
}
