/**
 * The fixed constants of the deployment: the organization, the stack the
 * new-project wizard creates first, and the access token read from the
 * environment. The project and the running stack come from the engine's
 * ambient context and enter the model as `StackSettings.StackIdentity`.
 */
module StackSettingsConfig {
  import opened Wrappers
  import JsStrings

  /** The stack the new-project wizard creates initially. */
  const NpwStack: string := "dev"

  /** The organization every stack belongs to. */
  const Org: string := "pequod"

  /** The key of the access token in the process environment. */
  const TokenVariable: string := "PULUMI_ACCESS_TOKEN"

  /** The token used when the environment supplies none. */
  const NoTokenFound: string := "notokenfound"

  /** The constants the component reads, passed explicitly. */
  datatype Config = Config(org: string, npwStack: string, accessToken: string)

  /** `process.env["PULUMI_ACCESS_TOKEN"] || "notokenfound"`. */
  function AccessToken(env: map<string, string>): (t: string)
    ensures t != ""
    ensures TokenVariable in env && env[TokenVariable] != "" ==> t == env[TokenVariable]
    ensures (TokenVariable !in env || env[TokenVariable] == "") ==> t == NoTokenFound
  {
    var v := if TokenVariable in env then Some(env[TokenVariable]) else None;
    JsStrings.OrElse(v, NoTokenFound)
  }

  /** The configuration the component's module-level constants amount to. */
  function FromEnvironment(env: map<string, string>): (c: Config)
    ensures c.org == "pequod" && c.npwStack == "dev"
    ensures c.accessToken == AccessToken(env)
    ensures TokenVariable in env && env[TokenVariable] != "" ==> c.accessToken == env[TokenVariable]
  {
    Config(Org, NpwStack, AccessToken(env))
  }
}
