/**
 * What the model needs of the JavaScript runtime: the process environment and the
 * truthiness test the source applies to optional strings (`x || fallback`, `if (!x)`).
 */
module Runtime {
  import opened Wrappers

  /** `process.env`: a variable that is not a key is unset. */
  type Env = map<string, string>

  /** `process.env[name]` is truthy: the variable is set and is not the empty string. */
  predicate IsSet(env: Env, name: string) {
    name in env && env[name] != ""
  }

  /** `process.env[name] || fallback`: an empty value counts as unset. */
  function EnvOr(env: Env, name: string, fallback: string): (v: string)
    ensures IsSet(env, name) ==> v == env[name]
    ensures !IsSet(env, name) ==> v == fallback
    ensures v == "" ==> fallback == ""
  {
    if IsSet(env, name) then env[name] else fallback
  }

  /** An optional string field is truthy: present and not the empty string. */
  predicate Truthy(s: Option<string>) {
    s.Some? && s.value != ""
  }
}
