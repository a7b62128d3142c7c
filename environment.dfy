/** The process environment as the pipeline reads it (`os.environ`, `os.getenv`). */
module Environment {
  import opened Wrappers

  type Env = map<string, string>

  /** `os.getenv(k)`. */
  function Getenv(env: Env, k: string): (r: Option<string>)
    ensures r.Some? <==> k in env
  {
    if k in env then Some(env[k]) else None
  }

  /** `os.getenv(k, default)`. */
  function GetenvOr(env: Env, k: string, default: string): (r: string)
    ensures k !in env ==> r == default
  {
    if k in env then env[k] else default
  }

  /** `os.getenv(k)` used as a condition: the variable is set and non-empty. */
  predicate HasVar(env: Env, k: string) {
    k in env && env[k] != ""
  }
}
