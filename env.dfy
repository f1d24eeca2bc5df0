/** The process environment, as a map from variable names to values. */
module Environment {
  /** `os.Getenv`: the value of `key`, or "" when it is unset. */
  function Getenv(env: map<string, string>, key: string): string
  {
    if key in env then env[key] else ""
  }
}
