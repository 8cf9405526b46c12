/**
 * The library calls the configuration resolver depends on, kept abstract.
 * Regular-expression compilation, duration parsing and the operating
 * system's host-name lookup are not modelled; the resolver receives them
 * as an `Env` value and only relies on what each one returns.
 */
module Library {
  import opened Wrappers

  /** A compiled regular expression, identified by the pattern it was compiled from. */
  datatype Regex = Regex(source: string)

  /** A Go `time.Duration`: a count of nanoseconds. */
  type Duration = int

  const Second: Duration := 1_000_000_000

  /**
   * The outside world as seen by the resolver:
   * - `compiles(p)` holds when `regexp.Compile(p)` returns no error;
   * - `parseDuration(s)` is what `time.ParseDuration(s)` returns, `None` on error;
   * - `hostname` is what `os.Hostname()` returns: the name, or the error text.
   */
  datatype Env = Env(
    compiles: string -> bool,
    parseDuration: string -> Option<Duration>,
    hostname: Result<string, string>)

  /** `regexp.Compile`: the compiled pattern, or `None` when the pattern is rejected. */
  function Compile(env: Env, pattern: string): (r: Option<Regex>)
    ensures r.Some? <==> env.compiles(pattern)
    ensures r.Some? ==> r.value.source == pattern
  {
    if env.compiles(pattern) then Some(Regex(pattern)) else None
  }
}
