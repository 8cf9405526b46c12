/**
 * The web section as the Go code actually computes it. With no `web`
 * section the result is the package-level default record itself (a shared
 * pointer), and when the forwarder is enabled its `Enabled` field is set to
 * false through that pointer, so the package default stays changed for any
 * later call in the same process. Here the shared record is explicit state,
 * passed in and handed back.
 */
module SharedDefault {
  import opened Wrappers
  import opened Library
  import opened JsonConfig
  import opened ConfigTypes
  import opened Resolver

  /**
   * Returns the resolved web record and the shared default record as it
   * is afterwards. Only `enabled` of the shared record is ever written, so a
   * present section, which reads just the default address, sees the same
   * value as in `DefaultWeb`.
   */
  function ResolveWebAsWritten(shared: WebConfig, s: Option<JsonWebConfig>, forwarderEnabled: bool)
    : (r: (WebConfig, WebConfig))
    requires shared.address == DefaultWeb.address && shared.usePackagedFiles
    ensures s.Some? ==> r == (ResolveWeb(s, forwarderEnabled), shared)
    // without a section the result is the shared record itself, after the write
    ensures s.None? ==> r.0 == r.1
    ensures s.None? && forwarderEnabled ==> r.1 == shared.(enabled := false)
    ensures s.None? && !forwarderEnabled ==> r.1 == shared
  {
    match s
    case None =>
      var after := if forwarderEnabled then shared.(enabled := false) else shared;
      (after, after)
    case Some(_) => (ResolveWeb(s, forwarderEnabled), shared)
  }

  /** `FromJSON` as written: the result, and the shared default web record after the call. */
  function FromJsonAsWritten(shared: WebConfig, input: JsonConfig, env: Env): (r: (Result<Config, Error>, WebConfig))
    requires shared.address == DefaultWeb.address && shared.usePackagedFiles
    ensures r.0.Success? <==> Resolve(input, env).Success?
    ensures r.0.Failure? ==> r == (Resolve(input, env), shared)
    ensures r.0.Success? ==> r.0.value.(web := DefaultWeb) == Resolve(input, env).value.(web := DefaultWeb)
    ensures r.0.Success? ==> (r.0.value.web, r.1) == ResolveWebAsWritten(shared, input.web, r.0.value.forwarder.enabled)
    ensures r.1.address == DefaultWeb.address && r.1.usePackagedFiles
  {
    match Resolve(input, env)
    case Failure(e) => (Failure(e), shared)
    case Success(cfg) =>
      var (web, after) := ResolveWebAsWritten(shared, input.web, cfg.forwarder.enabled);
      (Success(cfg.(web := web)), after)
  }

  /** On the first call in a process, while the shared record still holds the defaults, the code is right. */
  lemma FirstCallAgrees(input: JsonConfig, env: Env)
    ensures FromJsonAsWritten(DefaultWeb, input, env).0 == Resolve(input, env)
  {
  }

  /**
   * A first call whose document enables the forwarder and has no `web`
   * section leaves the shared default disabled; a second call whose document
   * has neither a `web` section nor an enabled forwarder then gets a
   * disabled web interface, where the documented rule says it is enabled.
   */
  lemma SecondCallInheritsDisabledWeb(first: JsonConfig, second: JsonConfig, env: Env)
    requires Resolve(first, env).Success? && Resolve(second, env).Success?
    requires first.web.None? && Resolve(first, env).value.forwarder.enabled
    requires second.web.None? && !Resolve(second, env).value.forwarder.enabled
    ensures var after := FromJsonAsWritten(DefaultWeb, first, env).1;
            var asWritten := FromJsonAsWritten(after, second, env).0;
            asWritten.Success? && !asWritten.value.web.enabled
    ensures Resolve(second, env).value.web.enabled
  {
  }

  /** A concrete pair of documents showing the discrepancy: `{"forwarder": {"enabled": true}}`, then `{}`. */
  lemma SecondCallCounterexample(env: Env)
    requires env.hostname.Success?
    ensures var first := EmptyJson.(forwarder := Some(JsonForwarderConfig(Some(true), None, "")));
            var after := FromJsonAsWritten(DefaultWeb, first, env).1;
            var asWritten := FromJsonAsWritten(after, EmptyJson, env).0;
            asWritten.Success? && !asWritten.value.web.enabled && Resolve(EmptyJson, env).value.web.enabled
  {
    var first := EmptyJson.(forwarder := Some(JsonForwarderConfig(Some(true), None, "")));
    SecondCallInheritsDisabledWeb(first, EmptyJson, env);
  }
}
