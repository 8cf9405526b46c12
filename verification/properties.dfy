/**
 * Properties of the resolver that relate several calls or several parts
 * of the document: which error wins, what the empty document resolves to,
 * that sections never fail, that the operating system is only asked for a
 * host name when none is configured, and that a configuration written out
 * with every value explicit resolves back to itself.
 */
module Properties {
  import opened Wrappers
  import opened Library
  import opened JsonConfig
  import opened ConfigTypes
  import opened Resolver

  // ---------------------------------------------------------------------------
  // which error is reported

  /** A bad file entry is reported before anything else, naming the first bad entry. */
  lemma FileErrorsComeFirst(input: JsonConfig, env: Env)
    requires !AllFilesValid(input.files, env)
    ensures var r := Resolve(input, env);
            r.Failure? && r.error.IsFileError() && FirstBadFile(input.files, env, r.error.index)
    ensures Resolve(input, env) == Failure(ResolveFiles(input.files, env).error)
  {
  }

  /** With every file entry usable, a bad pattern is reported next, naming the first bad pattern. */
  lemma PatternErrorsComeSecond(input: JsonConfig, env: Env)
    requires AllFilesValid(input.files, env)
    requires !AllCompile(input.fieldExtractors, env)
    ensures var r := Resolve(input, env);
            r.Failure? && r.error.BadFieldExtractor? && FirstBadPattern(input.fieldExtractors, env, r.error.index)
  {
  }

  /** With files and patterns usable, a failed host-name lookup is reported with its cause. */
  lemma HostNameErrorComesLast(input: JsonConfig, env: Env)
    requires AllFilesValid(input.files, env) && AllCompile(input.fieldExtractors, env)
    requires input.hostName == "" && env.hostname.Failure?
    ensures Resolve(input, env) == Failure(HostNameUnavailable(env.hostname.error))
  {
  }

  /** No content of the four sections can make resolution fail. */
  lemma SectionsNeverFail(
    input: JsonConfig, env: Env,
    forwarder: Option<JsonForwarderConfig>, recipient: Option<JsonRecipientConfig>,
    sqlite: Option<JsonSqliteConfig>, web: Option<JsonWebConfig>)
    ensures var other := input.(forwarder := forwarder, recipient := recipient, sqlite := sqlite, web := web);
            Resolve(other, env).Success? <==> Resolve(input, env).Success?
  {
  }

  // ---------------------------------------------------------------------------
  // defaults

  /** Every resolved file entry keeps its explicit values and takes the default for each empty one. */
  lemma FileDefaults(input: JsonConfig, env: Env, k: nat)
    requires Resolve(input, env).Success?
    requires k < |input.files|
    ensures var f, out := input.files[k], Resolve(input, env).value.indexedFiles[k];
            && out.filename == f.fileName
            && (f.eventDelimiter == "" ==> out.eventDelimiter == Regex("\n"))
            && (f.eventDelimiter != "" ==> out.eventDelimiter == Regex(f.eventDelimiter))
            && (f.readInterval == "" ==> out.readInterval == 1_000_000_000)
            && (f.readInterval != "" ==> env.parseDuration(f.readInterval) == Some(out.readInterval))
            && (f.timeLayout == "" ==> out.timeLayout == "2006/01/02 15:04:05")
            && (f.timeLayout != "" ==> out.timeLayout == f.timeLayout)
  {
  }

  /**
   * The web interface is enabled as configured; when that is not given it
   * runs exactly when the forwarder is not enabled, the forwarder counting
   * as disabled when its own setting is not given either.
   */
  lemma WebEnabledRule(input: JsonConfig, env: Env)
    requires Resolve(input, env).Success?
    ensures var web := Resolve(input, env).value.web;
            var forwarding := input.forwarder.Some? && input.forwarder.value.enabled == Some(true);
            if input.web.Some? && input.web.value.enabled.Some?
            then web.enabled == input.web.value.enabled.value
            else web.enabled == !forwarding
  {
  }

  /** A section that is present but sets nothing resolves exactly like a missing section. */
  lemma EmptySectionIsMissingSection(forwarderEnabled: bool)
    ensures ResolveForwarder(Some(JsonForwarderConfig(None, None, ""))) == ResolveForwarder(None)
    ensures ResolveRecipient(Some(JsonRecipientConfig(None, ""))) == ResolveRecipient(None)
    ensures ResolveSqlite(Some(JsonSqliteConfig(""))) == ResolveSqlite(None)
    ensures ResolveWeb(Some(JsonWebConfig(None, "", None)), forwarderEnabled) == ResolveWeb(None, forwarderEnabled)
  {
  }

  /** The empty document resolves to the default table, with the operating system's host name. */
  lemma EmptyDocumentResolvesToDefaults(env: Env)
    requires env.hostname.Success?
    ensures Resolve(EmptyJson, env) == Success(DefaultConfig.(hostName := env.hostname.value))
  {
  }

  // ---------------------------------------------------------------------------
  // the host-name lookup

  /** Resolving files reads only the regexp compiler and the duration parser. */
  lemma {:induction false} FilesIgnoreHostLookup(files: seq<JsonFileConfig>, env: Env, lookup: Result<string, string>)
    ensures ResolveFiles(files, env.(hostname := lookup)) == ResolveFiles(files, env)
    decreases |files|
  {
    if |files| > 0 {
      FilesIgnoreHostLookup(files[..|files| - 1], env, lookup);
    }
  }

  /** Compiling patterns reads only the regexp compiler. */
  lemma {:induction false} PatternsIgnoreHostLookup(patterns: seq<string>, env: Env, lookup: Result<string, string>)
    ensures CompileAll(patterns, env.(hostname := lookup)) == CompileAll(patterns, env)
    decreases |patterns|
  {
    if |patterns| > 0 {
      PatternsIgnoreHostLookup(patterns[..|patterns| - 1], env, lookup);
    }
  }

  /** A configured host name is used as given, and the operating system's answer makes no difference. */
  lemma HostLookupNotConsulted(input: JsonConfig, env: Env, lookup: Result<string, string>)
    requires input.hostName != ""
    ensures Resolve(input, env.(hostname := lookup)) == Resolve(input, env)
    ensures Resolve(input, env).Success? ==> Resolve(input, env).value.hostName == input.hostName
  {
    FilesIgnoreHostLookup(input.files, env, lookup);
    PatternsIgnoreHostLookup(input.fieldExtractors, env, lookup);
  }

  // ---------------------------------------------------------------------------
  // writing a configuration back out

  /**
   * `format` is an inverse of the duration parser, as `Duration.String` is:
   * every duration the parser can produce is written as non-empty text that
   * parses back to it. Durations the parser never produces (those outside
   * 64 bits, for `time.ParseDuration`) are not constrained.
   */
  ghost predicate FormatsDurations(env: Env, format: Duration -> string) {
    forall s, d :: env.parseDuration(s) == Some(d) ==> format(d) != "" && env.parseDuration(format(d)) == Some(d)
  }

  function FileToDocument(f: IndexedFileConfig, format: Duration -> string): JsonFileConfig {
    JsonFileConfig(f.filename, f.eventDelimiter.source, format(f.readInterval), f.timeLayout)
  }

  function FilesToDocument(fs: seq<IndexedFileConfig>, format: Duration -> string): (r: seq<JsonFileConfig>)
    ensures |r| == |fs|
    decreases |fs|
  {
    if |fs| == 0 then [] else FilesToDocument(fs[..|fs| - 1], format) + [FileToDocument(fs[|fs| - 1], format)]
  }

  function PatternsToDocument(rs: seq<Regex>): (r: seq<string>)
    ensures |r| == |rs|
    decreases |rs|
  {
    if |rs| == 0 then [] else PatternsToDocument(rs[..|rs| - 1]) + [rs[|rs| - 1].source]
  }

  /** The document that spells out every value of `cfg` explicitly. */
  function ToDocument(cfg: Config, format: Duration -> string): JsonConfig {
    JsonConfig(
      FilesToDocument(cfg.indexedFiles, format),
      PatternsToDocument(cfg.fieldExtractors),
      cfg.hostName,
      Some(JsonForwarderConfig(
        Some(cfg.forwarder.enabled), Some(cfg.forwarder.maxBufferedEvents), cfg.forwarder.recipientAddress)),
      Some(JsonRecipientConfig(Some(cfg.recipient.enabled), cfg.recipient.address)),
      Some(JsonSqliteConfig(cfg.sqlite.databaseFile)),
      Some(JsonWebConfig(Some(cfg.web.enabled), cfg.web.address, Some(cfg.web.usePackagedFiles))))
  }

  /**
   * A resolved file entry that survives being written out: no value of it
   * would be read back as "unset", its delimiter compiles, and its interval
   * is one the duration parser can produce.
   */
  ghost predicate CanonicalFile(f: IndexedFileConfig, env: Env) {
    && f.filename != "" && f.eventDelimiter.source != "" && env.compiles(f.eventDelimiter.source)
    && (exists s :: env.parseDuration(s) == Some(f.readInterval))
    && f.timeLayout != ""
  }

  /**
   * A configuration that survives being written out: nothing in it reads
   * back as "unset" or fails to compile. An empty host name does read back
   * as unset, so it survives only when the operating system answers with
   * that same empty name.
   */
  ghost predicate Canonical(cfg: Config, env: Env) {
    && (forall k :: 0 <= k < |cfg.indexedFiles| ==> CanonicalFile(cfg.indexedFiles[k], env))
    && |cfg.fieldExtractors| > 0
    && (forall k :: 0 <= k < |cfg.fieldExtractors| ==> env.compiles(cfg.fieldExtractors[k].source))
    && (cfg.hostName != "" || env.hostname == Success(""))
    && cfg.forwarder.recipientAddress != ""
    && cfg.recipient.address != ""
    && cfg.sqlite.databaseFile != ""
    && cfg.web.address != ""
  }

  lemma {:induction false} FilesRoundTrip(fs: seq<IndexedFileConfig>, env: Env, format: Duration -> string)
    requires forall k :: 0 <= k < |fs| ==> CanonicalFile(fs[k], env)
    requires FormatsDurations(env, format)
    ensures ResolveFiles(FilesToDocument(fs, format), env) == Success(fs)
    decreases |fs|
  {
    if |fs| > 0 {
      var last := |fs| - 1;
      var doc := FilesToDocument(fs, format);
      FilesRoundTrip(fs[..last], env, format);
      assert doc[..last] == FilesToDocument(fs[..last], format);
      assert doc[last] == FileToDocument(fs[last], format);
      assert CanonicalFile(fs[last], env);
      var w :| env.parseDuration(w) == Some(fs[last].readInterval);
      assert ResolveFile(last, doc[last], env) == Success(fs[last]);
      assert fs[..last] + [fs[last]] == fs;
    }
  }

  lemma {:induction false} PatternsRoundTrip(rs: seq<Regex>, env: Env)
    requires forall k :: 0 <= k < |rs| ==> env.compiles(rs[k].source)
    ensures CompileAll(PatternsToDocument(rs), env) == Success(rs)
    decreases |rs|
  {
    if |rs| > 0 {
      var last := |rs| - 1;
      var doc := PatternsToDocument(rs);
      PatternsRoundTrip(rs[..last], env);
      assert doc[..last] == PatternsToDocument(rs[..last]);
      assert rs[..last] + [rs[last]] == rs;
    }
  }

  /** Writing a canonical configuration out with every value explicit and resolving it gives it back unchanged. */
  lemma RoundTrip(cfg: Config, env: Env, format: Duration -> string)
    requires Canonical(cfg, env)
    requires FormatsDurations(env, format)
    ensures Resolve(ToDocument(cfg, format), env) == Success(cfg)
  {
    var doc := ToDocument(cfg, format);
    FilesRoundTrip(cfg.indexedFiles, env, format);
    PatternsRoundTrip(cfg.fieldExtractors, env);
    assert ResolveFieldExtractors(doc.fieldExtractors, env) == Success(cfg.fieldExtractors);
    assert ResolveHostName(doc.hostName, env.hostname) == Success(cfg.hostName);
    assert ResolveForwarder(doc.forwarder) == cfg.forwarder;
    assert ResolveRecipient(doc.recipient) == cfg.recipient;
    assert ResolveSqlite(doc.sqlite) == cfg.sqlite;
    assert ResolveWeb(doc.web, cfg.forwarder.enabled) == cfg.web;
    assert Resolvable(doc, env);
    var r := Resolve(doc, env);
    assert r.value == cfg;
  }

  /**
   * The built-in defaults are values the library produces: the patterns
   * compile (in Go they are built with `regexp.MustCompile`), and the default
   * read interval of one second is what the parser returns for "1s".
   */
  predicate BuiltInDefaultsAccepted(env: Env) {
    && env.parseDuration("1s") == Some(Second)
    && env.compiles(DefaultEventDelimiter.source)
    && env.compiles(DefaultFieldExtractors[0].source)
    && env.compiles(DefaultFieldExtractors[1].source)
  }

  /** Whatever the resolver produces is canonical, provided the built-in defaults are accepted by the library. */
  lemma ResolvedIsCanonical(input: JsonConfig, env: Env)
    requires Resolve(input, env).Success?
    requires BuiltInDefaultsAccepted(env)
    ensures Canonical(Resolve(input, env).value, env)
  {
  }

  /** Resolution is a fixed point: writing a resolved configuration out and resolving it again changes nothing. */
  lemma ResolveIdempotent(input: JsonConfig, env: Env, format: Duration -> string)
    requires Resolve(input, env).Success?
    requires BuiltInDefaultsAccepted(env)
    requires FormatsDurations(env, format)
    ensures Resolve(ToDocument(Resolve(input, env).value, format), env) == Resolve(input, env)
  {
    ResolvedIsCanonical(input, env);
    RoundTrip(Resolve(input, env).value, env, format);
  }
}
