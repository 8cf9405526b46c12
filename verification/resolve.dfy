/**
 * The configuration resolver: turns a decoded JSON document into a fully
 * populated `Config`, or names the first entry that cannot be used.
 *
 * Files are checked first (in index order), then the field extractors (in
 * index order), then the host name; the four sections never fail.
 */
module Resolver {
  import opened Wrappers
  import opened Library
  import opened JsonConfig
  import opened ConfigTypes

  /** Why a document was rejected; each index is the position of the offending entry. */
  datatype Error =
    | EmptyFileName(index: nat)
    | BadEventDelimiter(index: nat)
    | BadReadInterval(index: nat)
    | BadFieldExtractor(index: nat)
    | HostNameUnavailable(cause: string)
  {
    /** The error is about `files[index]`. */
    predicate IsFileError() {
      EmptyFileName? || BadEventDelimiter? || BadReadInterval?
    }
  }

  /** A text field left empty falls back to `default`; a non-empty one is used as given. */
  function TextOr(s: string, default: string): string {
    if s == "" then default else s
  }

  // ---------------------------------------------------------------------------
  // files

  predicate DelimiterOk(f: JsonFileConfig, env: Env) {
    f.eventDelimiter == "" || env.compiles(f.eventDelimiter)
  }

  predicate ReadIntervalOk(f: JsonFileConfig, env: Env) {
    f.readInterval == "" || env.parseDuration(f.readInterval).Some?
  }

  /** A file entry that resolves: it names a file, and its delimiter and interval, when given, are usable. */
  predicate FileValid(f: JsonFileConfig, env: Env) {
    f.fileName != "" && DelimiterOk(f, env) && ReadIntervalOk(f, env)
  }

  predicate AllFilesValid(files: seq<JsonFileConfig>, env: Env) {
    forall k :: 0 <= k < |files| ==> FileValid(files[k], env)
  }

  /** `i` is the first file entry that does not resolve. */
  predicate FirstBadFile(files: seq<JsonFileConfig>, env: Env, i: nat) {
    i < |files| && !FileValid(files[i], env) &&
    forall k :: 0 <= k < i ==> FileValid(files[k], env)
  }

  /** Resolves `files[i]`, whose content is `f`. */
  function ResolveFile(i: nat, f: JsonFileConfig, env: Env): (r: Result<IndexedFileConfig, Error>)
    ensures r.Success? <==> FileValid(f, env)
    // the checks run in field order: name, then delimiter, then interval
    ensures f.fileName == "" ==> r == Failure(EmptyFileName(i))
    ensures f.fileName != "" && !DelimiterOk(f, env) ==> r == Failure(BadEventDelimiter(i))
    ensures f.fileName != "" && DelimiterOk(f, env) && !ReadIntervalOk(f, env) ==>
              r == Failure(BadReadInterval(i))
    ensures r.Failure? ==> r.error.IsFileError() && r.error.index == i
    // on success every explicit value is kept and every empty one takes its default
    ensures r.Success? ==> r.value.filename == f.fileName
    ensures r.Success? && f.eventDelimiter == "" ==> r.value.eventDelimiter == DefaultEventDelimiter
    ensures r.Success? && f.eventDelimiter != "" ==> r.value.eventDelimiter.source == f.eventDelimiter
    ensures r.Success? && f.readInterval == "" ==> r.value.readInterval == Second
    ensures r.Success? && f.readInterval != "" ==>
              env.parseDuration(f.readInterval) == Some(r.value.readInterval)
    ensures r.Success? && f.timeLayout == "" ==> r.value.timeLayout == "2006/01/02 15:04:05"
    ensures r.Success? && f.timeLayout != "" ==> r.value.timeLayout == f.timeLayout
  {
    if f.fileName == "" then Failure(EmptyFileName(i))
    else
      var delimiter :-
        if f.eventDelimiter == "" then Success(DefaultEventDelimiter)
        else match Compile(env, f.eventDelimiter)
          case Some(re) => Success(re)
          case None => Failure(BadEventDelimiter(i));
      var interval :-
        if f.readInterval == "" then Success(DefaultReadInterval)
        else match env.parseDuration(f.readInterval)
          case Some(d) => Success(d)
          case None => Failure(BadReadInterval(i));
      Success(IndexedFileConfig(f.fileName, delimiter, interval, TextOr(f.timeLayout, DefaultTimeLayout)))
  }

  /**
   * Resolves every file entry in order, stopping at the first one that does
   * not resolve. On success there is one resolved entry per input entry, in
   * the input order.
   */
  function ResolveFiles(files: seq<JsonFileConfig>, env: Env): (r: Result<seq<IndexedFileConfig>, Error>)
    decreases |files|
    ensures r.Success? <==> AllFilesValid(files, env)
    ensures r.Success? ==> |r.value| == |files|
    ensures r.Success? ==> forall k :: 0 <= k < |files| ==> ResolveFile(k, files[k], env) == Success(r.value[k])
    ensures r.Failure? ==> r.error.IsFileError() && FirstBadFile(files, env, r.error.index)
    ensures r.Failure? ==> ResolveFile(r.error.index, files[r.error.index], env) == Failure(r.error)
  {
    if |files| == 0 then Success([])
    else
      var last := |files| - 1;
      var prefix :- ResolveFiles(files[..last], env);
      var entry :- ResolveFile(last, files[last], env);
      Success(prefix + [entry])
  }

  // ---------------------------------------------------------------------------
  // field extractors

  predicate AllCompile(patterns: seq<string>, env: Env) {
    forall k :: 0 <= k < |patterns| ==> env.compiles(patterns[k])
  }

  /** `i` is the first pattern that does not compile. */
  predicate FirstBadPattern(patterns: seq<string>, env: Env, i: nat) {
    i < |patterns| && !env.compiles(patterns[i]) &&
    forall k :: 0 <= k < i ==> env.compiles(patterns[k])
  }

  /** Compiles every pattern in order, stopping at the first one that does not compile. */
  function CompileAll(patterns: seq<string>, env: Env): (r: Result<seq<Regex>, Error>)
    decreases |patterns|
    ensures r.Success? <==> AllCompile(patterns, env)
    ensures r.Success? ==> |r.value| == |patterns|
    ensures r.Success? ==> forall k :: 0 <= k < |patterns| ==> r.value[k].source == patterns[k]
    ensures r.Failure? ==> r.error.BadFieldExtractor? && FirstBadPattern(patterns, env, r.error.index)
  {
    if |patterns| == 0 then Success([])
    else
      var last := |patterns| - 1;
      var prefix :- CompileAll(patterns[..last], env);
      match Compile(env, patterns[last])
      case Some(re) => Success(prefix + [re])
      case None => Failure(BadFieldExtractor(last))
  }

  /** The configured field extractors, or the two defaults when none are configured. */
  function ResolveFieldExtractors(patterns: seq<string>, env: Env): (r: Result<seq<Regex>, Error>)
    ensures |patterns| == 0 ==> r == Success(DefaultFieldExtractors)
    ensures |patterns| > 0 ==> (r.Success? <==> AllCompile(patterns, env))
    ensures |patterns| > 0 && r.Success? ==>
              |r.value| == |patterns| && forall k :: 0 <= k < |patterns| ==> r.value[k].source == patterns[k]
    ensures r.Failure? ==> r.error.BadFieldExtractor? && FirstBadPattern(patterns, env, r.error.index)
  {
    if |patterns| == 0 then Success(DefaultFieldExtractors) else CompileAll(patterns, env)
  }

  // ---------------------------------------------------------------------------
  // host name

  /** A configured host name wins; otherwise the operating system is asked, and its failure is fatal. */
  function ResolveHostName(configured: string, lookup: Result<string, string>): (r: Result<string, Error>)
    ensures configured != "" ==> r == Success(configured)
    ensures configured == "" && lookup.Success? ==> r == Success(lookup.value)
    ensures configured == "" && lookup.Failure? ==> r == Failure(HostNameUnavailable(lookup.error))
  {
    if configured != "" then Success(configured)
    else match lookup
      case Success(name) => Success(name)
      case Failure(cause) => Failure(HostNameUnavailable(cause))
  }

  // ---------------------------------------------------------------------------
  // sections

  /** The forwarder section; a missing section and each unset field take the defaults. */
  function ResolveForwarder(s: Option<JsonForwarderConfig>): (r: ForwarderConfig)
    ensures s.None? ==> r == ForwarderConfig(false, 1000000, "http://localhost:8081")
    ensures s.Some? && s.value.enabled.Some? ==> r.enabled == s.value.enabled.value
    ensures s.Some? && s.value.enabled.None? ==> !r.enabled
    ensures s.Some? && s.value.maxBufferedEvents.Some? ==> r.maxBufferedEvents == s.value.maxBufferedEvents.value
    ensures s.Some? && s.value.maxBufferedEvents.None? ==> r.maxBufferedEvents == 1000000
    ensures s.Some? && s.value.recipientAddress != "" ==> r.recipientAddress == s.value.recipientAddress
    ensures s.Some? && s.value.recipientAddress == "" ==> r.recipientAddress == "http://localhost:8081"
  {
    match s
    case None => DefaultForwarder
    case Some(f) =>
      ForwarderConfig(
        f.enabled.OrElse(false),
        f.maxBufferedEvents.OrElse(DefaultForwarder.maxBufferedEvents),
        TextOr(f.recipientAddress, DefaultForwarder.recipientAddress))
  }

  /** The recipient section; a missing section and each unset field take the defaults. */
  function ResolveRecipient(s: Option<JsonRecipientConfig>): (r: RecipientConfig)
    ensures s.None? ==> r == RecipientConfig(false, ":8081")
    ensures s.Some? && s.value.enabled.Some? ==> r.enabled == s.value.enabled.value
    ensures s.Some? && s.value.enabled.None? ==> !r.enabled
    ensures s.Some? && s.value.address != "" ==> r.address == s.value.address
    ensures s.Some? && s.value.address == "" ==> r.address == ":8081"
  {
    match s
    case None => DefaultRecipient
    case Some(rc) => RecipientConfig(rc.enabled.OrElse(false), TextOr(rc.address, DefaultRecipient.address))
  }

  /** The sqlite section: the database file is `logsuck.db` unless a non-empty name is configured. */
  function ResolveSqlite(s: Option<JsonSqliteConfig>): (r: SqliteConfig)
    ensures s.Some? && s.value.fileName != "" ==> r.databaseFile == s.value.fileName
    ensures (s.None? || s.value.fileName == "") ==> r.databaseFile == "logsuck.db"
  {
    match s
    case None => DefaultSqlite
    case Some(sc) => SqliteConfig(TextOr(sc.fileName, DefaultSqlite.databaseFile))
  }

  /**
   * The web section. When `enabled` is not given (section missing, or the
   * field unset) the web interface runs exactly when the forwarder does not.
   */
  function ResolveWeb(s: Option<JsonWebConfig>, forwarderEnabled: bool): (r: WebConfig)
    ensures s.Some? && s.value.enabled.Some? ==> r.enabled == s.value.enabled.value
    ensures (s.None? || s.value.enabled.None?) ==> r.enabled == !forwarderEnabled
    ensures s.None? ==> r.address == ":8080" && r.usePackagedFiles
    ensures s.Some? && s.value.address != "" ==> r.address == s.value.address
    ensures s.Some? && s.value.address == "" ==> r.address == ":8080"
    ensures s.Some? && s.value.usePackagedFiles.Some? ==> r.usePackagedFiles == s.value.usePackagedFiles.value
    ensures s.Some? && s.value.usePackagedFiles.None? ==> r.usePackagedFiles
  {
    match s
    case None =>
      if forwarderEnabled then DefaultWeb.(enabled := false) else DefaultWeb
    case Some(w) =>
      WebConfig(
        w.enabled.OrElse(!forwarderEnabled),
        TextOr(w.address, DefaultWeb.address),
        w.usePackagedFiles.OrElse(true))
  }

  // ---------------------------------------------------------------------------
  // the whole document

  /** The document resolves: every file entry and every pattern is usable, and a host name is available. */
  predicate Resolvable(input: JsonConfig, env: Env) {
    && AllFilesValid(input.files, env)
    && AllCompile(input.fieldExtractors, env)
    && (input.hostName != "" || env.hostname.Success?)
  }

  /** Resolves a decoded configuration document into a fully populated configuration. */
  function Resolve(input: JsonConfig, env: Env): (r: Result<Config, Error>)
    ensures r.Success? <==> Resolvable(input, env)
    ensures r.Success? ==> |r.value.indexedFiles| == |input.files|
    ensures r.Success? ==>
              forall k :: 0 <= k < |input.files| ==> r.value.indexedFiles[k].filename == input.files[k].fileName
    ensures r.Success? ==> r.value.indexedFiles == ResolveFiles(input.files, env).value
    ensures r.Success? ==> r.value.fieldExtractors == ResolveFieldExtractors(input.fieldExtractors, env).value
    ensures r.Success? ==> r.value.hostName == ResolveHostName(input.hostName, env.hostname).value
    ensures r.Success? ==> r.value.forwarder == ResolveForwarder(input.forwarder)
    ensures r.Success? ==> r.value.recipient == ResolveRecipient(input.recipient)
    ensures r.Success? ==> r.value.sqlite == ResolveSqlite(input.sqlite)
    ensures r.Success? ==> r.value.web == ResolveWeb(input.web, r.value.forwarder.enabled)
  {
    var indexedFiles :- ResolveFiles(input.files, env);
    var fieldExtractors :- ResolveFieldExtractors(input.fieldExtractors, env);
    var hostName :- ResolveHostName(input.hostName, env.hostname);
    var forwarder := ResolveForwarder(input.forwarder);
    Success(Config(
      indexedFiles,
      fieldExtractors,
      hostName,
      forwarder,
      ResolveRecipient(input.recipient),
      ResolveSqlite(input.sqlite),
      ResolveWeb(input.web, forwarder.enabled)))
  }
}
