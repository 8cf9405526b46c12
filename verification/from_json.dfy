/**
 * `FromJSON` in the shape of the Go function: one loop over `files` and one
 * over `fieldExtractors`, each returning at the first entry that cannot be
 * used, then the host name and the four sections (which reuse the
 * section resolvers of `Resolver`). Each loop is proved to compute what
 * the recursive definition in `Resolver` defines, so the whole method
 * agrees with `Resolver.Resolve`.
 */
module FromJson {
  import opened Wrappers
  import opened Library
  import opened JsonConfig
  import opened ConfigTypes
  import opened Resolver

  method FromJson(input: JsonConfig, env: Env) returns (r: Result<Config, Error>)
    ensures r == Resolve(input, env)
    ensures r.Success? <==> Resolvable(input, env)
  {
    var files := ReadFiles(input.files, env);
    if files.Failure? {
      return Failure(files.error);
    }
    var fieldExtractors := ReadFieldExtractors(input.fieldExtractors, env);
    if fieldExtractors.Failure? {
      return Failure(fieldExtractors.error);
    }
    var hostName := ResolveHostName(input.hostName, env.hostname);
    if hostName.Failure? {
      return Failure(hostName.error);
    }
    var forwarder := ResolveForwarder(input.forwarder);
    r := Success(Config(
      files.value,
      fieldExtractors.value,
      hostName.value,
      forwarder,
      ResolveRecipient(input.recipient),
      ResolveSqlite(input.sqlite),
      ResolveWeb(input.web, forwarder.enabled)));
  }

  /** The loop over `files`: each entry is checked and defaulted in index order, stopping at the first bad one. */
  method ReadFiles(files: seq<JsonFileConfig>, env: Env) returns (r: Result<seq<IndexedFileConfig>, Error>)
    ensures r == ResolveFiles(files, env)
  {
    var indexedFiles: seq<IndexedFileConfig> := [];
    var i := 0;
    while i < |files|
      invariant 0 <= i <= |files|
      invariant ResolveFiles(files[..i], env) == Success(indexedFiles)
    {
      var file := files[i];
      assert files[..i + 1][..i] == files[..i];
      if file.fileName == "" {
        FirstFailureIsReported(files, i, env);
        return Failure(EmptyFileName(i));
      }
      var delimiter := DefaultEventDelimiter;
      if file.eventDelimiter != "" {
        var compiled := Compile(env, file.eventDelimiter);
        if compiled.None? {
          FirstFailureIsReported(files, i, env);
          return Failure(BadEventDelimiter(i));
        }
        delimiter := compiled.value;
      }
      var interval := DefaultReadInterval;
      if file.readInterval != "" {
        var parsed := env.parseDuration(file.readInterval);
        if parsed.None? {
          FirstFailureIsReported(files, i, env);
          return Failure(BadReadInterval(i));
        }
        interval := parsed.value;
      }
      var layout := DefaultTimeLayout;
      if file.timeLayout != "" {
        layout := file.timeLayout;
      }
      indexedFiles := indexedFiles + [IndexedFileConfig(file.fileName, delimiter, interval, layout)];
      i := i + 1;
    }
    assert files[..i] == files;
    return Success(indexedFiles);
  }

  /** The field extractors: the defaults when none are configured, else each pattern compiled in order. */
  method ReadFieldExtractors(patterns: seq<string>, env: Env) returns (r: Result<seq<Regex>, Error>)
    ensures r == ResolveFieldExtractors(patterns, env)
  {
    if |patterns| == 0 {
      return Success(DefaultFieldExtractors);
    }
    var fieldExtractors: seq<Regex> := [];
    var j := 0;
    while j < |patterns|
      invariant 0 <= j <= |patterns|
      invariant CompileAll(patterns[..j], env) == Success(fieldExtractors)
    {
      assert patterns[..j + 1][..j] == patterns[..j];
      var compiled := Compile(env, patterns[j]);
      if compiled.None? {
        FirstBadPatternIsReported(patterns, j, env);
        return Failure(BadFieldExtractor(j));
      }
      fieldExtractors := fieldExtractors + [compiled.value];
      j := j + 1;
    }
    assert patterns[..j] == patterns;
    return Success(fieldExtractors);
  }

  /** When every entry before `i` resolves and `files[i]` does not, the whole list fails with `files[i]`'s error. */
  lemma FirstFailureIsReported(files: seq<JsonFileConfig>, i: nat, env: Env)
    requires i < |files|
    requires ResolveFiles(files[..i], env).Success?
    requires ResolveFile(i, files[i], env).Failure?
    ensures ResolveFiles(files, env) == Failure(ResolveFile(i, files[i], env).error)
  {
  }

  /** When every pattern before `j` compiles and `patterns[j]` does not, compilation fails naming `j`. */
  lemma FirstBadPatternIsReported(patterns: seq<string>, j: nat, env: Env)
    requires j < |patterns|
    requires CompileAll(patterns[..j], env).Success?
    requires !env.compiles(patterns[j])
    ensures CompileAll(patterns, env) == Failure(BadFieldExtractor(j))
  {
  }
}
