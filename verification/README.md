# logsuck configuration resolver, modelled in Dafny

logsuck reads its settings from a JSON document. `FromJSON` in
`internal/config/FromJSON.go` turns the decoded document into a fully
populated `Config`:

- every entry of `files` must name a file. Its event delimiter (a regular
  expression) and read interval (a duration), when given, must be usable.
  Empty values take the defaults `"\n"`, one second and
  `2006/01/02 15:04:05`;
- the `fieldExtractors` patterns must all compile; an empty list means the
  two built-in extractors;
- the host name comes from the document, else from the operating system;
- the `forwarder`, `recipient`, `sqlite` and `web` sections are optional, and
  so is each of their fields. A missing section or an unset field takes the
  default from the package's default table;
- when `web.enabled` is not given, the web interface runs exactly when the
  forwarder does not.

The first entry that cannot be used stops the call with an error naming its
index. Files are checked before patterns, and patterns before the host name.

The model is a set of pure functions over immutable values:

- `wrappers.dfy` (`Wrappers`): `Option` for nil-able Go pointers and
  `Result` for the `(value, error)` returns.
- `library.dfy` (`Library`): the library calls the resolver uses, as the
  fields of an `Env` value. `compiles` stands for `regexp.Compile`,
  `parseDuration` for `time.ParseDuration`, and `hostname` for
  `os.Hostname`. A compiled expression is represented by its pattern text.
  A duration is a count of nanoseconds.
- `json_config.dfy` (`JsonConfig`): the decoded document.
- `config.dfy` (`ConfigTypes`): the resolved configuration and the default
  tables.
- `resolve.dfy` (`Resolver`): the resolver, one function per block of
  `FromJSON`, and `Resolve` for the whole call.
- `properties.dfy` (`Properties`): lemmas relating several calls or several
  parts of the document. They cover error precedence, defaults, the empty
  document, and the host-name lookup. They also cover the round trip through
  `ToDocument`, which writes a configuration out with every value explicit.
- `from_json.dfy` (`FromJson`): the Go function's loops and early returns as
  a method, proved equal to `Resolve`.
- `shared_default.dfy` (`SharedDefault`): the web-section code as written,
  with the shared default record as explicit state (see Findings).

Go's tri-state `*bool` fields (nil, false, true) are `Option<bool>`.
`Option<bool>` has exactly three values, so it is the three-way choice
between unset, explicitly false and explicitly true.

## Model

| member | source | states |
|---|---|---|
| Library.Compile | internal/config/FromJSON.go:106-108 | compilation yields a regexp exactly when the pattern compiles, and the regexp is the one for that pattern |
| Resolver.ResolveFile | internal/config/FromJSON.go:97-129 | a file entry resolves exactly when it names a file and its given delimiter compiles and its given interval parses. Name, delimiter and interval are checked in that order, and the error names the entry's index. On success the file name is kept. An empty delimiter, interval or layout becomes `"\n"`, one second or `2006/01/02 15:04:05`. A given delimiter or layout is kept as written, and a given interval is used as parsed |
| Resolver.ResolveFiles | internal/config/FromJSON.go:95-130 | succeeds exactly when every entry is valid. On success there is one resolved entry per input entry, in input order, each being that entry's own resolution. On failure the error is that of the first invalid entry, and every earlier entry is valid |
| Resolver.CompileAll | internal/config/FromJSON.go:137-145 | succeeds exactly when every pattern compiles, giving one compiled pattern per input pattern in order. Otherwise it names the first pattern that does not compile |
| Resolver.ResolveFieldExtractors | internal/config/FromJSON.go:132-145 | an empty list yields exactly the two built-in extractors. A non-empty list yields its own patterns compiled in the same order, or fails naming the first bad pattern |
| Resolver.ResolveHostName | internal/config/FromJSON.go:147-158 | a configured host name wins. Otherwise the operating system's name is used, and its failure fails the call with the cause |
| Resolver.ResolveForwarder | internal/config/FromJSON.go:160-184 | a missing section gives `{false, 1000000, "http://localhost:8081"}`. In a present section each set field is kept and each unset one takes that same default |
| Resolver.ResolveRecipient | internal/config/FromJSON.go:186-204 | a missing section gives `{false, ":8081"}`. In a present section each set field is kept and each unset one takes the default |
| Resolver.ResolveSqlite | internal/config/FromJSON.go:206-218 | the database file is the configured one when it is non-empty, and `logsuck.db` when the section is missing or the name is empty |
| Resolver.ResolveWeb | internal/config/FromJSON.go:220-253 | an explicit `enabled` wins. When it is not given, whether the section is missing or the field is unset, the result is the negation of the forwarder's `enabled`. The address defaults to `:8080` and packaged files default to on. Given values are kept |
| Resolver.Resolve | internal/config/FromJSON.go:95-268 | succeeds exactly when all files are valid, all patterns compile and a host name is available. On success the indexed files mirror the input files one for one, in order and by name, each being that entry's own resolution. The field extractors are the configured patterns compiled in order, or the two built-ins for an empty list. The host name is the configured one, else the operating system's. Each section is its section resolver's result, and the web section sees the resolved forwarder's `enabled` |
| Properties.FileErrorsComeFirst | internal/config/FromJSON.go:95-130 | any invalid file entry makes the call fail with a file error naming the first invalid entry, whatever the rest of the document says. The error is exactly that entry's own: an empty name, a bad delimiter or a bad interval, checked in that order |
| Properties.PatternErrorsComeSecond | internal/config/FromJSON.go:132-145 | with every file valid, a pattern that does not compile fails the call, naming the first such pattern |
| Properties.HostNameErrorComesLast | internal/config/FromJSON.go:151-156 | with files and patterns valid and no host name configured, a failed lookup fails the call with its cause |
| Properties.SectionsNeverFail | internal/config/FromJSON.go:160-253 | replacing any of the four sections by anything never changes whether the call succeeds |
| Properties.FileDefaults | internal/config/FromJSON.go:100-129 | every resolved file keeps its name and explicit values. Each empty delimiter, interval and layout becomes `"\n"`, 10^9 ns or `2006/01/02 15:04:05` |
| Properties.WebEnabledRule | internal/config/FromJSON.go:220-240 | in terms of the document alone, `web.enabled` is the explicit value when given. Otherwise it is true exactly when the forwarder is not explicitly enabled |
| Properties.EmptySectionIsMissingSection | internal/config/FromJSON.go:160-253 | a present section that sets nothing resolves exactly like a missing one, for all four sections |
| Properties.EmptyDocumentResolvesToDefaults | internal/config/FromJSON.go:53-85 | the empty document resolves to the default table with the operating system's host name |
| Properties.FilesIgnoreHostLookup | internal/config/FromJSON.go:95-130 | resolving files does not depend on the host-name lookup |
| Properties.PatternsIgnoreHostLookup | internal/config/FromJSON.go:137-145 | compiling patterns does not depend on the host-name lookup |
| Properties.HostLookupNotConsulted | internal/config/FromJSON.go:147-151 | with a host name configured, the operating system's answer, failure included, makes no difference, and the configured name is the one used |
| Properties.FilesRoundTrip | internal/config/FromJSON.go:95-130 | file entries written out with every value explicit resolve back to themselves. Each duration is written with a formatter that inverts the parser on the durations the parser can produce, as `Duration.String` inverts `time.ParseDuration` |
| Properties.PatternsRoundTrip | internal/config/FromJSON.go:137-145 | compiled patterns written out as their text compile back to themselves |
| Properties.RoundTrip | internal/config/FromJSON.go:95-268 | a canonical configuration, written out with every value explicit, resolves back to itself. Canonical means no value would read back as unset, every pattern compiles, and every read interval is a duration the parser can produce. An empty host name counts as canonical only when the operating system answers with that same empty name. So an explicit value is never replaced by a default |
| Properties.ResolvedIsCanonical | internal/config/FromJSON.go:95-268 | every resolved configuration is canonical, given that the built-in patterns compile and the parser reads "1s" as one second. An empty host name can only have come from the operating system |
| Properties.ResolveIdempotent | internal/config/FromJSON.go:95-268 | resolution is a fixed point. Writing a resolved configuration out and resolving it again gives the same configuration |
| FromJson.FromJson | internal/config/FromJSON.go:95-268 | the Go function's sequence of loops and early returns computes exactly `Resolve`, with the web section taken from `Resolver.ResolveWeb`. The write through the shared default is modelled separately, in `SharedDefault`. It succeeds exactly when the document is resolvable |
| FromJson.ReadFiles | internal/config/FromJSON.go:95-130 | the index loop over `files`, returning at the first bad entry, computes exactly the recursive definition |
| FromJson.ReadFieldExtractors | internal/config/FromJSON.go:132-145 | the loop over patterns computes exactly the recursive definition, defaults included |
| FromJson.FirstFailureIsReported | internal/config/FromJSON.go:96-122 | if every entry before `i` resolves and entry `i` does not, the whole list fails with entry `i`'s error |
| FromJson.FirstBadPatternIsReported | internal/config/FromJSON.go:138-142 | if every pattern before `j` compiles and pattern `j` does not, compilation fails naming `j` |
| SharedDefault.ResolveWebAsWritten | internal/config/FromJSON.go:220-227 | with no `web` section the result is the shared default record itself. When the forwarder is enabled, that record's `enabled` is cleared and stays cleared. A present section leaves the shared record alone |
| SharedDefault.FromJsonAsWritten | internal/config/FromJSON.go:220-267 | the code as written succeeds exactly when `Resolve` does and differs from it at most in the web section. On success the web section and the shared record afterwards are those of `ResolveWebAsWritten`, so a missing `web` section hands back the shared record, cleared when the forwarder is enabled. On failure the shared record is untouched |
| SharedDefault.FirstCallAgrees | internal/config/FromJSON.go:76-80 | while the shared record still holds the default table's values, the code as written computes exactly `Resolve` |
| SharedDefault.SecondCallInheritsDisabledWeb | internal/config/FromJSON.go:221-227 | first a call with forwarding and no `web` section, then a call with neither. The second call gets the web interface disabled, although the rule enables it |
| SharedDefault.SecondCallCounterexample | internal/config/FromJSON.go:221-227 | the concrete documents `{"forwarder":{"enabled":true}}` followed by `{}` show that discrepancy |

## Left out

- JSON decoding (internal/config/FromJSON.go:88-93) and its error are not modelled. The model starts from the decoded document. The struct tags there are unquoted, so Go matches keys case-insensitively; that is a decoder detail.
- The `log.Printf`/`log.Println` calls are left out because they have no effect on the result.
- `regexp.Compile`, `time.ParseDuration` and `os.Hostname` are left abstract, as the fields of `Env`. A compiled expression is represented by its pattern text. The library's error text is not kept: errors carry the failing index, and for the host name the lookup's error text.
- The error messages' wording is not modelled; each `Error` constructor stands for one message and carries the index it names.
- Integer widths are not modelled: `maxBufferedEvents` and durations are unbounded integers. Go's `int` and `time.Duration` are 64-bit, but out-of-range numbers are rejected by the JSON decoder or by `time.ParseDuration`, both outside this model.
- Pointer identity between the returned sections and the package default table is not modelled, except for the single write at line 226 (see `SharedDefault`). This covers, for instance, a caller later writing through the returned `Forwarder`. The model's `Resolve` returns plain values.
- The event store, search jobs (`internal/jobs/Job.go`) and the web UI components are not part of this model. They hold no resolution logic.

## Findings

| source | as written | input that shows it | evidently intended | confidence | as-written member | corrected member |
|---|---|---|---|---|---|---|
| internal/config/FromJSON.go:223-226 | with no `web` section the shared default record is taken by pointer, and clearing `Enabled` for an enabled forwarder writes into the package default table. The write also reaches every earlier result that was handed that same record: after `{}` and then `{"forwarder":{"enabled":true}}`, the first result's `Web.Enabled` turns false. Only the effect on later calls is modelled, because pointer identity is not | in one process, first `{"forwarder":{"enabled":true}}`, then `{}`: the second result has the web interface disabled | a missing `web` section gives `enabled = not forwarder.enabled` on every call, leaving the default table untouched | not executed; latent unless `FromJSON` runs more than once per process | SharedDefault.SecondCallCounterexample | Resolver.ResolveWeb |
