/**
 * The fully resolved configuration and the default tables the resolver
 * falls back on.
 */
module ConfigTypes {
  import opened Library

  datatype IndexedFileConfig = IndexedFileConfig(
    filename: string,
    eventDelimiter: Regex,
    readInterval: Duration,
    timeLayout: string)

  datatype ForwarderConfig = ForwarderConfig(
    enabled: bool,
    maxBufferedEvents: int,
    recipientAddress: string)

  datatype RecipientConfig = RecipientConfig(enabled: bool, address: string)

  datatype SqliteConfig = SqliteConfig(databaseFile: string)

  datatype WebConfig = WebConfig(enabled: bool, address: string, usePackagedFiles: bool)

  datatype Config = Config(
    indexedFiles: seq<IndexedFileConfig>,
    fieldExtractors: seq<Regex>,
    hostName: string,
    forwarder: ForwarderConfig,
    recipient: RecipientConfig,
    sqlite: SqliteConfig,
    web: WebConfig)

  /** The two field extractors used when none are configured: `key=value` pairs and a leading timestamp. */
  const DefaultFieldExtractors: seq<Regex> := [
    Regex("(\\w+)=(\\w+)"),
    Regex("^(?P<_time>\\d\\d\\d\\d/\\d\\d/\\d\\d \\d\\d:\\d\\d:\\d\\d.\\d\\d\\d\\d\\d\\d)")
  ]

  const DefaultForwarder := ForwarderConfig(false, 1000000, "http://localhost:8081")

  const DefaultRecipient := RecipientConfig(false, ":8081")

  const DefaultSqlite := SqliteConfig("logsuck.db")

  const DefaultWeb := WebConfig(true, ":8080", true)

  /** The default table as a whole; its host name is left empty. */
  const DefaultConfig := Config(
    [], DefaultFieldExtractors, "", DefaultForwarder, DefaultRecipient, DefaultSqlite, DefaultWeb)

  const DefaultEventDelimiter := Regex("\n")

  const DefaultReadInterval: Duration := 1 * Second

  const DefaultTimeLayout := "2006/01/02 15:04:05"
}
