/**
 * The configuration file as decoded from JSON, before any defaulting.
 * A Go pointer field that may be nil is an `Option`; a Go string field
 * that was left out of the JSON arrives as the empty string.
 */
module JsonConfig {
  import opened Wrappers

  /** One entry of `files`. */
  datatype JsonFileConfig = JsonFileConfig(
    fileName: string,
    eventDelimiter: string,
    readInterval: string,
    timeLayout: string)

  datatype JsonForwarderConfig = JsonForwarderConfig(
    enabled: Option<bool>,
    maxBufferedEvents: Option<int>,
    recipientAddress: string)

  datatype JsonRecipientConfig = JsonRecipientConfig(
    enabled: Option<bool>,
    address: string)

  datatype JsonSqliteConfig = JsonSqliteConfig(fileName: string)

  datatype JsonWebConfig = JsonWebConfig(
    enabled: Option<bool>,
    address: string,
    usePackagedFiles: Option<bool>)

  /** The whole decoded document; each section may be missing. */
  datatype JsonConfig = JsonConfig(
    files: seq<JsonFileConfig>,
    fieldExtractors: seq<string>,
    hostName: string,
    forwarder: Option<JsonForwarderConfig>,
    recipient: Option<JsonRecipientConfig>,
    sqlite: Option<JsonSqliteConfig>,
    web: Option<JsonWebConfig>)

  /** The empty document `{}`: nothing configured. */
  const EmptyJson := JsonConfig([], [], "", None, None, None, None)
}
