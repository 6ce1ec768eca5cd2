/** The exceptions the modelled code throws or lets through, one constructor per Java class
    that the callers can tell apart. */
module JavaErrors {
  import opened Wrappers

  datatype PluginType = Source | Sink | Transform

  datatype Exception =
    | IOException(message: string, cause: Option<Exception>)
    | RuntimeException(message: string, cause: Option<Exception>)
    | IllegalArgumentException(message: string)
    | NullPointerException(message: string)
    | NumberFormatException(input: string)
    | IndexOutOfBoundsException(index: int)
    | UnsupportedOperationException(message: string)
    | PrepareFailException(plugin: string, pluginType: PluginType, message: string)
      /** com.typesafe.config.ConfigException.Missing (also thrown for a null value). */
    | ConfigMissing(path: string)
      /** com.typesafe.config.ConfigException.WrongType. */
    | ConfigWrongType(path: string, expected: string)
      /** com.typesafe.config.ConfigException.BadValue. */
    | ConfigBadValue(path: string, message: string)
    | InvalidConfigurationException(message: string)
    | BulkElasticsearchException(message: string, cause: Option<Exception>)
    | JvmOptionsParserException(message: string)
      /** java.net.URISyntaxException. */
    | URISyntaxException(input: string, reason: string)
}
