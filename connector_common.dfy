/** Types shared by the connectors: job modes, rows, the file formats and the row types that
    schema building produces. */
module ConnectorCommon {
  import opened Wrappers
  import opened JavaErrors
  import opened TypesafeConfig

  datatype JobMode = Batch | Streaming

  datatype Boundedness = Bounded | Unbounded

  /** The boundedness a source reports for a job context whose mode is `mode`: BOUNDED
      exactly for a batch job. */
  function BoundednessOf(mode: JobMode): (b: Boundedness)
    ensures b == Bounded <==> mode == Batch
    ensures b == Unbounded <==> mode == Streaming
  {
    match mode
    case Batch => Bounded
    case Streaming => Unbounded
  }

  /** A SeaTunnelRow, each field given by its `toString()`, or None for a null field. */
  datatype Row = Row(fields: seq<Option<string>>)

  /** org.apache.seatunnel.connectors.seatunnel.file.config.FileFormat. */
  datatype FileFormat = Csv | Text | Parquet | Orc | Json

  function FileFormatName(f: FileFormat): string {
    match f
    case Csv => "CSV"
    case Text => "TEXT"
    case Parquet => "PARQUET"
    case Orc => "ORC"
    case Json => "JSON"
  }

  /** FileFormat.valueOf: the constant whose name is exactly `name`. */
  function FileFormatValueOf(name: string): (r: Result<FileFormat, Exception>)
    ensures r.Ok? <==> name in {"CSV", "TEXT", "PARQUET", "ORC", "JSON"}
    ensures r.Ok? ==> FileFormatName(r.value) == name
  {
    if name == "CSV" then Ok(Csv)
    else if name == "TEXT" then Ok(Text)
    else if name == "PARQUET" then Ok(Parquet)
    else if name == "ORC" then Ok(Orc)
    else if name == "JSON" then Ok(Json)
    else Err(IllegalArgumentException("No enum constant org.apache.seatunnel.connectors.seatunnel.file.config.FileFormat." + name))
  }

  lemma FileFormatNameRoundTrip(f: FileFormat)
    ensures FileFormatValueOf(FileFormatName(f)) == Ok(f)
  {
  }

  /** A SeaTunnelRowType, kept by where it came from: SeaTunnelSchema.buildWithConfig on a
      schema config, SeaTunnelSchema.buildSimpleTextSchema, or a row type read elsewhere. */
  datatype RowType = FromSchema(schema: Config) | SimpleTextSchema | Given(name: string)
}
