/** StarRocksSinkWriter: serializes each row and hands it to the StarRocks sink manager,
    flushes the manager on prepareCommit and closes it on close. */
module StarRocksWriter {
  import opened Wrappers
  import opened JavaErrors
  import ConnectorCommon
  import opened StarRocksManager

  /** SinkConfig.StreamLoadFormat. */
  datatype StreamLoadFormat = Csv | Json

  /** The serializer createSerializer picks: CSV with the configured column separator, or JSON. */
  datatype Serializer = CsvSerializer(columnSeparator: string) | JsonSerializer

  const UnsupportedFormatMessage: string :=
    "Failed to create row serializer, unsupported `format` from stream load properties."

  const CloseFailedMessage: string := "Close starRocks manager failed."

  /** createSerializer: a null load format is refused. */
  function CreateSerializer(loadFormat: Option<StreamLoadFormat>, columnSeparator: string): (r: Result<Serializer, Exception>)
    ensures r.Ok? <==> loadFormat.Some?
    ensures loadFormat == Some(Csv) ==> r == Ok(CsvSerializer(columnSeparator))
    ensures loadFormat == Some(Json) ==> r == Ok(JsonSerializer)
    ensures r.Err? ==> r.error == RuntimeException(UnsupportedFormatMessage, None)
  {
    match loadFormat
    case Some(Csv) => Ok(CsvSerializer(columnSeparator))
    case Some(Json) => Ok(JsonSerializer)
    case None => Err(RuntimeException(UnsupportedFormatMessage, None))
  }

  /** What close throws: an IOException from the manager is wrapped in a new IOException, any
      other outcome passes through. */
  function CloseOutcome(managerClose: Outcome<Exception>): (o: Outcome<Exception>)
    ensures managerClose.Fail? && managerClose.error.IOException? ==>
              o == Fail(IOException(CloseFailedMessage, Some(managerClose.error)))
    ensures !(managerClose.Fail? && managerClose.error.IOException?) ==> o == managerClose
  {
    match managerClose
    case Fail(e) => if e.IOException? then Fail(IOException(CloseFailedMessage, Some(e))) else managerClose
    case Pass => Pass
  }

  class SinkWriter {
    const serializer: Serializer
    /** The row serializer classes, seen as the function they compute. */
    const render: (Serializer, ConnectorCommon.Row) -> string
    const manager: SinkManager

    constructor(serializer: Serializer, render: (Serializer, ConnectorCommon.Row) -> string, manager: SinkManager)
      ensures this.serializer == serializer && this.render == render && this.manager == manager
    {
      this.serializer := serializer;
      this.render := render;
      this.manager := manager;
    }

    /** write: exactly the serialized row goes to the manager. */
    method Write(element: ConnectorCommon.Row) returns (o: Outcome<Exception>)
      requires manager.Valid()
      modifies manager
      ensures (manager.State(), o) == WriteSpec(manager.config, old(manager.State()), render(serializer, element))
      ensures manager.Valid()
    {
      var record := render(serializer, element);
      o := manager.Write(record);
    }

    /** prepareCommit: flush the manager, then give the empty commit info of AbstractSinkWriter. */
    method PrepareCommit() returns (r: Result<Option<()>, Exception>)
      requires manager.Valid()
      modifies manager
      ensures manager.State() == FlushSpec(manager.config, old(manager.State())).0
      ensures var flushed := FlushSpec(manager.config, old(manager.State())).1;
        r == if flushed.Fail? then Err(flushed.error) else Ok(None)
      ensures r.Ok? ==> manager.State().batch == []
      ensures manager.Valid()
    {
      var o := manager.Flush();
      if o.Fail? {
        return Err(o.error);
      }
      FlushPassEmpties(manager.config, old(manager.State()));
      r := Ok(None);
    }

    method Close() returns (o: Outcome<Exception>)
      requires manager.Valid()
      modifies manager
      ensures manager.State() == CloseSpec(manager.config, old(manager.State())).0
      ensures o == CloseOutcome(CloseSpec(manager.config, old(manager.State())).1)
      ensures manager.Valid()
    {
      var closed := manager.Close();
      o := CloseOutcome(closed);
    }
  }
}
