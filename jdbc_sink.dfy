/** The JDBC sink: prepare reads the sink config and loads a dialect for its URL, and the
    exactly-once flag decides which writer is made, whether restored states reach it, and
    whether a committer and the commit serializers exist. */
module JdbcSink {
  import opened Wrappers
  import opened JavaErrors
  import opened TypesafeConfig
  import opened ConnectorCommon

  const PluginName: string := "Jdbc"

  /** The parts of JdbcSinkConfig this file reads: the connection URL and the exactly-once flag. */
  datatype JdbcSinkConfig = JdbcSinkConfig(url: string, exactlyOnce: bool)

  /** A JDBC dialect, as JdbcDialectLoader picks it. */
  datatype JdbcDialect = JdbcDialect(name: string)

  /** What a writer is made in: the subtask's context. */
  datatype WriterContext = WriterContext(subtaskIndex: nat)

  /** A snapshot state of a JDBC writer: the XA transaction it holds. */
  datatype JdbcSinkState = JdbcSinkState(xid: string)

  datatype Writer =
    | JdbcExactlyOnceSinkWriter(context: WriterContext, jobContext: Option<JobMode>, dialect: Option<JdbcDialect>,
                                sinkConfig: JdbcSinkConfig, rowType: Option<RowType>, states: seq<JdbcSinkState>)
    | JdbcSinkWriter(context: WriterContext, dialect: Option<JdbcDialect>, sinkConfig: JdbcSinkConfig, rowType: Option<RowType>)

  datatype AggregatedCommitter = JdbcSinkAggregatedCommitter(sinkConfig: JdbcSinkConfig)

  /** A DefaultSerializer, for commit infos or for aggregated commit infos. */
  datatype Serializer = DefaultSerializer

  /** JdbcSinkConfig.of(ReadonlyConfig.fromConfig(c)) and JdbcDialectLoader.load live outside
      this model and are given as functions. */
  datatype Environment = Environment(sinkConfigOf: Config -> Result<JdbcSinkConfig, Exception>,
                                     loadDialect: string -> Result<JdbcDialect, Exception>)

  datatype SinkState = SinkState(
    pluginConfig: Option<Config>,
    rowType: Option<RowType>,
    jobContext: Option<JobMode>,
    sinkConfig: Option<JdbcSinkConfig>,
    dialect: Option<JdbcDialect>)

  /** prepare: the sink config, then the plugin config, then the dialect. */
  function PrepareSpec(c: Config, env: Environment, s: SinkState): (SinkState, Outcome<Exception>) {
    match env.sinkConfigOf(c)
    case Err(e) => (s, Fail(e))
    case Ok(config) =>
      var s1 := s.(sinkConfig := Some(config), pluginConfig := Some(c));
      match env.loadDialect(config.url)
      case Err(e) => (s1, Fail(e))
      case Ok(dialect) => (s1.(dialect := Some(dialect)), Pass)
  }

  /** Reading the exactly-once flag of a sink that was never prepared is a null dereference. */
  const Unprepared: Exception := NullPointerException("")

  /** createWriter: exactly-once picks the XA writer, otherwise the plain one. */
  function WriterFor(s: SinkState, context: WriterContext): Result<Writer, Exception> {
    match s.sinkConfig
    case None => Err(Unprepared)
    case Some(config) =>
      if config.exactlyOnce then Ok(JdbcExactlyOnceSinkWriter(context, s.jobContext, s.dialect, config, s.rowType, []))
      else Ok(JdbcSinkWriter(context, s.dialect, config, s.rowType))
  }

  /** restoreWriter. Otherwise the interface's default applies, which makes a
      fresh writer as createWriter does. */
  function RestoredWriterFor(s: SinkState, context: WriterContext, states: seq<JdbcSinkState>): Result<Writer, Exception> {
    match s.sinkConfig
    case None => Err(Unprepared)
    case Some(config) =>
      if config.exactlyOnce then Ok(JdbcExactlyOnceSinkWriter(context, s.jobContext, s.dialect, config, s.rowType, states))
      else WriterFor(s, context)
  }

  /** createAggregatedCommitter: a committer only for exactly-once. */
  function CommitterFor(s: SinkState): Result<Option<AggregatedCommitter>, Exception> {
    match s.sinkConfig
    case None => Err(Unprepared)
    case Some(config) => Ok(if config.exactlyOnce then Some(JdbcSinkAggregatedCommitter(config)) else None)
  }

  /** getAggregatedCommitInfoSerializer and getCommitInfoSerializer: the two
      are gated the same way. */
  function SerializerFor(s: SinkState): Result<Option<Serializer>, Exception> {
    match s.sinkConfig
    case None => Err(Unprepared)
    case Some(config) => Ok(if config.exactlyOnce then Some(DefaultSerializer) else None)
  }

  // ----- What the sink promises -----

  /** A successful prepare keeps the plugin config, the sink config read from it, and the
      dialect loaded for that config's URL; a failed dialect load still leaves both configs. */
  lemma PrepareRule(c: Config, env: Environment, s: SinkState)
    ensures env.sinkConfigOf(c).Err? ==> PrepareSpec(c, env, s) == (s, Fail(env.sinkConfigOf(c).error))
    ensures var (s', o) := PrepareSpec(c, env, s);
      && s'.rowType == s.rowType && s'.jobContext == s.jobContext
      && (env.sinkConfigOf(c).Ok? ==>
            var config := env.sinkConfigOf(c).value;
            && s'.sinkConfig == Some(config) && s'.pluginConfig == Some(c)
            && (o == Pass <==> env.loadDialect(config.url).Ok?)
            && (o == Pass ==> s'.dialect == Some(env.loadDialect(config.url).value)))
  {
  }

  /** Before prepare none of the gated operations can answer. */
  lemma UnpreparedFails(s: SinkState, context: WriterContext, states: seq<JdbcSinkState>)
    requires s.sinkConfig.None?
    ensures WriterFor(s, context).Err? && RestoredWriterFor(s, context, states).Err?
    ensures CommitterFor(s).Err? && SerializerFor(s).Err?
  {
  }

  /** createWriter makes the exactly-once writer, with no states, exactly when exactly-once is
      configured, and the plain writer otherwise; either is made on the sink's dialect, config
      and row type. */
  lemma CreatedWriterGating(s: SinkState, context: WriterContext)
    requires s.sinkConfig.Some?
    ensures WriterFor(s, context).Ok?
    ensures var w := WriterFor(s, context).value;
      && (w.JdbcExactlyOnceSinkWriter? <==> s.sinkConfig.value.exactlyOnce)
      && (w.JdbcExactlyOnceSinkWriter? ==> w.states == [] && w.jobContext == s.jobContext)
      && w.context == context && w.dialect == s.dialect && w.sinkConfig == s.sinkConfig.value && w.rowType == s.rowType
  {
  }

  /** restoreWriter hands the restored states to the writer only in exactly-once mode; in the
      other mode it is createWriter and the states are dropped. */
  lemma RestoredWriterGating(s: SinkState, context: WriterContext, states: seq<JdbcSinkState>)
    requires s.sinkConfig.Some?
    ensures RestoredWriterFor(s, context, states).Ok?
    ensures s.sinkConfig.value.exactlyOnce ==>
      && WriterFor(s, context).value.JdbcExactlyOnceSinkWriter?
      && RestoredWriterFor(s, context, states).value == WriterFor(s, context).value.(states := states)
    ensures !s.sinkConfig.value.exactlyOnce ==>
      RestoredWriterFor(s, context, states) == WriterFor(s, context) && RestoredWriterFor(s, context, states).value.JdbcSinkWriter?
  {
  }

  /** Restoring from no states is creating. */
  lemma RestoreNothingIsCreate(s: SinkState, context: WriterContext)
    ensures RestoredWriterFor(s, context, []) == WriterFor(s, context)
  {
  }

  /** The committer and both serializers exist exactly in exactly-once mode, so they agree
      with the kind of writer made. */
  lemma CommitPartsGating(s: SinkState, context: WriterContext)
    requires s.sinkConfig.Some?
    ensures CommitterFor(s).Ok? && SerializerFor(s).Ok?
    ensures CommitterFor(s).value.Some? <==> s.sinkConfig.value.exactlyOnce
    ensures CommitterFor(s).value.Some? ==> CommitterFor(s).value.value.sinkConfig == s.sinkConfig.value
    ensures SerializerFor(s).value.Some? <==> s.sinkConfig.value.exactlyOnce
    ensures CommitterFor(s).value.Some? <==> WriterFor(s, context).value.JdbcExactlyOnceSinkWriter?
  {
  }

  // ----- The sink -----

  class JdbcSinkObject {
    var pluginConfig: Option<Config>
    var seaTunnelRowType: Option<RowType>
    var jobContext: Option<JobMode>
    var jdbcSinkConfig: Option<JdbcSinkConfig>
    var dialect: Option<JdbcDialect>

    function State(): SinkState
      reads this
    {
      SinkState(pluginConfig, seaTunnelRowType, jobContext, jdbcSinkConfig, dialect)
    }

    constructor()
      ensures State() == SinkState(None, None, None, None, None)
    {
      pluginConfig := None;
      seaTunnelRowType := None;
      jobContext := None;
      jdbcSinkConfig := None;
      dialect := None;
    }

    method Prepare(c: Config, env: Environment) returns (o: Outcome<Exception>)
      modifies this
      ensures (State(), o) == PrepareSpec(c, env, old(State()))
    {
      var config := env.sinkConfigOf(c);
      if config.Err? {
        return Fail(config.error);
      }
      jdbcSinkConfig := Some(config.value);
      pluginConfig := Some(c);
      var loaded := env.loadDialect(config.value.url);
      if loaded.Err? {
        return Fail(loaded.error);
      }
      dialect := Some(loaded.value);
      o := Pass;
    }

    method SetTypeInfo(rowType: RowType)
      modifies this
      ensures State() == old(State()).(rowType := Some(rowType))
    {
      seaTunnelRowType := Some(rowType);
    }

    method SetJobContext(mode: JobMode)
      modifies this
      ensures State() == old(State()).(jobContext := Some(mode))
    {
      jobContext := Some(mode);
    }

    method GetConsumedType() returns (r: Option<RowType>)
      ensures r == seaTunnelRowType
    {
      r := seaTunnelRowType;
    }

    method CreateWriter(context: WriterContext) returns (r: Result<Writer, Exception>)
      ensures r == WriterFor(State(), context)
      ensures r.Ok? <==> jdbcSinkConfig.Some?
      ensures r.Ok? ==> (r.value.JdbcExactlyOnceSinkWriter? <==> jdbcSinkConfig.value.exactlyOnce)
    {
      if jdbcSinkConfig.None? {
        return Err(Unprepared);
      }
      if jdbcSinkConfig.value.exactlyOnce {
        r := Ok(JdbcExactlyOnceSinkWriter(context, jobContext, dialect, jdbcSinkConfig.value, seaTunnelRowType, []));
      } else {
        r := Ok(JdbcSinkWriter(context, dialect, jdbcSinkConfig.value, seaTunnelRowType));
      }
    }

    method RestoreWriter(context: WriterContext, states: seq<JdbcSinkState>) returns (r: Result<Writer, Exception>)
      ensures r == RestoredWriterFor(State(), context, states)
      ensures r.Ok? && r.value.JdbcExactlyOnceSinkWriter? ==> r.value.states == states
    {
      if jdbcSinkConfig.None? {
        return Err(Unprepared);
      }
      if jdbcSinkConfig.value.exactlyOnce {
        return Ok(JdbcExactlyOnceSinkWriter(context, jobContext, dialect, jdbcSinkConfig.value, seaTunnelRowType, states));
      }
      r := CreateWriter(context);
    }

    method CreateAggregatedCommitter() returns (r: Result<Option<AggregatedCommitter>, Exception>)
      ensures r == CommitterFor(State())
      ensures r.Ok? ==> (r.value.Some? <==> jdbcSinkConfig.value.exactlyOnce)
    {
      if jdbcSinkConfig.None? {
        return Err(Unprepared);
      }
      if jdbcSinkConfig.value.exactlyOnce {
        return Ok(Some(JdbcSinkAggregatedCommitter(jdbcSinkConfig.value)));
      }
      r := Ok(None);
    }

    method GetAggregatedCommitInfoSerializer() returns (r: Result<Option<Serializer>, Exception>)
      ensures r == SerializerFor(State())
      ensures r.Ok? ==> (r.value.Some? <==> jdbcSinkConfig.value.exactlyOnce)
    {
      if jdbcSinkConfig.None? {
        return Err(Unprepared);
      }
      if jdbcSinkConfig.value.exactlyOnce {
        return Ok(Some(DefaultSerializer));
      }
      r := Ok(None);
    }

    method GetCommitInfoSerializer() returns (r: Result<Option<Serializer>, Exception>)
      ensures r == SerializerFor(State())
      ensures r.Ok? ==> (r.value.Some? <==> jdbcSinkConfig.value.exactlyOnce)
    {
      if jdbcSinkConfig.None? {
        return Err(Unprepared);
      }
      if jdbcSinkConfig.value.exactlyOnce {
        return Ok(Some(DefaultSerializer));
      }
      r := Ok(None);
    }
  }
}
