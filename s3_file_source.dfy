/** The S3 file source's `prepare`: the required keys are checked, a read strategy is chosen
    by file type, the files under the path are listed, and the row type is either the
    user's schema (for CSV, TEXT and JSON only) or read from the first listed file. */
module S3FileSource {
  import opened Wrappers
  import opened JavaText
  import opened JavaErrors
  import opened TypesafeConfig
  import opened ConnectorCommon

  /** FileSystemType.S3.getFileSystemPluginName(). */
  const PluginName: string := "S3File"

  const FilePathKey: string := "path"
  const FileTypeKey: string := "type"
  const BucketKey: string := "bucket"
  const AccessKeyKey: string := "access_key"
  const SecretKeyKey: string := "secret_key"
  const SchemaKey: string := "schema"

  const ListingMessage: string := "Check file path fail."
  const SchemaReadMessage: string := "Read file schema error."
  const ColumnarSchemaMessage: string := "SeaTunnel does not support user-defined schema for [parquet, orc] files"

  /** A read strategy: the file type it was made for, the plugin config it was given, and the
      user-defined row type it was told about. */
  datatype ReadStrategy = ReadStrategy(fileType: string, pluginConfig: Option<Config>, userRowType: Option<RowType>)

  /** What prepare calls that lives outside this model: ReadStrategyFactory.of, S3Conf, the
      file listing (None for an IOException), reading a file's schema (None for a
      FilePluginException), and the strategy's actual row type for a user-defined one. */
  datatype Environment = Environment(
    strategyOf: string -> Result<ReadStrategy, Exception>,
    s3Conf: Config -> string,
    listFiles: (string, string) -> Option<seq<string>>,
    schemaOf: (ReadStrategy, string, string) -> Option<RowType>,
    actualRowType: ReadStrategy -> RowType)

  /** The fields of BaseFileSource that prepare sets. */
  datatype SourceState = SourceState(
    readStrategy: Option<ReadStrategy>,
    hadoopConf: Option<string>,
    filePaths: Option<seq<string>>,
    rowType: Option<RowType>)

  function RequiredCheck(c: Config): CheckResult {
    CheckAllExists(c, [FilePathKey, FileTypeKey, BucketKey, AccessKeyKey, SecretKeyKey])
  }

  /** The first steps of `prepare`: the check, the strategy, the Hadoop configuration and the listing. */
  function Setup(c: Config, env: Environment, s: SourceState): (r: (SourceState, Outcome<Exception>))
    ensures r.1 == Pass ==> r.0.readStrategy.Some? && r.0.hadoopConf.Some? && r.0.filePaths.Some?
    ensures r.0.rowType == s.rowType
  {
    var check := RequiredCheck(c);
    if !check.IsSuccess() then (s, Fail(PrepareFailException(PluginName, Source, check.Msg())))
    else
      match GetString(c, FileTypeKey)
      case Err(e) => (s, Fail(e))
      case Ok(fileType) =>
        match env.strategyOf(fileType)
        case Err(e) => (s, Fail(e))
        case Ok(strategy) =>
          var s1 := s.(readStrategy := Some(strategy.(pluginConfig := Some(c))));
          match GetString(c, FilePathKey)
          case Err(e) => (s1, Fail(e))
          case Ok(path) =>
            var conf := env.s3Conf(c);
            var s2 := s1.(hadoopConf := Some(conf));
            match env.listFiles(conf, path)
            case None => (s2, Fail(PrepareFailException(PluginName, Source, ListingMessage)))
            case Some(files) => (s2.(filePaths := Some(files)), Pass)
  }

  /** The schema steps of `prepare`, on the strategy, configuration and files that Setup left. */
  function ResolveRowType(c: Config, env: Environment, s: SourceState): (SourceState, Outcome<Exception>)
    requires s.readStrategy.Some? && s.hadoopConf.Some? && s.filePaths.Some?
  {
    var strategy := s.readStrategy.value;
    match GetString(c, FileTypeKey)
    case Err(e) => (s, Fail(e))
    case Ok(fileType) =>
      match FileFormatValueOf(ToUpper(fileType))
      case Err(e) => (s, Fail(e))
      case Ok(format) =>
        if HasPath(c, SchemaKey) then
          match format
          case Orc => (s, Fail(UnsupportedOperationException(ColumnarSchemaMessage)))
          case Parquet => (s, Fail(UnsupportedOperationException(ColumnarSchemaMessage)))
          case _ =>
            match GetConfig(c, SchemaKey)
            case Err(e) => (s, Fail(e))
            case Ok(schema) =>
              var told := strategy.(userRowType := Some(FromSchema(schema)));
              (s.(readStrategy := Some(told), rowType := Some(env.actualRowType(told))), Pass)
        else
          var files := s.filePaths.value;
          if |files| == 0 then (s, Fail(IndexOutOfBoundsException(0)))
          else
            match env.schemaOf(strategy, s.hadoopConf.value, files[0])
            case None => (s, Fail(PrepareFailException(PluginName, Source, SchemaReadMessage)))
            case Some(rowType) => (s.(rowType := Some(rowType)), Pass)
  }

  function PrepareSpec(c: Config, env: Environment, s: SourceState): (SourceState, Outcome<Exception>) {
    var (s1, o1) := Setup(c, env, s);
    if o1.Fail? then (s1, o1)
    else
      ResolveRowType(c, env, s1)
  }

  // ----- What prepare promises -----

  /** path, type, bucket, access key and secret key are all required, and nothing is set
      when one is missing. */
  lemma RequiresAllKeys(c: Config, env: Environment, s: SourceState)
    ensures !RequiredCheck(c).IsSuccess() ==>
      PrepareSpec(c, env, s) == (s, Fail(PrepareFailException(PluginName, Source, RequiredCheck(c).Msg())))
    ensures PrepareSpec(c, env, s).1 == Pass ==>
      && IsValidParam(c, FilePathKey) && IsValidParam(c, FileTypeKey) && IsValidParam(c, BucketKey)
      && IsValidParam(c, AccessKeyKey) && IsValidParam(c, SecretKeyKey)
  {
    var keys := [FilePathKey, FileTypeKey, BucketKey, AccessKeyKey, SecretKeyKey];
    if PrepareSpec(c, env, s).1 == Pass {
      assert RequiredCheck(c).IsSuccess();
      assert forall i | 0 <= i < |keys| :: IsValidParam(c, keys[i]);
      assert keys[0] == FilePathKey && keys[1] == FileTypeKey && keys[2] == BucketKey;
      assert keys[3] == AccessKeyKey && keys[4] == SecretKeyKey;
    }
  }

  /** A failed listing is reported as "Check file path fail.", after the strategy, which
      holds the plugin config, and the Hadoop configuration are set. */
  lemma ListingFailure(c: Config, env: Environment, s: SourceState)
    requires RequiredCheck(c).IsSuccess()
    requires GetString(c, FileTypeKey).Ok? && env.strategyOf(GetString(c, FileTypeKey).value).Ok?
    requires GetString(c, FilePathKey).Ok?
    requires env.listFiles(env.s3Conf(c), GetString(c, FilePathKey).value).None?
    ensures PrepareSpec(c, env, s) ==
      (s.(readStrategy := Some(env.strategyOf(GetString(c, FileTypeKey).value).value.(pluginConfig := Some(c))),
          hadoopConf := Some(env.s3Conf(c))),
       Fail(PrepareFailException(PluginName, Source, ListingMessage)))
  {
  }

  /** After the setup, the file type is upper-cased into a FileFormat; an unknown one fails
      with valueOf's exception. */
  lemma FileTypeUpperCased(c: Config, env: Environment, s: SourceState)
    requires s.readStrategy.Some? && s.hadoopConf.Some? && s.filePaths.Some?
    requires GetString(c, FileTypeKey).Ok?
    requires FileFormatValueOf(ToUpper(GetString(c, FileTypeKey).value)).Err?
    ensures ResolveRowType(c, env, s) == (s, Fail(FileFormatValueOf(ToUpper(GetString(c, FileTypeKey).value)).error))
  {
  }

  /** With a schema, CSV, TEXT and JSON take the user-defined row type (then whatever the
      strategy makes of it), and ORC and PARQUET are refused. */
  lemma UserSchemaRule(c: Config, env: Environment, s: SourceState)
    requires s.readStrategy.Some? && s.hadoopConf.Some? && s.filePaths.Some?
    requires HasPath(c, SchemaKey)
    requires GetString(c, FileTypeKey).Ok? && FileFormatValueOf(ToUpper(GetString(c, FileTypeKey).value)).Ok?
    ensures var format := FileFormatValueOf(ToUpper(GetString(c, FileTypeKey).value)).value;
      var (s', o) := ResolveRowType(c, env, s);
      && (format in {Orc, Parquet} ==> o == Fail(UnsupportedOperationException(ColumnarSchemaMessage)) && s' == s)
      && (format in {Csv, Text, Json} && GetConfig(c, SchemaKey).Ok? ==>
            var told := s.readStrategy.value.(userRowType := Some(FromSchema(GetConfig(c, SchemaKey).value)));
            o == Pass && s' == s.(readStrategy := Some(told), rowType := Some(env.actualRowType(told))))
  {
  }

  /** Without a schema the row type is read from the first listed file; no file at all is an
      index error, and a read failure becomes "Read file schema error.". */
  lemma InferredSchemaRule(c: Config, env: Environment, s: SourceState)
    requires s.readStrategy.Some? && s.hadoopConf.Some? && s.filePaths.Some?
    requires !HasPath(c, SchemaKey)
    requires GetString(c, FileTypeKey).Ok? && FileFormatValueOf(ToUpper(GetString(c, FileTypeKey).value)).Ok?
    ensures var files := s.filePaths.value;
      var (s', o) := ResolveRowType(c, env, s);
      && (files == [] ==> o == Fail(IndexOutOfBoundsException(0)))
      && (files != [] ==>
            var t := env.schemaOf(s.readStrategy.value, s.hadoopConf.value, files[0]);
            && (t.None? ==> o == Fail(PrepareFailException(PluginName, Source, SchemaReadMessage)))
            && (t.Some? ==> o == Pass && s' == s.(rowType := t)))
  {
  }

  /** A successful prepare leaves the strategy for the configured type, holding the plugin
      config, the S3 configuration, the listing of the configured path, and a row type. */
  lemma Prepared(c: Config, env: Environment, s: SourceState)
    requires PrepareSpec(c, env, s).1 == Pass
    ensures GetString(c, FileTypeKey).Ok? && env.strategyOf(GetString(c, FileTypeKey).value).Ok?
    ensures GetString(c, FilePathKey).Ok?
    ensures var s' := PrepareSpec(c, env, s).0;
      && s'.readStrategy.Some?
      && s'.readStrategy.value.(userRowType := None) ==
           env.strategyOf(GetString(c, FileTypeKey).value).value.(pluginConfig := Some(c), userRowType := None)
      && s'.hadoopConf == Some(env.s3Conf(c))
      && s'.filePaths == env.listFiles(env.s3Conf(c), GetString(c, FilePathKey).value)
      && s'.rowType.Some?
  {
  }

  // ----- The source -----

  class S3FileSourceObject {
    var readStrategy: Option<ReadStrategy>
    var hadoopConf: Option<string>
    var filePaths: Option<seq<string>>
    var rowType: Option<RowType>

    function State(): SourceState
      reads this
    {
      SourceState(readStrategy, hadoopConf, filePaths, rowType)
    }

    constructor()
      ensures State() == SourceState(None, None, None, None)
    {
      readStrategy := None;
      hadoopConf := None;
      filePaths := None;
      rowType := None;
    }

    method Prepare(c: Config, env: Environment) returns (o: Outcome<Exception>)
      modifies this
      ensures (State(), o) == PrepareSpec(c, env, old(State()))
    {
      var result := CheckAllExists(c, [FilePathKey, FileTypeKey, BucketKey, AccessKeyKey, SecretKeyKey]);
      if !result.IsSuccess() {
        return Fail(PrepareFailException(PluginName, Source, result.Msg()));
      }
      var fileType := GetString(c, FileTypeKey);
      if fileType.Err? {
        return Fail(fileType.error);
      }
      var strategy := env.strategyOf(fileType.value);
      if strategy.Err? {
        return Fail(strategy.error);
      }
      readStrategy := Some(strategy.value.(pluginConfig := Some(c)));
      var path := GetString(c, FilePathKey);
      if path.Err? {
        return Fail(path.error);
      }
      hadoopConf := Some(env.s3Conf(c));
      var files := env.listFiles(hadoopConf.value, path.value);
      if files.None? {
        return Fail(PrepareFailException(PluginName, Source, ListingMessage));
      }
      filePaths := files;
      o := ResolveFields(c, env);
    }

    method ResolveFields(c: Config, env: Environment) returns (o: Outcome<Exception>)
      requires readStrategy.Some? && hadoopConf.Some? && filePaths.Some?
      modifies this
      ensures (State(), o) == ResolveRowType(c, env, old(State()))
    {
      var fileType := GetString(c, FileTypeKey);
      if fileType.Err? {
        return Fail(fileType.error);
      }
      var format := FileFormatValueOf(ToUpper(fileType.value));
      if format.Err? {
        return Fail(format.error);
      }
      if HasPath(c, SchemaKey) {
        match format.value {
          case Orc =>
            return Fail(UnsupportedOperationException(ColumnarSchemaMessage));
          case Parquet =>
            return Fail(UnsupportedOperationException(ColumnarSchemaMessage));
          case _ =>
            var schema := GetConfig(c, SchemaKey);
            if schema.Err? {
              return Fail(schema.error);
            }
            readStrategy := Some(readStrategy.value.(userRowType := Some(FromSchema(schema.value))));
            rowType := Some(env.actualRowType(readStrategy.value));
        }
      } else {
        if |filePaths.value| == 0 {
          return Fail(IndexOutOfBoundsException(0));
        }
        var read := env.schemaOf(readStrategy.value, hadoopConf.value, filePaths.value[0]);
        if read.None? {
          return Fail(PrepareFailException(PluginName, Source, SchemaReadMessage));
        }
        rowType := read;
      }
      o := Pass;
    }
  }
}
