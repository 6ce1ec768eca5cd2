/** The HTTP source: `url` is required, the request parameters are built from the plugin
    config, and the row type and deserializer come from the schema and format keys. */
module HttpSource {
  import opened Wrappers
  import opened JavaErrors
  import opened TypesafeConfig
  import opened ConnectorCommon

  const PluginName: string := "Http"
  const UrlKey: string := "url"
  const FormatKey: string := "format"
  const SchemaKey: string := "schema"
  /** HttpConfig.DEFAULT_FORMAT. */
  const DefaultFormat: string := "json"

  /** The deserializers the source can be given; the JSON one is made with both of its flags
      (fail on missing field, ignore parse errors) false. */
  datatype Deserializer =
    | JsonDeserializer(failOnMissingField: bool, ignoreParseErrors: bool, rowType: RowType)
    | SimpleTextDeserializer(rowType: RowType)

  /** The fields prepare sets: the config the HttpParameter was built from, the row type and
      the deserializer. */
  datatype SourceState = SourceState(httpParameter: Option<Config>, rowType: Option<RowType>, deserializer: Option<Deserializer>)

  /** HttpParameter.buildWithConfig lives outside this model: it is given as whether it throws. */
  type ParameterBuild = Config -> Outcome<Exception>

  /** buildSchemaWithConfig. The row type is set before the format is examined,
      so an unsupported format leaves the row type set and the deserializer as it was. */
  function BuildSchema(c: Config, s: SourceState): (SourceState, Outcome<Exception>) {
    if HasPath(c, SchemaKey) then
      match GetConfig(c, SchemaKey)
      case Err(e) => (s, Fail(e))
      case Ok(schema) =>
        var rowType := FromSchema(schema);
        var s1 := s.(rowType := Some(rowType));
        var format := if HasPath(c, FormatKey) then GetString(c, FormatKey) else Ok(DefaultFormat);
        match format
        case Err(e) => (s1, Fail(e))
        case Ok(name) =>
          if name == DefaultFormat then (s1.(deserializer := Some(JsonDeserializer(false, false, rowType))), Pass)
          else (s1, Fail(UnsupportedOperationException("Unsupported format: " + name)))
    else
      (s.(rowType := Some(SimpleTextSchema), deserializer := Some(SimpleTextDeserializer(SimpleTextSchema))), Pass)
  }

  function RequiredCheck(c: Config): CheckResult {
    CheckAllExists(c, [UrlKey])
  }

  /** prepare: the required-option check, the parameters, then the schema. */
  function PrepareSpec(c: Config, build: ParameterBuild, s: SourceState): (SourceState, Outcome<Exception>) {
    var check := RequiredCheck(c);
    if !check.IsSuccess() then (s, Fail(PrepareFailException(PluginName, Source, check.Msg())))
    else
      match build(c)
      case Fail(e) => (s, Fail(e))
      case Pass => BuildSchema(c, s.(httpParameter := Some(c)))
  }

  // ----- What prepare promises -----

  /** `url` is required: without it prepare fails with the check's message and changes
      nothing; with it, the parameters are built from the config. */
  lemma RequiresUrl(c: Config, build: ParameterBuild, s: SourceState)
    ensures !IsValidParam(c, UrlKey) ==>
      PrepareSpec(c, build, s) == (s, Fail(PrepareFailException(PluginName, Source, "please specify [" + UrlKey + "] as non-empty")))
    ensures PrepareSpec(c, build, s).1 == Pass ==> IsValidParam(c, UrlKey) && PrepareSpec(c, build, s).0.httpParameter == Some(c)
  {
    var keys := [UrlKey];
    if !IsValidParam(c, UrlKey) {
      assert MissingParams(c, keys) == [UrlKey] by {
        MissingParamsAll(c, keys);
      }
      assert RequiredCheck(c).Msg() == "please specify [" + UrlKey + "] as non-empty";
    }
  }

  /** With a schema the format defaults to json; json gives the JSON deserializer on the
      schema's row type, and any other format is refused after the row type is set. */
  lemma SchemaFormatRule(c: Config, s: SourceState)
    requires HasPath(c, SchemaKey) && GetConfig(c, SchemaKey).Ok?
    ensures var rowType := FromSchema(GetConfig(c, SchemaKey).value);
      var (s', o) := BuildSchema(c, s);
      && s'.rowType == Some(rowType)
      && s'.httpParameter == s.httpParameter
      && (!HasPath(c, FormatKey) ==> o == Pass && s'.deserializer == Some(JsonDeserializer(false, false, rowType)))
      && (GetString(c, FormatKey).Ok? ==>
            var name := GetString(c, FormatKey).value;
            && (name == DefaultFormat ==> o == Pass && s'.deserializer == Some(JsonDeserializer(false, false, rowType)))
            && (name != DefaultFormat ==> o == Fail(UnsupportedOperationException("Unsupported format: " + name)) && s'.deserializer == s.deserializer))
  {
  }

  /** A successful schema build with a schema always leaves a JSON deserializer on the
      schema's row type. */
  lemma SchemaMeansJson(c: Config, s: SourceState)
    requires HasPath(c, SchemaKey) && BuildSchema(c, s).1 == Pass
    ensures GetConfig(c, SchemaKey).Ok?
    ensures !HasPath(c, FormatKey) || GetString(c, FormatKey) == Ok(DefaultFormat)
    ensures BuildSchema(c, s).0.deserializer == Some(JsonDeserializer(false, false, FromSchema(GetConfig(c, SchemaKey).value)))
  {
  }

  /** Without a schema the simple text schema and its deserializer are used, whatever the
      format says. */
  lemma SimpleTextWithoutSchema(c: Config, s: SourceState)
    requires !HasPath(c, SchemaKey)
    ensures BuildSchema(c, s) ==
      (SourceState(s.httpParameter, Some(SimpleTextSchema), Some(SimpleTextDeserializer(SimpleTextSchema))), Pass)
  {
  }

  /** A successful prepare leaves the parameters built, a row type and a deserializer on that
      same row type. */
  lemma Prepared(c: Config, build: ParameterBuild, s: SourceState)
    requires PrepareSpec(c, build, s).1 == Pass
    ensures var s' := PrepareSpec(c, build, s).0;
      && s'.httpParameter == Some(c)
      && s'.rowType.Some? && s'.deserializer.Some?
      && s'.deserializer.value.rowType == s'.rowType.value
  {
  }

  // ----- The source -----

  /** The reader is given the parameters and the deserializer. */
  datatype Reader = HttpSourceReader(httpParameter: Option<Config>, deserializer: Option<Deserializer>)

  class HttpSourceObject {
    var httpParameter: Option<Config>
    var rowType: Option<RowType>
    var deserializationSchema: Option<Deserializer>
    var jobContext: Option<JobMode>

    function State(): SourceState
      reads this
    {
      SourceState(httpParameter, rowType, deserializationSchema)
    }

    constructor()
      ensures State() == SourceState(None, None, None) && jobContext == None
    {
      httpParameter := None;
      rowType := None;
      deserializationSchema := None;
      jobContext := None;
    }

    /** getBoundedness; without a job context the mode cannot be read. */
    method GetBoundedness() returns (r: Result<Boundedness, Exception>)
      ensures jobContext.None? ==> r.Err? && r.error.NullPointerException?
      ensures jobContext.Some? ==> r == Ok(BoundednessOf(jobContext.value))
      ensures r.Ok? ==> (r.value == Bounded <==> jobContext == Some(Batch))
    {
      if jobContext.None? {
        return Err(NullPointerException(""));
      }
      r := Ok(if jobContext.value == Batch then Bounded else Unbounded);
    }

    method SetJobContext(mode: JobMode)
      modifies this
      ensures jobContext == Some(mode) && State() == old(State())
    {
      jobContext := Some(mode);
    }

    method Prepare(c: Config, build: ParameterBuild) returns (o: Outcome<Exception>)
      modifies this
      ensures (State(), o) == PrepareSpec(c, build, old(State()))
      ensures jobContext == old(jobContext)
    {
      var result := CheckAllExists(c, [UrlKey]);
      if !result.IsSuccess() {
        return Fail(PrepareFailException(PluginName, Source, result.Msg()));
      }
      var built := build(c);
      if built.Fail? {
        return built;
      }
      httpParameter := Some(c);
      o := BuildSchemaWithConfig(c);
    }

    method BuildSchemaWithConfig(c: Config) returns (o: Outcome<Exception>)
      modifies this
      ensures (State(), o) == BuildSchema(c, old(State()))
      ensures jobContext == old(jobContext)
    {
      if HasPath(c, SchemaKey) {
        var schema := GetConfig(c, SchemaKey);
        if schema.Err? {
          return Fail(schema.error);
        }
        rowType := Some(FromSchema(schema.value));
        var format := DefaultFormat;
        if HasPath(c, FormatKey) {
          var read := GetString(c, FormatKey);
          if read.Err? {
            return Fail(read.error);
          }
          format := read.value;
        }
        if format == DefaultFormat {
          deserializationSchema := Some(JsonDeserializer(false, false, rowType.value));
        } else {
          return Fail(UnsupportedOperationException("Unsupported format: " + format));
        }
      } else {
        rowType := Some(SimpleTextSchema);
        deserializationSchema := Some(SimpleTextDeserializer(rowType.value));
      }
      o := Pass;
    }

    method GetProducedType() returns (r: Option<RowType>)
      ensures r == rowType
    {
      r := rowType;
    }

    method CreateReader() returns (r: Reader)
      ensures r == HttpSourceReader(httpParameter, deserializationSchema)
    {
      r := HttpSourceReader(httpParameter, deserializationSchema);
    }
  }
}
