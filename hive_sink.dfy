/** The Hive sink's `prepare`: it looks the table up in the metastore and rewrites the plugin
    config into the settings of the HDFS file sink underneath it (format, delimiters, columns,
    partitions, save mode and path), and splits the table location into the file system
    address and the path. */
module HiveSink {
  import opened Wrappers
  import opened JavaText
  import opened JavaErrors
  import opened TypesafeConfig
  import opened ConnectorCommon
  import BaseTextFileConfig

  /** getPluginName. */
  const PluginName: string := "Hive"

  const MetastoreUriKey: string := "metastore_uri"
  const TableNameKey: string := "table_name"
  const FileFormatKey: string := BaseTextFileConfig.FileFormatKey
  const FieldDelimiterKey: string := BaseTextFileConfig.FieldDelimiterKey
  const RowDelimiterKey: string := BaseTextFileConfig.RowDelimiterKey
  const FileNameExpressionKey: string := BaseTextFileConfig.FileNameExpressionKey
  const PathKey: string := BaseTextFileConfig.PathKey
  const PartitionFieldWriteKey: string := "is_partition_field_write_in_file"
  const SinkColumnsKey: string := "sink_columns"
  const PartitionByKey: string := "partition_by"
  const SaveModeKey: string := "save_mode"

  const TextOutputFormat: string := "org.apache.hadoop.hive.ql.io.HiveIgnoreKeyTextOutputFormat"
  const ParquetOutputFormat: string := "org.apache.hadoop.hive.ql.io.parquet.MapredParquetOutputFormat"
  const OrcOutputFormat: string := "org.apache.hadoop.hive.ql.io.orc.OrcOutputFormat"

  const FormatMessage: string := "Only support [text parquet orc] file now"
  const AddressMessage: string := "Get hdfs cluster address failed, please check."
  const TransactionFileName: string := "${transactionId}"
  const AppendMode: string := "APPEND"

  /** The parts of a metastore `Table` that the sink reads. */
  datatype HiveTable = HiveTable(
    columns: seq<string>,
    partitionKeys: seq<string>,
    outputFormat: string,
    serdeParameters: map<string, string>,
    location: string)

  /** HiveConfig.getTableInfo: the split "db.table" name and the table, or what the lookup
      throws. */
  type TableLookup = Config -> Result<(seq<string>, HiveTable), Exception>

  /** new URI(s).getPath(): a syntax error, or the path component, which may be null. */
  datatype ParsedUri = SyntaxError(reason: string) | Parsed(path: Option<string>)

  type UriParser = string -> ParsedUri

  /** The output format class names the sink writes, and the file format of each. */
  function FormatOf(outputFormat: string): (f: Option<FileFormat>)
    ensures f.Some? <==> outputFormat in {TextOutputFormat, ParquetOutputFormat, OrcOutputFormat}
    ensures f.Some? ==> f.value in {Text, Parquet, Orc}
  {
    if outputFormat == TextOutputFormat then Some(Text)
    else if outputFormat == ParquetOutputFormat then Some(Parquet)
    else if outputFormat == OrcOutputFormat then Some(Orc)
    else None
  }

  /** ConfigValueFactory.fromAnyRef(parameters.get(key)): null for a missing parameter. */
  function SerdeValue(t: HiveTable, key: string): ConfigValue {
    if key in t.serdeParameters then Str(t.serdeParameters[key]) else Null
  }

  /** Successive Config.withValue calls, in order. */
  function WithValues(c: Config, writes: seq<(string, ConfigValue)>): Config
    decreases |writes|
  {
    if writes == [] then c else WithValues(WithValue(c, writes[0].0, writes[0].1), writes[1..])
  }

  /** The step of `prepare` that checks the table's output format: what an accepted format
      writes into the config. */
  function FormatWrites(t: HiveTable): (w: Option<seq<(string, ConfigValue)>>)
    ensures w.Some? <==> FormatOf(t.outputFormat).Some?
  {
    if t.outputFormat == TextOutputFormat then
      Some([(FileFormatKey, Str(FileFormatName(Text))),
            (FieldDelimiterKey, SerdeValue(t, "field.delim")),
            (RowDelimiterKey, SerdeValue(t, "line.delim"))])
    else if t.outputFormat == ParquetOutputFormat then Some([(FileFormatKey, Str(FileFormatName(Parquet)))])
    else if t.outputFormat == OrcOutputFormat then Some([(FileFormatKey, Str(FileFormatName(Orc)))])
    else None
  }

  function WithFormat(c: Config, t: HiveTable): Result<Config, Exception> {
    match FormatWrites(t)
    case None => Err(RuntimeException(FormatMessage, None))
    case Some(writes) => Ok(WithValues(c, writes))
  }

  /** The steps of `prepare` around the format check: partition fields stay out of the files, the file name is the
      transaction id, and the columns and partitions come from the table. */
  function LayoutWrites(t: HiveTable): seq<(string, ConfigValue)> {
    [(PartitionFieldWriteKey, Bool(false)),
     (FileNameExpressionKey, Str(TransactionFileName)),
     (PathKey, Str(t.location)),
     (SinkColumnsKey, StrList(t.columns + t.partitionKeys)),
     (PartitionByKey, StrList(t.partitionKeys))]
  }

  function WithTableLayout(c: Config, t: HiveTable): Config {
    WithValues(c, LayoutWrites(t))
  }

  /** The step of `prepare` that defaults the save mode to append when none is configured. */
  function WithSaveMode(c: Config): Result<Config, Exception> {
    if !HasPath(c, SaveModeKey) then Ok(WithValue(c, SaveModeKey, Str(AppendMode)))
    else
      match GetString(c, SaveModeKey)
      case Err(e) => Err(e)
      case Ok(mode) => if IsBlank(mode) then Ok(WithValue(c, SaveModeKey, Str(AppendMode))) else Ok(c)
  }

  /** The last step of `prepare`, on the table's location: the config with the location's path, and the address left once that
      path is removed from the location. */
  function WithLocation(c: Config, location: string, parse: UriParser): Result<(Config, string), Exception> {
    match parse(location)
    case SyntaxError(reason) => Err(RuntimeException(AddressMessage, Some(URISyntaxException(location, reason))))
    case Parsed(None) => Err(NullPointerException(""))
    case Parsed(Some(path)) => Ok((WithValue(c, PathKey, Str(path)), RemoveAll(location, path)))
  }

  /** The rewriting in `prepare` once the table is known: the rewritten config and the Hadoop address. */
  function ConfigureSink(c: Config, t: HiveTable, parse: UriParser): Result<(Config, string), Exception> {
    var formatted :- WithFormat(c, t);
    var saved :- WithSaveMode(WithTableLayout(formatted, t));
    WithLocation(saved, t.location, parse)
  }

  /** The fields of HiveSink and of the HDFS file sink it extends that `prepare` sets. */
  datatype SinkState = SinkState(
    dbName: Option<string>,
    tableName: Option<string>,
    tableInformation: Option<HiveTable>,
    pluginConfig: Config,
    hadoopConf: Option<string>)

  function RequiredCheck(c: Config): CheckResult {
    CheckAllExists(c, [MetastoreUriKey, TableNameKey])
  }

  function PrepareSpec(c: Config, lookup: TableLookup, parse: UriParser, s: SinkState): (SinkState, Outcome<Exception>) {
    var check := RequiredCheck(c);
    if !check.IsSuccess() then (s, Fail(PrepareFailException(PluginName, Sink, check.Msg())))
    else
      match lookup(c)
      case Err(e) => (s, Fail(e))
      case Ok((names, t)) =>
        if |names| == 0 then (s, Fail(IndexOutOfBoundsException(0)))
        else
          var s1 := s.(dbName := Some(names[0]));
          if |names| == 1 then (s1, Fail(IndexOutOfBoundsException(1)))
          else
            var s2 := s1.(tableName := Some(names[1]), tableInformation := Some(t));
            match ConfigureSink(c, t, parse)
            case Err(e) => (s2, Fail(e))
            case Ok((conf, address)) => (s2.(pluginConfig := conf, hadoopConf := Some(address)), Pass)
  }

  // ----- Keys that do not overwrite each other -----

  /** Writing `p` leaves `k` alone. */
  predicate Apart(k: string, p: string) {
    k != p && !StartsWith(k, p + ".")
  }

  lemma ApartBy(k: string, p: string, i: nat)
    requires i < |k| && i < |p| && k[i] != p[i]
    ensures Apart(k, p) && Apart(p, k)
  {
    assert (p + ".")[i] == p[i];
    assert (k + ".")[i] == k[i];
  }

  /** A key under `q` is apart from any key that differs from `q` within both. */
  lemma UnderApart(k: string, q: string, p: string, i: nat)
    requires StartsWith(k, q) && i < |q| && i < |p| && q[i] != p[i]
    ensures Apart(k, p)
  {
    assert k[i] == k[..|q|][i];
    ApartBy(k, p, i);
  }

  /** `file_format` and the keys written after it. */
  lemma FileFormatApart()
    ensures Apart(FileFormatKey, FieldDelimiterKey) && Apart(FieldDelimiterKey, FileFormatKey)
    ensures Apart(FileFormatKey, RowDelimiterKey) && Apart(RowDelimiterKey, FileFormatKey)
    ensures Apart(FileFormatKey, PartitionFieldWriteKey) && Apart(PartitionFieldWriteKey, FileFormatKey)
    ensures Apart(FileFormatKey, FileNameExpressionKey) && Apart(FileNameExpressionKey, FileFormatKey)
    ensures Apart(FileFormatKey, PathKey) && Apart(PathKey, FileFormatKey)
    ensures Apart(FileFormatKey, SinkColumnsKey) && Apart(SinkColumnsKey, FileFormatKey)
    ensures Apart(FileFormatKey, PartitionByKey) && Apart(PartitionByKey, FileFormatKey)
    ensures Apart(FileFormatKey, SaveModeKey) && Apart(SaveModeKey, FileFormatKey)
  {
    ApartBy(FileFormatKey, FieldDelimiterKey, 2);
    ApartBy(FileFormatKey, RowDelimiterKey, 0);
    ApartBy(FileFormatKey, PartitionFieldWriteKey, 0);
    ApartBy(FileFormatKey, FileNameExpressionKey, 5);
    ApartBy(FileFormatKey, PathKey, 0);
    ApartBy(FileFormatKey, SinkColumnsKey, 0);
    ApartBy(FileFormatKey, PartitionByKey, 0);
    ApartBy(FileFormatKey, SaveModeKey, 0);
  }

  /** `field_delimiter` and the keys written after it. */
  lemma FieldDelimiterApart()
    ensures Apart(FieldDelimiterKey, RowDelimiterKey) && Apart(RowDelimiterKey, FieldDelimiterKey)
    ensures Apart(FieldDelimiterKey, PartitionFieldWriteKey) && Apart(PartitionFieldWriteKey, FieldDelimiterKey)
    ensures Apart(FieldDelimiterKey, FileNameExpressionKey) && Apart(FileNameExpressionKey, FieldDelimiterKey)
    ensures Apart(FieldDelimiterKey, PathKey) && Apart(PathKey, FieldDelimiterKey)
    ensures Apart(FieldDelimiterKey, SinkColumnsKey) && Apart(SinkColumnsKey, FieldDelimiterKey)
    ensures Apart(FieldDelimiterKey, PartitionByKey) && Apart(PartitionByKey, FieldDelimiterKey)
    ensures Apart(FieldDelimiterKey, SaveModeKey) && Apart(SaveModeKey, FieldDelimiterKey)
  {
    ApartBy(FieldDelimiterKey, RowDelimiterKey, 0);
    ApartBy(FieldDelimiterKey, PartitionFieldWriteKey, 0);
    ApartBy(FieldDelimiterKey, FileNameExpressionKey, 2);
    ApartBy(FieldDelimiterKey, PathKey, 0);
    ApartBy(FieldDelimiterKey, SinkColumnsKey, 0);
    ApartBy(FieldDelimiterKey, PartitionByKey, 0);
    ApartBy(FieldDelimiterKey, SaveModeKey, 0);
  }

  /** `row_delimiter` and the keys written after it. */
  lemma RowDelimiterApart()
    ensures Apart(RowDelimiterKey, PartitionFieldWriteKey) && Apart(PartitionFieldWriteKey, RowDelimiterKey)
    ensures Apart(RowDelimiterKey, FileNameExpressionKey) && Apart(FileNameExpressionKey, RowDelimiterKey)
    ensures Apart(RowDelimiterKey, PathKey) && Apart(PathKey, RowDelimiterKey)
    ensures Apart(RowDelimiterKey, SinkColumnsKey) && Apart(SinkColumnsKey, RowDelimiterKey)
    ensures Apart(RowDelimiterKey, PartitionByKey) && Apart(PartitionByKey, RowDelimiterKey)
    ensures Apart(RowDelimiterKey, SaveModeKey) && Apart(SaveModeKey, RowDelimiterKey)
  {
    ApartBy(RowDelimiterKey, PartitionFieldWriteKey, 0);
    ApartBy(RowDelimiterKey, FileNameExpressionKey, 0);
    ApartBy(RowDelimiterKey, PathKey, 0);
    ApartBy(RowDelimiterKey, SinkColumnsKey, 0);
    ApartBy(RowDelimiterKey, PartitionByKey, 0);
    ApartBy(RowDelimiterKey, SaveModeKey, 0);
  }

  /** `is_partition_field_write_in_file` and the keys written after it. */
  lemma PartitionFieldWriteApart()
    ensures Apart(PartitionFieldWriteKey, FileNameExpressionKey) && Apart(FileNameExpressionKey, PartitionFieldWriteKey)
    ensures Apart(PartitionFieldWriteKey, PathKey) && Apart(PathKey, PartitionFieldWriteKey)
    ensures Apart(PartitionFieldWriteKey, SinkColumnsKey) && Apart(SinkColumnsKey, PartitionFieldWriteKey)
    ensures Apart(PartitionFieldWriteKey, PartitionByKey) && Apart(PartitionByKey, PartitionFieldWriteKey)
    ensures Apart(PartitionFieldWriteKey, SaveModeKey) && Apart(SaveModeKey, PartitionFieldWriteKey)
  {
    ApartBy(PartitionFieldWriteKey, FileNameExpressionKey, 0);
    ApartBy(PartitionFieldWriteKey, PathKey, 0);
    ApartBy(PartitionFieldWriteKey, SinkColumnsKey, 0);
    ApartBy(PartitionFieldWriteKey, PartitionByKey, 0);
    ApartBy(PartitionFieldWriteKey, SaveModeKey, 0);
  }

  /** `file_name_expression` and the keys written after it. */
  lemma FileNameExpressionApart()
    ensures Apart(FileNameExpressionKey, PathKey) && Apart(PathKey, FileNameExpressionKey)
    ensures Apart(FileNameExpressionKey, SinkColumnsKey) && Apart(SinkColumnsKey, FileNameExpressionKey)
    ensures Apart(FileNameExpressionKey, PartitionByKey) && Apart(PartitionByKey, FileNameExpressionKey)
    ensures Apart(FileNameExpressionKey, SaveModeKey) && Apart(SaveModeKey, FileNameExpressionKey)
  {
    ApartBy(FileNameExpressionKey, PathKey, 0);
    ApartBy(FileNameExpressionKey, SinkColumnsKey, 0);
    ApartBy(FileNameExpressionKey, PartitionByKey, 0);
    ApartBy(FileNameExpressionKey, SaveModeKey, 0);
  }

  /** `path` and the keys written after it. */
  lemma PathApart()
    ensures Apart(PathKey, SinkColumnsKey) && Apart(SinkColumnsKey, PathKey)
    ensures Apart(PathKey, PartitionByKey) && Apart(PartitionByKey, PathKey)
    ensures Apart(PathKey, SaveModeKey) && Apart(SaveModeKey, PathKey)
  {
    ApartBy(PathKey, SinkColumnsKey, 0);
    ApartBy(PathKey, PartitionByKey, 2);
    ApartBy(PathKey, SaveModeKey, 0);
  }

  /** `sink_columns` and the keys written after it. */
  lemma SinkColumnsApart()
    ensures Apart(SinkColumnsKey, PartitionByKey) && Apart(PartitionByKey, SinkColumnsKey)
    ensures Apart(SinkColumnsKey, SaveModeKey) && Apart(SaveModeKey, SinkColumnsKey)
  {
    ApartBy(SinkColumnsKey, PartitionByKey, 0);
    ApartBy(SinkColumnsKey, SaveModeKey, 1);
  }

  /** `partition_by` and the keys written after it. */
  lemma PartitionByApart()
    ensures Apart(PartitionByKey, SaveModeKey) && Apart(SaveModeKey, PartitionByKey)
  {
    ApartBy(PartitionByKey, SaveModeKey, 0);
  }

  /** Every key configured under `save_mode.` is apart from the keys written before the save
      mode is read. */
  lemma UnderSaveModeApart(k: string)
    requires StartsWith(k, SaveModeKey + ".")
    ensures Apart(k, FileFormatKey) && Apart(k, FieldDelimiterKey) && Apart(k, RowDelimiterKey)
    ensures Apart(k, PartitionFieldWriteKey) && Apart(k, FileNameExpressionKey) && Apart(k, PathKey)
    ensures Apart(k, SinkColumnsKey) && Apart(k, PartitionByKey)
  {
    var q := SaveModeKey + ".";
    UnderApart(k, q, FileFormatKey, 0);
    UnderApart(k, q, FieldDelimiterKey, 0);
    UnderApart(k, q, RowDelimiterKey, 0);
    UnderApart(k, q, PartitionFieldWriteKey, 0);
    UnderApart(k, q, FileNameExpressionKey, 0);
    UnderApart(k, q, PathKey, 0);
    UnderApart(k, q, SinkColumnsKey, 1);
    UnderApart(k, q, PartitionByKey, 0);
  }

  // ----- Successive writes -----

  /** A key apart from every written one keeps its entry, or its absence. */
  lemma {:induction false} WithValuesKeeps(c: Config, writes: seq<(string, ConfigValue)>, k: string)
    requires forall i | 0 <= i < |writes| :: Apart(k, writes[i].0)
    ensures k in WithValues(c, writes) <==> k in c
    ensures k in c ==> WithValues(c, writes)[k] == c[k]
    decreases |writes|
  {
    if writes != [] {
      var c1 := WithValue(c, writes[0].0, writes[0].1);
      assert Apart(k, writes[0].0);
      assert k in c1 <==> k in c;
      WithValuesKeeps(c1, writes[1..], k);
    }
  }

  /** One, three and five writes in a row, spelled out. */
  lemma WithValuesOne(c: Config, writes: seq<(string, ConfigValue)>)
    requires |writes| == 1
    ensures WithValues(c, writes) == WithValue(c, writes[0].0, writes[0].1)
  {
    assert writes[1..] == [];
  }

  lemma WithValuesThree(c: Config, writes: seq<(string, ConfigValue)>)
    requires |writes| == 3
    ensures WithValues(c, writes) ==
      WithValue(WithValue(WithValue(c, writes[0].0, writes[0].1), writes[1].0, writes[1].1), writes[2].0, writes[2].1)
  {
    var c1 := WithValue(c, writes[0].0, writes[0].1);
    WithValuesTwo(c1, writes[1..]);
  }

  lemma WithValuesTwo(c: Config, writes: seq<(string, ConfigValue)>)
    requires |writes| == 2
    ensures WithValues(c, writes) == WithValue(WithValue(c, writes[0].0, writes[0].1), writes[1].0, writes[1].1)
  {
    WithValuesOne(WithValue(c, writes[0].0, writes[0].1), writes[1..]);
  }

  lemma WithValuesFive(c: Config, writes: seq<(string, ConfigValue)>)
    requires |writes| == 5
    ensures WithValues(c, writes) ==
      WithValue(WithValue(WithValue(WithValue(WithValue(c,
        writes[0].0, writes[0].1), writes[1].0, writes[1].1), writes[2].0, writes[2].1),
        writes[3].0, writes[3].1), writes[4].0, writes[4].1)
  {
    var c2 := WithValue(WithValue(c, writes[0].0, writes[0].1), writes[1].0, writes[1].1);
    assert writes[1..][1..] == writes[2..];
    WithValuesThree(c2, writes[2..]);
  }

  /** A write that no later one touches is what the result holds. */
  lemma {:induction false} WithValuesLastWrite(c: Config, writes: seq<(string, ConfigValue)>, i: nat)
    requires i < |writes|
    requires forall j | i < j < |writes| :: Apart(writes[i].0, writes[j].0)
    ensures writes[i].0 in WithValues(c, writes) && WithValues(c, writes)[writes[i].0] == writes[i].1
    decreases |writes|
  {
    var c1 := WithValue(c, writes[0].0, writes[0].1);
    if i == 0 {
      WithValuesKeeps(c1, writes[1..], writes[0].0);
    } else {
      WithValuesLastWrite(c1, writes[1..], i - 1);
    }
  }

  /** What the accepted formats change: only their own keys. */
  lemma FormatKeeps(c: Config, t: HiveTable, k: string)
    requires FormatWrites(t).Some?
    requires Apart(k, FileFormatKey) && Apart(k, FieldDelimiterKey) && Apart(k, RowDelimiterKey)
    ensures k in WithFormat(c, t).value <==> k in c
    ensures k in c ==> WithFormat(c, t).value[k] == c[k]
  {
    WithValuesKeeps(c, FormatWrites(t).value, k);
  }

  /** What the table layout changes: only its own keys. */
  lemma LayoutKeeps(c: Config, t: HiveTable, k: string)
    requires Apart(k, PartitionFieldWriteKey) && Apart(k, FileNameExpressionKey) && Apart(k, PathKey)
    requires Apart(k, SinkColumnsKey) && Apart(k, PartitionByKey)
    ensures k in WithTableLayout(c, t) <==> k in c
    ensures k in c ==> WithTableLayout(c, t)[k] == c[k]
  {
    WithValuesKeeps(c, LayoutWrites(t), k);
  }

  // ----- What prepare promises -----

  lemma RequiresMetastoreAndTable(c: Config, lookup: TableLookup, parse: UriParser, s: SinkState)
    ensures !IsValidParam(c, MetastoreUriKey) || !IsValidParam(c, TableNameKey) ==>
      PrepareSpec(c, lookup, parse, s) == (s, Fail(PrepareFailException(PluginName, Sink, RequiredCheck(c).Msg())))
    ensures PrepareSpec(c, lookup, parse, s).1 == Pass ==> IsValidParam(c, MetastoreUriKey) && IsValidParam(c, TableNameKey)
  {
  }

  /** Only the text, parquet and orc output classes are accepted; text also takes its
      delimiters from the table's serde parameters, null when the table has none. */
  lemma FormatMapping(c: Config, t: HiveTable)
    ensures WithFormat(c, t).Err? <==> FormatOf(t.outputFormat).None?
    ensures WithFormat(c, t).Err? ==> WithFormat(c, t).error == RuntimeException(FormatMessage, None)
    ensures WithFormat(c, t).Ok? ==>
      var r := WithFormat(c, t).value;
      && FileFormatKey in r && r[FileFormatKey] == Str(FileFormatName(FormatOf(t.outputFormat).value))
      && (t.outputFormat == TextOutputFormat ==>
            && FieldDelimiterKey in r && r[FieldDelimiterKey] == SerdeValue(t, "field.delim")
            && RowDelimiterKey in r && r[RowDelimiterKey] == SerdeValue(t, "line.delim"))
  {
    if FormatWrites(t).Some? {
      var writes := FormatWrites(t).value;
      FileFormatApart();
      FieldDelimiterApart();
      WithValuesLastWrite(c, writes, 0);
      if t.outputFormat == TextOutputFormat {
        WithValuesLastWrite(c, writes, 1);
        WithValuesLastWrite(c, writes, 2);
      }
    }
  }

  /** The keys the table layout writes hold the fixed values and the table's columns and
      partition keys. */
  lemma LayoutRule(c: Config, t: HiveTable)
    ensures var r := WithTableLayout(c, t);
      && PartitionFieldWriteKey in r && r[PartitionFieldWriteKey] == Bool(false)
      && FileNameExpressionKey in r && r[FileNameExpressionKey] == Str(TransactionFileName)
      && PathKey in r && r[PathKey] == Str(t.location)
      && SinkColumnsKey in r && r[SinkColumnsKey] == StrList(t.columns + t.partitionKeys)
      && PartitionByKey in r && r[PartitionByKey] == StrList(t.partitionKeys)
  {
    var writes := LayoutWrites(t);
    var r := WithValues(c, writes);
    assert PartitionFieldWriteKey in r && r[PartitionFieldWriteKey] == Bool(false) by {
      PartitionFieldWriteApart();
      WithValuesLastWrite(c, writes, 0);
    }
    assert FileNameExpressionKey in r && r[FileNameExpressionKey] == Str(TransactionFileName) by {
      FileNameExpressionApart();
      WithValuesLastWrite(c, writes, 1);
    }
    assert PathKey in r && r[PathKey] == Str(t.location) by {
      PathApart();
      WithValuesLastWrite(c, writes, 2);
    }
    assert SinkColumnsKey in r && r[SinkColumnsKey] == StrList(t.columns + t.partitionKeys) by {
      SinkColumnsApart();
      WithValuesLastWrite(c, writes, 3);
    }
    WithValuesLastWrite(c, writes, 4);
  }

  /** A blank or missing save mode becomes APPEND; any other is kept, and nothing else moves. */
  lemma SaveModeRule(c: Config)
    ensures WithSaveMode(c).Err? <==> HasPath(c, SaveModeKey) && GetString(c, SaveModeKey).Err?
    ensures WithSaveMode(c).Ok? ==>
      var r := WithSaveMode(c).value;
      if !HasPath(c, SaveModeKey) || IsBlank(GetString(c, SaveModeKey).value)
      then r == WithValue(c, SaveModeKey, Str(AppendMode))
      else r == c
  {
  }

  /** The save mode the sink reads is the one the user configured: the formats and the layout
      write nothing at or under `save_mode`. */
  lemma SaveModeAsConfigured(c: Config, t: HiveTable)
    requires WithFormat(c, t).Ok?
    ensures var l := WithTableLayout(WithFormat(c, t).value, t);
      && (SaveModeKey in l <==> SaveModeKey in c) && (SaveModeKey in c ==> l[SaveModeKey] == c[SaveModeKey])
      && HasPath(l, SaveModeKey) == HasPath(c, SaveModeKey) && GetString(l, SaveModeKey) == GetString(c, SaveModeKey)
  {
    var f := WithFormat(c, t).value;
    var l := WithTableLayout(f, t);
    forall k | k == SaveModeKey || StartsWith(k, SaveModeKey + ".")
      ensures (k in l <==> k in c) && (k in c ==> l[k] == c[k])
    {
      if k == SaveModeKey {
        FileFormatApart();
        FieldDelimiterApart();
        RowDelimiterApart();
        PartitionFieldWriteApart();
        FileNameExpressionApart();
        PathApart();
        SinkColumnsApart();
        PartitionByApart();
      } else {
        UnderSaveModeApart(k);
      }
      FormatKeeps(c, t, k);
      LayoutKeeps(f, t, k);
    }
    if HoldsBelow(l, SaveModeKey) {
      var k :| k in l && !l[k].Null? && StartsWith(k, SaveModeKey + ".");
      assert k in c && !c[k].Null?;
    }
    if HoldsBelow(c, SaveModeKey) {
      var k :| k in c && !c[k].Null? && StartsWith(k, SaveModeKey + ".");
      assert k in l && !l[k].Null?;
    }
  }

  /** The path comes from the location's URI, and the Hadoop address is the location with
      every occurrence of that path removed; a bad URI is wrapped in a RuntimeException. */
  lemma LocationRule(c: Config, location: string, parse: UriParser)
    ensures parse(location).SyntaxError? ==>
      WithLocation(c, location, parse) == Err(RuntimeException(AddressMessage, Some(URISyntaxException(location, parse(location).reason))))
    ensures WithLocation(c, location, parse).Ok? <==> parse(location).Parsed? && parse(location).path.Some?
    ensures WithLocation(c, location, parse).Ok? ==>
      var (r, address) := WithLocation(c, location, parse).value;
      var path := parse(location).path.value;
      && PathKey in r && r[PathKey] == Str(path)
      && address == RemoveAll(location, path)
  {
  }

  /** A location made of an address followed by a path that occurs nowhere earlier leaves
      exactly that address. */
  lemma AddressOfLocation(c: Config, address: string, path: string, parse: UriParser)
    requires path != []
    requires parse(address + path) == Parsed(Some(path))
    requires forall i: nat | i < |address| :: !OccursAt(address + path, path, i)
    ensures WithLocation(c, address + path, parse).Ok?
    ensures WithLocation(c, address + path, parse).value.1 == address
  {
    RemoveAllSuffix(address, path);
  }

  /** The config before the save mode and the path are written. */
  function Layout(c: Config, t: HiveTable): Config
    requires WithFormat(c, t).Ok?
  {
    WithTableLayout(WithFormat(c, t).value, t)
  }

  /** The last two writes, the save mode and the path, keep every other key. */
  lemma SinkKeeps(c: Config, t: HiveTable, parse: UriParser, k: string)
    requires ConfigureSink(c, t, parse).Ok?
    requires k in Layout(c, t) && Apart(k, SaveModeKey) && Apart(k, PathKey)
    ensures WithFormat(c, t).Ok? && WithSaveMode(Layout(c, t)).Ok?
    ensures k in ConfigureSink(c, t, parse).value.0 && ConfigureSink(c, t, parse).value.0[k] == Layout(c, t)[k]
  {
  }

  /** The mapped format, and for text the serde delimiters, reach the final config. */
  lemma SinkFormat(c: Config, t: HiveTable, parse: UriParser)
    requires ConfigureSink(c, t, parse).Ok?
    ensures FormatOf(t.outputFormat).Some?
    ensures var r := ConfigureSink(c, t, parse).value.0;
      && FileFormatKey in r && r[FileFormatKey] == Str(FileFormatName(FormatOf(t.outputFormat).value))
      && (t.outputFormat == TextOutputFormat ==>
            && FieldDelimiterKey in r && r[FieldDelimiterKey] == SerdeValue(t, "field.delim")
            && RowDelimiterKey in r && r[RowDelimiterKey] == SerdeValue(t, "line.delim"))
  {
    var f := WithFormat(c, t).value;
    FormatMapping(c, t);
    FileFormatApart();
    FieldDelimiterApart();
    RowDelimiterApart();
    LayoutKeeps(f, t, FileFormatKey);
    SinkKeeps(c, t, parse, FileFormatKey);
    if t.outputFormat == TextOutputFormat {
      LayoutKeeps(f, t, FieldDelimiterKey);
      LayoutKeeps(f, t, RowDelimiterKey);
      SinkKeeps(c, t, parse, FieldDelimiterKey);
      SinkKeeps(c, t, parse, RowDelimiterKey);
    }
  }

  /** The columns followed by the partition keys, the partition keys as `partition_by`, the
      fixed file name and the partition-field flag reach the final config. */
  lemma SinkColumns(c: Config, t: HiveTable, parse: UriParser)
    requires ConfigureSink(c, t, parse).Ok?
    ensures var r := ConfigureSink(c, t, parse).value.0;
      && PartitionFieldWriteKey in r && r[PartitionFieldWriteKey] == Bool(false)
      && FileNameExpressionKey in r && r[FileNameExpressionKey] == Str(TransactionFileName)
      && SinkColumnsKey in r && r[SinkColumnsKey] == StrList(t.columns + t.partitionKeys)
      && PartitionByKey in r && r[PartitionByKey] == StrList(t.partitionKeys)
  {
    LayoutRule(WithFormat(c, t).value, t);
    PartitionFieldWriteApart();
    FileNameExpressionApart();
    PathApart();
    SinkColumnsApart();
    PartitionByApart();
    SinkKeeps(c, t, parse, PartitionFieldWriteKey);
    SinkKeeps(c, t, parse, FileNameExpressionKey);
    SinkKeeps(c, t, parse, SinkColumnsKey);
    SinkKeeps(c, t, parse, PartitionByKey);
  }

  /** The final path is the location's URI path and the address is the location without it. */
  lemma SinkPath(c: Config, t: HiveTable, parse: UriParser)
    requires ConfigureSink(c, t, parse).Ok?
    ensures parse(t.location).Parsed? && parse(t.location).path.Some?
    ensures var (r, address) := ConfigureSink(c, t, parse).value;
      && PathKey in r && r[PathKey] == Str(parse(t.location).path.value)
      && address == RemoveAll(t.location, parse(t.location).path.value)
  {
    LocationRule(WithSaveMode(Layout(c, t)).value, t.location, parse);
  }

  /** The final save mode is the configured one, or APPEND when that is missing or blank. */
  lemma SinkSaveMode(c: Config, t: HiveTable, parse: UriParser)
    requires ConfigureSink(c, t, parse).Ok?
    ensures HasPath(c, SaveModeKey) ==> IsLeaf(c, SaveModeKey) && GetString(c, SaveModeKey).Ok?
    ensures var r := ConfigureSink(c, t, parse).value.0;
      && SaveModeKey in r
      && r[SaveModeKey] ==
           (if !HasPath(c, SaveModeKey) || IsBlank(GetString(c, SaveModeKey).value) then Str(AppendMode)
            else c[SaveModeKey])
  {
    var l := Layout(c, t);
    ConfigureSinkSteps(c, t, parse);
    SaveModeAsConfigured(c, t);
    SaveModeRule(l);
    var saved := WithSaveMode(l).value;
    PathApart();
    assert SaveModeKey in saved && saved[SaveModeKey] ==
      (if !HasPath(c, SaveModeKey) || IsBlank(GetString(c, SaveModeKey).value) then Str(AppendMode)
       else c[SaveModeKey]);
  }

  lemma ConfigureSinkSteps(c: Config, t: HiveTable, parse: UriParser)
    requires ConfigureSink(c, t, parse).Ok?
    ensures WithFormat(c, t).Ok? && WithSaveMode(Layout(c, t)).Ok?
    ensures ConfigureSink(c, t, parse) == WithLocation(WithSaveMode(Layout(c, t)).value, t.location, parse)
  {
  }

  /** After a successful prepare the sink holds the looked-up names and table, the Hadoop
      address and the rewritten config. */
  lemma Prepared(c: Config, lookup: TableLookup, parse: UriParser, s: SinkState)
    requires PrepareSpec(c, lookup, parse, s).1 == Pass
    ensures lookup(c).Ok? && |lookup(c).value.0| >= 2
    ensures var (names, t) := lookup(c).value;
      var s' := PrepareSpec(c, lookup, parse, s).0;
      && s'.dbName == Some(names[0]) && s'.tableName == Some(names[1]) && s'.tableInformation == Some(t)
      && ConfigureSink(c, t, parse).Ok?
      && (s'.pluginConfig, s'.hadoopConf.value) == ConfigureSink(c, t, parse).value
  {
  }

  // ----- The sink -----

  /** HiveSinkAggregatedCommitter(pluginConfig, dbName, tableName). */
  datatype AggregatedCommitter = HiveCommitter(pluginConfig: Config, dbName: Option<string>, tableName: Option<string>)

  class HiveFileSink {
    var dbName: Option<string>
    var tableName: Option<string>
    var tableInformation: Option<HiveTable>
    var pluginConfig: Config
    var hadoopConf: Option<string>

    function State(): SinkState
      reads this
    {
      SinkState(dbName, tableName, tableInformation, pluginConfig, hadoopConf)
    }

    constructor()
      ensures State() == SinkState(None, None, None, map[], None)
    {
      dbName := None;
      tableName := None;
      tableInformation := None;
      pluginConfig := map[];
      hadoopConf := None;
    }

    method Prepare(c: Config, lookup: TableLookup, parse: UriParser) returns (o: Outcome<Exception>)
      modifies this
      ensures (State(), o) == PrepareSpec(c, lookup, parse, old(State()))
    {
      var check := CheckAllExists(c, [MetastoreUriKey, TableNameKey]);
      if !check.IsSuccess() {
        return Fail(PrepareFailException(PluginName, Sink, check.Msg()));
      }
      var tableInfo := lookup(c);
      if tableInfo.Err? {
        return Fail(tableInfo.error);
      }
      var (names, table) := tableInfo.value;
      if |names| == 0 {
        return Fail(IndexOutOfBoundsException(0));
      }
      dbName := Some(names[0]);
      if |names| == 1 {
        return Fail(IndexOutOfBoundsException(1));
      }
      tableName := Some(names[1]);
      tableInformation := Some(table);
      var r := Configure(c, table, parse);
      if r.Err? {
        return Fail(r.error);
      }
      pluginConfig := r.value.0;
      hadoopConf := Some(r.value.1);
      o := Pass;
    }

    /** The rewriting steps on the local copy of the config, as `prepare` rewrites it. */
    static method Configure(c: Config, table: HiveTable, parse: UriParser) returns (r: Result<(Config, string), Exception>)
      ensures r == ConfigureSink(c, table, parse)
    {
      var formatted := ApplyFormat(c, table);
      if formatted.Err? {
        return Err(formatted.error);
      }
      var conf := ApplyLayout(formatted.value, table);
      var saved := ApplySaveMode(conf);
      if saved.Err? {
        return Err(saved.error);
      }
      r := ApplyLocation(saved.value, table.location, parse);
    }

    static method ApplyFormat(c: Config, table: HiveTable) returns (r: Result<Config, Exception>)
      ensures r == WithFormat(c, table)
    {
      var conf := c;
      if table.outputFormat == TextOutputFormat {
        conf := WithValue(conf, FileFormatKey, Str(FileFormatName(Text)));
        conf := WithValue(conf, FieldDelimiterKey, SerdeValue(table, "field.delim"));
        conf := WithValue(conf, RowDelimiterKey, SerdeValue(table, "line.delim"));
        WithValuesThree(c, FormatWrites(table).value);
      } else if table.outputFormat == ParquetOutputFormat {
        conf := WithValue(conf, FileFormatKey, Str(FileFormatName(Parquet)));
        WithValuesOne(c, FormatWrites(table).value);
      } else if table.outputFormat == OrcOutputFormat {
        conf := WithValue(conf, FileFormatKey, Str(FileFormatName(Orc)));
        WithValuesOne(c, FormatWrites(table).value);
      } else {
        return Err(RuntimeException(FormatMessage, None));
      }
      r := Ok(conf);
    }

    static method ApplyLayout(c: Config, table: HiveTable) returns (conf: Config)
      ensures conf == WithTableLayout(c, table)
    {
      var sinkFields := table.columns;
      var partitionKeys := table.partitionKeys;
      sinkFields := sinkFields + partitionKeys;
      conf := c;
      conf := WithValue(conf, PartitionFieldWriteKey, Bool(false));
      conf := WithValue(conf, FileNameExpressionKey, Str(TransactionFileName));
      conf := WithValue(conf, PathKey, Str(table.location));
      conf := WithValue(conf, SinkColumnsKey, StrList(sinkFields));
      conf := WithValue(conf, PartitionByKey, StrList(partitionKeys));
      WithValuesFive(c, LayoutWrites(table));
    }

    static method ApplySaveMode(c: Config) returns (r: Result<Config, Exception>)
      ensures r == WithSaveMode(c)
    {
      var conf := c;
      if !HasPath(conf, SaveModeKey) {
        conf := WithValue(conf, SaveModeKey, Str(AppendMode));
      } else {
        var mode := GetString(conf, SaveModeKey);
        if mode.Err? {
          return Err(mode.error);
        }
        if IsBlank(mode.value) {
          conf := WithValue(conf, SaveModeKey, Str(AppendMode));
        }
      }
      r := Ok(conf);
    }

    static method ApplyLocation(c: Config, location: string, parse: UriParser) returns (r: Result<(Config, string), Exception>)
      ensures r == WithLocation(c, location, parse)
    {
      match parse(location) {
        case SyntaxError(reason) =>
          r := Err(RuntimeException(AddressMessage, Some(URISyntaxException(location, reason))));
        case Parsed(path) =>
          if path.None? {
            return Err(NullPointerException(""));
          }
          var conf := WithValue(c, PathKey, Str(path.value));
          r := Ok((conf, RemoveAll(location, path.value)));
      }
    }

    method CreateAggregatedCommitter() returns (committer: Option<AggregatedCommitter>)
      ensures committer == Some(HiveCommitter(pluginConfig, dbName, tableName))
    {
      committer := Some(HiveCommitter(pluginConfig, dbName, tableName));
    }
  }
}
