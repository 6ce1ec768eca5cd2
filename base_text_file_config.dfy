/** The settings of the text-based file connectors: field and row delimiters, path, file name
    expression, file format and the date, datetime and time formatters, each starting from its
    default and replaced by the plugin config only under the conditions the constructor tests. */
module BaseTextFileConfig {
  import opened Wrappers
  import opened JavaText
  import opened JavaErrors
  import opened TypesafeConfig
  import opened ConnectorCommon

  const CompressCodecKey: string := "compress_codec"
  const FieldDelimiterKey: string := "field_delimiter"
  const RowDelimiterKey: string := "row_delimiter"
  const PathKey: string := "path"
  const FileNameExpressionKey: string := "file_name_expression"
  const FileFormatKey: string := "file_format"
  const DateFormatKey: string := "date_format"
  const DatetimeFormatKey: string := "datetime_format"
  const TimeFormatKey: string := "time_format"

  const CompressMessage: string := "compress not support now"
  /** String.valueOf('\001'). */
  const DefaultFieldDelimiter: string := [1 as char]
  const DefaultRowDelimiter: string := "\n"

  /** A DateUtils, DateTimeUtils or TimeUtils formatter, by its constant's name. */
  datatype Formatter = Formatter(name: string)

  const DefaultDateFormat: Formatter := Formatter("YYYY_MM_DD")
  const DefaultDatetimeFormat: Formatter := Formatter("YYYY_MM_DD_HH_MM_SS")
  const DefaultTimeFormat: Formatter := Formatter("HH_MM_SS")

  /** The three Formatter.parse functions, which live outside this model: each gives the
      formatter a name stands for, or the exception it throws for a name that is none. */
  datatype FormatParsers = FormatParsers(
    date: string -> Result<Formatter, Exception>,
    datetime: string -> Result<Formatter, Exception>,
    time: string -> Result<Formatter, Exception>)

  /** The fields of BaseTextFileConfig; a None is a field still null. */
  datatype TextFileSettings = TextFileSettings(
    compressCodec: Option<string>,
    fieldDelimiter: string,
    rowDelimiter: string,
    path: Option<string>,
    fileNameExpression: Option<string>,
    fileFormat: FileFormat,
    dateFormat: Formatter,
    datetimeFormat: Formatter,
    timeFormat: Formatter)

  /** The field initialisers. */
  const Defaults: TextFileSettings := TextFileSettings(
    None, DefaultFieldDelimiter, DefaultRowDelimiter, None, None, Text,
    DefaultDateFormat, DefaultDatetimeFormat, DefaultTimeFormat)

  /** A string value that replaces its field only when `accept` holds of it; reading it can
      throw. */
  function Replacement(c: Config, key: string, accept: string -> bool): (r: Result<Option<string>, Exception>)
    ensures !HasPath(c, key) ==> r == Ok(None)
    ensures HasPath(c, key) ==> (r.Err? <==> GetString(c, key).Err?)
    ensures r.Ok? && r.value.Some? ==> HasPath(c, key) && GetString(c, key) == Ok(r.value.value) && accept(r.value.value)
    ensures HasPath(c, key) && GetString(c, key).Ok? && accept(GetString(c, key).value) ==>
              r == Ok(Some(GetString(c, key).value))
  {
    if !HasPath(c, key) then Ok(None)
    else
      match GetString(c, key)
      case Err(e) => Err(e)
      case Ok(v) => if accept(v) then Ok(Some(v)) else Ok(None)
  }

  predicate NotEmpty(s: string) { s != "" }

  predicate NotBlank(s: string) { !IsBlank(s) }

  /** The start of the constructor: the compression check, the delimiters and the path. */
  function ReadLayout(c: Config, s: TextFileSettings): (TextFileSettings, Outcome<Exception>) {
    if HasPath(c, CompressCodecKey) then (s, Fail(RuntimeException(CompressMessage, None)))
    else
      match Replacement(c, FieldDelimiterKey, NotEmpty)
      case Err(e) => (s, Fail(e))
      case Ok(field) =>
        var s1 := s.(fieldDelimiter := field.GetOr(s.fieldDelimiter));
        match Replacement(c, RowDelimiterKey, NotEmpty)
        case Err(e) => (s1, Fail(e))
        case Ok(row) =>
          var s2 := s1.(rowDelimiter := row.GetOr(s1.rowDelimiter));
          match Replacement(c, PathKey, NotBlank)
          case Err(e) => (s2, Fail(e))
          case Ok(path) =>
            var s3 := if path.Some? then s2.(path := path) else s2;
            if s3.path.None? then (s3, Fail(NullPointerException(""))) else (s3, Pass)
  }

  /** The file name expression, then the file format, upper-cased. */
  function ReadNaming(c: Config, s: TextFileSettings): (TextFileSettings, Outcome<Exception>) {
    match Replacement(c, FileNameExpressionKey, NotBlank)
    case Err(e) => (s, Fail(e))
    case Ok(expression) =>
      var s1 := if expression.Some? then s.(fileNameExpression := expression) else s;
      match Replacement(c, FileFormatKey, NotBlank)
      case Err(e) => (s1, Fail(e))
      case Ok(None) => (s1, Pass)
      case Ok(Some(name)) =>
        match FileFormatValueOf(ToUpper(name))
        case Err(e) => (s1, Fail(e))
        case Ok(f) => (s1.(fileFormat := f), Pass)
  }

  /** One formatter key: nothing when absent, otherwise the parse of its string; reading the
      string or parsing it can throw. */
  function ParseFormat(c: Config, key: string, parse: string -> Result<Formatter, Exception>): (r: Result<Option<Formatter>, Exception>)
    ensures !HasPath(c, key) ==> r == Ok(None)
    ensures HasPath(c, key) && GetString(c, key).Err? ==> r == Err(GetString(c, key).error)
    ensures HasPath(c, key) && GetString(c, key).Ok? ==>
              r == (var f := parse(GetString(c, key).value); if f.Err? then Err(f.error) else Ok(Some(f.value)))
  {
    if !HasPath(c, key) then Ok(None)
    else
      var name :- GetString(c, key);
      var f :- parse(name);
      Ok(Some(f))
  }

  /** The three formatters, each parsed when configured; the first failure ends the
      constructor with the formatters before it already set. */
  function ReadFormats(c: Config, parsers: FormatParsers, s: TextFileSettings): (TextFileSettings, Outcome<Exception>) {
    var date := ParseFormat(c, DateFormatKey, parsers.date);
    if date.Err? then (s, Fail(date.error))
    else
      var s1 := if date.value.Some? then s.(dateFormat := date.value.value) else s;
      var datetime := ParseFormat(c, DatetimeFormatKey, parsers.datetime);
      if datetime.Err? then (s1, Fail(datetime.error))
      else
        var s2 := if datetime.value.Some? then s1.(datetimeFormat := datetime.value.value) else s1;
        var time := ParseFormat(c, TimeFormatKey, parsers.time);
        if time.Err? then (s2, Fail(time.error))
        else (if time.value.Some? then s2.(timeFormat := time.value.value) else s2, Pass)
  }

  /** The constructor BaseTextFileConfig(config), from the fields `s` holds when it starts. */
  function ConfigureSpec(c: Config, parsers: FormatParsers, s: TextFileSettings): (TextFileSettings, Outcome<Exception>) {
    var (s1, o1) := ReadLayout(c, s);
    if o1.Fail? then (s1, o1)
    else
      var (s2, o2) := ReadNaming(c, s1);
      if o2.Fail? then (s2, o2)
      else ReadFormats(c, parsers, s2)
  }

  // ----- What the constructor promises -----

  /** Any `compress_codec` key is rejected before anything is read. */
  lemma CompressCodecRejected(c: Config, parsers: FormatParsers, s: TextFileSettings)
    requires HasPath(c, CompressCodecKey)
    ensures ConfigureSpec(c, parsers, s) == (s, Fail(RuntimeException(CompressMessage, None)))
  {
  }

  /** Each delimiter keeps its value ('\001' and "\n" when fresh) unless the config gives a
      non-empty one; the path is the configured one if it is not blank, and a fresh object
      without such a path fails the null check. */
  lemma LayoutRules(c: Config, s: TextFileSettings)
    requires ReadLayout(c, s).1 == Pass
    ensures var s' := ReadLayout(c, s).0;
      && s'.fieldDelimiter ==
           (if HasPath(c, FieldDelimiterKey) && GetString(c, FieldDelimiterKey).value != "" then GetString(c, FieldDelimiterKey).value
            else s.fieldDelimiter)
      && s'.rowDelimiter ==
           (if HasPath(c, RowDelimiterKey) && GetString(c, RowDelimiterKey).value != "" then GetString(c, RowDelimiterKey).value
            else s.rowDelimiter)
      && s'.path.Some?
      && s'.path == (if HasPath(c, PathKey) && !IsBlank(GetString(c, PathKey).value) then Some(GetString(c, PathKey).value) else s.path)
  {
  }

  lemma PathRequired(c: Config, parsers: FormatParsers)
    requires !HasPath(c, CompressCodecKey)
    requires !HasPath(c, PathKey) || (GetString(c, PathKey).Ok? && IsBlank(GetString(c, PathKey).value))
    requires Replacement(c, FieldDelimiterKey, NotEmpty).Ok? && Replacement(c, RowDelimiterKey, NotEmpty).Ok?
    ensures ConfigureSpec(c, parsers, Defaults).1 == Fail(NullPointerException(""))
  {
  }

  /** The file name expression is replaced only by a non-blank value; the format is TEXT (or
      what it was) unless a non-blank value names a format once upper-cased. */
  lemma NamingRules(c: Config, s: TextFileSettings)
    ensures var (s', o) := ReadNaming(c, s);
      && (o == Pass ==>
            && s'.fileNameExpression ==
                 (if HasPath(c, FileNameExpressionKey) && !IsBlank(GetString(c, FileNameExpressionKey).value)
                  then Some(GetString(c, FileNameExpressionKey).value) else s.fileNameExpression)
            && s'.fileFormat ==
                 (if HasPath(c, FileFormatKey) && !IsBlank(GetString(c, FileFormatKey).value)
                  then FileFormatValueOf(ToUpper(GetString(c, FileFormatKey).value)).value else s.fileFormat))
      && (!HasPath(c, FileFormatKey) && o == Pass ==> s'.fileFormat == s.fileFormat)
  {
  }

  /** An unknown non-blank format fails with valueOf's exception. */
  lemma UnknownFormatFails(c: Config, s: TextFileSettings)
    requires Replacement(c, FileNameExpressionKey, NotBlank).Ok?
    requires HasPath(c, FileFormatKey) && GetString(c, FileFormatKey).Ok? && !IsBlank(GetString(c, FileFormatKey).value)
    requires FileFormatValueOf(ToUpper(GetString(c, FileFormatKey).value)).Err?
    ensures ReadNaming(c, s).1 == Fail(FileFormatValueOf(ToUpper(GetString(c, FileFormatKey).value)).error)
  {
  }

  /** A present formatter key whose string cannot be read or names no formatter. */
  predicate FormatFails(c: Config, key: string, parse: string -> Result<Formatter, Exception>) {
    HasPath(c, key) && (GetString(c, key).Err? || parse(GetString(c, key).value).Err?)
  }

  /** The formatter a present, parseable key names, or `current` otherwise. */
  function ParsedOr(c: Config, key: string, parse: string -> Result<Formatter, Exception>, current: Formatter): Formatter {
    if HasPath(c, key) && GetString(c, key).Ok? && parse(GetString(c, key).value).Ok?
    then parse(GetString(c, key).value).value else current
  }

  /** The formatters step fails exactly when a present key cannot be read or parsed, with the
      first such key's exception. Each formatter keeps its value unless its key is present and
      parses and no earlier key failed; nothing else changes. */
  lemma FormatsKeepDefaults(c: Config, parsers: FormatParsers, s: TextFileSettings)
    ensures var (s', o) := ReadFormats(c, parsers, s);
      var dateFails := FormatFails(c, DateFormatKey, parsers.date);
      var datetimeFails := FormatFails(c, DatetimeFormatKey, parsers.datetime);
      var timeFails := FormatFails(c, TimeFormatKey, parsers.time);
      && (o.Fail? <==> dateFails || datetimeFails || timeFails)
      && (dateFails ==> o == Fail(ParseFormat(c, DateFormatKey, parsers.date).error))
      && (!dateFails && datetimeFails ==> o == Fail(ParseFormat(c, DatetimeFormatKey, parsers.datetime).error))
      && (!dateFails && !datetimeFails && timeFails ==> o == Fail(ParseFormat(c, TimeFormatKey, parsers.time).error))
      && s'.dateFormat == ParsedOr(c, DateFormatKey, parsers.date, s.dateFormat)
      && s'.datetimeFormat ==
           (if dateFails then s.datetimeFormat else ParsedOr(c, DatetimeFormatKey, parsers.datetime, s.datetimeFormat))
      && s'.timeFormat ==
           (if dateFails || datetimeFails then s.timeFormat else ParsedOr(c, TimeFormatKey, parsers.time, s.timeFormat))
      && s'.(dateFormat := s.dateFormat, datetimeFormat := s.datetimeFormat, timeFormat := s.timeFormat) == s
  {
  }

  // ----- The object -----

  class TextFileConfig {
    var compressCodec: Option<string>
    var fieldDelimiter: string
    var rowDelimiter: string
    var path: Option<string>
    var fileNameExpression: Option<string>
    var fileFormat: FileFormat
    var dateFormat: Formatter
    var datetimeFormat: Formatter
    var timeFormat: Formatter

    function Settings(): TextFileSettings
      reads this
    {
      TextFileSettings(compressCodec, fieldDelimiter, rowDelimiter, path, fileNameExpression, fileFormat,
                       dateFormat, datetimeFormat, timeFormat)
    }

    /** BaseTextFileConfig(): the field initialisers only. */
    constructor()
      ensures Settings() == Defaults
    {
      compressCodec := None;
      fieldDelimiter := DefaultFieldDelimiter;
      rowDelimiter := DefaultRowDelimiter;
      path := None;
      fileNameExpression := None;
      fileFormat := Text;
      dateFormat := DefaultDateFormat;
      datetimeFormat := DefaultDatetimeFormat;
      timeFormat := DefaultTimeFormat;
    }

    /** The body of BaseTextFileConfig(config), run on a freshly initialised object. */
    method Configure(c: Config, parsers: FormatParsers) returns (o: Outcome<Exception>)
      modifies this
      ensures (Settings(), o) == ConfigureSpec(c, parsers, old(Settings()))
    {
      o := ConfigureLayout(c);
      if o.Fail? {
        return;
      }
      o := ConfigureNaming(c);
      if o.Fail? {
        return;
      }
      o := ConfigureFormats(c, parsers);
    }

    method ConfigureLayout(c: Config) returns (o: Outcome<Exception>)
      modifies this
      ensures (Settings(), o) == ReadLayout(c, old(Settings()))
    {
      if HasPath(c, CompressCodecKey) {
        return Fail(RuntimeException(CompressMessage, None));
      }
      if HasPath(c, FieldDelimiterKey) {
        var d := GetString(c, FieldDelimiterKey);
        if d.Err? {
          return Fail(d.error);
        }
        if d.value != "" {
          fieldDelimiter := d.value;
        }
      }
      if HasPath(c, RowDelimiterKey) {
        var d := GetString(c, RowDelimiterKey);
        if d.Err? {
          return Fail(d.error);
        }
        if d.value != "" {
          rowDelimiter := d.value;
        }
      }
      if HasPath(c, PathKey) {
        var p := GetString(c, PathKey);
        if p.Err? {
          return Fail(p.error);
        }
        if !IsBlank(p.value) {
          path := Some(p.value);
        }
      }
      if path.None? {
        return Fail(NullPointerException(""));
      }
      o := Pass;
    }

    method ConfigureNaming(c: Config) returns (o: Outcome<Exception>)
      modifies this
      ensures (Settings(), o) == ReadNaming(c, old(Settings()))
    {
      if HasPath(c, FileNameExpressionKey) {
        var e := GetString(c, FileNameExpressionKey);
        if e.Err? {
          return Fail(e.error);
        }
        if !IsBlank(e.value) {
          fileNameExpression := Some(e.value);
        }
      }
      if HasPath(c, FileFormatKey) {
        var name := GetString(c, FileFormatKey);
        if name.Err? {
          return Fail(name.error);
        }
        if !IsBlank(name.value) {
          var f := FileFormatValueOf(ToUpper(name.value));
          if f.Err? {
            return Fail(f.error);
          }
          fileFormat := f.value;
        }
      }
      o := Pass;
    }

    method ConfigureFormats(c: Config, parsers: FormatParsers) returns (o: Outcome<Exception>)
      modifies this
      ensures (Settings(), o) == ReadFormats(c, parsers, old(Settings()))
    {
      if HasPath(c, DateFormatKey) {
        var name := GetString(c, DateFormatKey);
        if name.Err? {
          return Fail(name.error);
        }
        var f := parsers.date(name.value);
        if f.Err? {
          return Fail(f.error);
        }
        dateFormat := f.value;
      }
      if HasPath(c, DatetimeFormatKey) {
        var name := GetString(c, DatetimeFormatKey);
        if name.Err? {
          return Fail(name.error);
        }
        var f := parsers.datetime(name.value);
        if f.Err? {
          return Fail(f.error);
        }
        datetimeFormat := f.value;
      }
      if HasPath(c, TimeFormatKey) {
        var name := GetString(c, TimeFormatKey);
        if name.Err? {
          return Fail(name.error);
        }
        var f := parsers.time(name.value);
        if f.Err? {
          return Fail(f.error);
        }
        timeFormat := f.value;
      }
      o := Pass;
    }
  }
}
