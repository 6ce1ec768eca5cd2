/** The Kafka source connector: its boundedness, and `prepare`, which reads the plugin config
    into the consumer metadata (topic, servers, consumer group, start mode with its timestamp or
    specific offsets, the "kafka." properties) and chooses the row deserializer. */
module KafkaSource {
  import opened Wrappers
  import opened JavaText
  import opened JavaErrors
  import opened TypesafeConfig
  import opened ConnectorCommon

  const PluginName: string := "Kafka"
  const TopicKey: string := "topic"
  const PatternKey: string := "pattern"
  const BootstrapServersKey: string := "bootstrap.servers"
  const ConsumerGroupKey: string := "consumer.group"
  const CommitOnCheckpointKey: string := "commit_on_checkpoint"
  const StartModeKey: string := "start_mode"
  const StartModeTimestampKey: string := "start_mode.timestamp"
  const StartModeOffsetsKey: string := "start_mode.offsets"
  const SchemaKey: string := "schema"
  const FormatKey: string := "format"
  const FieldDelimiterKey: string := "field_delimiter"
  const KafkaPrefix: string := "kafka."

  const DefaultConsumerGroup: string := "SeaTunnel-Consumer-Group"
  const DefaultFormat: string := "json"
  const TextFormat: string := "text"
  const DefaultFieldDelimiter: string := ","
  /** String.valueOf('\002'), the delimiter of the schemaless text source. */
  const SchemalessDelimiter: string := [2 as char]
  const TimestampMessage: string :=
    "start_mode.timestamp The value is smaller than 0 or smaller than the current time"

  // ----- Start modes -----

  datatype StartMode = Earliest | GroupOffsets | Latest | Timestamp | SpecificOffsets

  function StartModeName(m: StartMode): string {
    match m
    case Earliest => "EARLIEST"
    case GroupOffsets => "GROUP_OFFSETS"
    case Latest => "LATEST"
    case Timestamp => "TIMESTAMP"
    case SpecificOffsets => "SPECIFIC_OFFSETS"
  }

  /** StartMode.valueOf: the constant whose name is exactly `name`. */
  function StartModeValueOf(name: string): (r: Result<StartMode, Exception>)
    ensures r.Ok? ==> StartModeName(r.value) == name
    ensures r.Err? ==> forall m: StartMode :: StartModeName(m) != name
  {
    if name == "EARLIEST" then Ok(Earliest)
    else if name == "GROUP_OFFSETS" then Ok(GroupOffsets)
    else if name == "LATEST" then Ok(Latest)
    else if name == "TIMESTAMP" then Ok(Timestamp)
    else if name == "SPECIFIC_OFFSETS" then Ok(SpecificOffsets)
    else Err(IllegalArgumentException(
      "No enum constant org.apache.seatunnel.connectors.seatunnel.kafka.config.StartMode." + name))
  }

  lemma StartModeNameRoundTrip(m: StartMode)
    ensures StartModeValueOf(StartModeName(m)) == Ok(m)
  {
  }

  // ----- Specific offsets -----

  datatype TopicPartition = TopicPartition(topic: string, partition: int)

  /** The TopicPartition a key of the offsets object names: the key is split on every '-'
      (String.split, which drops trailing empty pieces); piece 0 is the topic and piece 1,
      read by Integer.valueOf, the partition. Reading a piece that is not there throws. */
  function OffsetKey(key: string): (r: Result<TopicPartition, Exception>)
    ensures r.Ok? ==> '-' !in r.value.topic && IntMin <= r.value.partition <= IntMax
  {
    var pieces := Split(key, '-');
    if |pieces| == 0 then Err(IndexOutOfBoundsException(0))
    else if |pieces| == 1 then Err(IndexOutOfBoundsException(1))
    else
      match ParseInt(pieces[1])
      case None => Err(NumberFormatException(pieces[1]))
      case Some(p) => Ok(TopicPartition(pieces[0], p))
  }

  /** What reading a key yields: the first piece and the int value of the second, or the
      exception of the first read that fails. */
  lemma OffsetKeyCases(key: string)
    ensures var pieces := Split(key, '-');
      && (|pieces| == 0 ==> OffsetKey(key) == Err(IndexOutOfBoundsException(0)))
      && (|pieces| == 1 ==> OffsetKey(key) == Err(IndexOutOfBoundsException(1)))
      && (|pieces| >= 2 && ParseInt(pieces[1]).None? ==> OffsetKey(key) == Err(NumberFormatException(pieces[1])))
      && (|pieces| >= 2 && ParseInt(pieces[1]).Some? ==>
            OffsetKey(key) == Ok(TopicPartition(pieces[0], ParseInt(pieces[1]).value)))
  {
  }

  /** A key written as topic, '-', partition is read back when the topic is non-empty and has
      no '-' of its own. */
  lemma OffsetKeyRoundTrip(topic: string, partition: nat)
    requires topic != "" && '-' !in topic && partition <= IntMax
    ensures OffsetKey(topic + "-" + NatToString(partition)) == Ok(TopicPartition(topic, partition))
  {
    var digits := NatToString(partition);
    assert forall i | 0 <= i < |digits| :: digits[i] != '-' by {
      assert forall i | 0 <= i < |digits| :: IsAsciiDigit(digits[i]);
    }
    assert Join([topic, digits], "-") == topic + "-" + digits;
    SplitOfJoin([topic, digits], '-');
    ParseIntOfNatToString(partition);
  }

  /** `(long) Double.parseDouble(s)`: the double's value truncated toward zero and clamped to
      the long range, or None when parseDouble throws NumberFormatException. Floating point is
      not part of this model, so the conversion is given. */
  type DoubleParse = string -> Option<int>

  /** Jackson's NumberInput.parseAsLong(s, 0), which a text node's asLong() calls: the text is
      trimmed and a leading '+' dropped; an optionally '-'-signed run of ASCII digits goes to
      Long.parseLong and anything else to `(long) Double.parseDouble`; either parse throwing
      gives the default 0. */
  function ParseAsLong(s: string, parseDouble: DoubleParse): int {
    var t := Trim(s);
    if t == [] then 0
    else
      var unsigned := if t[0] == '+' then t[1..] else t;
      var checked := if t[0] == '-' then t[1..] else unsigned;
      if AllDigits(checked) then ParseLong(unsigned).GetOr(0)
      else parseDouble(unsigned).GetOr(0)
  }

  /** JsonNode.asLong() on the rendered node: a number as it is, a boolean as 1 or 0, a text
      node by ParseAsLong, and 0 for null, an array or an object. */
  function AsLong(v: ConfigValue, parseDouble: DoubleParse): (n: int)
    ensures v.Num? ==> n == v.n
    ensures v.Bool? ==> n == (if v.b then 1 else 0)
    ensures v.Null? || v.StrList? || v.EmptyObject? ==> n == 0
  {
    match v
    case Num(n) => n
    case Str(s) => ParseAsLong(s, parseDouble)
    case Bool(b) => if b then 1 else 0
    case StrList(_) => 0
    case Null => 0
    case EmptyObject => 0
  }

  /** The offset reader of the forEachRemaining loop. */
  function OffsetReader(parseDouble: DoubleParse): ConfigValue -> int {
    v => AsLong(v, parseDouble)
  }

  /** Long.parseLong of a run of ASCII digits, with or without a leading '-'. */
  lemma ParseLongOfDigits(negative: bool, digits: string)
    requires digits != [] && AllDigits(digits)
    ensures var v := if negative then -(DigitsValue(digits) as int) else DigitsValue(digits);
      ParseLong((if negative then "-" else "") + digits) == (if LongMin <= v <= LongMax then Some(v) else None)
  {
    var s := (if negative then "-" else "") + digits;
    assert IsAsciiDigit(digits[0]);
    if negative {
      assert s[0] == '-' && s[1..] == digits;
    } else {
      assert s == digits && s[0] != '-' && s[0] != '+';
    }
  }

  /** ParseAsLong of a text that trims to a signed run of ASCII digits. */
  lemma ParseAsLongOfDigits(s: string, sign: string, digits: string, parseDouble: DoubleParse)
    requires sign == "" || sign == "+" || sign == "-"
    requires digits != [] && AllDigits(digits)
    requires Trim(s) == sign + digits
    ensures ParseAsLong(s, parseDouble) == ParseLong((if sign == "-" then "-" else "") + digits).GetOr(0)
  {
    var t := Trim(s);
    assert t != [];
    var unsigned := if t[0] == '+' then t[1..] else t;
    var checked := if t[0] == '-' then t[1..] else unsigned;
    assert IsAsciiDigit(digits[0]);
    if sign == "" {
      assert t == digits;
      assert t[0] != '+' && t[0] != '-';
      assert checked == digits && unsigned == digits;
    } else if sign == "+" {
      assert t[0] == '+' && t[1..] == digits;
      assert checked == digits && unsigned == digits;
    } else {
      assert t[0] == '-' && t[1..] == digits;
      assert checked == digits && unsigned == t;
      assert t == "-" + digits;
    }
    assert AllDigits(checked);
    assert unsigned == (if sign == "-" then "-" else "") + digits;
    assert ParseAsLong(s, parseDouble) == ParseLong(unsigned).GetOr(0);
  }

  /** A text node holding a signed run of ASCII digits, padded with characters at or below
      ' ', is read as that number when it fits a long, and as 0 otherwise: " 12" gives 12,
      "+7" gives 7. */
  lemma AsLongOfDigits(pre: string, sign: string, digits: string, post: string, parseDouble: DoubleParse)
    requires forall i | 0 <= i < |pre| :: pre[i] <= ' '
    requires forall i | 0 <= i < |post| :: post[i] <= ' '
    requires sign == "" || sign == "+" || sign == "-"
    requires digits != [] && AllDigits(digits)
    ensures var v := if sign == "-" then -(DigitsValue(digits) as int) else DigitsValue(digits);
      AsLong(Str(pre + sign + digits + post), parseDouble) == (if LongMin <= v <= LongMax then v else 0)
  {
    var text := sign + digits;
    assert IsAsciiDigit(digits[|digits| - 1]) && text[|text| - 1] == digits[|digits| - 1];
    assert IsAsciiDigit(digits[0]) && text[0] > ' ';
    var s := pre + sign + digits + post;
    assert s == pre + text + post;
    TrimPadded(pre, text, post);
    ParseAsLongOfDigits(s, sign, digits, parseDouble);
    ParseLongOfDigits(sign == "-", digits);
  }

  /** Any other non-blank text goes through `(long) Double.parseDouble`, after trimming and
      dropping one leading '+': "1.5" gives parseDouble("1.5"), and 0 when that throws. */
  lemma AsLongOfOtherText(pre: string, text: string, post: string, parseDouble: DoubleParse, k: nat)
    requires forall i | 0 <= i < |pre| :: pre[i] <= ' '
    requires forall i | 0 <= i < |post| :: post[i] <= ' '
    requires text != [] && text[0] > ' ' && text[|text| - 1] > ' '
    requires text[0] != '+' && text[0] != '-'
    requires k < |text| && !IsAsciiDigit(text[k])
    ensures AsLong(Str(pre + text + post), parseDouble) == parseDouble(text).GetOr(0)
  {
    TrimPadded(pre, text, post);
  }

  /** The keys of `offsets`, each once, in the order the rendered JSON lists them. */
  predicate ListsKeys(offsets: Config, order: seq<string>) {
    (forall i | 0 <= i < |order| :: order[i] in offsets) && (forall k | k in offsets :: k in order)
  }

  /** How a key of the offsets object is read; the fold below is stated for any reader and
      used with OffsetKey. */
  type KeyReader = string -> Result<TopicPartition, Exception>

  /** The forEachRemaining loop: each key in turn is parsed and its offset put into `acc`, a
      later key overwriting an earlier one for the same partition; the first key that does not
      parse ends it. */
  function OffsetsInto(read: KeyReader, offsetOf: ConfigValue -> int, acc: map<TopicPartition, int>, offsets: Config, keys: seq<string>):
    (r: Result<map<TopicPartition, int>, Exception>)
    requires forall i | 0 <= i < |keys| :: keys[i] in offsets
    ensures r.Ok? ==> acc.Keys <= r.value.Keys
    decreases |keys|
  {
    if keys == [] then Ok(acc)
    else
      match read(keys[0])
      case Err(e) => Err(e)
      case Ok(tp) => OffsetsInto(read, offsetOf, acc[tp := offsetOf(offsets[keys[0]])], offsets, keys[1..])
  }

  function OffsetsOf(offsets: Config, order: seq<string>, parseDouble: DoubleParse): Result<map<TopicPartition, int>, Exception>
    requires ListsKeys(offsets, order)
  {
    OffsetsInto(OffsetKey, OffsetReader(parseDouble), map[], offsets, order)
  }

  /** The offsets map is built exactly when every key parses. */
  lemma {:induction false} OffsetsFailWithFirstBadKey(read: KeyReader, offsetOf: ConfigValue -> int, acc: map<TopicPartition, int>, offsets: Config, keys: seq<string>)
    requires forall i | 0 <= i < |keys| :: keys[i] in offsets
    ensures OffsetsInto(read, offsetOf, acc, offsets, keys).Ok? <==> forall i | 0 <= i < |keys| :: read(keys[i]).Ok?
    ensures OffsetsInto(read, offsetOf, acc, offsets, keys).Err? ==>
      exists i | 0 <= i < |keys| :: read(keys[i]).Err? && OffsetsInto(read, offsetOf, acc, offsets, keys).error == read(keys[i]).error
            && forall j | 0 <= j < i :: read(keys[j]).Ok?
    decreases |keys|
  {
    if keys != [] {
      if read(keys[0]).Ok? {
        var tp := read(keys[0]).value;
        OffsetsFailWithFirstBadKey(read, offsetOf, acc[tp := offsetOf(offsets[keys[0]])], offsets, keys[1..]);
        assert forall i | 1 <= i < |keys| :: keys[i] == keys[1..][i - 1];
        if OffsetsInto(read, offsetOf, acc, offsets, keys).Err? {
          var i :| 0 <= i < |keys[1..]| && read(keys[1..][i]).Err?
                   && OffsetsInto(read, offsetOf, acc, offsets, keys).error == read(keys[1..][i]).error
                   && forall j | 0 <= j < i :: read(keys[1..][j]).Ok?;
          assert read(keys[i + 1]).Err?;
        }
      }
    }
  }

  /** Every key's partition is in the built map, and nothing else is beyond what `acc` held. */
  lemma {:induction false} OffsetsKeys(read: KeyReader, offsetOf: ConfigValue -> int, acc: map<TopicPartition, int>, offsets: Config, keys: seq<string>)
    requires forall i | 0 <= i < |keys| :: keys[i] in offsets
    requires OffsetsInto(read, offsetOf, acc, offsets, keys).Ok?
    ensures forall i | 0 <= i < |keys| :: read(keys[i]).Ok? && read(keys[i]).value in OffsetsInto(read, offsetOf, acc, offsets, keys).value
    ensures forall tp | tp in OffsetsInto(read, offsetOf, acc, offsets, keys).value ::
              tp in acc || exists i | 0 <= i < |keys| :: read(keys[i]) == Ok(tp)
    decreases |keys|
  {
    if keys != [] {
      var tp := read(keys[0]).value;
      var acc' := acc[tp := offsetOf(offsets[keys[0]])];
      OffsetsKeys(read, offsetOf, acc', offsets, keys[1..]);
      assert forall i | 1 <= i < |keys| :: keys[i] == keys[1..][i - 1];
      var r := OffsetsInto(read, offsetOf, acc, offsets, keys).value;
      forall t | t in r
        ensures t in acc || exists i | 0 <= i < |keys| :: read(keys[i]) == Ok(t)
      {
        if t !in acc' {
          var i :| 0 <= i < |keys[1..]| && read(keys[1..][i]) == Ok(t);
          assert read(keys[i + 1]) == Ok(t);
        } else if t == tp {
          assert read(keys[0]) == Ok(t);
        }
      }
    }
  }

  /** A partition's offset is the value of the last key that names it. */
  lemma {:induction false} OffsetsLastWins(read: KeyReader, offsetOf: ConfigValue -> int, acc: map<TopicPartition, int>, offsets: Config, keys: seq<string>, i: nat)
    requires forall j | 0 <= j < |keys| :: keys[j] in offsets
    requires OffsetsInto(read, offsetOf, acc, offsets, keys).Ok?
    requires i < |keys| && read(keys[i]).Ok?
    requires forall j | i < j < |keys| :: read(keys[j]) != read(keys[i])
    ensures read(keys[i]).value in OffsetsInto(read, offsetOf, acc, offsets, keys).value
    ensures OffsetsInto(read, offsetOf, acc, offsets, keys).value[read(keys[i]).value] == offsetOf(offsets[keys[i]])
    decreases |keys|
  {
    var tp := read(keys[0]).value;
    var acc' := acc[tp := offsetOf(offsets[keys[0]])];
    assert forall j | 1 <= j < |keys| :: keys[j] == keys[1..][j - 1];
    if i == 0 {
      OffsetsUntouched(read, offsetOf, acc', offsets, keys[1..], tp);
    } else {
      OffsetsLastWins(read, offsetOf, acc', offsets, keys[1..], i - 1);
    }
  }

  /** A partition no key names keeps the value it had in `acc`. */
  lemma {:induction false} OffsetsUntouched(read: KeyReader, offsetOf: ConfigValue -> int, acc: map<TopicPartition, int>, offsets: Config, keys: seq<string>, tp: TopicPartition)
    requires forall j | 0 <= j < |keys| :: keys[j] in offsets
    requires OffsetsInto(read, offsetOf, acc, offsets, keys).Ok?
    requires tp in acc && forall j | 0 <= j < |keys| :: read(keys[j]) != Ok(tp)
    ensures tp in OffsetsInto(read, offsetOf, acc, offsets, keys).value && OffsetsInto(read, offsetOf, acc, offsets, keys).value[tp] == acc[tp]
    decreases |keys|
  {
    if keys != [] {
      var t := read(keys[0]).value;
      assert forall j | 1 <= j < |keys| :: keys[j] == keys[1..][j - 1];
      OffsetsUntouched(read, offsetOf, acc[t := offsetOf(offsets[keys[0]])], offsets, keys[1..], tp);
    }
  }

  /** The specific-offsets map read from a complete listing of the offsets object is built
      exactly when every key parses. */
  lemma ListingBuiltIffAllParse(read: KeyReader, offsetOf: ConfigValue -> int, offsets: Config, order: seq<string>)
    requires ListsKeys(offsets, order)
    ensures OffsetsInto(read, offsetOf, map[], offsets, order).Ok? <==> forall k | k in offsets :: read(k).Ok?
  {
    OffsetsFailWithFirstBadKey(read, offsetOf, map[], offsets, order);
    if OffsetsInto(read, offsetOf, map[], offsets, order).Err? {
      var i :| 0 <= i < |order| && read(order[i]).Err?;
      assert order[i] in offsets;
    }
  }

  /** It holds exactly the partitions the keys name. */
  lemma ListingPartitions(read: KeyReader, offsetOf: ConfigValue -> int, offsets: Config, order: seq<string>)
    requires ListsKeys(offsets, order)
    requires OffsetsInto(read, offsetOf, map[], offsets, order).Ok?
    ensures forall k | k in offsets :: read(k).Ok?
    ensures OffsetsInto(read, offsetOf, map[], offsets, order).value.Keys == set k | k in offsets :: read(k).value
  {
    OffsetsKeys(read, offsetOf, map[], offsets, order);
    var r := OffsetsInto(read, offsetOf, map[], offsets, order).value;
    forall k | k in offsets ensures read(k).Ok? && read(k).value in r {
      var i :| 0 <= i < |order| && order[i] == k;
    }
    forall tp | tp in r ensures exists k | k in offsets :: read(k) == Ok(tp) {
      var i :| 0 <= i < |order| && read(order[i]) == Ok(tp);
      assert order[i] in offsets;
    }
  }

  /** Each partition holds the offset of the last key naming it. */
  lemma ListingLastWins(read: KeyReader, offsetOf: ConfigValue -> int, offsets: Config, order: seq<string>)
    requires ListsKeys(offsets, order)
    requires OffsetsInto(read, offsetOf, map[], offsets, order).Ok?
    ensures forall i | 0 <= i < |order| && read(order[i]).Ok?
                       && (forall j | i < j < |order| :: read(order[j]) != read(order[i])) ::
      read(order[i]).value in OffsetsInto(read, offsetOf, map[], offsets, order).value
      && OffsetsInto(read, offsetOf, map[], offsets, order).value[read(order[i]).value] == offsetOf(offsets[order[i]])
  {
    OffsetsFailWithFirstBadKey(read, offsetOf, map[], offsets, order);
    forall i | 0 <= i < |order| && read(order[i]).Ok?
               && (forall j | i < j < |order| :: read(order[j]) != read(order[i]))
      ensures read(order[i]).value in OffsetsInto(read, offsetOf, map[], offsets, order).value
      ensures OffsetsInto(read, offsetOf, map[], offsets, order).value[read(order[i]).value] == offsetOf(offsets[order[i]])
    {
      OffsetsLastWins(read, offsetOf, map[], offsets, order, i);
    }
  }

  /** The specific-offsets map read from a complete listing of the offsets object: built iff
      every key parses, holding exactly the partitions the keys name, each with the offset of
      the last key naming it. */
  lemma OffsetsOfListing(offsets: Config, order: seq<string>, parseDouble: DoubleParse)
    requires ListsKeys(offsets, order)
    ensures OffsetsOf(offsets, order, parseDouble).Ok? <==> forall k | k in offsets :: OffsetKey(k).Ok?
    ensures OffsetsOf(offsets, order, parseDouble).Ok? ==>
      OffsetsOf(offsets, order, parseDouble).value.Keys == set k | k in offsets :: OffsetKey(k).value
    ensures OffsetsOf(offsets, order, parseDouble).Ok? ==>
      forall i | 0 <= i < |order| && OffsetKey(order[i]).Ok?
                 && (forall j | i < j < |order| :: OffsetKey(order[j]) != OffsetKey(order[i])) ::
        OffsetKey(order[i]).value in OffsetsOf(offsets, order, parseDouble).value
        && OffsetsOf(offsets, order, parseDouble).value[OffsetKey(order[i]).value] == AsLong(offsets[order[i]], parseDouble)
  {
    ListingBuiltIffAllParse(OffsetKey, OffsetReader(parseDouble), offsets, order);
    if OffsetsOf(offsets, order, parseDouble).Ok? {
      ListingPartitions(OffsetKey, OffsetReader(parseDouble), offsets, order);
      ListingLastWins(OffsetKey, OffsetReader(parseDouble), offsets, order);
    }
  }

  // ----- The consumer metadata -----

  /** ConsumerMetadata, each field None until `prepare` sets it (its own defaults are not part
      of this model). */
  datatype Metadata = Metadata(
    topic: Option<string>,
    pattern: Option<bool>,
    bootstrapServers: Option<string>,
    properties: Option<map<string, string>>,
    consumerGroup: Option<string>,
    commitOnCheckpoint: Option<bool>,
    startMode: Option<StartMode>,
    startOffsetsTimestamp: Option<int>,
    specificStartOffsets: Option<map<TopicPartition, int>>)

  const Unset: Metadata := Metadata(None, None, None, None, None, None, None, None, None)

  datatype Deserializer =
    | JsonDeserializer(rowType: RowType)
    | TextDeserializer(rowType: RowType, delimiter: string)

  /** The source's fields that `prepare` writes. */
  datatype SourceState = SourceState(metadata: Metadata, typeInfo: Option<RowType>, deserializer: Option<Deserializer>)

  // ----- prepare, stage by stage; each stage returns the state it reached and how it ended -----

  /** The first steps of `prepare`: topic, pattern, servers, a fresh property set, consumer group, commit flag. */
  function ReadConnection(c: Config, m: Metadata): (Metadata, Outcome<Exception>) {
    match GetString(c, TopicKey)
    case Err(e) => (m, Fail(e))
    case Ok(topic) =>
      var m1 := m.(topic := Some(topic));
      var pattern := GetBoolean(c, PatternKey);
      if HasPath(c, PatternKey) && pattern.Err? then (m1, Fail(pattern.error))
      else
        var m2 := if HasPath(c, PatternKey) then m1.(pattern := Some(pattern.value)) else m1;
        match GetString(c, BootstrapServersKey)
        case Err(e) => (m2, Fail(e))
        case Ok(servers) =>
          var m3 := m2.(bootstrapServers := Some(servers), properties := Some(map[]));
          var group := GetString(c, ConsumerGroupKey);
          if HasPath(c, ConsumerGroupKey) && group.Err? then (m3, Fail(group.error))
          else
            var m4 := m3.(consumerGroup := Some(if HasPath(c, ConsumerGroupKey) then group.value else DefaultConsumerGroup));
            var commit := GetBoolean(c, CommitOnCheckpointKey);
            if HasPath(c, CommitOnCheckpointKey) && commit.Err? then (m4, Fail(commit.error))
            else (if HasPath(c, CommitOnCheckpointKey) then m4.(commitOnCheckpoint := Some(commit.value)) else m4, Pass)
  }

  /** The start-mode step of `prepare`: the mode, upper-cased, then its timestamp or its offsets. `now` is
      System.currentTimeMillis() and `order` the order of the offsets' keys. */
  function ReadStartMode(c: Config, now: int, parseDouble: DoubleParse, order: seq<string>, m: Metadata): (Metadata, Outcome<Exception>)
    requires OrderFits(c, order)
  {
    if !HasPath(c, StartModeKey) then (m, Pass)
    else
      match GetString(c, StartModeKey)
      case Err(e) => (m, Fail(e))
      case Ok(name) =>
        match StartModeValueOf(ToUpper(name))
        case Err(e) => (m, Fail(e))
        case Ok(mode) => ModeSettings(c, now, parseDouble, order, mode, m.(startMode := Some(mode)))
  }

  /** Within the start-mode step: what each start mode reads besides its name. */
  function ModeSettings(c: Config, now: int, parseDouble: DoubleParse, order: seq<string>, mode: StartMode, m: Metadata): (Metadata, Outcome<Exception>)
    requires OrderFits(c, order)
  {
    match mode
    case Timestamp =>
      (match GetLong(c, StartModeTimestampKey)
       case Err(e) => (m, Fail(e))
       case Ok(t) =>
         if t < 0 || t > now then (m, Fail(IllegalArgumentException(TimestampMessage)))
         else (m.(startOffsetsTimestamp := Some(t)), Pass))
    case SpecificOffsets =>
      (match GetConfig(c, StartModeOffsetsKey)
       case Err(e) => (m, Fail(e))
       case Ok(offsets) =>
         match OffsetsOf(offsets, order, parseDouble)
         case Err(e) => (m, Fail(e))
         case Ok(tps) => (m.(specificStartOffsets := Some(tps)), Pass))
    case _ => (m, Pass)
  }

  /** The last step of `prepare`: every "kafka." entry put into the properties as a string. */
  function CopyProperties(c: Config, m: Metadata): Metadata {
    m.(properties := Some(m.properties.GetOr(map[]) + ExtractSubConfig(c, KafkaPrefix)))
  }

  /** setDeserialization. The row type is set before the format is examined, so an unsupported
      format leaves the row type set and the deserializer as it was. */
  function Deserialization(c: Config, s: SourceState): (SourceState, Outcome<Exception>) {
    if HasPath(c, SchemaKey) then
      match GetConfig(c, SchemaKey)
      case Err(e) => (s, Fail(e))
      case Ok(schema) =>
        var rowType := FromSchema(schema);
        var s1 := s.(typeInfo := Some(rowType));
        var format := GetString(c, FormatKey);
        if HasPath(c, FormatKey) && format.Err? then (s1, Fail(format.error))
        else
          var name := if HasPath(c, FormatKey) then format.value else DefaultFormat;
          if name == DefaultFormat then (s1.(deserializer := Some(JsonDeserializer(rowType))), Pass)
          else if name == TextFormat then
            var delimiter := GetString(c, FieldDelimiterKey);
            if HasPath(c, FieldDelimiterKey) && delimiter.Err? then (s1, Fail(delimiter.error))
            else
              var d := if HasPath(c, FieldDelimiterKey) then delimiter.value else DefaultFieldDelimiter;
              (s1.(deserializer := Some(TextDeserializer(rowType, d))), Pass)
          else (s1, Fail(UnsupportedOperationException("Unsupported format: " + name)))
    else
      (s.(typeInfo := Some(SimpleTextSchema), deserializer := Some(TextDeserializer(SimpleTextSchema, SchemalessDelimiter))), Pass)
  }

  predicate OrderFits(c: Config, order: seq<string>) {
    GetConfig(c, StartModeOffsetsKey).Ok? ==> ListsKeys(GetConfig(c, StartModeOffsetsKey).value, order)
  }

  function RequiredCheck(c: Config): CheckResult {
    CheckAllExists(c, [TopicKey, BootstrapServersKey])
  }

  /** prepare as a whole: where it stops and what it has written by then. */
  function PrepareSpec(c: Config, now: int, parseDouble: DoubleParse, order: seq<string>, s: SourceState): (SourceState, Outcome<Exception>)
    requires OrderFits(c, order)
  {
    var check := RequiredCheck(c);
    if !check.IsSuccess() then (s, Fail(PrepareFailException(PluginName, Source, check.Msg())))
    else
      var (m1, o1) := ReadConnection(c, s.metadata);
      if o1.Fail? then (s.(metadata := m1), o1)
      else
        var (m2, o2) := ReadStartMode(c, now, parseDouble, order, m1);
        if o2.Fail? then (s.(metadata := m2), o2)
        else Deserialization(c, s.(metadata := CopyProperties(c, m2)))
  }

  // ----- What prepare promises -----

  /** A missing topic or missing servers fails before any field is written. */
  lemma PrepareRequiresTopicAndServers(c: Config, now: int, parseDouble: DoubleParse, order: seq<string>, s: SourceState)
    requires OrderFits(c, order)
    ensures !IsValidParam(c, TopicKey) || !IsValidParam(c, BootstrapServersKey) ==>
      PrepareSpec(c, now, parseDouble, order, s) == (s, Fail(PrepareFailException(PluginName, Source, RequiredCheck(c).Msg())))
    ensures PrepareSpec(c, now, parseDouble, order, s).1 == Pass ==> IsValidParam(c, TopicKey) && IsValidParam(c, BootstrapServersKey)
  {
    assert [TopicKey, BootstrapServersKey][0] == TopicKey && [TopicKey, BootstrapServersKey][1] == BootstrapServersKey;
  }

  /** Once the connection settings are read, topic and servers hold the config's strings, the
      consumer group is the configured one or "SeaTunnel-Consumer-Group", and pattern and
      commit flag are set exactly when configured. */
  lemma ReadConnectionSettings(c: Config, m: Metadata)
    requires ReadConnection(c, m).1 == Pass
    ensures var m' := ReadConnection(c, m).0;
      && m'.topic == Some(GetString(c, TopicKey).value)
      && m'.bootstrapServers == Some(GetString(c, BootstrapServersKey).value)
      && m'.consumerGroup == Some(if HasPath(c, ConsumerGroupKey) then GetString(c, ConsumerGroupKey).value else DefaultConsumerGroup)
      && m'.pattern == (if HasPath(c, PatternKey) then Some(GetBoolean(c, PatternKey).value) else m.pattern)
      && m'.commitOnCheckpoint == (if HasPath(c, CommitOnCheckpointKey) then Some(GetBoolean(c, CommitOnCheckpointKey).value) else m.commitOnCheckpoint)
      && m'.properties == Some(map[])
      && m'.(topic := m.topic, bootstrapServers := m.bootstrapServers, consumerGroup := m.consumerGroup,
             pattern := m.pattern, commitOnCheckpoint := m.commitOnCheckpoint, properties := m.properties) == m
  {
  }

  /** A configured start mode name that is not a constant once upper-cased fails the stage
      with valueOf's exception; without a start mode nothing changes. */
  lemma UnknownStartModeFails(c: Config, now: int, parseDouble: DoubleParse, order: seq<string>, m: Metadata)
    requires OrderFits(c, order)
    ensures !HasPath(c, StartModeKey) ==> ReadStartMode(c, now, parseDouble, order, m) == (m, Pass)
    ensures HasPath(c, StartModeKey) && GetString(c, StartModeKey).Ok? ==>
      var upper := ToUpper(GetString(c, StartModeKey).value);
      (forall md: StartMode :: StartModeName(md) != upper) ==>
        ReadStartMode(c, now, parseDouble, order, m) == (m, Fail(StartModeValueOf(upper).error))
  {
  }

  /** The stage writes only the start mode, its timestamp and its offsets; a start mode it
      writes is the constant named by the upper-cased configured name. */
  lemma StartModeUpperCased(c: Config, now: int, parseDouble: DoubleParse, order: seq<string>, m: Metadata)
    requires OrderFits(c, order)
    ensures var m' := ReadStartMode(c, now, parseDouble, order, m).0;
      m' == m.(startMode := m'.startMode, startOffsetsTimestamp := m'.startOffsetsTimestamp,
               specificStartOffsets := m'.specificStartOffsets)
    ensures var m' := ReadStartMode(c, now, parseDouble, order, m).0;
      m'.startMode != m.startMode ==>
        HasPath(c, StartModeKey) && GetString(c, StartModeKey).Ok? && m'.startMode.Some?
        && StartModeName(m'.startMode.value) == ToUpper(GetString(c, StartModeKey).value)
  {
    if HasPath(c, StartModeKey) && GetString(c, StartModeKey).Ok? {
      var upper := ToUpper(GetString(c, StartModeKey).value);
      if StartModeValueOf(upper).Ok? {
        var mode := StartModeValueOf(upper).value;
        ModeSettingsFrame(c, now, parseDouble, order, mode, m.(startMode := Some(mode)));
      }
    }
  }

  lemma ModeSettingsFrame(c: Config, now: int, parseDouble: DoubleParse, order: seq<string>, mode: StartMode, m: Metadata)
    requires OrderFits(c, order)
    ensures var m' := ModeSettings(c, now, parseDouble, order, mode, m).0;
      m' == m.(startOffsetsTimestamp := m'.startOffsetsTimestamp, specificStartOffsets := m'.specificStartOffsets)
  {
  }

  /** In timestamp mode the timestamp must lie in [0, now]; outside it the stage fails with
      IllegalArgumentException and sets no timestamp. */
  lemma TimestampWithinNow(c: Config, now: int, parseDouble: DoubleParse, order: seq<string>, m: Metadata)
    requires OrderFits(c, order)
    requires HasPath(c, StartModeKey) && GetString(c, StartModeKey).Ok?
    requires ToUpper(GetString(c, StartModeKey).value) == "TIMESTAMP"
    ensures var (m', o) := ReadStartMode(c, now, parseDouble, order, m);
      && m'.startMode == Some(Timestamp)
      && (o == Pass <==> GetLong(c, StartModeTimestampKey).Ok? && 0 <= GetLong(c, StartModeTimestampKey).value <= now)
      && (o == Pass ==> m'.startOffsetsTimestamp == Some(GetLong(c, StartModeTimestampKey).value))
      && (GetLong(c, StartModeTimestampKey).Ok? && !(0 <= GetLong(c, StartModeTimestampKey).value <= now) ==>
            o == Fail(IllegalArgumentException(TimestampMessage)) && m'.startOffsetsTimestamp == m.startOffsetsTimestamp)
  {
    assert StartModeValueOf("TIMESTAMP") == Ok(Timestamp);
  }

  /** In specific-offsets mode the offsets come from the offsets object, keyed by the
      `topic-partition` reading of each key. */
  lemma SpecificOffsetsRead(c: Config, now: int, parseDouble: DoubleParse, order: seq<string>, m: Metadata)
    requires OrderFits(c, order)
    requires HasPath(c, StartModeKey) && GetString(c, StartModeKey).Ok?
    requires ToUpper(GetString(c, StartModeKey).value) == "SPECIFIC_OFFSETS"
    ensures var (m', o) := ReadStartMode(c, now, parseDouble, order, m);
      && m'.startMode == Some(SpecificOffsets)
      && (o == Pass <==> GetConfig(c, StartModeOffsetsKey).Ok?
                         && OffsetsOf(GetConfig(c, StartModeOffsetsKey).value, order, parseDouble).Ok?)
      && (o == Pass ==> m'.specificStartOffsets == Some(OffsetsOf(GetConfig(c, StartModeOffsetsKey).value, order, parseDouble).value))
    ensures StartModeOffsetsKey in c && c[StartModeOffsetsKey].EmptyObject?
            && (forall k | k in c :: !StartsWith(k, StartModeOffsetsKey + ".")) ==>
      ReadStartMode(c, now, parseDouble, order, m) ==
        (m.(startMode := Some(SpecificOffsets), specificStartOffsets := Some(map[])), Pass)
  {
    assert StartModeValueOf("SPECIFIC_OFFSETS") == Ok(SpecificOffsets);
    if StartModeOffsetsKey in c && c[StartModeOffsetsKey].EmptyObject?
       && (forall k | k in c :: !StartsWith(k, StartModeOffsetsKey + ".")) {
      assert GetConfig(c, StartModeOffsetsKey) == Ok(map[]);
    }
  }

  /** setDeserialization writes only the row type and the deserializer. */
  lemma DeserializationFrame(c: Config, s: SourceState)
    ensures Deserialization(c, s).0.metadata == s.metadata
  {
  }

  /** The metadata a successful prepare leaves: the connection stage's, then the start-mode
      stage's, then the copied properties. */
  lemma PrepareMetadata(c: Config, now: int, parseDouble: DoubleParse, order: seq<string>, s: SourceState)
    requires OrderFits(c, order)
    requires PrepareSpec(c, now, parseDouble, order, s).1 == Pass
    ensures RequiredCheck(c).IsSuccess()
    ensures ReadConnection(c, s.metadata).1 == Pass
    ensures ReadStartMode(c, now, parseDouble, order, ReadConnection(c, s.metadata).0).1 == Pass
    ensures PrepareSpec(c, now, parseDouble, order, s).0.metadata ==
      CopyProperties(c, ReadStartMode(c, now, parseDouble, order, ReadConnection(c, s.metadata).0).0)
  {
    var m1 := ReadConnection(c, s.metadata).0;
    var m2 := ReadStartMode(c, now, parseDouble, order, m1).0;
    DeserializationFrame(c, s.(metadata := CopyProperties(c, m2)));
  }

  /** Every "kafka." entry of the config ends up in the properties, under the rest of its key,
      as a string; nothing else does. */
  lemma PropertiesFromPrefixedEntries(c: Config, now: int, parseDouble: DoubleParse, order: seq<string>, s: SourceState)
    requires OrderFits(c, order)
    requires PrepareSpec(c, now, parseDouble, order, s).1 == Pass
    ensures var props := PrepareSpec(c, now, parseDouble, order, s).0.metadata.properties;
      && props == Some(ExtractSubConfig(c, KafkaPrefix))
      && (forall k | k in props.value :: KafkaPrefix + k in c && IsLeafValue(c[KafkaPrefix + k])
                                         && props.value[k] == Unwrapped(c[KafkaPrefix + k]))
      && (forall k | k in c && IsLeafValue(c[k]) && StartsWith(k, KafkaPrefix) :: k[|KafkaPrefix|..] in props.value)
  {
    PrepareMetadata(c, now, parseDouble, order, s);
    var m1 := ReadConnection(c, s.metadata).0;
    ReadConnectionSettings(c, s.metadata);
    StartModeUpperCased(c, now, parseDouble, order, m1);
    var m2 := ReadStartMode(c, now, parseDouble, order, m1).0;
    assert m2.properties == Some(map[]);
    assert map[] + ExtractSubConfig(c, KafkaPrefix) == ExtractSubConfig(c, KafkaPrefix);
  }

  /** The deserializer table: no schema gives the simple text schema with delimiter '\002';
      with a schema, "json" (the default) gives the JSON deserializer, "text" the text one with
      the configured delimiter or ",", and any other format UnsupportedOperationException. */
  lemma DeserializationTable(c: Config, s: SourceState)
    ensures !HasPath(c, SchemaKey) ==>
      Deserialization(c, s) == (s.(typeInfo := Some(SimpleTextSchema), deserializer := Some(TextDeserializer(SimpleTextSchema, SchemalessDelimiter))), Pass)
    ensures HasPath(c, SchemaKey) && GetConfig(c, SchemaKey).Ok? && !HasPath(c, FormatKey) ==>
      var rt := FromSchema(GetConfig(c, SchemaKey).value);
      Deserialization(c, s) == (s.(typeInfo := Some(rt), deserializer := Some(JsonDeserializer(rt))), Pass)
    ensures HasPath(c, SchemaKey) && GetConfig(c, SchemaKey).Ok? && HasPath(c, FormatKey) && GetString(c, FormatKey).Ok? ==>
      var rt := FromSchema(GetConfig(c, SchemaKey).value);
      var f := GetString(c, FormatKey).value;
      && (f == DefaultFormat ==> Deserialization(c, s) == (s.(typeInfo := Some(rt), deserializer := Some(JsonDeserializer(rt))), Pass))
      && (f == TextFormat && !HasPath(c, FieldDelimiterKey) ==>
            Deserialization(c, s) == (s.(typeInfo := Some(rt), deserializer := Some(TextDeserializer(rt, DefaultFieldDelimiter))), Pass))
      && (f == TextFormat && HasPath(c, FieldDelimiterKey) && GetString(c, FieldDelimiterKey).Ok? ==>
            Deserialization(c, s) == (s.(typeInfo := Some(rt), deserializer := Some(TextDeserializer(rt, GetString(c, FieldDelimiterKey).value))), Pass))
      && (f != DefaultFormat && f != TextFormat ==>
            Deserialization(c, s) == (s.(typeInfo := Some(rt)), Fail(UnsupportedOperationException("Unsupported format: " + f))))
  {
  }

  /** A successful prepare sets the topic, servers and consumer group, and a deserializer for
      the row type it sets. */
  lemma PrepareSucceeded(c: Config, now: int, parseDouble: DoubleParse, order: seq<string>, s: SourceState)
    requires OrderFits(c, order)
    requires PrepareSpec(c, now, parseDouble, order, s).1 == Pass
    ensures var s' := PrepareSpec(c, now, parseDouble, order, s).0;
      && s'.metadata.topic == Some(GetString(c, TopicKey).value)
      && s'.metadata.bootstrapServers == Some(GetString(c, BootstrapServersKey).value)
      && s'.metadata.consumerGroup ==
           Some(if HasPath(c, ConsumerGroupKey) then GetString(c, ConsumerGroupKey).value else DefaultConsumerGroup)
      && s'.typeInfo.Some? && s'.deserializer.Some? && s'.deserializer.value.rowType == s'.typeInfo.value
  {
    PrepareMetadata(c, now, parseDouble, order, s);
    var m1 := ReadConnection(c, s.metadata).0;
    ReadConnectionSettings(c, s.metadata);
    StartModeUpperCased(c, now, parseDouble, order, m1);
    var m2 := ReadStartMode(c, now, parseDouble, order, m1).0;
    DeserializationSucceeded(c, s.(metadata := CopyProperties(c, m2)));
  }

  lemma DeserializationSucceeded(c: Config, s: SourceState)
    requires Deserialization(c, s).1 == Pass
    ensures var s' := Deserialization(c, s).0;
      s'.typeInfo.Some? && s'.deserializer.Some? && s'.deserializer.value.rowType == s'.typeInfo.value
  {
  }

  // ----- The source object -----

  class KafkaSourceConnector {
    var metadata: Metadata
    var typeInfo: Option<RowType>
    var deserializationSchema: Option<Deserializer>
    var jobContext: Option<JobMode>

    function State(): SourceState
      reads this
    {
      SourceState(metadata, typeInfo, deserializationSchema)
    }

    constructor()
      ensures State() == SourceState(Unset, None, None) && jobContext == None
    {
      metadata := Unset;
      typeInfo := None;
      deserializationSchema := None;
      jobContext := None;
    }

    method SetJobContext(mode: JobMode)
      modifies this
      ensures jobContext == Some(mode) && State() == old(State())
    {
      jobContext := Some(mode);
    }

    /** getBoundedness; without a job context the mode cannot be read. */
    method GetBoundedness() returns (r: Result<Boundedness, Exception>)
      ensures jobContext.None? ==> r.Err? && r.error.NullPointerException?
      ensures jobContext.Some? ==> r == Ok(BoundednessOf(jobContext.value))
    {
      if jobContext.None? {
        return Err(NullPointerException(""));
      }
      r := Ok(if jobContext.value == Batch then Bounded else Unbounded);
    }

    method GetProducedType() returns (r: Option<RowType>)
      ensures r == typeInfo
    {
      r := typeInfo;
    }

    /** prepare(config): `now` is what System.currentTimeMillis() returns, `parseDouble` the
        conversion a non-integral offset text goes through, and `order` the order in which the
        rendered offsets object lists its keys. */
    method Prepare(c: Config, now: int, parseDouble: DoubleParse, order: seq<string>) returns (o: Outcome<Exception>)
      requires OrderFits(c, order)
      modifies this
      ensures (State(), o) == PrepareSpec(c, now, parseDouble, order, old(State()))
      ensures jobContext == old(jobContext)
    {
      var check := CheckAllExists(c, [TopicKey, BootstrapServersKey]);
      if !check.IsSuccess() {
        return Fail(PrepareFailException(PluginName, Source, check.Msg()));
      }
      o := ReadConnectionFields(c);
      if o.Fail? {
        return;
      }
      o := ReadStartModeFields(c, now, parseDouble, order);
      if o.Fail? {
        return;
      }
      var sub := ExtractSubConfig(c, KafkaPrefix);
      PutProperties(sub);
      o := SetDeserialization(c);
    }

    method ReadConnectionFields(c: Config) returns (o: Outcome<Exception>)
      modifies this
      ensures (metadata, o) == ReadConnection(c, old(metadata))
      ensures typeInfo == old(typeInfo) && deserializationSchema == old(deserializationSchema) && jobContext == old(jobContext)
    {
      var topic := GetString(c, TopicKey);
      if topic.Err? {
        return Fail(topic.error);
      }
      metadata := metadata.(topic := Some(topic.value));
      if HasPath(c, PatternKey) {
        var pattern := GetBoolean(c, PatternKey);
        if pattern.Err? {
          return Fail(pattern.error);
        }
        metadata := metadata.(pattern := Some(pattern.value));
      }
      var servers := GetString(c, BootstrapServersKey);
      if servers.Err? {
        return Fail(servers.error);
      }
      metadata := metadata.(bootstrapServers := Some(servers.value));
      metadata := metadata.(properties := Some(map[]));
      if HasPath(c, ConsumerGroupKey) {
        var group := GetString(c, ConsumerGroupKey);
        if group.Err? {
          return Fail(group.error);
        }
        metadata := metadata.(consumerGroup := Some(group.value));
      } else {
        metadata := metadata.(consumerGroup := Some(DefaultConsumerGroup));
      }
      if HasPath(c, CommitOnCheckpointKey) {
        var commit := GetBoolean(c, CommitOnCheckpointKey);
        if commit.Err? {
          return Fail(commit.error);
        }
        metadata := metadata.(commitOnCheckpoint := Some(commit.value));
      }
      o := Pass;
    }

    method ReadStartModeFields(c: Config, now: int, parseDouble: DoubleParse, order: seq<string>) returns (o: Outcome<Exception>)
      requires OrderFits(c, order)
      modifies this
      ensures (metadata, o) == ReadStartMode(c, now, parseDouble, order, old(metadata))
      ensures typeInfo == old(typeInfo) && deserializationSchema == old(deserializationSchema) && jobContext == old(jobContext)
    {
      if !HasPath(c, StartModeKey) {
        return Pass;
      }
      var name := GetString(c, StartModeKey);
      if name.Err? {
        return Fail(name.error);
      }
      var mode := StartModeValueOf(ToUpper(name.value));
      if mode.Err? {
        return Fail(mode.error);
      }
      metadata := metadata.(startMode := Some(mode.value));
      match mode.value {
        case Timestamp =>
          var t := GetLong(c, StartModeTimestampKey);
          if t.Err? {
            return Fail(t.error);
          }
          if t.value < 0 || t.value > now {
            return Fail(IllegalArgumentException(TimestampMessage));
          }
          metadata := metadata.(startOffsetsTimestamp := Some(t.value));
        case SpecificOffsets =>
          var offsets := GetConfig(c, StartModeOffsetsKey);
          if offsets.Err? {
            return Fail(offsets.error);
          }
          var tps := ParseSpecificOffsets(offsets.value, order, parseDouble);
          if tps.Err? {
            return Fail(tps.error);
          }
          metadata := metadata.(specificStartOffsets := Some(tps.value));
        case _ =>
      }
      o := Pass;
    }

    /** The forEachRemaining loop over the offsets' keys, filling a HashMap. */
    static method ParseSpecificOffsets(offsets: Config, order: seq<string>, parseDouble: DoubleParse) returns (r: Result<map<TopicPartition, int>, Exception>)
      requires ListsKeys(offsets, order)
      ensures r == OffsetsOf(offsets, order, parseDouble)
    {
      var specificStartOffsets: map<TopicPartition, int> := map[];
      var i := 0;
      while i < |order|
        invariant 0 <= i <= |order|
        invariant OffsetsOf(offsets, order, parseDouble) == OffsetsInto(OffsetKey, OffsetReader(parseDouble), specificStartOffsets, offsets, order[i..])
      {
        assert order[i..][0] == order[i] && order[i..][1..] == order[i + 1..];
        var tp := OffsetKey(order[i]);
        if tp.Err? {
          return Err(tp.error);
        }
        specificStartOffsets := specificStartOffsets[tp.value := AsLong(offsets[order[i]], parseDouble)];
        i := i + 1;
      }
      r := Ok(specificStartOffsets);
    }

    /** The forEach that puts each "kafka." entry into the properties. */
    method PutProperties(sub: map<string, string>)
      modifies this
      ensures metadata == old(metadata).(properties := Some(old(metadata).properties.GetOr(map[]) + sub))
      ensures typeInfo == old(typeInfo) && deserializationSchema == old(deserializationSchema) && jobContext == old(jobContext)
    {
      var props := metadata.properties.GetOr(map[]);
      ghost var start := props;
      var remaining := sub.Keys;
      while remaining != {}
        invariant remaining <= sub.Keys
        invariant props == start + map k | k in sub.Keys - remaining :: sub[k]
        decreases remaining
      {
        var k :| k in remaining;
        props := props[k := sub[k]];
        remaining := remaining - {k};
      }
      assert sub.Keys - remaining == sub.Keys;
      assert (map k | k in sub.Keys :: sub[k]) == sub;
      metadata := metadata.(properties := Some(props));
    }

    method SetDeserialization(c: Config) returns (o: Outcome<Exception>)
      modifies this
      ensures (State(), o) == Deserialization(c, old(State()))
      ensures jobContext == old(jobContext)
    {
      if HasPath(c, SchemaKey) {
        var schema := GetConfig(c, SchemaKey);
        if schema.Err? {
          return Fail(schema.error);
        }
        var rowType := FromSchema(schema.value);
        typeInfo := Some(rowType);
        var format := DefaultFormat;
        if HasPath(c, FormatKey) {
          var f := GetString(c, FormatKey);
          if f.Err? {
            return Fail(f.error);
          }
          format := f.value;
        }
        if format == DefaultFormat {
          deserializationSchema := Some(JsonDeserializer(rowType));
        } else if format == TextFormat {
          var delimiter := DefaultFieldDelimiter;
          if HasPath(c, FieldDelimiterKey) {
            var d := GetString(c, FieldDelimiterKey);
            if d.Err? {
              return Fail(d.error);
            }
            delimiter := d.value;
          }
          deserializationSchema := Some(TextDeserializer(rowType, delimiter));
        } else {
          return Fail(UnsupportedOperationException("Unsupported format: " + format));
        }
      } else {
        typeInfo := Some(SimpleTextSchema);
        deserializationSchema := Some(TextDeserializer(SimpleTextSchema, SchemalessDelimiter));
      }
      o := Pass;
    }
  }
}
