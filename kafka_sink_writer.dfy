/** KafkaSinkWriter: reads its settings from the plugin config, keeps the transaction prefix and
    the last checkpoint id, and drives a Kafka producer sender. The sender itself is not
    modelled: the writer records, in order, every call it makes on it. */
module KafkaSinkWriter {
  import opened Wrappers
  import opened JavaText
  import opened JavaErrors
  import opened TypesafeConfig
  import ConnectorCommon

  // Keys of the Kafka sink configuration.
  const TopicKey: string := "topic"
  const PartitionKeyKey: string := "partition_key"
  const PartitionKey: string := "partition"
  const AssignPartitionsKey: string := "assign_partitions"
  const TransactionPrefixKey: string := "transaction_prefix"
  const SemanticsKey: string := "semantics"
  const KafkaConfigPrefix: string := "kafka."
  const BootstrapServersKey: string := "bootstrap.servers"
  const PartitionerClassKey: string := "partitioner.class"
  const KeySerializerKey: string := "key.serializer"
  const ValueSerializerKey: string := "value.serializer"
  const PartitionerClass: string := "org.apache.seatunnel.connectors.seatunnel.kafka.sink.MessageContentPartitioner"
  const ByteArraySerializer: string := "org.apache.kafka.common.serialization.ByteArraySerializer"

  /** Bound of the random number in a generated transaction prefix. */
  const PrefixRange: nat := 10000

  const CloseErrorMessage: string := "Close kafka sink writer error"

  datatype KafkaSemantics = ExactlyOnce | AtLeastOnce | Non

  function SemanticsName(k: KafkaSemantics): string {
    match k
    case ExactlyOnce => "EXACTLY_ONCE"
    case AtLeastOnce => "AT_LEAST_ONCE"
    case Non => "NON"
  }

  /** KafkaSinkState: what a checkpoint stores for one writer. */
  datatype KafkaSinkState = KafkaSinkState(transactionIdPrefix: string, checkpointId: int)

  /** The commit info a sender hands back, opaque here. */
  datatype KafkaCommitInfo = KafkaCommitInfo(payload: string)

  /** The function createPartitionExtractor returns. */
  datatype PartitionExtractor = NullKey | ConstantKey(key: string) | FieldKey(index: nat)

  /** DefaultSeaTunnelRowSerializer: the topic, and the partition when one is configured. */
  datatype RowSerializer = RowSerializer(topic: string, partition: Option<int>)

  /** The record handed to the sender: by serializeRowByKey or by serializeRow. */
  datatype ProducerRecord =
    | KeyedRecord(serializer: RowSerializer, key: Option<string>, row: ConnectorCommon.Row)
    | PlainRecord(serializer: RowSerializer, row: ConnectorCommon.Row)

  /** KafkaTransactionSender or KafkaNoTransactionSender, with the properties they are built from. */
  datatype SenderKind =
    | TransactionSender(transactionPrefix: string, properties: map<string, string>)
    | NoTransactionSender(properties: map<string, string>)

  /** One call made on the sender. */
  datatype SenderCall =
    | BeginTransaction(transactionId: string)
    | AbortTransactionsFrom(checkpointId: int)
    | AbortTransaction
    | SnapshotState(checkpointId: int)
    | PrepareCommit
    | Send(record: ProducerRecord)
    | CloseSender

  /** Everything the constructor reads from the plugin config. */
  datatype Settings = Settings(
    keyed: bool,
    extractor: PartitionExtractor,
    partition: int,
    assignPartitions: Option<seq<string>>,
    configuredPrefix: Option<string>,
    serializer: RowSerializer,
    semantics: KafkaSemantics,
    properties: map<string, string>)

  /** The writer's fields, and the calls made on its sender so far. */
  datatype WriterState = WriterState(
    transactionPrefix: string,
    lastCheckpointId: int,
    sender: Option<SenderKind>,
    calls: seq<SenderCall>)

  /** generateTransactionId. */
  function TransactionId(prefix: string, checkpointId: int): (id: string)
    ensures StartsWith(id, prefix + "-")
    ensures id[|prefix| + 1..] == IntToString(checkpointId)
  {
    prefix + "-" + IntToString(checkpointId)
  }

  /** Under one prefix, distinct checkpoint ids give distinct transaction ids. */
  lemma TransactionIdInjective(prefix: string, m: int, n: int)
    requires TransactionId(prefix, m) == TransactionId(prefix, n)
    ensures m == n
  {
    IntToStringInjective(m, n);
  }

  /** String.format("SeaTunnel%04d", draw), where `draw` stands for random.nextInt(PREFIX_RANGE). */
  function RandomPrefix(draw: nat): (p: string)
    requires draw < PrefixRange
    ensures |p| == 13 && StartsWith(p, "SeaTunnel") && AllDigits(p[9..])
  {
    "SeaTunnel" + Pad4(draw)
  }

  /** The first position of `name` in `names`. */
  function IndexOf(names: seq<string>, name: string): (i: nat)
    requires name in names
    ensures i < |names| && names[i] == name
    ensures forall j | 0 <= j < i :: names[j] != name
  {
    if names[0] == name then 0 else 1 + IndexOf(names[1..], name)
  }

  /** createPartitionExtractor, over the row type's field names. */
  function CreatePartitionExtractor(c: Config, fieldNames: seq<string>): (r: Result<PartitionExtractor, Exception>)
    ensures !HasPath(c, PartitionKeyKey) ==> r == Ok(NullKey)
    ensures HasPath(c, PartitionKeyKey) && GetString(c, PartitionKeyKey).Err? ==>
      r == Err(GetString(c, PartitionKeyKey).error)
    ensures HasPath(c, PartitionKeyKey) && GetString(c, PartitionKeyKey).Ok? ==>
      var k := GetString(c, PartitionKeyKey).value;
      r == Ok(if k in fieldNames then FieldKey(IndexOf(fieldNames, k)) else ConstantKey(k))
  {
    if !HasPath(c, PartitionKeyKey) then Ok(NullKey)
    else
      var k :- GetString(c, PartitionKeyKey);
      if k in fieldNames then Ok(FieldKey(IndexOf(fieldNames, k))) else Ok(ConstantKey(k))
  }

  /** Applying the extractor to a row; a field index past the row's end throws. */
  function ExtractKey(e: PartitionExtractor, row: ConnectorCommon.Row): (r: Result<Option<string>, Exception>)
    ensures e.NullKey? ==> r == Ok(None)
    ensures e.ConstantKey? ==> r == Ok(Some(e.key))
    ensures e.FieldKey? ==> r == if e.index < |row.fields| then Ok(row.fields[e.index]) else Err(IndexOutOfBoundsException(e.index))
  {
    match e
    case NullKey => Ok(None)
    case ConstantKey(k) => Ok(Some(k))
    case FieldKey(i) => if i < |row.fields| then Ok(row.fields[i]) else Err(IndexOutOfBoundsException(i))
  }

  /** The partition key rules: no partition_key gives null, a key that names no field gives the
      key itself, a key naming a field gives that field of the row (first field of that name). */
  lemma PartitionKeyRules(c: Config, fieldNames: seq<string>, row: ConnectorCommon.Row)
    requires CreatePartitionExtractor(c, fieldNames).Ok?
    requires |row.fields| == |fieldNames|
    ensures var e := CreatePartitionExtractor(c, fieldNames).value;
      && (!HasPath(c, PartitionKeyKey) ==> ExtractKey(e, row) == Ok(None))
      && (HasPath(c, PartitionKeyKey) ==>
            var k := GetString(c, PartitionKeyKey).value;
            && (k !in fieldNames ==> ExtractKey(e, row) == Ok(Some(k)))
            && (k in fieldNames ==>
                  exists i | 0 <= i < |fieldNames| && fieldNames[i] == k ::
                    ExtractKey(e, row) == Ok(row.fields[i])))
  {
    if HasPath(c, PartitionKeyKey) {
      var k := GetString(c, PartitionKeyKey).value;
      if k in fieldNames {
        var i := IndexOf(fieldNames, k);
        assert ExtractKey(CreatePartitionExtractor(c, fieldNames).value, row) == Ok(row.fields[i]);
      }
    }
  }

  /** getKafkaSemantics: NON when absent, otherwise the enum constant of exactly that name. */
  function GetKafkaSemantics(c: Config): (r: Result<KafkaSemantics, Exception>)
    ensures !HasPath(c, SemanticsKey) ==> r == Ok(Non)
    ensures HasPath(c, SemanticsKey) && r.Ok? ==> GetString(c, SemanticsKey) == Ok(SemanticsName(r.value))
    ensures HasPath(c, SemanticsKey) ==>
              (r.Ok? <==> GetString(c, SemanticsKey).Ok?
                            && GetString(c, SemanticsKey).value in {"EXACTLY_ONCE", "AT_LEAST_ONCE", "NON"})
  {
    if !HasPath(c, SemanticsKey) then Ok(Non)
    else
      var name :- GetString(c, SemanticsKey);
      if name == "EXACTLY_ONCE" then Ok(ExactlyOnce)
      else if name == "AT_LEAST_ONCE" then Ok(AtLeastOnce)
      else if name == "NON" then Ok(Non)
      else Err(ConfigBadValue(SemanticsKey, name))
  }

  /** getKafkaProperties: every "kafka." entry, the partitioner when partitions are assigned, the
      bootstrap servers and the two byte-array serializers. */
  function KafkaProperties(c: Config): (r: Result<map<string, string>, Exception>)
    ensures r.Ok? <==> GetString(c, BootstrapServersKey).Ok?
    ensures r.Ok? ==>
      && BootstrapServersKey in r.value && r.value[BootstrapServersKey] == GetString(c, BootstrapServersKey).value
      && KeySerializerKey in r.value && r.value[KeySerializerKey] == ByteArraySerializer
      && ValueSerializerKey in r.value && r.value[ValueSerializerKey] == ByteArraySerializer
      && (HasPath(c, AssignPartitionsKey) ==> PartitionerClassKey in r.value && r.value[PartitionerClassKey] == PartitionerClass)
  {
    var copied := ExtractSubConfig(c, KafkaConfigPrefix);
    var partitioned := if HasPath(c, AssignPartitionsKey) then copied[PartitionerClassKey := PartitionerClass] else copied;
    var servers :- GetString(c, BootstrapServersKey);
    Ok(partitioned[BootstrapServersKey := servers][KeySerializerKey := ByteArraySerializer][ValueSerializerKey := ByteArraySerializer])
  }

  /** The part of getKafkaProperties the "kafka." prefix controls: each such entry is copied as a
      string unless one of the fixed keys overrides it. */
  lemma KafkaPropertiesCopyPrefixed(c: Config, k: string)
    requires KafkaProperties(c).Ok?
    requires KafkaConfigPrefix + k in c && IsLeafValue(c[KafkaConfigPrefix + k])
    requires k !in {BootstrapServersKey, KeySerializerKey, ValueSerializerKey, PartitionerClassKey}
    ensures KafkaProperties(c).value[k] == Unwrapped(c[KafkaConfigPrefix + k])
  {
    assert StartsWith(KafkaConfigPrefix + k, KafkaConfigPrefix);
    assert (KafkaConfigPrefix + k)[|KafkaConfigPrefix|..] == k;
  }

  function OptionalInt(c: Config, path: string): (r: Result<Option<int>, Exception>)
    ensures !HasPath(c, path) ==> r == Ok(None)
    ensures HasPath(c, path) ==> (r.Ok? <==> GetInt(c, path).Ok?) && (r.Ok? ==> r.value == Some(GetInt(c, path).value))
  {
    if HasPath(c, path) then var v :- GetInt(c, path); Ok(Some(v)) else Ok(None)
  }

  function OptionalString(c: Config, path: string): (r: Result<Option<string>, Exception>)
    ensures !HasPath(c, path) ==> r == Ok(None)
    ensures HasPath(c, path) ==> (r.Ok? <==> GetString(c, path).Ok?) && (r.Ok? ==> r.value == Some(GetString(c, path).value))
  {
    if HasPath(c, path) then var v :- GetString(c, path); Ok(Some(v)) else Ok(None)
  }

  function OptionalStringList(c: Config, path: string): (r: Result<Option<seq<string>>, Exception>)
    ensures !HasPath(c, path) ==> r == Ok(None)
    ensures HasPath(c, path) ==> (r.Ok? <==> GetStringList(c, path).Ok?) && (r.Ok? ==> r.value == Some(GetStringList(c, path).value))
  {
    if HasPath(c, path) then var v :- GetStringList(c, path); Ok(Some(v)) else Ok(None)
  }

  /** The config reads of the constructor, in the order it makes them; the first that fails is
      what the constructor throws. The getInt of `partition` leaves 0 when the key is absent. */
  function ReadSettings(c: Config, fieldNames: seq<string>): (r: Result<Settings, Exception>)
    ensures r.Ok? ==>
      && r.value.keyed == HasPath(c, PartitionKeyKey)
      && (r.value.keyed <==> !r.value.extractor.NullKey?)
      && GetString(c, TopicKey).Ok? && GetKafkaSemantics(c).Ok? && KafkaProperties(c).Ok?
      && r.value.serializer.topic == GetString(c, TopicKey).value
      && (r.value.serializer.partition.Some? <==> HasPath(c, PartitionKey))
      && (HasPath(c, PartitionKey) ==> GetInt(c, PartitionKey).Ok? && r.value.serializer.partition == Some(GetInt(c, PartitionKey).value))
      && (!HasPath(c, PartitionKey) ==> r.value.partition == 0)
      && (HasPath(c, TransactionPrefixKey) ==>
            (GetString(c, TransactionPrefixKey).Ok?
             && r.value.configuredPrefix == Some(GetString(c, TransactionPrefixKey).value)))
      && (!HasPath(c, TransactionPrefixKey) ==> r.value.configuredPrefix == None)
      && r.value.semantics == GetKafkaSemantics(c).value
      && r.value.properties == KafkaProperties(c).value
    ensures !GetString(c, TopicKey).Ok? ==> r.Err?
    ensures !KafkaProperties(c).Ok? ==> r.Err?
  {
    var extractor :- CreatePartitionExtractor(c, fieldNames);
    var partition :- OptionalInt(c, PartitionKey);
    var assign :- OptionalStringList(c, AssignPartitionsKey);
    var prefix :- OptionalString(c, TransactionPrefixKey);
    var topic :- GetString(c, TopicKey);
    var semantics :- GetKafkaSemantics(c);
    var properties :- KafkaProperties(c);
    Ok(Settings(HasPath(c, PartitionKeyKey), extractor, partition.GetOr(0), assign, prefix,
                RowSerializer(topic, partition), semantics, properties))
  }

  // ----- The writer's state changes as functions -----

  /** restoreState: the first restored state, if any, gives the prefix and the checkpoint id. */
  function Restored(s: WriterState, states: seq<KafkaSinkState>): (t: WriterState)
    ensures states == [] ==> t == s
    ensures states != [] ==> t == s.(transactionPrefix := states[0].transactionIdPrefix, lastCheckpointId := states[0].checkpointId)
  {
    if states == [] then s
    else s.(transactionPrefix := states[0].transactionIdPrefix, lastCheckpointId := states[0].checkpointId)
  }

  /** What the constructor leaves: prefix from config or drawn, then restored, then the sender
      opened. */
  function Constructed(settings: Settings, states: seq<KafkaSinkState>, draw: nat): WriterState
    requires draw < PrefixRange
  {
    var prefix := match settings.configuredPrefix case Some(p) => p case None => RandomPrefix(draw);
    SenderOpened(settings, Restored(WriterState(prefix, 0, None, []), states), states)
  }

  /** Exactly once, the transactional sender aborts what a restored run may have begun and
      begins the next transaction; otherwise the non-transactional sender and no call. */
  function SenderOpened(settings: Settings, s: WriterState, states: seq<KafkaSinkState>): WriterState {
    if settings.semantics == ExactlyOnce then
      var aborts := if states != [] then [AbortTransactionsFrom(states[0].checkpointId + 1)] else [];
      s.(sender := Some(TransactionSender(s.transactionPrefix, settings.properties)),
         calls := s.calls + aborts + [BeginTransaction(TransactionId(s.transactionPrefix, s.lastCheckpointId + 1))])
    else
      s.(sender := Some(NoTransactionSender(settings.properties)))
  }

  /** snapshotState: snapshot the sender, remember the checkpoint, begin the next transaction. */
  function SnapshotSpec(s: WriterState, checkpointId: int): WriterState {
    s.(lastCheckpointId := checkpointId,
       calls := s.calls + [SnapshotState(checkpointId), BeginTransaction(TransactionId(s.transactionPrefix, checkpointId + 1))])
  }

  /** write: a keyed record when partition_key is configured, a plain one otherwise. */
  function WriteSpec(settings: Settings, s: WriterState, row: ConnectorCommon.Row): (WriterState, Outcome<Exception>) {
    if settings.keyed then
      match ExtractKey(settings.extractor, row)
      case Err(e) => (s, Fail(e))
      case Ok(key) => (s.(calls := s.calls + [Send(KeyedRecord(settings.serializer, key, row))]), Pass)
    else (s.(calls := s.calls + [Send(PlainRecord(settings.serializer, row))]), Pass)
  }

  function CloseOutcome(closeFailure: Option<Exception>): Outcome<Exception> {
    match closeFailure
    case Some(e) => Fail(RuntimeException(CloseErrorMessage, Some(e)))
    case None => Pass
  }

  // ----- What the constructor promises -----

  /** Without restored state: the configured prefix or "SeaTunnel" and four digits, checkpoint 0,
      and exactly once the single call begins transaction prefix-1. */
  lemma ConstructedWithoutState(settings: Settings, draw: nat)
    requires draw < PrefixRange
    ensures var s := Constructed(settings, [], draw);
      && (settings.configuredPrefix.Some? ==> s.transactionPrefix == settings.configuredPrefix.value)
      && (settings.configuredPrefix.None? ==> s.transactionPrefix == RandomPrefix(draw))
      && s.lastCheckpointId == 0
      && (settings.semantics == ExactlyOnce ==> s.calls == [BeginTransaction(TransactionId(s.transactionPrefix, 1))])
  {
  }

  /** With restored state: its first element alone sets prefix and checkpoint, whatever the
      config and the draw; exactly once, the abort from checkpoint+1 precedes the begin. */
  lemma ConstructedFromState(settings: Settings, states: seq<KafkaSinkState>, draw: nat, others: seq<KafkaSinkState>, draw2: nat)
    requires draw < PrefixRange && draw2 < PrefixRange
    requires states != []
    ensures var s := Constructed(settings, states, draw);
      && s.transactionPrefix == states[0].transactionIdPrefix
      && s.lastCheckpointId == states[0].checkpointId
      && (settings.semantics == ExactlyOnce ==>
            s.calls == [AbortTransactionsFrom(states[0].checkpointId + 1),
                        BeginTransaction(TransactionId(states[0].transactionIdPrefix, states[0].checkpointId + 1))])
      && s == Constructed(settings.(configuredPrefix := None), [states[0]] + others, draw2)
  {
  }

  /** Only exactly-once uses the transactional sender; otherwise no abort and no begin happen. */
  lemma ConstructedSender(settings: Settings, states: seq<KafkaSinkState>, draw: nat)
    requires draw < PrefixRange
    ensures var s := Constructed(settings, states, draw);
      && s.sender.Some?
      && (s.sender.value.TransactionSender? <==> settings.semantics == ExactlyOnce)
      && (s.sender.value.TransactionSender? ==> s.sender.value.transactionPrefix == s.transactionPrefix)
      && s.sender.value.properties == settings.properties
      && (settings.semantics != ExactlyOnce ==> s.calls == [])
  {
  }

  // ----- Successive checkpoints -----

  /** The calls that snapshots at `ids` make, in order. */
  function SnapshotCalls(prefix: string, ids: seq<int>): (calls: seq<SenderCall>)
    ensures |calls| == 2 * |ids|
  {
    if ids == [] then []
    else [SnapshotState(ids[0]), BeginTransaction(TransactionId(prefix, ids[0] + 1))] + SnapshotCalls(prefix, ids[1..])
  }

  /** The snapshot for `ids[k]` is call 2k, and the transaction it begins call 2k+1. */
  lemma {:induction false} SnapshotCallsAt(prefix: string, ids: seq<int>, k: nat)
    requires k < |ids|
    ensures SnapshotCalls(prefix, ids)[2 * k] == SnapshotState(ids[k])
    ensures SnapshotCalls(prefix, ids)[2 * k + 1] == BeginTransaction(TransactionId(prefix, ids[k] + 1))
  {
    var head := [SnapshotState(ids[0]), BeginTransaction(TransactionId(prefix, ids[0] + 1))];
    var rest := SnapshotCalls(prefix, ids[1..]);
    assert SnapshotCalls(prefix, ids) == head + rest;
    if k > 0 {
      var i := 2 * (k - 1);
      assert 2 * k == i + 2;
      SnapshotCallsAt(prefix, ids[1..], k - 1);
      assert (head + rest)[i + 2] == rest[i];
      assert (head + rest)[i + 3] == rest[i + 1];
      assert ids[1..][k - 1] == ids[k];
    }
  }

  /** snapshotState at each of `ids` in turn. */
  function Snapshots(s: WriterState, ids: seq<int>): WriterState
    decreases |ids|
  {
    if ids == [] then s else Snapshots(SnapshotSpec(s, ids[0]), ids[1..])
  }

  lemma {:induction false} SnapshotsEffect(s: WriterState, ids: seq<int>)
    ensures Snapshots(s, ids).calls == s.calls + SnapshotCalls(s.transactionPrefix, ids)
    ensures Snapshots(s, ids).transactionPrefix == s.transactionPrefix
    ensures Snapshots(s, ids).sender == s.sender
    ensures Snapshots(s, ids).lastCheckpointId == if ids == [] then s.lastCheckpointId else ids[|ids| - 1]
    decreases |ids|
  {
    if ids != [] {
      var p := s.transactionPrefix;
      var t := SnapshotSpec(s, ids[0]);
      var head := [SnapshotState(ids[0]), BeginTransaction(TransactionId(p, ids[0] + 1))];
      assert Snapshots(s, ids) == Snapshots(t, ids[1..]);
      SnapshotsEffect(t, ids[1..]);
      assert t.calls == s.calls + head;
      assert SnapshotCalls(p, ids) == head + SnapshotCalls(p, ids[1..]);
      assert t.calls + SnapshotCalls(p, ids[1..]) == s.calls + SnapshotCalls(p, ids);
      if |ids| > 1 {
        assert ids[1..][|ids[1..]| - 1] == ids[|ids| - 1];
      }
    }
  }

  /** Strictly increasing checkpoint ids begin strictly increasing transaction numbers under one
      prefix, so no transaction id is begun twice. */
  lemma SnapshotsBeginDistinct(s: WriterState, ids: seq<int>, j: nat, k: nat)
    requires forall a, b | 0 <= a < b < |ids| :: ids[a] < ids[b]
    requires j < k < |ids|
    ensures |Snapshots(s, ids).calls| == |s.calls| + 2 * |ids|
    ensures var calls := Snapshots(s, ids).calls[|s.calls|..];
      && calls[2 * j + 1] == BeginTransaction(TransactionId(s.transactionPrefix, ids[j] + 1))
      && calls[2 * k + 1] == BeginTransaction(TransactionId(s.transactionPrefix, ids[k] + 1))
      && ids[j] + 1 < ids[k] + 1
      && calls[2 * j + 1] != calls[2 * k + 1]
  {
    var p := s.transactionPrefix;
    assert ids[j] < ids[k];
    var tj, tk := TransactionId(p, ids[j] + 1), TransactionId(p, ids[k] + 1);
    assert tj != tk by {
      if tj == tk {
        TransactionIdInjective(p, ids[j] + 1, ids[k] + 1);
      }
    }
    SnapshotsEffect(s, ids);
    var calls := Snapshots(s, ids).calls[|s.calls|..];
    assert calls == SnapshotCalls(p, ids);
    SnapshotCallsAt(p, ids, j);
    SnapshotCallsAt(p, ids, k);
    assert calls[2 * j + 1] == BeginTransaction(tj);
    assert calls[2 * k + 1] == BeginTransaction(tk);
  }

  // ----- The writer -----

  class SinkWriter {
    const settings: Settings
    var transactionPrefix: string
    var lastCheckpointId: int
    /** The producer sender; null until the constructor assigns it. */
    var sender: Option<SenderKind>
    var calls: seq<SenderCall>

    function State(): WriterState
      reads this
    {
      WriterState(transactionPrefix, lastCheckpointId, sender, calls)
    }

    /** The constructor after its config reads (ReadSettings); `draw` is the random number. */
    constructor(settings: Settings, states: seq<KafkaSinkState>, draw: nat)
      requires draw < PrefixRange
      ensures this.settings == settings
      ensures State() == Constructed(settings, states, draw)
    {
      this.settings := settings;
      var prefix := match settings.configuredPrefix case Some(p) => p case None => RandomPrefix(draw);
      transactionPrefix := prefix;
      lastCheckpointId := 0;
      sender := None;
      calls := [];
      new;
      RestoreState(states);
      OpenSender(states);
    }

    /** The sender part of the constructor. */
    method OpenSender(states: seq<KafkaSinkState>)
      modifies this
      ensures State() == SenderOpened(settings, old(State()), states)
    {
      if settings.semantics == ExactlyOnce {
        sender := Some(TransactionSender(transactionPrefix, settings.properties));
        if states != [] {
          calls := calls + [AbortTransactionsFrom(states[0].checkpointId + 1)];
        }
        calls := calls + [BeginTransaction(TransactionId(transactionPrefix, lastCheckpointId + 1))];
      } else {
        sender := Some(NoTransactionSender(settings.properties));
      }
    }

    method RestoreState(states: seq<KafkaSinkState>)
      modifies this
      ensures State() == Restored(old(State()), states)
    {
      if states != [] {
        transactionPrefix := states[0].transactionIdPrefix;
        lastCheckpointId := states[0].checkpointId;
      }
    }

    /** `senderStates` is what the sender's own snapshotState returns. */
    method SnapshotStateAt(checkpointId: int, senderStates: seq<KafkaSinkState>) returns (states: seq<KafkaSinkState>)
      modifies this
      ensures State() == SnapshotSpec(old(State()), checkpointId)
      ensures states == senderStates
    {
      calls := calls + [SnapshotState(checkpointId)];
      states := senderStates;
      lastCheckpointId := checkpointId;
      calls := calls + [BeginTransaction(TransactionId(transactionPrefix, lastCheckpointId + 1))];
    }

    method Write(element: ConnectorCommon.Row) returns (o: Outcome<Exception>)
      modifies this
      ensures (State(), o) == WriteSpec(settings, old(State()), element)
    {
      if settings.keyed {
        var key := ExtractKey(settings.extractor, element);
        if key.Err? {
          return Fail(key.error);
        }
        calls := calls + [Send(KeyedRecord(settings.serializer, key.value, element))];
      } else {
        calls := calls + [Send(PlainRecord(settings.serializer, element))];
      }
      o := Pass;
    }

    /** `senderInfo` is what the sender's prepareCommit returns. */
    method PrepareCommitAt(senderInfo: Option<KafkaCommitInfo>) returns (info: Option<KafkaCommitInfo>)
      modifies this
      ensures State() == old(State()).(calls := old(calls) + [PrepareCommit])
      ensures info == senderInfo
    {
      calls := calls + [PrepareCommit];
      info := senderInfo;
    }

    method AbortPrepare()
      modifies this
      ensures State() == old(State()).(calls := old(calls) + [AbortTransaction])
    {
      calls := calls + [AbortTransaction];
    }

    /** `closeFailure` is what closing the sender throws, if anything. */
    method Close(closeFailure: Option<Exception>) returns (o: Outcome<Exception>)
      modifies this
      ensures State() == old(State()).(calls := old(calls) + [CloseSender])
      ensures o == CloseOutcome(closeFailure)
      ensures o.Fail? <==> closeFailure.Some?
    {
      calls := calls + [CloseSender];
      o := CloseOutcome(closeFailure);
    }
  }
}
