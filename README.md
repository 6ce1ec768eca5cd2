# SeaTunnel connector and engine core, modelled in Dafny

This project models the parts of Apache SeaTunnel that decide what its connectors and engine do
with their configuration and their buffered data, and proves properties of those models.

- **Sink-side buffering and retry.** The StarRocks sink manager keeps a batch of serialized rows
  with a row counter and a byte counter. It flushes once a threshold is crossed, retries the
  stream load with capped linear backoff, and latches the failure of the periodic flush for the
  next caller. The model keeps the code's behaviour as written: the retry loop has no exit after
  a successful load, and it draws a fresh label on every iteration. The StarRocks writer
  serializes rows into the manager, flushes it on prepareCommit and closes it on close. The
  Elasticsearch writer bulk-sends its request list whenever it reaches the batch size, trying at
  most `maxRetry` times, and sends the leftover rows on close. Its `abortPrepare` does nothing,
  and the model's `AbortPrepare` is the same empty method.
- **Kafka transactional bookkeeping.** The Kafka sink writer chooses a transaction prefix from
  the config, from a random fallback or from restored state. It derives transaction ids as
  `prefix-checkpoint`, and drives its producer sender in a fixed order; the model records every
  call on the sender.
- **Per-path text files.** The text write strategy keeps one stream per file path, writes the row
  delimiter only between rows, and hands every open file over to be moved when the files are
  finished.
- **JVM options file.** The starter's parser classifies each line of the options file: a
  comment, a blank, an option with an optional Java-version prefix, or an invalid line. It
  collects the options that apply to the running version, and a file with any invalid line
  fails.
- **Dotted-key configuration.** `ReadonlyConfig` reads a nested map one dotted-key segment at a
  time. Its hash depends on the top-level keys only, and its equality is map equality.
- **Engine YAML configuration.** The DOM processor walks the engine's YAML tree, rejects a
  repeated top-level engine section, and sets the engine, slot-service, checkpoint and
  checkpoint-storage settings.
- **Connector configuration.** The prepare steps of the Kafka, HTTP and S3 sources, and of the
  Hive, Neo4j and JDBC sinks, are modelled, along with the Redis parameters and the text-file
  settings. Each is a decision over whether keys are present and what they hold: required
  keys, defaults, format-to-deserializer tables, authentication precedence, `host:port` and
  `topic-partition` parsing, and exactly-once gating.

A typesafe `Config` is the map from each leaf path to its value (`typesafe_config.dfy`); an empty
object `{}`, which has no leaf, is an `EmptyObject` entry at its own path. Java's
string and number helpers are written out in `java_text.dfy`, so their edge cases are explicit:
`split` dropping trailing empty pieces, `Integer.parseInt` bounds, `StringUtils.isBlank`, UTF-8
and `String.hashCode`. Objects whose fields the source updates are classes. Each method is proved
against a specification function of the old state: `(State(), o) == Spec(old(State()), ...)`.
The properties the source promises are lemmas about those functions. Remote services and unseen
helpers are parameters of the functions and methods: the stream-load visitor, the Elasticsearch
client, table lookups, file listings and dialect loaders.

## Model

| member | source | states |
|---|---|---|
| ConnectorCommon.BoundednessOf | seatunnel-connectors-v2/connector-kafka/src/main/java/org/apache/seatunnel/connectors/seatunnel/kafka/source/KafkaSource.java:78 | a job is BOUNDED exactly in BATCH mode and UNBOUNDED exactly in STREAMING mode |
| ConnectorCommon.FileFormatValueOf | seatunnel-connectors-v2/connector-file/connector-file-s3/src/main/java/org/apache/seatunnel/connectors/seatunnel/file/s3/source/S3FileSource.java:66 | FileFormat.valueOf succeeds exactly on the five upper-case format names, giving the format of that name |
| ConnectorCommon.FileFormatNameRoundTrip | seatunnel-connectors-v2/connector-hive/src/main/java/org/apache/seatunnel/connectors/seatunnel/hive/sink/HiveSink.java:96-102 | the name a file format is written as is read back as the same format |
| TypesafeConfig.CheckAllExists | seatunnel-connectors-v2/connector-kafka/src/main/java/org/apache/seatunnel/connectors/seatunnel/kafka/source/KafkaSource.java:88 | the check passes iff every listed key has a non-empty value, and otherwise reports exactly the missing keys |
| TypesafeConfig.CheckAtLeastOneExists | seatunnel-connectors-v2/connector-neo4j/src/main/java/org/apache/seatunnel/connectors/seatunnel/neo4j/sink/Neo4jSink.java:78 | the check passes iff some listed key has a non-empty value, and otherwise reports the whole list |
| TypesafeConfig.MergeCheckResults | seatunnel-connectors-v2/connector-neo4j/src/main/java/org/apache/seatunnel/connectors/seatunnel/neo4j/sink/Neo4jSink.java:79 | the merged check passes iff every part passes, and its message lists the failing parts' messages in order |
| TypesafeConfig.MergedAllAndOne | seatunnel-connectors-v2/connector-neo4j/src/main/java/org/apache/seatunnel/connectors/seatunnel/neo4j/sink/Neo4jSink.java:77-79 | merging a required-keys check with an at-least-one check reports the missing required keys and then the alternatives |
| TypesafeConfig.ExtractSubConfig | seatunnel-connectors-v2/connector-kafka/src/main/java/org/apache/seatunnel/connectors/seatunnel/kafka/source/KafkaSource.java:143-145 | the sub-config of a prefix holds, under the key with the prefix stripped, the unwrapped string of every non-null leaf below the prefix (an empty object is not a leaf), and nothing else |
| TypesafeConfig.WithValue | seatunnel-connectors-v2/connector-hive/src/main/java/org/apache/seatunnel/connectors/seatunnel/hive/sink/HiveSink.java:96-98 | withValue sets the path to the value, drops what was nested below it, and keeps every other entry |
| TypesafeConfig.GetConfig | seatunnel-connectors-v2/connector-kafka/src/main/java/org/apache/seatunnel/connectors/seatunnel/kafka/source/KafkaSource.java:122 | getConfig succeeds iff the path is an object, and gives the entries below it with the path stripped; an empty object `{}` gives an empty config |
| TypesafeConfig.HasPathRules | seatunnel-connectors-v2/connector-kafka/src/main/java/org/apache/seatunnel/connectors/seatunnel/kafka/source/KafkaSource.java:93 | hasPath holds iff some non-null entry lies at the path or below it |
| TypesafeConfig.EmptyObjectRead | seatunnel-connectors-v2/connector-kafka/src/main/java/org/apache/seatunnel/connectors/seatunnel/kafka/source/KafkaSource.java:122 | an empty object `{}` is present and a valid parameter, getConfig reads it as an empty config, and getString, getBoolean, getLong and getStringList refuse it as the wrong type |
| TypesafeConfig.GetString | seatunnel-connectors-v2/connector-kafka/src/main/java/org/apache/seatunnel/connectors/seatunnel/kafka/source/KafkaSource.java:92 | getString gives a string as it is and a number or boolean as its text; a list or object is the wrong type, and a missing or null path is missing |
| TypesafeConfig.GetIntegral | seatunnel-connectors-v2/connector-kafka/src/main/java/org/apache/seatunnel/connectors/seatunnel/kafka/source/KafkaSource.java:114 | getLong/getInt give a number within the type's range, or a string that parses to one; a boolean, list or object, or a value out of range, is the wrong type; a missing path is missing |
| TypesafeConfig.GetBoolean | seatunnel-connectors-v2/connector-kafka/src/main/java/org/apache/seatunnel/connectors/seatunnel/kafka/source/KafkaSource.java:94 | getBoolean gives a boolean, and reads exactly "true", "yes", "on" as true and "false", "no", "off" as false; anything else present is the wrong type |
| TypesafeConfig.GetStringList | seatunnel-connectors-v2/connector-redis/src/main/java/org/apache/seatunnel/connectors/seatunnel/redis/config/RedisParameters.java:75 | getStringList succeeds exactly on a list and gives its items; anything else present is the wrong type, an absent path missing |
| JavaText.ToUpper | seatunnel-connectors-v2/connector-kafka/src/main/java/org/apache/seatunnel/connectors/seatunnel/kafka/source/KafkaSource.java:110 | upper-casing maps each ASCII lower-case letter to its capital and keeps every other character |
| JavaText.SplitOfJoin | seatunnel-connectors-v2/connector-kafka/src/main/java/org/apache/seatunnel/connectors/seatunnel/kafka/source/KafkaSource.java:131 | String.split recovers separator-free parts joined by the separator, when the last part is not empty |
| JavaText.RemoveAllSuffix | seatunnel-connectors-v2/connector-hive/src/main/java/org/apache/seatunnel/connectors/seatunnel/hive/sink/HiveSink.java:120 | removing the path from a location that ends with it, and holds it nowhere else, leaves the part before it |
| StarRocksManager.CheckFlushExceptionSpec | seatunnel-connectors-v2/connector-starrocks/src/main/java/org/apache/seatunnel/connectors/seatunnel/starrocks/client/StarRocksSinkManager.java:143-147 | fails exactly when an exception is latched, with a RuntimeException whose cause is that exception |
| StarRocksManager.AttemptsKeepBatch | seatunnel-connectors-v2/connector-starrocks/src/main/java/org/apache/seatunnel/connectors/seatunnel/starrocks/client/StarRocksSinkManager.java:109-140 | the retry loop empties the buffer and zeroes both counters only when it runs to its end, keeps them whole when it throws, and leaves the latch, the init flag and the timer alone |
| StarRocksManager.AttemptsLoadBatch | seatunnel-connectors-v2/connector-starrocks/src/main/java/org/apache/seatunnel/connectors/seatunnel/starrocks/client/StarRocksSinkManager.java:111-113 | every load made by one flush carries a copy of the buffer and the byte count as they were before the flush; earlier loads are kept |
| StarRocksManager.AttemptsBuffer | seatunnel-connectors-v2/connector-starrocks/src/main/java/org/apache/seatunnel/connectors/seatunnel/starrocks/client/StarRocksSinkManager.java:109-140 | the two facts above together, for the loop from any index |
| StarRocksManager.AttemptsCount | seatunnel-connectors-v2/connector-starrocks/src/main/java/org/apache/seatunnel/connectors/seatunnel/starrocks/client/StarRocksSinkManager.java:109-119 | from index i the loop makes between 1 and maxRetries+1-i loads, and exactly that many when it passes or throws the write failure |
| StarRocksManager.AttemptsAllLoaded | seatunnel-connectors-v2/connector-starrocks/src/main/java/org/apache/seatunnel/connectors/seatunnel/starrocks/client/StarRocksSinkManager.java:109-140 | with no failing load there is no early exit: every index loads under the next fresh label, with no relabel and no wait, and the buffer is emptied |
| StarRocksManager.AttemptsWaits | seatunnel-connectors-v2/connector-starrocks/src/main/java/org/apache/seatunnel/connectors/seatunnel/starrocks/client/StarRocksSinkManager.java:127-135 | the waits of one flush are non-decreasing, at least the backoff of the first index and at most maxRetryBackoffMs |
| StarRocksManager.BackoffMonotone | seatunnel-connectors-v2/connector-starrocks/src/main/java/org/apache/seatunnel/connectors/seatunnel/starrocks/client/StarRocksSinkManager.java:128-129 | the backoff min(multiplier*i, cap) is 0 for the first attempt, non-decreasing in i and never above the cap |
| StarRocksManager.AttemptsFresh | seatunnel-connectors-v2/connector-starrocks/src/main/java/org/apache/seatunnel/connectors/seatunnel/starrocks/client/StarRocksSinkManager.java:111-125 | every label used or relabelled in a flush is freshly drawn, so no two loads share a label |
| StarRocksManager.AttemptsValid | seatunnel-connectors-v2/connector-starrocks/src/main/java/org/apache/seatunnel/connectors/seatunnel/starrocks/client/StarRocksSinkManager.java:103-141 | the retry loop keeps the manager's invariant (row count is the buffer length, byte count its byte total) |
| StarRocksManager.FlushWithoutFailures | seatunnel-connectors-v2/connector-starrocks/src/main/java/org/apache/seatunnel/connectors/seatunnel/starrocks/client/StarRocksSinkManager.java:103-141 | a flush of a non-empty buffer with no failure makes exactly maxRetries+1 loads of that buffer under fresh labels, then empties it |
| StarRocksManager.FlushAttempts | seatunnel-connectors-v2/connector-starrocks/src/main/java/org/apache/seatunnel/connectors/seatunnel/starrocks/client/StarRocksSinkManager.java:109-119 | a flush makes at most maxRetries+1 loads, throws the write failure only after all of them, and keeps the buffer whenever it throws |
| StarRocksManager.FlushPassEmpties | seatunnel-connectors-v2/connector-starrocks/src/main/java/org/apache/seatunnel/connectors/seatunnel/starrocks/client/StarRocksSinkManager.java:138-140 | a flush that returns normally leaves the buffer empty |
| StarRocksManager.FlushEmpty | seatunnel-connectors-v2/connector-starrocks/src/main/java/org/apache/seatunnel/connectors/seatunnel/starrocks/client/StarRocksSinkManager.java:103-107 | an empty buffer: no load, nothing changes |
| StarRocksManager.LatchedException | seatunnel-connectors-v2/connector-starrocks/src/main/java/org/apache/seatunnel/connectors/seatunnel/starrocks/client/StarRocksSinkManager.java:82-107 | a latched exception makes flush and write throw before the buffer is touched |
| StarRocksManager.WriteBelowThreshold | seatunnel-connectors-v2/connector-starrocks/src/main/java/org/apache/seatunnel/connectors/seatunnel/starrocks/client/StarRocksSinkManager.java:82-92 | below both thresholds a write appends the record's UTF-8 bytes, adds 1 row and their length in bytes, and makes no load |
| StarRocksManager.WriteLoadsIffThreshold | seatunnel-connectors-v2/connector-starrocks/src/main/java/org/apache/seatunnel/connectors/seatunnel/starrocks/client/StarRocksSinkManager.java:89-91 | a write loads iff the appended buffer reaches the row or byte threshold, and the first load carries the old rows followed by the new one |
| StarRocksManager.FlushValid | seatunnel-connectors-v2/connector-starrocks/src/main/java/org/apache/seatunnel/connectors/seatunnel/starrocks/client/StarRocksSinkManager.java:103-141 | flush keeps the manager's invariant |
| StarRocksManager.WriteValid | seatunnel-connectors-v2/connector-starrocks/src/main/java/org/apache/seatunnel/connectors/seatunnel/starrocks/client/StarRocksSinkManager.java:82-92 | write keeps the manager's invariant |
| StarRocksManager.CloseValid | seatunnel-connectors-v2/connector-starrocks/src/main/java/org/apache/seatunnel/connectors/seatunnel/starrocks/client/StarRocksSinkManager.java:94-101 | close keeps the manager's invariant |
| StarRocksManager.TickValid | seatunnel-connectors-v2/connector-starrocks/src/main/java/org/apache/seatunnel/connectors/seatunnel/starrocks/client/StarRocksSinkManager.java:68-75 | the timer task keeps the manager's invariant |
| StarRocksManager.TickLatchesIOException | seatunnel-connectors-v2/connector-starrocks/src/main/java/org/apache/seatunnel/connectors/seatunnel/starrocks/client/StarRocksSinkManager.java:68-75 | the timer task stores its flush's IOException instead of propagating it, keeps running and keeps the buffer; the next write rethrows it wrapped |
| StarRocksManager.CloseIsFinalFlush | seatunnel-connectors-v2/connector-starrocks/src/main/java/org/apache/seatunnel/connectors/seatunnel/starrocks/client/StarRocksSinkManager.java:94-101 | close cancels the timer, which then never runs again, and performs the same loads and outcome as one flush |
| StarRocksManager.AttemptsSameLoads | seatunnel-connectors-v2/connector-starrocks/src/main/java/org/apache/seatunnel/connectors/seatunnel/starrocks/client/StarRocksSinkManager.java:109-137 | the retry loop does not depend on the timer |
| StarRocksManager.SinkManager.constructor | seatunnel-connectors-v2/connector-starrocks/src/main/java/org/apache/seatunnel/connectors/seatunnel/starrocks/client/StarRocksSinkManager.java:52-57 | a new manager has an empty buffer, zero counters, no latch and no timer |
| StarRocksManager.SinkManager.CreateBatchLabel | seatunnel-connectors-v2/connector-starrocks/src/main/java/org/apache/seatunnel/connectors/seatunnel/starrocks/client/StarRocksSinkManager.java:149-156 | the label is the prefix followed by a fresh UUID; one more UUID is drawn |
| StarRocksManager.SinkManager.DoStreamLoad | seatunnel-connectors-v2/connector-starrocks/src/main/java/org/apache/seatunnel/connectors/seatunnel/starrocks/client/StarRocksSinkManager.java:113 | the load is recorded and answered by the next reply |
| StarRocksManager.SinkManager.CheckFlushException | seatunnel-connectors-v2/connector-starrocks/src/main/java/org/apache/seatunnel/connectors/seatunnel/starrocks/client/StarRocksSinkManager.java:143-147 | agrees with CheckFlushExceptionSpec and changes nothing |
| StarRocksManager.SinkManager.TryInit | seatunnel-connectors-v2/connector-starrocks/src/main/java/org/apache/seatunnel/connectors/seatunnel/starrocks/client/StarRocksSinkManager.java:59-80 | initialises once; schedules the timer only when a batch interval is set |
| StarRocksManager.SinkManager.Attempt | seatunnel-connectors-v2/connector-starrocks/src/main/java/org/apache/seatunnel/connectors/seatunnel/starrocks/client/StarRocksSinkManager.java:110-136 | one attempt of the retry loop, as the loop specification's step |
| StarRocksManager.SinkManager.Flush | seatunnel-connectors-v2/connector-starrocks/src/main/java/org/apache/seatunnel/connectors/seatunnel/starrocks/client/StarRocksSinkManager.java:103-141 | the new state and outcome are those of the flush specification, and the invariant is kept |
| StarRocksManager.SinkManager.Write | seatunnel-connectors-v2/connector-starrocks/src/main/java/org/apache/seatunnel/connectors/seatunnel/starrocks/client/StarRocksSinkManager.java:82-92 | the new state and outcome are those of the write specification, and the invariant is kept |
| StarRocksManager.SinkManager.Close | seatunnel-connectors-v2/connector-starrocks/src/main/java/org/apache/seatunnel/connectors/seatunnel/starrocks/client/StarRocksSinkManager.java:94-101 | the new state and outcome are those of the close specification, and the invariant is kept |
| StarRocksManager.SinkManager.Tick | seatunnel-connectors-v2/connector-starrocks/src/main/java/org/apache/seatunnel/connectors/seatunnel/starrocks/client/StarRocksSinkManager.java:68-75 | the new state is that of one timer run, and the invariant is kept |
| StarRocksWriter.CreateSerializer | seatunnel-connectors-v2/connector-starrocks/src/main/java/org/apache/seatunnel/connectors/seatunnel/starrocks/sink/StarRocksSinkWriter.java:80-88 | CSV gives the CSV serializer with the configured column separator, JSON the JSON serializer, and a missing format the RuntimeException |
| StarRocksWriter.CloseOutcome | seatunnel-connectors-v2/connector-starrocks/src/main/java/org/apache/seatunnel/connectors/seatunnel/starrocks/sink/StarRocksSinkWriter.java:68-78 | an IOException from the manager's close is rethrown as a new IOException with it as the cause; anything else passes through |
| StarRocksWriter.SinkWriter.constructor | seatunnel-connectors-v2/connector-starrocks/src/main/java/org/apache/seatunnel/connectors/seatunnel/starrocks/sink/StarRocksSinkWriter.java:46-52 | the writer holds the serializer and the manager it is given |
| StarRocksWriter.SinkWriter.Write | seatunnel-connectors-v2/connector-starrocks/src/main/java/org/apache/seatunnel/connectors/seatunnel/starrocks/sink/StarRocksSinkWriter.java:54-58 | the manager receives exactly the serialized row, and its invariant is kept |
| StarRocksWriter.SinkWriter.PrepareCommit | seatunnel-connectors-v2/connector-starrocks/src/main/java/org/apache/seatunnel/connectors/seatunnel/starrocks/sink/StarRocksSinkWriter.java:60-66 | the manager is flushed first; on success the buffer is empty and the commit info is empty |
| StarRocksWriter.SinkWriter.Close | seatunnel-connectors-v2/connector-starrocks/src/main/java/org/apache/seatunnel/connectors/seatunnel/starrocks/sink/StarRocksSinkWriter.java:68-78 | the manager is closed and its IOException re-wrapped as CloseOutcome states |
| ElasticsearchWriter.RequestBodyLines | seatunnel-connectors-v2/connector-elasticsearch/src/main/java/org/apache/seatunnel/connectors/seatunnel/elasticsearch/sink/ElasticsearchSinkWriter.java:98 | for every list of rows, the bulk body is each row whole and in order followed by one newline (one lone newline for no rows); it always ends with a newline, and row i sits between the lines of the rows before it and those after it |
| ElasticsearchWriter.RequestBodyRows | seatunnel-connectors-v2/connector-elasticsearch/src/main/java/org/apache/seatunnel/connectors/seatunnel/elasticsearch/sink/ElasticsearchSinkWriter.java:98 | for a non-empty list of rows that contain no newline themselves, the bulk body splits at newlines back into exactly those rows and an empty tail |
| ElasticsearchWriter.BulkSent | seatunnel-connectors-v2/connector-elasticsearch/src/main/java/org/apache/seatunnel/connectors/seatunnel/elasticsearch/sink/ElasticsearchSinkWriter.java:95-115 | nothing is sent or thrown for an empty list or when no try remains; otherwise at least one and at most maxRetry requests, each carrying the whole list, one reply consumed per request |
| ElasticsearchWriter.BulkStopsAtFirstSuccess | seatunnel-connectors-v2/connector-elasticsearch/src/main/java/org/apache/seatunnel/connectors/seatunnel/elasticsearch/sink/ElasticsearchSinkWriter.java:100-103 | the tries stop at the first reply without errors, and every reply before it failed |
| ElasticsearchWriter.BulkFailsIff | seatunnel-connectors-v2/connector-elasticsearch/src/main/java/org/apache/seatunnel/connectors/seatunnel/elasticsearch/sink/ElasticsearchSinkWriter.java:106-109 | the bulk throws iff the list is not empty and every one of the maxRetry tries fails; the exception carries the last try's failure |
| ElasticsearchWriter.BulkFailureKindIrrelevant | seatunnel-connectors-v2/connector-elasticsearch/src/main/java/org/apache/seatunnel/connectors/seatunnel/elasticsearch/sink/ElasticsearchSinkWriter.java:101-111 | an error response costs a try exactly as a transport failure does: only whether a reply failed matters |
| ElasticsearchWriter.WriteKeepsBatchBound | seatunnel-connectors-v2/connector-elasticsearch/src/main/java/org/apache/seatunnel/connectors/seatunnel/elasticsearch/sink/ElasticsearchSinkWriter.java:76-84 | after a normal write the list is below maxBatchSize; a write whose bulk throws keeps the list with the new row; below the size a write only appends |
| ElasticsearchWriter.CloseSendsLeftover | seatunnel-connectors-v2/connector-elasticsearch/src/main/java/org/apache/seatunnel/connectors/seatunnel/elasticsearch/sink/ElasticsearchSinkWriter.java:117-121 | close sends the leftover rows under the bulk rule and closes the client only when that returns normally |
| ElasticsearchWriter.SinkWriter.constructor | seatunnel-connectors-v2/connector-elasticsearch/src/main/java/org/apache/seatunnel/connectors/seatunnel/elasticsearch/sink/ElasticsearchSinkWriter.java:58-74 | the writer starts with the given sizes and serializer, an empty list and an open client |
| ElasticsearchWriter.SinkWriter.Write | seatunnel-connectors-v2/connector-elasticsearch/src/main/java/org/apache/seatunnel/connectors/seatunnel/elasticsearch/sink/ElasticsearchSinkWriter.java:76-84 | the new state and outcome are those of the write specification on the serialized row |
| ElasticsearchWriter.SinkWriter.PrepareCommit | seatunnel-connectors-v2/connector-elasticsearch/src/main/java/org/apache/seatunnel/connectors/seatunnel/elasticsearch/sink/ElasticsearchSinkWriter.java:86-89 | the commit info is empty |
| ElasticsearchWriter.SinkWriter.AbortPrepare | seatunnel-connectors-v2/connector-elasticsearch/src/main/java/org/apache/seatunnel/connectors/seatunnel/elasticsearch/sink/ElasticsearchSinkWriter.java:92-93 | aborting a prepared commit leaves the writer as it was |
| ElasticsearchWriter.SinkWriter.BulkEsWithRetry | seatunnel-connectors-v2/connector-elasticsearch/src/main/java/org/apache/seatunnel/connectors/seatunnel/elasticsearch/sink/ElasticsearchSinkWriter.java:95-115 | the requests sent, the replies consumed and the outcome are those of the bulk specification |
| ElasticsearchWriter.SinkWriter.Close | seatunnel-connectors-v2/connector-elasticsearch/src/main/java/org/apache/seatunnel/connectors/seatunnel/elasticsearch/sink/ElasticsearchSinkWriter.java:117-121 | the new state and outcome are those of the close specification |
| KafkaSinkWriter.TransactionId | seatunnel-connectors-v2/connector-kafka/src/main/java/org/apache/seatunnel/connectors/seatunnel/kafka/sink/KafkaSinkWriter.java:180-182 | the id starts with the prefix and a dash, and the rest is the checkpoint id in decimal |
| KafkaSinkWriter.TransactionIdInjective | seatunnel-connectors-v2/connector-kafka/src/main/java/org/apache/seatunnel/connectors/seatunnel/kafka/sink/KafkaSinkWriter.java:180-182 | under one prefix, distinct checkpoint ids give distinct transaction ids |
| KafkaSinkWriter.RandomPrefix | seatunnel-connectors-v2/connector-kafka/src/main/java/org/apache/seatunnel/connectors/seatunnel/kafka/sink/KafkaSinkWriter.java:99-100 | a drawn prefix is "SeaTunnel" followed by exactly four digits |
| KafkaSinkWriter.IndexOf | seatunnel-connectors-v2/connector-kafka/src/main/java/org/apache/seatunnel/connectors/seatunnel/kafka/sink/KafkaSinkWriter.java:201 | the index found holds the partition key and no earlier field has that name |
| KafkaSinkWriter.CreatePartitionExtractor | seatunnel-connectors-v2/connector-kafka/src/main/java/org/apache/seatunnel/connectors/seatunnel/kafka/sink/KafkaSinkWriter.java:191-209 | no partition_key gives the null extractor; a key naming no field gives the key itself; a key naming a field gives that field's first index |
| KafkaSinkWriter.ExtractKey | seatunnel-connectors-v2/connector-kafka/src/main/java/org/apache/seatunnel/connectors/seatunnel/kafka/sink/KafkaSinkWriter.java:202-208 | the extractor yields null, the constant key, or the field's text (null for a null field) |
| KafkaSinkWriter.PartitionKeyRules | seatunnel-connectors-v2/connector-kafka/src/main/java/org/apache/seatunnel/connectors/seatunnel/kafka/sink/KafkaSinkWriter.java:191-209 | on a row of the type's width: null without partition_key, the key itself when it names no field, otherwise that field of the row |
| KafkaSinkWriter.GetKafkaSemantics | seatunnel-connectors-v2/connector-kafka/src/main/java/org/apache/seatunnel/connectors/seatunnel/kafka/sink/KafkaSinkWriter.java:173-178 | NON when semantics is absent; otherwise it succeeds exactly for the names EXACTLY_ONCE, AT_LEAST_ONCE and NON and gives that constant |
| KafkaSinkWriter.KafkaProperties | seatunnel-connectors-v2/connector-kafka/src/main/java/org/apache/seatunnel/connectors/seatunnel/kafka/sink/KafkaSinkWriter.java:147-161 | succeeds iff the bootstrap servers can be read, sets them and both byte-array serializers, and sets the partitioner when partitions are assigned |
| KafkaSinkWriter.KafkaPropertiesCopyPrefixed | seatunnel-connectors-v2/connector-kafka/src/main/java/org/apache/seatunnel/connectors/seatunnel/kafka/sink/KafkaSinkWriter.java:148-153 | every "kafka."-prefixed entry is copied under its short name unless a fixed key overrides it |
| KafkaSinkWriter.ReadSettings | seatunnel-connectors-v2/connector-kafka/src/main/java/org/apache/seatunnel/connectors/seatunnel/kafka/sink/KafkaSinkWriter.java:82-117 | the constructor's config reads: topic, partition (0 when absent), configured prefix, semantics and properties as read; a missing topic or bootstrap servers fails |
| KafkaSinkWriter.Restored | seatunnel-connectors-v2/connector-kafka/src/main/java/org/apache/seatunnel/connectors/seatunnel/kafka/sink/KafkaSinkWriter.java:184-189 | no states change nothing; otherwise the first state alone sets the prefix and the checkpoint id |
| KafkaSinkWriter.ConstructedWithoutState | seatunnel-connectors-v2/connector-kafka/src/main/java/org/apache/seatunnel/connectors/seatunnel/kafka/sink/KafkaSinkWriter.java:96-117 | without states the prefix is the configured one or a drawn one, the checkpoint is 0, and exactly-once begins transaction prefix-1 and nothing else |
| KafkaSinkWriter.ConstructedFromState | seatunnel-connectors-v2/connector-kafka/src/main/java/org/apache/seatunnel/connectors/seatunnel/kafka/sink/KafkaSinkWriter.java:102-113 | with states the first state sets prefix and checkpoint whatever the config and the draw; exactly-once aborts from checkpoint+1 and then begins the next transaction |
| KafkaSinkWriter.ConstructedSender | seatunnel-connectors-v2/connector-kafka/src/main/java/org/apache/seatunnel/connectors/seatunnel/kafka/sink/KafkaSinkWriter.java:104-116 | only exactly-once builds the transactional sender, with the writer's prefix; both senders get the Kafka properties; otherwise no abort and no begin |
| KafkaSinkWriter.SnapshotCallsAt | seatunnel-connectors-v2/connector-kafka/src/main/java/org/apache/seatunnel/connectors/seatunnel/kafka/sink/KafkaSinkWriter.java:119-126 | the snapshot at the k-th checkpoint is sender call 2k, and the transaction it begins for checkpoint+1 is call 2k+1 |
| KafkaSinkWriter.SnapshotsEffect | seatunnel-connectors-v2/connector-kafka/src/main/java/org/apache/seatunnel/connectors/seatunnel/kafka/sink/KafkaSinkWriter.java:119-126 | a run of snapshots appends their calls, keeps prefix and sender, and leaves the last checkpoint id |
| KafkaSinkWriter.SnapshotsBeginDistinct | seatunnel-connectors-v2/connector-kafka/src/main/java/org/apache/seatunnel/connectors/seatunnel/kafka/sink/KafkaSinkWriter.java:119-126 | for increasing checkpoint ids no transaction id is begun twice |
| KafkaSinkWriter.SinkWriter.constructor | seatunnel-connectors-v2/connector-kafka/src/main/java/org/apache/seatunnel/connectors/seatunnel/kafka/sink/KafkaSinkWriter.java:82-117 | the new writer's state is the constructed state for its settings, states and draw |
| KafkaSinkWriter.SinkWriter.OpenSender | seatunnel-connectors-v2/connector-kafka/src/main/java/org/apache/seatunnel/connectors/seatunnel/kafka/sink/KafkaSinkWriter.java:103-115 | exactly once, the transactional sender is made, a restored run's later transactions are aborted and the next one begun; otherwise the non-transactional sender and no call |
| KafkaSinkWriter.SinkWriter.RestoreState | seatunnel-connectors-v2/connector-kafka/src/main/java/org/apache/seatunnel/connectors/seatunnel/kafka/sink/KafkaSinkWriter.java:184-189 | the new state is Restored of the old one |
| KafkaSinkWriter.SinkWriter.SnapshotStateAt | seatunnel-connectors-v2/connector-kafka/src/main/java/org/apache/seatunnel/connectors/seatunnel/kafka/sink/KafkaSinkWriter.java:119-126 | the snapshot is taken, the checkpoint recorded and the next transaction begun; the sender's states are returned |
| KafkaSinkWriter.SinkWriter.Write | seatunnel-connectors-v2/connector-kafka/src/main/java/org/apache/seatunnel/connectors/seatunnel/kafka/sink/KafkaSinkWriter.java:68-80 | the row is sent keyed by the extractor's key when partition_key is set, unkeyed otherwise |
| KafkaSinkWriter.SinkWriter.PrepareCommitAt | seatunnel-connectors-v2/connector-kafka/src/main/java/org/apache/seatunnel/connectors/seatunnel/kafka/sink/KafkaSinkWriter.java:128-131 | the sender's prepareCommit is called and its result returned |
| KafkaSinkWriter.SinkWriter.AbortPrepare | seatunnel-connectors-v2/connector-kafka/src/main/java/org/apache/seatunnel/connectors/seatunnel/kafka/sink/KafkaSinkWriter.java:133-136 | the sender aborts the current transaction |
| KafkaSinkWriter.SinkWriter.Close | seatunnel-connectors-v2/connector-kafka/src/main/java/org/apache/seatunnel/connectors/seatunnel/kafka/sink/KafkaSinkWriter.java:138-145 | the sender is closed; a failure becomes a RuntimeException |
| TextWriteStrategy.Joined | seatunnel-connectors-v2/connector-file/connector-file-base/src/main/java/org/apache/seatunnel/connectors/seatunnel/file/sink/writer/TextWriteStrategy.java:75-80 | a file holding one row holds exactly that row, with no delimiter before it |
| TextWriteStrategy.JoinedSnoc | seatunnel-connectors-v2/connector-file/connector-file-base/src/main/java/org/apache/seatunnel/connectors/seatunnel/file/sink/writer/TextWriteStrategy.java:75-80 | each further row is written after one row delimiter |
| TextWriteStrategy.OpenSpec | seatunnel-connectors-v2/connector-file/connector-file-base/src/main/java/org/apache/seatunnel/connectors/seatunnel/file/sink/writer/TextWriteStrategy.java:108-121 | opening keeps the stream table and the first-write table in agreement, and a successful open leaves a stream for the path |
| TextWriteStrategy.WriteSpec | seatunnel-connectors-v2/connector-file/connector-file-base/src/main/java/org/apache/seatunnel/connectors/seatunnel/file/sink/writer/TextWriteStrategy.java:70-85 | a write keeps the two tables in agreement |
| TextWriteStrategy.StreamWrite | seatunnel-connectors-v2/connector-file/connector-file-base/src/main/java/org/apache/seatunnel/connectors/seatunnel/file/sink/writer/TextWriteStrategy.java:74-84 | writing to an open stream keeps the two tables in agreement |
| TextWriteStrategy.WriteAppends | seatunnel-connectors-v2/connector-file/connector-file-base/src/main/java/org/apache/seatunnel/connectors/seatunnel/file/sink/writer/TextWriteStrategy.java:70-85 | a successful write appends the row to its file, after the row delimiter unless it is the file's first write, and leaves every other stream alone |
| TextWriteStrategy.WrittenPreserves | seatunnel-connectors-v2/connector-file/connector-file-base/src/main/java/org/apache/seatunnel/connectors/seatunnel/file/sink/writer/TextWriteStrategy.java:75-80 | each stream's content stays the delimiter-joined list of the rows written to it, with the new row added to its file |
| TextWriteStrategy.HoldsUpdate | seatunnel-connectors-v2/connector-file/connector-file-base/src/main/java/org/apache/seatunnel/connectors/seatunnel/file/sink/writer/TextWriteStrategy.java:75-80 | replacing one stream by the joined form of its rows keeps that description |
| TextWriteStrategy.WritePreserves | seatunnel-connectors-v2/connector-file/connector-file-base/src/main/java/org/apache/seatunnel/connectors/seatunnel/file/sink/writer/TextWriteStrategy.java:70-85 | after a successful write every open stream still holds exactly its rows joined by the row delimiter, with no delimiter before the first |
| TextWriteStrategy.OpenOnlyWhenAbsent | seatunnel-connectors-v2/connector-file/connector-file-base/src/main/java/org/apache/seatunnel/connectors/seatunnel/file/sink/writer/TextWriteStrategy.java:108-121 | a stream is opened only for a path without one, marking its first write; a failed open changes nothing |
| TextWriteStrategy.Step | seatunnel-connectors-v2/connector-file/connector-file-base/src/main/java/org/apache/seatunnel/connectors/seatunnel/file/sink/writer/TextWriteStrategy.java:70-85 | one write call keeps the two tables in agreement |
| TextWriteStrategy.Writes | seatunnel-connectors-v2/connector-file/connector-file-base/src/main/java/org/apache/seatunnel/connectors/seatunnel/file/sink/writer/TextWriteStrategy.java:70-85 | a run of write calls keeps the two tables in agreement |
| TextWriteStrategy.WriteOpens | seatunnel-connectors-v2/connector-file/connector-file-base/src/main/java/org/apache/seatunnel/connectors/seatunnel/file/sink/writer/TextWriteStrategy.java:108-121 | one write opens at most one path, which had no stream, and it becomes the one new stream |
| TextWriteStrategy.WritesOpenOnce | seatunnel-connectors-v2/connector-file/connector-file-base/src/main/java/org/apache/seatunnel/connectors/seatunnel/file/sink/writer/TextWriteStrategy.java:70-121 | between two finishAndCloseFile calls no path is opened twice, and the new openings are exactly the new streams |
| TextWriteStrategy.ScheduledContents | seatunnel-connectors-v2/connector-file/connector-file-base/src/main/java/org/apache/seatunnel/connectors/seatunnel/file/sink/writer/TextWriteStrategy.java:102 | every scheduled path maps to its target location, and nothing scheduled before is lost |
| TextWriteStrategy.FinishMovesAll | seatunnel-connectors-v2/connector-file/connector-file-base/src/main/java/org/apache/seatunnel/connectors/seatunnel/file/sink/writer/TextWriteStrategy.java:87-106 | without a flush failure every open stream is closed once and scheduled to move to its target, and both tables end empty |
| TextWriteStrategy.FinishFlushFailure | seatunnel-connectors-v2/connector-file/connector-file-base/src/main/java/org/apache/seatunnel/connectors/seatunnel/file/sink/writer/TextWriteStrategy.java:89-101 | the first flush failure closes that stream too and throws, wrapped in a RuntimeException, with the earlier streams scheduled and both tables kept |
| TextWriteStrategy.WriteAfterFinish | seatunnel-connectors-v2/connector-file/connector-file-base/src/main/java/org/apache/seatunnel/connectors/seatunnel/file/sink/writer/TextWriteStrategy.java:70-121 | after finishAndCloseFile the next write reopens its path and writes the row with no delimiter before it |
| TextWriteStrategy.TextWriter.constructor | seatunnel-connectors-v2/connector-file/connector-file-base/src/main/java/org/apache/seatunnel/connectors/seatunnel/file/sink/writer/TextWriteStrategy.java:47-56 | a new strategy has empty stream, first-write and move tables, and keeps its row delimiter, the platform encoding of the delimiter, the serializer and the target-location function |
| TextWriteStrategy.TextWriter.Write | seatunnel-connectors-v2/connector-file/connector-file-base/src/main/java/org/apache/seatunnel/connectors/seatunnel/file/sink/writer/TextWriteStrategy.java:70-85 | the new state and outcome are those of the write specification |
| TextWriteStrategy.TextWriter.WriteToStream | seatunnel-connectors-v2/connector-file/connector-file-base/src/main/java/org/apache/seatunnel/connectors/seatunnel/file/sink/writer/TextWriteStrategy.java:74-84 | the delimiter (unless first write) and then the row go to the open stream |
| TextWriteStrategy.TextWriter.GetOrCreateOutputStream | seatunnel-connectors-v2/connector-file/connector-file-base/src/main/java/org/apache/seatunnel/connectors/seatunnel/file/sink/writer/TextWriteStrategy.java:108-121 | the new state and outcome are those of the open specification |
| TextWriteStrategy.TextWriter.FinishAndCloseFile | seatunnel-connectors-v2/connector-file/connector-file-base/src/main/java/org/apache/seatunnel/connectors/seatunnel/file/sink/writer/TextWriteStrategy.java:87-106 | every stream is flushed, closed and scheduled as the finish specification states |
| JvmOptions.DigitRun | seatunnel-core/seatunnel-starter/src/main/java/org/apache/seatunnel/core/starter/seatunnel/jvm/JvmOptionsParser.java:116 | the run found is all digits and ends at the end of the line or at a non-digit, as the greedy \\d+ does |
| JvmOptions.OptionAfter | seatunnel-core/seatunnel-starter/src/main/java/org/apache/seatunnel/core/starter/seatunnel/jvm/JvmOptionsParser.java:116 | the option group is the rest of the line after the colon and starts with a dash |
| JvmOptions.MatchPattern | seatunnel-core/seatunnel-starter/src/main/java/org/apache/seatunnel/core/starter/seatunnel/jvm/JvmOptionsParser.java:115-116 | every match found is well formed and renders back to the whole line |
| JvmOptions.MatchPatternComplete | seatunnel-core/seatunnel-starter/src/main/java/org/apache/seatunnel/core/starter/seatunnel/jvm/JvmOptionsParser.java:115-116 | every well-formed match is found again in the line it renders to |
| JvmOptions.MatchExactComplete | seatunnel-core/seatunnel-starter/src/main/java/org/apache/seatunnel/core/starter/seatunnel/jvm/JvmOptionsParser.java:116 | a line N:opt matches with start N and no range |
| JvmOptions.MatchAtLeastComplete | seatunnel-core/seatunnel-starter/src/main/java/org/apache/seatunnel/core/starter/seatunnel/jvm/JvmOptionsParser.java:116 | a line N-:opt matches with start N and an open range |
| JvmOptions.MatchBetweenComplete | seatunnel-core/seatunnel-starter/src/main/java/org/apache/seatunnel/core/starter/seatunnel/jvm/JvmOptionsParser.java:116 | a line N-M:opt matches with start N and end M |
| JvmOptions.Bounds | seatunnel-core/seatunnel-starter/src/main/java/org/apache/seatunnel/core/starter/seatunnel/jvm/JvmOptionsParser.java:195-224 | the version range of a prefix lies within int and is not empty; None when a bound overflows int or the end is below the start |
| JvmOptions.ClassifySkips | seatunnel-core/seatunnel-starter/src/main/java/org/apache/seatunnel/core/starter/seatunnel/jvm/JvmOptionsParser.java:179-186 | a comment line or a whitespace-only line gives neither an option nor an error |
| JvmOptions.DigitLineIsNotSkipped | seatunnel-core/seatunnel-starter/src/main/java/org/apache/seatunnel/core/starter/seatunnel/jvm/JvmOptionsParser.java:179-186 | a line starting with a digit is neither a comment nor blank |
| JvmOptions.ClassifyUnprefixed | seatunnel-core/seatunnel-starter/src/main/java/org/apache/seatunnel/core/starter/seatunnel/jvm/JvmOptionsParser.java:191-193 | a well-formed option with no version prefix is accepted whole, whatever the version |
| JvmOptions.ClassifyExact | seatunnel-core/seatunnel-starter/src/main/java/org/apache/seatunnel/core/starter/seatunnel/jvm/JvmOptionsParser.java:195-206 | N:opt is accepted exactly for version N; an N that overflows int is reported invalid |
| JvmOptions.ClassifyAtLeast | seatunnel-core/seatunnel-starter/src/main/java/org/apache/seatunnel/core/starter/seatunnel/jvm/JvmOptionsParser.java:207-210 | N-:opt is accepted exactly for versions from N up to Integer.MAX_VALUE |
| JvmOptions.ClassifyBetween | seatunnel-core/seatunnel-starter/src/main/java/org/apache/seatunnel/core/starter/seatunnel/jvm/JvmOptionsParser.java:211-227 | N-M:opt is accepted exactly for N <= version <= M; M < N or an overflowing bound is reported invalid |
| JvmOptions.ClassifyPrefixed | seatunnel-core/seatunnel-starter/src/main/java/org/apache/seatunnel/core/starter/seatunnel/jvm/JvmOptionsParser.java:194-228 | with a version prefix the outcome is decided by the prefix's bounds alone |
| JvmOptions.ClassifyUnmatched | seatunnel-core/seatunnel-starter/src/main/java/org/apache/seatunnel/core/starter/seatunnel/jvm/JvmOptionsParser.java:229-231 | any other line that is neither a comment nor blank is reported invalid |
| JvmOptions.DocumentedAcceptedForJava8 | seatunnel-core/seatunnel-starter/src/main/java/org/apache/seatunnel/core/starter/seatunnel/jvm/JvmOptionsParser.java:134-142 | for Java 8 an unprefixed option and 8:option are accepted with that option |
| JvmOptions.DocumentedRangesAcceptedForJava8 | seatunnel-core/seatunnel-starter/src/main/java/org/apache/seatunnel/core/starter/seatunnel/jvm/JvmOptionsParser.java:134-142 | for Java 8, 8-:option and 7-8:option are accepted with that option |
| JvmOptions.DocumentedSkippedForJava8 | seatunnel-core/seatunnel-starter/src/main/java/org/apache/seatunnel/core/starter/seatunnel/jvm/JvmOptionsParser.java:144-153 | for Java 8, 9:option, 9-:option and 9-10:option are passed over, neither accepted nor invalid |
| JvmOptions.DocumentedExamples | seatunnel-core/seatunnel-starter/src/main/java/org/apache/seatunnel/core/starter/seatunnel/jvm/JvmOptionsParser.java:134-153 | the documentation's own example lines behave as it says for Java 8 |
| JvmOptions.Parse | seatunnel-core/seatunnel-starter/src/main/java/org/apache/seatunnel/core/starter/seatunnel/jvm/JvmOptionsParser.java:167-233 | the options and invalid lines reported are those of the line-by-line classification |
| JvmOptions.OneCallbackPerLine | seatunnel-core/seatunnel-starter/src/main/java/org/apache/seatunnel/core/starter/seatunnel/jvm/JvmOptionsParser.java:173-232 | every line causes at most one callback |
| JvmOptions.OptionsInFileOrder | seatunnel-core/seatunnel-starter/src/main/java/org/apache/seatunnel/core/starter/seatunnel/jvm/JvmOptionsParser.java:173-232 | the options of a file are those of its first part followed by those of the rest |
| JvmOptions.OptionsFromAcceptedLines | seatunnel-core/seatunnel-starter/src/main/java/org/apache/seatunnel/core/starter/seatunnel/jvm/JvmOptionsParser.java:188-228 | an option is emitted exactly when some line is accepted with it |
| JvmOptions.InvalidsSound | seatunnel-core/seatunnel-starter/src/main/java/org/apache/seatunnel/core/starter/seatunnel/jvm/JvmOptionsParser.java:172-231 | every invalid-line report names an invalid line by its 1-based number |
| JvmOptions.InvalidsComplete | seatunnel-core/seatunnel-starter/src/main/java/org/apache/seatunnel/core/starter/seatunnel/jvm/JvmOptionsParser.java:172-231 | every invalid line is reported with its 1-based number |
| JvmOptions.InvalidsIncreasing | seatunnel-core/seatunnel-starter/src/main/java/org/apache/seatunnel/core/starter/seatunnel/jvm/JvmOptionsParser.java:172-231 | reports come in strictly increasing line order, so no line is reported twice |
| JvmOptions.ErrorMessage | seatunnel-core/seatunnel-starter/src/main/java/org/apache/seatunnel/core/starter/seatunnel/jvm/JvmOptionsParser.java:87-92 | the message starts with "encountered [count] error" |
| JvmOptions.ReadJvmOptionsFiles | seatunnel-core/seatunnel-starter/src/main/java/org/apache/seatunnel/core/starter/seatunnel/jvm/JvmOptionsParser.java:67-96 | fails iff some line is invalid, with the count in the message; otherwise returns the file's options in order |
| JvmOptions.InvalidLineFailsFile | seatunnel-core/seatunnel-starter/src/main/java/org/apache/seatunnel/core/starter/seatunnel/jvm/JvmOptionsParser.java:84-93 | a file with one malformed line fails however many good lines surround it |
| ReadonlyConfiguration.MapGet | seatunnel-api/src/main/java/org/apache/seatunnel/api/configuration/ReadonlyConfig.java:98 | Map.get gives the stored value for a present key and null for an absent one |
| ReadonlyConfiguration.Found | seatunnel-api/src/main/java/org/apache/seatunnel/api/configuration/ReadonlyConfig.java:107-110 | a null final value is empty, any other is present |
| ReadonlyConfiguration.LookupNest | seatunnel-api/src/main/java/org/apache/seatunnel/api/configuration/ReadonlyConfig.java:94-110 | looking a value up at the path where it was nested finds it again |
| ReadonlyConfiguration.LookupConcat | seatunnel-api/src/main/java/org/apache/seatunnel/api/configuration/ReadonlyConfig.java:97-106 | a path is read segment by segment: the first part, then the rest inside the nested map found there, empty when that is not a map |
| ReadonlyConfiguration.DottedKeyRoundTrip | seatunnel-api/src/main/java/org/apache/seatunnel/api/configuration/ReadonlyConfig.java:94-110 | with dot-free segments, the dotted key of a path splits back on '.' and reaches the value nested at that path |
| ReadonlyConfiguration.StringMap.Put | seatunnel-api/src/main/java/org/apache/seatunnel/api/configuration/ReadonlyConfig.java:85 | Map.put adds or replaces exactly one entry |
| ReadonlyConfiguration.Rendered | seatunnel-api/src/main/java/org/apache/seatunnel/api/configuration/ReadonlyConfig.java:83-86 | the result has exactly the flattened keys, each value rendered as JSON |
| ReadonlyConfiguration.KeyXorRemove | seatunnel-api/src/main/java/org/apache/seatunnel/api/configuration/ReadonlyConfig.java:114-120 | any key's hash can be taken out of the XOR first |
| ReadonlyConfiguration.XorFoldIsKeyXor | seatunnel-api/src/main/java/org/apache/seatunnel/api/configuration/ReadonlyConfig.java:114-120 | whatever order distinct keys come in, the fold is the XOR of their hashes |
| ReadonlyConfiguration.HashOrderIndependent | seatunnel-api/src/main/java/org/apache/seatunnel/api/configuration/ReadonlyConfig.java:114-120 | two iteration orders of the same key set give the same hash |
| ReadonlyConfiguration.ReadonlyConfig.constructor | seatunnel-api/src/main/java/org/apache/seatunnel/api/configuration/ReadonlyConfig.java:46-48 | the object keeps the tree it was given |
| ReadonlyConfiguration.ReadonlyConfig.GetOptional | seatunnel-api/src/main/java/org/apache/seatunnel/api/configuration/ReadonlyConfig.java:89-111 | a null option throws NullPointerException; otherwise the result is the converted value the dotted key reaches, or empty |
| ReadonlyConfiguration.ReadonlyConfig.Get | seatunnel-api/src/main/java/org/apache/seatunnel/api/configuration/ReadonlyConfig.java:65-67 | the found value, or the option's default when there is none |
| ReadonlyConfiguration.ReadonlyConfig.ToMapInto | seatunnel-api/src/main/java/org/apache/seatunnel/api/configuration/ReadonlyConfig.java:79-87 | nothing is added for an empty configuration; otherwise every flattened entry is put, rendered as JSON |
| ReadonlyConfiguration.ReadonlyConfig.ToMap | seatunnel-api/src/main/java/org/apache/seatunnel/api/configuration/ReadonlyConfig.java:69-77 | an empty map for an empty configuration, otherwise exactly the rendered flattened entries |
| ReadonlyConfiguration.ReadonlyConfig.HashCode | seatunnel-api/src/main/java/org/apache/seatunnel/api/configuration/ReadonlyConfig.java:113-120 | the hash is the XOR of the key hashes, whatever the iteration order |
| ReadonlyConfiguration.ReadonlyConfig.Equals | seatunnel-api/src/main/java/org/apache/seatunnel/api/configuration/ReadonlyConfig.java:122-132 | equal exactly when the other is a ReadonlyConfig with an equal tree |
| ReadonlyConfiguration.EqualConfigsHashAlike | seatunnel-api/src/main/java/org/apache/seatunnel/api/configuration/ReadonlyConfig.java:113-132 | equal configurations have equal hashes, in any iteration order |
| ReadonlyConfiguration.HashIgnoresValues | seatunnel-api/src/main/java/org/apache/seatunnel/api/configuration/ReadonlyConfig.java:113-120 | the hash depends on the top-level keys only, not on the values |
| YamlEngineConfig.IntegerValue | seatunnel-engine/seatunnel-engine-common/src/main/java/org/apache/seatunnel/engine/common/config/YamlSeaTunnelDomConfigProcessor.java:79 | succeeds exactly when the text parses as an int, giving that int, and fails with an InvalidConfigurationException otherwise |
| YamlEngineConfig.BooleanValue | seatunnel-engine/seatunnel-engine-common/src/main/java/org/apache/seatunnel/engine/common/config/YamlSeaTunnelDomConfigProcessor.java:77 | true exactly for "true" in any letter case |
| YamlEngineConfig.RunSnoc | seatunnel-engine/seatunnel-engine-common/src/main/java/org/apache/seatunnel/engine/common/config/YamlSeaTunnelDomConfigProcessor.java:74-83 | one more child is one more step after the others, and nothing after a failure |
| YamlEngineConfig.RunSkips | seatunnel-engine/seatunnel-engine-common/src/main/java/org/apache/seatunnel/engine/common/config/YamlSeaTunnelDomConfigProcessor.java:80-82 | a child the step leaves alone can be dropped from the run |
| YamlEngineConfig.StepAfter | seatunnel-engine/seatunnel-engine-common/src/main/java/org/apache/seatunnel/engine/common/config/YamlSeaTunnelDomConfigProcessor.java:74-83 | a child after a clean run is one more step |
| YamlEngineConfig.SlotKeysSetOwnField | seatunnel-engine/seatunnel-engine-common/src/main/java/org/apache/seatunnel/engine/common/config/YamlSeaTunnelDomConfigProcessor.java:72-85 | dynamic slot sets only the dynamic flag, slot num only the slot count (or fails to parse), and any other child changes nothing |
| YamlEngineConfig.StorageKeysSetOwnField | seatunnel-engine/seatunnel-engine-common/src/main/java/org/apache/seatunnel/engine/common/config/YamlSeaTunnelDomConfigProcessor.java:135-149 | the storage type sets only the storage name, max retained only its count, and any other child changes nothing |
| YamlEngineConfig.CheckpointKeysSetOwnField | seatunnel-engine/seatunnel-engine-common/src/main/java/org/apache/seatunnel/engine/common/config/YamlSeaTunnelDomConfigProcessor.java:108-133 | each checkpoint key sets exactly its own field, the storage key the parsed storage section, and any other child changes nothing |
| YamlEngineConfig.EngineKeysSetOwnField | seatunnel-engine/seatunnel-engine-common/src/main/java/org/apache/seatunnel/engine/common/config/YamlSeaTunnelDomConfigProcessor.java:87-106 | each engine key sets exactly its own field, the slot-service and checkpoint keys their parsed sections, and any other child changes nothing |
| YamlEngineConfig.SlotIgnoresUnrecognized | seatunnel-engine/seatunnel-engine-common/src/main/java/org/apache/seatunnel/engine/common/config/YamlSeaTunnelDomConfigProcessor.java:80-82 | an unrecognised child of the slot-service element changes nothing |
| YamlEngineConfig.StorageIgnoresUnrecognized | seatunnel-engine/seatunnel-engine-common/src/main/java/org/apache/seatunnel/engine/common/config/YamlSeaTunnelDomConfigProcessor.java:144-146 | an unrecognised child of the checkpoint-storage element changes nothing |
| YamlEngineConfig.CheckpointIgnoresUnrecognized | seatunnel-engine/seatunnel-engine-common/src/main/java/org/apache/seatunnel/engine/common/config/YamlSeaTunnelDomConfigProcessor.java:127-129 | an unrecognised child of the checkpoint element changes nothing |
| YamlEngineConfig.EngineIgnoresUnrecognized | seatunnel-engine/seatunnel-engine-common/src/main/java/org/apache/seatunnel/engine/common/config/YamlSeaTunnelDomConfigProcessor.java:102-104 | an unrecognised child of the engine element changes nothing |
| YamlEngineConfig.SlotNumLastWins | seatunnel-engine/seatunnel-engine-common/src/main/java/org/apache/seatunnel/engine/common/config/YamlSeaTunnelDomConfigProcessor.java:78-79 | a repeated slot count is won by its last occurrence |
| YamlEngineConfig.BuildRecordsOnlyEngine | seatunnel-engine/seatunnel-engine-common/src/main/java/org/apache/seatunnel/engine/common/config/YamlSeaTunnelDomConfigProcessor.java:47-61 | the recorded section names only grow, and only with engine sections that may not repeat |
| YamlEngineConfig.NonEngineSectionIgnored | seatunnel-engine/seatunnel-engine-common/src/main/java/org/apache/seatunnel/engine/common/config/YamlSeaTunnelDomConfigProcessor.java:54-56 | a section other than the engine changes nothing: it is neither parsed, recorded nor rejected |
| YamlEngineConfig.SecondEngineSection | seatunnel-engine/seatunnel-engine-common/src/main/java/org/apache/seatunnel/engine/common/config/YamlSeaTunnelDomConfigProcessor.java:50-53 | a second engine section is rejected with the duplicate message exactly when the engine section may not repeat; otherwise it is parsed over the first |
| YamlEngineConfig.FixtureSlotParsed | seatunnel-engine/seatunnel-engine-common/src/test/java/org/apache/seatunnel/engine/common/config/YamlSeaTunnelConfigParserTest.java:41-43 | the test's slot-service section parses to a static slot service with 5 slots |
| YamlEngineConfig.FixtureStorageParsed | seatunnel-engine/seatunnel-engine-common/src/test/java/org/apache/seatunnel/engine/common/config/YamlSeaTunnelConfigParserTest.java:53-55 | the test's storage section parses to storage "test" keeping 3 checkpoints |
| YamlEngineConfig.FixtureCheckpointParsed | seatunnel-engine/seatunnel-engine-common/src/test/java/org/apache/seatunnel/engine/common/config/YamlSeaTunnelConfigParserTest.java:45-55 | the test's checkpoint section parses to interval 6000, timeout 7000, 5 concurrent, 2 tolerated failures and that storage |
| YamlEngineConfig.FixtureEngineParsed | seatunnel-engine/seatunnel-engine-common/src/test/java/org/apache/seatunnel/engine/common/config/YamlSeaTunnelConfigParserTest.java:37-55 | the test's engine section parses to the values the test asserts, whatever the starting settings |
| YamlEngineConfig.ParserTestFixture | seatunnel-engine/seatunnel-engine-common/src/test/java/org/apache/seatunnel/engine/common/config/YamlSeaTunnelConfigParserTest.java:26-57 | a file with that one engine section builds cleanly with exactly the values the test asserts |
| YamlEngineConfig.EngineConfig.constructor | seatunnel-engine/seatunnel-engine-common/src/main/java/org/apache/seatunnel/engine/common/config/YamlSeaTunnelDomConfigProcessor.java:88 | the engine config holds the given settings |
| YamlEngineConfig.DomConfigProcessor.constructor | seatunnel-engine/seatunnel-engine-common/src/main/java/org/apache/seatunnel/engine/common/config/YamlSeaTunnelDomConfigProcessor.java:47 | the processor starts with an empty occurrence set |
| YamlEngineConfig.DomConfigProcessor.BuildConfig | seatunnel-engine/seatunnel-engine-common/src/main/java/org/apache/seatunnel/engine/common/config/YamlSeaTunnelDomConfigProcessor.java:46-61 | the new settings, occurrence set and outcome are those of the build specification |
| YamlEngineConfig.DomConfigProcessor.HandleNode | seatunnel-engine/seatunnel-engine-common/src/main/java/org/apache/seatunnel/engine/common/config/YamlSeaTunnelDomConfigProcessor.java:63-70 | skips exactly the non-engine sections, leaving the settings; parses an engine section as the engine run states |
| YamlEngineConfig.DomConfigProcessor.ParseEngineConfig | seatunnel-engine/seatunnel-engine-common/src/main/java/org/apache/seatunnel/engine/common/config/YamlSeaTunnelDomConfigProcessor.java:87-106 | the engine config is updated in place as the engine run states |
| YamlEngineConfig.DomConfigProcessor.ParseSlotServiceConfig | seatunnel-engine/seatunnel-engine-common/src/main/java/org/apache/seatunnel/engine/common/config/YamlSeaTunnelDomConfigProcessor.java:72-85 | the result is the slot-service run over the children from a fresh config |
| YamlEngineConfig.DomConfigProcessor.ParseCheckpointConfig | seatunnel-engine/seatunnel-engine-common/src/main/java/org/apache/seatunnel/engine/common/config/YamlSeaTunnelDomConfigProcessor.java:108-133 | the result is the checkpoint run over the children from a fresh config |
| YamlEngineConfig.DomConfigProcessor.ParseCheckpointStorageConfig | seatunnel-engine/seatunnel-engine-common/src/main/java/org/apache/seatunnel/engine/common/config/YamlSeaTunnelDomConfigProcessor.java:135-149 | the result is the storage run over the children from a fresh config |
| KafkaSource.StartModeValueOf | seatunnel-connectors-v2/connector-kafka/src/main/java/org/apache/seatunnel/connectors/seatunnel/kafka/source/KafkaSource.java:110 | StartMode.valueOf finds the mode whose name is the given string, and fails only when no mode has that name |
| KafkaSource.StartModeNameRoundTrip | seatunnel-connectors-v2/connector-kafka/src/main/java/org/apache/seatunnel/connectors/seatunnel/kafka/source/KafkaSource.java:110 | every start mode is found again from its own name |
| KafkaSource.OffsetKey | seatunnel-connectors-v2/connector-kafka/src/main/java/org/apache/seatunnel/connectors/seatunnel/kafka/source/KafkaSource.java:131-133 | a parsed offsets key yields a topic without '-' and a partition within the Java int range |
| KafkaSource.OffsetKeyCases | seatunnel-connectors-v2/connector-kafka/src/main/java/org/apache/seatunnel/connectors/seatunnel/kafka/source/KafkaSource.java:131-133 | the key is split on '-': fewer than two pieces fails with an index error at the missing piece, a non-numeric second piece fails with NumberFormatException, otherwise the topic is piece 0 and the partition int(piece 1) |
| KafkaSource.OffsetKeyRoundTrip | seatunnel-connectors-v2/connector-kafka/src/main/java/org/apache/seatunnel/connectors/seatunnel/kafka/source/KafkaSource.java:131-133 | a key written as topic-partition (dash-free topic, int partition) parses back to that topic and partition |
| KafkaSource.AsLong | seatunnel-connectors-v2/connector-kafka/src/main/java/org/apache/seatunnel/connectors/seatunnel/kafka/source/KafkaSource.java:132 | asLong gives a number node's value, a boolean's 1 or 0, Jackson's parseAsLong of a text node, and 0 for a null, array or object node |
| KafkaSource.AsLongOfDigits | seatunnel-connectors-v2/connector-kafka/src/main/java/org/apache/seatunnel/connectors/seatunnel/kafka/source/KafkaSource.java:132 | a text node that trims to an optionally signed run of digits, with one leading '+' dropped, is read as that number when it fits a long and as 0 otherwise |
| KafkaSource.AsLongOfOtherText | seatunnel-connectors-v2/connector-kafka/src/main/java/org/apache/seatunnel/connectors/seatunnel/kafka/source/KafkaSource.java:132 | any other non-blank text is read through `(long) Double.parseDouble` of the trimmed text, and 0 when that throws |
| KafkaSource.OffsetsInto | seatunnel-connectors-v2/connector-kafka/src/main/java/org/apache/seatunnel/connectors/seatunnel/kafka/source/KafkaSource.java:128-135 | filling the offsets map keeps every entry already in it |
| KafkaSource.OffsetsFailWithFirstBadKey | seatunnel-connectors-v2/connector-kafka/src/main/java/org/apache/seatunnel/connectors/seatunnel/kafka/source/KafkaSource.java:130-135 | the offsets map is built iff every key parses; otherwise the error is that of the first key that does not parse |
| KafkaSource.OffsetsKeys | seatunnel-connectors-v2/connector-kafka/src/main/java/org/apache/seatunnel/connectors/seatunnel/kafka/source/KafkaSource.java:130-135 | every parsed key is in the built map, and the map holds nothing except the starting entries and parsed keys |
| KafkaSource.OffsetsLastWins | seatunnel-connectors-v2/connector-kafka/src/main/java/org/apache/seatunnel/connectors/seatunnel/kafka/source/KafkaSource.java:134 | the built map holds, for a partition, the offset of the last key naming it |
| KafkaSource.OffsetsUntouched | seatunnel-connectors-v2/connector-kafka/src/main/java/org/apache/seatunnel/connectors/seatunnel/kafka/source/KafkaSource.java:134 | a starting entry that no key names keeps its offset |
| KafkaSource.ListingBuiltIffAllParse | seatunnel-connectors-v2/connector-kafka/src/main/java/org/apache/seatunnel/connectors/seatunnel/kafka/source/KafkaSource.java:128-136 | over the offsets object's keys, the map is built iff every key parses |
| KafkaSource.ListingPartitions | seatunnel-connectors-v2/connector-kafka/src/main/java/org/apache/seatunnel/connectors/seatunnel/kafka/source/KafkaSource.java:128-136 | the built map's partitions are exactly the parsed keys of the offsets object |
| KafkaSource.ListingLastWins | seatunnel-connectors-v2/connector-kafka/src/main/java/org/apache/seatunnel/connectors/seatunnel/kafka/source/KafkaSource.java:128-136 | each partition maps to the offset of the last key in listing order naming it |
| KafkaSource.OffsetsOfListing | seatunnel-connectors-v2/connector-kafka/src/main/java/org/apache/seatunnel/connectors/seatunnel/kafka/source/KafkaSource.java:128-136 | the specific start offsets are built iff every key parses; their partitions are the parsed keys and each carries asLong of its last key's value |
| KafkaSource.PrepareRequiresTopicAndServers | seatunnel-connectors-v2/connector-kafka/src/main/java/org/apache/seatunnel/connectors/seatunnel/kafka/source/KafkaSource.java:88-91 | a missing topic or bootstrap servers fails prepare with PrepareFailException carrying the check's message and leaves the source unchanged; a successful prepare had both |
| KafkaSource.ReadConnectionSettings | seatunnel-connectors-v2/connector-kafka/src/main/java/org/apache/seatunnel/connectors/seatunnel/kafka/source/KafkaSource.java:92-107 | topic and servers are read, the pattern and commit-on-checkpoint flags only when present, the consumer group defaults to SeaTunnel-Consumer-Group, the properties start empty, and nothing else changes |
| KafkaSource.UnknownStartModeFails | seatunnel-connectors-v2/connector-kafka/src/main/java/org/apache/seatunnel/connectors/seatunnel/kafka/source/KafkaSource.java:109-111 | without start_mode nothing changes; an upper-cased name that is no mode fails with valueOf's error before the metadata is touched |
| KafkaSource.StartModeUpperCased | seatunnel-connectors-v2/connector-kafka/src/main/java/org/apache/seatunnel/connectors/seatunnel/kafka/source/KafkaSource.java:109-141 | reading the start mode changes only the mode, timestamp and offsets, and a mode set is the one named by the upper-cased value |
| KafkaSource.ModeSettingsFrame | seatunnel-connectors-v2/connector-kafka/src/main/java/org/apache/seatunnel/connectors/seatunnel/kafka/source/KafkaSource.java:112-140 | the per-mode settings change only the start timestamp and the specific offsets |
| KafkaSource.TimestampWithinNow | seatunnel-connectors-v2/connector-kafka/src/main/java/org/apache/seatunnel/connectors/seatunnel/kafka/source/KafkaSource.java:113-120 | in TIMESTAMP mode the start succeeds iff 0 <= t <= now, stores t on success, and otherwise fails with IllegalArgumentException leaving the timestamp as it was |
| KafkaSource.SpecificOffsetsRead | seatunnel-connectors-v2/connector-kafka/src/main/java/org/apache/seatunnel/connectors/seatunnel/kafka/source/KafkaSource.java:121-137 | in SPECIFIC_OFFSETS mode the start succeeds iff the offsets object is present and all its keys parse, and then stores the parsed map; an empty offsets object `{}` succeeds with an empty map |
| KafkaSource.DeserializationFrame | seatunnel-connectors-v2/connector-kafka/src/main/java/org/apache/seatunnel/connectors/seatunnel/kafka/source/KafkaSource.java:175-205 | choosing the deserializer never touches the consumer metadata |
| KafkaSource.PrepareMetadata | seatunnel-connectors-v2/connector-kafka/src/main/java/org/apache/seatunnel/connectors/seatunnel/kafka/source/KafkaSource.java:87-148 | a successful prepare passed the check, the connection fields and the start mode in that order, and its metadata is theirs with the kafka. properties copied in |
| KafkaSource.PropertiesFromPrefixedEntries | seatunnel-connectors-v2/connector-kafka/src/main/java/org/apache/seatunnel/connectors/seatunnel/kafka/source/KafkaSource.java:143-145 | after prepare the properties are exactly the non-null kafka.-prefixed entries with the prefix stripped, each as its unwrapped string |
| KafkaSource.DeserializationTable | seatunnel-connectors-v2/connector-kafka/src/main/java/org/apache/seatunnel/connectors/seatunnel/kafka/source/KafkaSource.java:175-205 | no schema gives the simple text schema with delimiter U+0002; with a schema, json (the default) gives the JSON deserializer, text the text one with the configured or default delimiter, and any other format fails with "Unsupported format: " after the type is set |
| KafkaSource.DeserializationSucceeded | seatunnel-connectors-v2/connector-kafka/src/main/java/org/apache/seatunnel/connectors/seatunnel/kafka/source/KafkaSource.java:175-205 | a successful deserialization choice leaves a type and a deserializer on that same type |
| KafkaSource.PrepareSucceeded | seatunnel-connectors-v2/connector-kafka/src/main/java/org/apache/seatunnel/connectors/seatunnel/kafka/source/KafkaSource.java:87-148 | a successful prepare stores the topic, servers and consumer group (defaulted) and leaves a deserializer on the produced type |
| KafkaSource.KafkaSourceConnector.constructor | seatunnel-connectors-v2/connector-kafka/src/main/java/org/apache/seatunnel/connectors/seatunnel/kafka/source/KafkaSource.java:71-74 | a new source has empty metadata, no type, no deserializer and no job context |
| KafkaSource.KafkaSourceConnector.SetJobContext | seatunnel-connectors-v2/connector-kafka/src/main/java/org/apache/seatunnel/connectors/seatunnel/kafka/source/KafkaSource.java:170-173 | the job context is set and nothing else changes |
| KafkaSource.KafkaSourceConnector.GetBoundedness | seatunnel-connectors-v2/connector-kafka/src/main/java/org/apache/seatunnel/connectors/seatunnel/kafka/source/KafkaSource.java:76-79 | BOUNDED iff the job mode is BATCH, UNBOUNDED otherwise; a missing job context throws NullPointerException |
| KafkaSource.KafkaSourceConnector.GetProducedType | seatunnel-connectors-v2/connector-kafka/src/main/java/org/apache/seatunnel/connectors/seatunnel/kafka/source/KafkaSource.java:150-153 | the produced type is the stored type |
| KafkaSource.KafkaSourceConnector.Prepare | seatunnel-connectors-v2/connector-kafka/src/main/java/org/apache/seatunnel/connectors/seatunnel/kafka/source/KafkaSource.java:86-148 | the new state and outcome are those of the prepare specification, and the job context is kept |
| KafkaSource.KafkaSourceConnector.ReadConnectionFields | seatunnel-connectors-v2/connector-kafka/src/main/java/org/apache/seatunnel/connectors/seatunnel/kafka/source/KafkaSource.java:92-107 | the metadata and outcome are those of reading the connection settings; the rest is kept |
| KafkaSource.KafkaSourceConnector.ReadStartModeFields | seatunnel-connectors-v2/connector-kafka/src/main/java/org/apache/seatunnel/connectors/seatunnel/kafka/source/KafkaSource.java:109-141 | the metadata and outcome are those of reading the start mode; the rest is kept |
| KafkaSource.KafkaSourceConnector.ParseSpecificOffsets | seatunnel-connectors-v2/connector-kafka/src/main/java/org/apache/seatunnel/connectors/seatunnel/kafka/source/KafkaSource.java:128-135 | the loop over the offsets keys computes the specific offsets specification |
| KafkaSource.KafkaSourceConnector.PutProperties | seatunnel-connectors-v2/connector-kafka/src/main/java/org/apache/seatunnel/connectors/seatunnel/kafka/source/KafkaSource.java:143-145 | the extracted entries are put into the properties and nothing else changes |
| KafkaSource.KafkaSourceConnector.SetDeserialization | seatunnel-connectors-v2/connector-kafka/src/main/java/org/apache/seatunnel/connectors/seatunnel/kafka/source/KafkaSource.java:175-205 | the type, deserializer and outcome are those of the deserialization specification |
| RedisParameters.RedisModeValueOf | seatunnel-connectors-v2/connector-redis/src/main/java/org/apache/seatunnel/connectors/seatunnel/redis/config/RedisParameters.java:62 | RedisMode.valueOf finds the mode with exactly that name, and otherwise throws IllegalArgumentException |
| RedisParameters.HashKeyParseModeValueOf | seatunnel-connectors-v2/connector-redis/src/main/java/org/apache/seatunnel/connectors/seatunnel/redis/config/RedisParameters.java:68-69 | HashKeyParseMode.valueOf finds the mode with exactly that name, and otherwise throws IllegalArgumentException |
| RedisParameters.RedisDataTypeValueOf | seatunnel-connectors-v2/connector-redis/src/main/java/org/apache/seatunnel/connectors/seatunnel/redis/config/RedisParameters.java:88 | RedisDataType.valueOf finds the type with exactly that name, and otherwise throws IllegalArgumentException |
| RedisParameters.EnumNamesRoundTrip | seatunnel-connectors-v2/connector-redis/src/main/java/org/apache/seatunnel/connectors/seatunnel/redis/config/RedisParameters.java:62-88 | every mode, hash-key mode and data type is found again from its own name |
| RedisParameters.AuthAndUserOnlyWhenPresent | seatunnel-connectors-v2/connector-redis/src/main/java/org/apache/seatunnel/connectors/seatunnel/redis/config/RedisParameters.java:49-59 | host and port are read; auth and user keep their previous values (empty by default) unless present, and nothing else changes |
| RedisParameters.ModeLookedUpVerbatim | seatunnel-connectors-v2/connector-redis/src/main/java/org/apache/seatunnel/connectors/seatunnel/redis/config/RedisParameters.java:61-65 | the mode defaults to SINGLE and is otherwise the mode named exactly by the value; an unknown name fails and leaves the parameters unchanged |
| RedisParameters.LowerCaseModeRejected | seatunnel-connectors-v2/connector-redis/src/main/java/org/apache/seatunnel/connectors/seatunnel/redis/config/RedisParameters.java:62 | the mode is not upper-cased, so "cluster" is refused with IllegalArgumentException |
| RedisParameters.HashKeyParseModeUpperCased | seatunnel-connectors-v2/connector-redis/src/main/java/org/apache/seatunnel/connectors/seatunnel/redis/config/RedisParameters.java:67-72 | the hash key parse mode defaults to ALL and is otherwise the mode named by the upper-cased value |
| RedisParameters.DataTypeRules | seatunnel-connectors-v2/connector-redis/src/main/java/org/apache/seatunnel/connectors/seatunnel/redis/config/RedisParameters.java:86-91 | the data type is the one named by the upper-cased value; an unknown name is rethrown as RuntimeException with the supported-types message and the cause, and a missing key fails as the config read does |
| RedisParameters.ParseNode | seatunnel-connectors-v2/connector-redis/src/main/java/org/apache/seatunnel/connectors/seatunnel/redis/config/RedisParameters.java:111-116 | a node entry parses iff it splits on ':' into exactly two pieces with a numeric port; otherwise it fails with IllegalArgumentException or NumberFormatException |
| RedisParameters.ParseNodeRoundTrip | seatunnel-connectors-v2/connector-redis/src/main/java/org/apache/seatunnel/connectors/seatunnel/redis/config/RedisParameters.java:111-116 | an entry written host:port parses back to that host and port |
| RedisParameters.AddNodes | seatunnel-connectors-v2/connector-redis/src/main/java/org/apache/seatunnel/connectors/seatunnel/redis/config/RedisParameters.java:106-119 | adding node entries keeps every node already in the set |
| RedisParameters.AddNodesExact | seatunnel-connectors-v2/connector-redis/src/main/java/org/apache/seatunnel/connectors/seatunnel/redis/config/RedisParameters.java:109-119 | the node set is built iff every entry parses, and is then the seed nodes plus the parsed entries |
| RedisParameters.EntryNodesCons | seatunnel-connectors-v2/connector-redis/src/main/java/org/apache/seatunnel/connectors/seatunnel/redis/config/RedisParameters.java:110-118 | the nodes of a list are its first parsed entry plus the nodes of the rest |
| RedisParameters.EntryNodesRepeat | seatunnel-connectors-v2/connector-redis/src/main/java/org/apache/seatunnel/connectors/seatunnel/redis/config/RedisParameters.java:106-118 | repeating an entry adds no node |
| RedisParameters.RepeatedEntryCollapses | seatunnel-connectors-v2/connector-redis/src/main/java/org/apache/seatunnel/connectors/seatunnel/redis/config/RedisParameters.java:106-118 | a set is built: a repeated node entry gives the same result as a single one |
| RedisParameters.FailureKeepsThrough | seatunnel-connectors-v2/connector-redis/src/main/java/org/apache/seatunnel/connectors/seatunnel/redis/config/RedisParameters.java:112-115 | once an entry fails, later entries do not change the failure |
| RedisParameters.JedisSpec | seatunnel-connectors-v2/connector-redis/src/main/java/org/apache/seatunnel/connectors/seatunnel/redis/config/RedisParameters.java:94-134 | SINGLE gives a client on host and port; CLUSTER succeeds iff every node entry parses; an unset mode throws NullPointerException |
| RedisParameters.ClusterNodesAndPassword | seatunnel-connectors-v2/connector-redis/src/main/java/org/apache/seatunnel/connectors/seatunnel/redis/config/RedisParameters.java:105-129 | a built cluster holds exactly the host:port seed and the parsed nodes, and is given the password iff auth is not blank |
| RedisParameters.SingleAuthGuards | seatunnel-connectors-v2/connector-redis/src/main/java/org/apache/seatunnel/connectors/seatunnel/redis/config/RedisParameters.java:96-104 | a single client authenticates iff auth is not blank and sets the ACL user iff user is not blank, with those values |
| RedisParameters.RedisParametersObject.constructor | seatunnel-connectors-v2/connector-redis/src/main/java/org/apache/seatunnel/connectors/seatunnel/redis/config/RedisParameters.java:36-45 | new parameters have empty auth and user, no nodes and every other field unset |
| RedisParameters.RedisParametersObject.BuildWithConfig | seatunnel-connectors-v2/connector-redis/src/main/java/org/apache/seatunnel/connectors/seatunnel/redis/config/RedisParameters.java:47-92 | the new fields and outcome are those of the build specification |
| RedisParameters.RedisParametersObject.ReadEndpointFields | seatunnel-connectors-v2/connector-redis/src/main/java/org/apache/seatunnel/connectors/seatunnel/redis/config/RedisParameters.java:48-59 | the fields and outcome are those of reading host, port, auth and user |
| RedisParameters.RedisParametersObject.ReadModeFields | seatunnel-connectors-v2/connector-redis/src/main/java/org/apache/seatunnel/connectors/seatunnel/redis/config/RedisParameters.java:60-72 | the fields and outcome are those of reading the two modes |
| RedisParameters.RedisParametersObject.ReadKeyFields | seatunnel-connectors-v2/connector-redis/src/main/java/org/apache/seatunnel/connectors/seatunnel/redis/config/RedisParameters.java:73-91 | the fields and outcome are those of reading the nodes, key, key pattern and data type |
| RedisParameters.RedisParametersObject.BuildJedis | seatunnel-connectors-v2/connector-redis/src/main/java/org/apache/seatunnel/connectors/seatunnel/redis/config/RedisParameters.java:94-134 | the loop over the node entries computes the client specification |
| BaseTextFileConfig.Replacement | seatunnel-connectors-v2/connector-file/connector-file-base/src/main/java/org/apache/seatunnel/connectors/seatunnel/file/config/BaseTextFileConfig.java:53-72 | an optional key replaces a field only when present and its value passes the guard; a present key whose read fails is an error |
| BaseTextFileConfig.CompressCodecRejected | seatunnel-connectors-v2/connector-file/connector-file-base/src/main/java/org/apache/seatunnel/connectors/seatunnel/file/config/BaseTextFileConfig.java:49-51 | any compress_codec key fails the constructor with "compress not support now" before any field is set |
| BaseTextFileConfig.LayoutRules | seatunnel-connectors-v2/connector-file/connector-file-base/src/main/java/org/apache/seatunnel/connectors/seatunnel/file/config/BaseTextFileConfig.java:53-64 | delimiters are replaced only by non-empty values, the path only by a non-blank one, and afterwards a path is set |
| BaseTextFileConfig.PathRequired | seatunnel-connectors-v2/connector-file/connector-file-base/src/main/java/org/apache/seatunnel/connectors/seatunnel/file/config/BaseTextFileConfig.java:61-64 | from the defaults, a missing or blank path fails checkNotNull with NullPointerException |
| BaseTextFileConfig.NamingRules | seatunnel-connectors-v2/connector-file/connector-file-base/src/main/java/org/apache/seatunnel/connectors/seatunnel/file/config/BaseTextFileConfig.java:66-72 | the file name expression is replaced only by a non-blank value, and the file format only by the format named by a non-blank value upper-cased, else the default is kept |
| BaseTextFileConfig.UnknownFormatFails | seatunnel-connectors-v2/connector-file/connector-file-base/src/main/java/org/apache/seatunnel/connectors/seatunnel/file/config/BaseTextFileConfig.java:70-72 | a non-blank file format naming no format fails with valueOf's error |
| BaseTextFileConfig.FormatsKeepDefaults | seatunnel-connectors-v2/connector-file/connector-file-base/src/main/java/org/apache/seatunnel/connectors/seatunnel/file/config/BaseTextFileConfig.java:74-84 | the step fails exactly when a present date, datetime or time format cannot be read or parsed, with the first such key's exception; each format is the parse of its key when present, parseable and no earlier key failed, and otherwise keeps its value; nothing else changes |
| BaseTextFileConfig.TextFileConfig.constructor | seatunnel-connectors-v2/connector-file/connector-file-base/src/main/java/org/apache/seatunnel/connectors/seatunnel/file/config/BaseTextFileConfig.java:38-46 | a new config has delimiter U+0001, row delimiter newline, format TEXT, the default date, datetime and time formats, and no codec, path or file name expression |
| BaseTextFileConfig.TextFileConfig.Configure | seatunnel-connectors-v2/connector-file/connector-file-base/src/main/java/org/apache/seatunnel/connectors/seatunnel/file/config/BaseTextFileConfig.java:48-85 | the new fields and outcome are those of the configuring specification: layout, then naming, then the formats, each stopping the constructor at its first failure |
| BaseTextFileConfig.TextFileConfig.ConfigureLayout | seatunnel-connectors-v2/connector-file/connector-file-base/src/main/java/org/apache/seatunnel/connectors/seatunnel/file/config/BaseTextFileConfig.java:53-64 | the fields and outcome are those of reading the delimiters and path |
| BaseTextFileConfig.TextFileConfig.ConfigureNaming | seatunnel-connectors-v2/connector-file/connector-file-base/src/main/java/org/apache/seatunnel/connectors/seatunnel/file/config/BaseTextFileConfig.java:66-72 | the fields and outcome are those of reading the file name expression and file format |
| BaseTextFileConfig.ParseFormat | seatunnel-connectors-v2/connector-file/connector-file-base/src/main/java/org/apache/seatunnel/connectors/seatunnel/file/config/BaseTextFileConfig.java:74-84 | an absent format key gives nothing; a present one gives the parse of its string, or the exception of the read or of the parse |
| BaseTextFileConfig.TextFileConfig.ConfigureFormats | seatunnel-connectors-v2/connector-file/connector-file-base/src/main/java/org/apache/seatunnel/connectors/seatunnel/file/config/BaseTextFileConfig.java:74-84 | the fields and outcome are those of parsing the three formats, an illegal format name failing with the parser's exception |
| HiveSink.FormatOf | seatunnel-connectors-v2/connector-hive/src/main/java/org/apache/seatunnel/connectors/seatunnel/hive/sink/HiveSink.java:94-105 | only the text, parquet and orc output format class names map to a file format, and each to its own |
| HiveSink.FormatWrites | seatunnel-connectors-v2/connector-hive/src/main/java/org/apache/seatunnel/connectors/seatunnel/hive/sink/HiveSink.java:94-105 | the format writes exist exactly for the three supported output formats |
| HiveSink.RequiresMetastoreAndTable | seatunnel-connectors-v2/connector-hive/src/main/java/org/apache/seatunnel/connectors/seatunnel/hive/sink/HiveSink.java:78-81 | a missing metastore_uri or table_name fails prepare with PrepareFailException carrying the check's message and leaves the sink unchanged; a successful prepare had both |
| HiveSink.FormatMapping | seatunnel-connectors-v2/connector-hive/src/main/java/org/apache/seatunnel/connectors/seatunnel/hive/sink/HiveSink.java:93-105 | an unsupported output format fails with "Only support [text parquet orc] file now"; otherwise file_format names the table's format, and for text the field and row delimiters are the serde's field.delim and line.delim |
| HiveSink.FormatKeeps | seatunnel-connectors-v2/connector-hive/src/main/java/org/apache/seatunnel/connectors/seatunnel/hive/sink/HiveSink.java:94-105 | the format step changes no key other than file format and the two delimiters |
| HiveSink.LayoutRule | seatunnel-connectors-v2/connector-hive/src/main/java/org/apache/seatunnel/connectors/seatunnel/hive/sink/HiveSink.java:106-111 | partition fields are not written, the file name is ${transactionId}, the path is the table location, the sink columns are the columns followed by the partition keys, and partition_by is the partition keys |
| HiveSink.LayoutKeeps | seatunnel-connectors-v2/connector-hive/src/main/java/org/apache/seatunnel/connectors/seatunnel/hive/sink/HiveSink.java:106-111 | the layout step changes no key other than the five it writes |
| HiveSink.SaveModeRule | seatunnel-connectors-v2/connector-hive/src/main/java/org/apache/seatunnel/connectors/seatunnel/hive/sink/HiveSink.java:112-114 | a missing or blank save_mode becomes APPEND and a set one is kept |
| HiveSink.SaveModeAsConfigured | seatunnel-connectors-v2/connector-hive/src/main/java/org/apache/seatunnel/connectors/seatunnel/hive/sink/HiveSink.java:94-112 | the format and layout steps leave the configured save_mode as it was, so the default is decided on the user's value |
| HiveSink.LocationRule | seatunnel-connectors-v2/connector-hive/src/main/java/org/apache/seatunnel/connectors/seatunnel/hive/sink/HiveSink.java:115-123 | a location that does not parse fails with "Get hdfs cluster address failed, please check." and the URISyntaxException cause; otherwise the path becomes the URI's path and the cluster address is the location with that path removed |
| HiveSink.AddressOfLocation | seatunnel-connectors-v2/connector-hive/src/main/java/org/apache/seatunnel/connectors/seatunnel/hive/sink/HiveSink.java:115-120 | for a location written address followed by its path, the cluster address is the address |
| HiveSink.SinkKeeps | seatunnel-connectors-v2/connector-hive/src/main/java/org/apache/seatunnel/connectors/seatunnel/hive/sink/HiveSink.java:93-124 | the final config keeps every layout entry other than the path and save mode |
| HiveSink.SinkFormat | seatunnel-connectors-v2/connector-hive/src/main/java/org/apache/seatunnel/connectors/seatunnel/hive/sink/HiveSink.java:93-105 | a configured sink carries the file format of the table's output format and, for text, its serde delimiters |
| HiveSink.SinkColumns | seatunnel-connectors-v2/connector-hive/src/main/java/org/apache/seatunnel/connectors/seatunnel/hive/sink/HiveSink.java:86-111 | a configured sink writes the columns then the partition keys, partitions by the partition keys, and uses the transaction-id file name without partition fields |
| HiveSink.SinkPath | seatunnel-connectors-v2/connector-hive/src/main/java/org/apache/seatunnel/connectors/seatunnel/hive/sink/HiveSink.java:115-120 | a configured sink's path is the table location's URI path and its Hadoop address is the location without it |
| HiveSink.SinkSaveMode | seatunnel-connectors-v2/connector-hive/src/main/java/org/apache/seatunnel/connectors/seatunnel/hive/sink/HiveSink.java:112-114 | a configured sink's save mode is APPEND when missing or blank and the user's value otherwise |
| HiveSink.ConfigureSinkSteps | seatunnel-connectors-v2/connector-hive/src/main/java/org/apache/seatunnel/connectors/seatunnel/hive/sink/HiveSink.java:93-123 | the config is rewritten by format, layout, save mode and location, in that order |
| HiveSink.Prepared | seatunnel-connectors-v2/connector-hive/src/main/java/org/apache/seatunnel/connectors/seatunnel/hive/sink/HiveSink.java:77-125 | a successful prepare found the table, stores its database and table name and information, and its plugin config and Hadoop config are those of configuring the sink for that table |
| HiveSink.HiveFileSink.constructor | seatunnel-connectors-v2/connector-hive/src/main/java/org/apache/seatunnel/connectors/seatunnel/hive/sink/HiveSink.java:67-69 | a new sink has no database, table, table information, plugin config or Hadoop config |
| HiveSink.HiveFileSink.Prepare | seatunnel-connectors-v2/connector-hive/src/main/java/org/apache/seatunnel/connectors/seatunnel/hive/sink/HiveSink.java:76-125 | the new fields and outcome are those of the prepare specification |
| HiveSink.HiveFileSink.Configure | seatunnel-connectors-v2/connector-hive/src/main/java/org/apache/seatunnel/connectors/seatunnel/hive/sink/HiveSink.java:93-123 | the reassignments of the plugin config compute the sink configuration |
| HiveSink.HiveFileSink.ApplyFormat | seatunnel-connectors-v2/connector-hive/src/main/java/org/apache/seatunnel/connectors/seatunnel/hive/sink/HiveSink.java:93-105 | computes the format step |
| HiveSink.HiveFileSink.ApplyLayout | seatunnel-connectors-v2/connector-hive/src/main/java/org/apache/seatunnel/connectors/seatunnel/hive/sink/HiveSink.java:106-111 | computes the layout step |
| HiveSink.HiveFileSink.ApplySaveMode | seatunnel-connectors-v2/connector-hive/src/main/java/org/apache/seatunnel/connectors/seatunnel/hive/sink/HiveSink.java:112-114 | computes the save-mode step |
| HiveSink.HiveFileSink.ApplyLocation | seatunnel-connectors-v2/connector-hive/src/main/java/org/apache/seatunnel/connectors/seatunnel/hive/sink/HiveSink.java:115-123 | computes the location step |
| HiveSink.HiveFileSink.CreateAggregatedCommitter | seatunnel-connectors-v2/connector-hive/src/main/java/org/apache/seatunnel/connectors/seatunnel/hive/sink/HiveSink.java:127-130 | the committer is given the plugin config, database name and table name |
| Neo4jSink.DriverErrorsFirst | seatunnel-connectors-v2/connector-neo4j/src/main/java/org/apache/seatunnel/connectors/seatunnel/neo4j/sink/Neo4jSink.java:64-65 | when the driver cannot be prepared, prepare fails with that error and leaves the sink config unchanged |
| Neo4jSink.QueryRequired | seatunnel-connectors-v2/connector-neo4j/src/main/java/org/apache/seatunnel/connectors/seatunnel/neo4j/sink/Neo4jSink.java:65-73 | with a driver prepared, a missing query or queryParamPosition fails with PrepareFailException after the driver builder is stored; prepare succeeds iff both are valid and readable, and then stores the driver, the query and the parameter positions; a parameterless `queryParamPosition = {}` succeeds with empty positions |
| Neo4jSink.DriverNeedsKeys | seatunnel-connectors-v2/connector-neo4j/src/main/java/org/apache/seatunnel/connectors/seatunnel/neo4j/sink/Neo4jSink.java:77-82 | a driver is built only when uri and database are present and at least one of username, bearer token and kerberos ticket is |
| Neo4jSink.DriverCheckMessage | seatunnel-connectors-v2/connector-neo4j/src/main/java/org/apache/seatunnel/connectors/seatunnel/neo4j/sink/Neo4jSink.java:77-79 | the merged check reports the missing uri/database keys and then the missing authentication alternative, in that order |
| Neo4jSink.DriverCheckFails | seatunnel-connectors-v2/connector-neo4j/src/main/java/org/apache/seatunnel/connectors/seatunnel/neo4j/sink/Neo4jSink.java:80-82 | a failed merged check throws PrepareFailException with the merged message |
| Neo4jSink.AuthPrecedence | seatunnel-connectors-v2/connector-neo4j/src/main/java/org/apache/seatunnel/connectors/seatunnel/neo4j/sink/Neo4jSink.java:88-106 | username with password wins over a bearer token, which wins over a kerberos ticket (stored as the bearer token); nothing else in the builder changes |
| Neo4jSink.PasswordCheckNeverFails | seatunnel-connectors-v2/connector-neo4j/src/main/java/org/apache/seatunnel/connectors/seatunnel/neo4j/sink/Neo4jSink.java:88-94 | the password guard tests the merged check, which has passed, so a username without password fails only at the password read, with the missing-key exception |
| Neo4jSink.LimitsWhenPresent | seatunnel-connectors-v2/connector-neo4j/src/main/java/org/apache/seatunnel/connectors/seatunnel/neo4j/sink/Neo4jSink.java:110-115 | the connection timeout and transaction retry time are set only when present, and nothing else changes |
| Neo4jSink.DriverBuilt | seatunnel-connectors-v2/connector-neo4j/src/main/java/org/apache/seatunnel/connectors/seatunnel/neo4j/sink/Neo4jSink.java:76-118 | a built driver has the configured uri (accepted by URI.create) and database; username and password are set iff username is present, and a bearer token iff it is not |
| Neo4jSink.Neo4jSinkObject.constructor | seatunnel-connectors-v2/connector-neo4j/src/main/java/org/apache/seatunnel/connectors/seatunnel/neo4j/sink/Neo4jSink.java:55-56 | a new sink has no row type, driver builder, query or parameter positions |
| Neo4jSink.Neo4jSinkObject.Prepare | seatunnel-connectors-v2/connector-neo4j/src/main/java/org/apache/seatunnel/connectors/seatunnel/neo4j/sink/Neo4jSink.java:63-74 | the sink config and outcome are those of the prepare specification, and the row type is kept |
| Neo4jSink.Neo4jSinkObject.PrepareDriver | seatunnel-connectors-v2/connector-neo4j/src/main/java/org/apache/seatunnel/connectors/seatunnel/neo4j/sink/Neo4jSink.java:76-118 | computes the driver specification |
| Neo4jSink.Neo4jSinkObject.SetTypeInfo | seatunnel-connectors-v2/connector-neo4j/src/main/java/org/apache/seatunnel/connectors/seatunnel/neo4j/sink/Neo4jSink.java:120-123 | the row type is set and nothing else changes |
| Neo4jSink.Neo4jSinkObject.GetConsumedType | seatunnel-connectors-v2/connector-neo4j/src/main/java/org/apache/seatunnel/connectors/seatunnel/neo4j/sink/Neo4jSink.java:125-128 | the consumed type is the stored row type |
| Neo4jSink.Neo4jSinkObject.CreateWriter | seatunnel-connectors-v2/connector-neo4j/src/main/java/org/apache/seatunnel/connectors/seatunnel/neo4j/sink/Neo4jSink.java:130-133 | the writer is given the sink config |
| S3FileSource.Setup | seatunnel-connectors-v2/connector-file/connector-file-s3/src/main/java/org/apache/seatunnel/connectors/seatunnel/file/s3/source/S3FileSource.java:56-64 | after the check, a successful setup has a read strategy, a Hadoop config and the file list, and never touches the row type |
| S3FileSource.RequiresAllKeys | seatunnel-connectors-v2/connector-file/connector-file-s3/src/main/java/org/apache/seatunnel/connectors/seatunnel/file/s3/source/S3FileSource.java:50-55 | a missing path, type, bucket, access key or secret key fails prepare with PrepareFailException carrying the check's message and leaves the source unchanged; a successful prepare had all five |
| S3FileSource.ListingFailure | seatunnel-connectors-v2/connector-file/connector-file-s3/src/main/java/org/apache/seatunnel/connectors/seatunnel/file/s3/source/S3FileSource.java:56-64 | when the file listing throws IOException, prepare fails with "Check file path fail." after the strategy (given the plugin config) and the Hadoop config are stored |
| S3FileSource.FileTypeUpperCased | seatunnel-connectors-v2/connector-file/connector-file-s3/src/main/java/org/apache/seatunnel/connectors/seatunnel/file/s3/source/S3FileSource.java:66 | a file type that upper-cased names no file format fails with valueOf's error and changes nothing |
| S3FileSource.UserSchemaRule | seatunnel-connectors-v2/connector-file/connector-file-s3/src/main/java/org/apache/seatunnel/connectors/seatunnel/file/s3/source/S3FileSource.java:68-86 | with a user schema, orc and parquet fail with UnsupportedOperationException and change nothing; csv, text and json give the strategy the schema's row type and take the row type the strategy then reports |
| S3FileSource.InferredSchemaRule | seatunnel-connectors-v2/connector-file/connector-file-s3/src/main/java/org/apache/seatunnel/connectors/seatunnel/file/s3/source/S3FileSource.java:87-93 | without a schema the row type is read from the first listed file: an empty listing fails with IndexOutOfBoundsException(0), an unreadable schema with "Read file schema error." |
| S3FileSource.Prepared | seatunnel-connectors-v2/connector-file/connector-file-s3/src/main/java/org/apache/seatunnel/connectors/seatunnel/file/s3/source/S3FileSource.java:48-94 | a successful prepare stores the strategy for the file type with the plugin config, the S3 Hadoop config, the listed files of the path, and a row type |
| S3FileSource.S3FileSourceObject.constructor | seatunnel-connectors-v2/connector-file/connector-file-s3/src/main/java/org/apache/seatunnel/connectors/seatunnel/file/s3/source/S3FileSource.java:42 | a new source has no strategy, Hadoop config, file list or row type |
| S3FileSource.S3FileSourceObject.Prepare | seatunnel-connectors-v2/connector-file/connector-file-s3/src/main/java/org/apache/seatunnel/connectors/seatunnel/file/s3/source/S3FileSource.java:48-94 | the new fields and outcome are those of the prepare specification |
| S3FileSource.S3FileSourceObject.ResolveFields | seatunnel-connectors-v2/connector-file/connector-file-s3/src/main/java/org/apache/seatunnel/connectors/seatunnel/file/s3/source/S3FileSource.java:66-93 | the row type, strategy and outcome are those of the row type resolution |
| HttpSource.RequiresUrl | seatunnel-connectors-v2/connector-http/connector-http-base/src/main/java/org/apache/seatunnel/connectors/seatunnel/http/source/HttpSource.java:63-66 | without url prepare fails with PrepareFailException "please specify [url] as non-empty" and changes nothing; a successful prepare had url and built the parameters from the config |
| HttpSource.SchemaFormatRule | seatunnel-connectors-v2/connector-http/connector-http-base/src/main/java/org/apache/seatunnel/connectors/seatunnel/http/source/HttpSource.java:72-87 | with a schema the row type is set first; the format defaults to json, json gives the JSON deserializer with both flags false on that row type, and any other format fails with "Unsupported format: " leaving the deserializer as it was |
| HttpSource.SchemaMeansJson | seatunnel-connectors-v2/connector-http/connector-http-base/src/main/java/org/apache/seatunnel/connectors/seatunnel/http/source/HttpSource.java:71-87 | a successful build with a schema used the json format and left the JSON deserializer on the schema's row type |
| HttpSource.SimpleTextWithoutSchema | seatunnel-connectors-v2/connector-http/connector-http-base/src/main/java/org/apache/seatunnel/connectors/seatunnel/http/source/HttpSource.java:88-91 | without a schema the simple text schema and its deserializer are used whatever the format |
| HttpSource.Prepared | seatunnel-connectors-v2/connector-http/connector-http-base/src/main/java/org/apache/seatunnel/connectors/seatunnel/http/source/HttpSource.java:61-69 | a successful prepare leaves the parameters built from the config and a deserializer on the produced row type |
| HttpSource.HttpSourceObject.constructor | seatunnel-connectors-v2/connector-http/connector-http-base/src/main/java/org/apache/seatunnel/connectors/seatunnel/http/source/HttpSource.java:44-48 | a new source has no parameters, row type, deserializer or job context |
| HttpSource.HttpSourceObject.GetBoundedness | seatunnel-connectors-v2/connector-http/connector-http-base/src/main/java/org/apache/seatunnel/connectors/seatunnel/http/source/HttpSource.java:56-59 | BOUNDED iff the job mode is BATCH, UNBOUNDED otherwise; a missing job context throws NullPointerException |
| HttpSource.HttpSourceObject.SetJobContext | seatunnel-connectors-v2/connector-http/connector-http-base/src/main/java/org/apache/seatunnel/connectors/seatunnel/http/source/HttpSource.java:94-97 | the job context is set and nothing else changes |
| HttpSource.HttpSourceObject.Prepare | seatunnel-connectors-v2/connector-http/connector-http-base/src/main/java/org/apache/seatunnel/connectors/seatunnel/http/source/HttpSource.java:61-69 | the new fields and outcome are those of the prepare specification, and the job context is kept |
| HttpSource.HttpSourceObject.BuildSchemaWithConfig | seatunnel-connectors-v2/connector-http/connector-http-base/src/main/java/org/apache/seatunnel/connectors/seatunnel/http/source/HttpSource.java:71-92 | the new fields and outcome are those of the schema build |
| HttpSource.HttpSourceObject.GetProducedType | seatunnel-connectors-v2/connector-http/connector-http-base/src/main/java/org/apache/seatunnel/connectors/seatunnel/http/source/HttpSource.java:99-102 | the produced type is the stored row type |
| HttpSource.HttpSourceObject.CreateReader | seatunnel-connectors-v2/connector-http/connector-http-base/src/main/java/org/apache/seatunnel/connectors/seatunnel/http/source/HttpSource.java:104-107 | the reader is given the parameters and the deserializer |
| JdbcSink.PrepareRule | seatunnel-connectors-v2/connector-jdbc/src/main/java/org/apache/seatunnel/connectors/seatunnel/jdbc/sink/JdbcSink.java:66-72 | a sink config that cannot be read fails prepare and changes nothing; otherwise the sink config and plugin config are stored, prepare succeeds iff a dialect loads for the config's url, and that dialect is stored; the row type and job context are kept |
| JdbcSink.UnpreparedFails | seatunnel-connectors-v2/connector-jdbc/src/main/java/org/apache/seatunnel/connectors/seatunnel/jdbc/sink/JdbcSink.java:74-142 | before prepare, creating or restoring a writer, the committer or a serializer throws NullPointerException |
| JdbcSink.CreatedWriterGating | seatunnel-connectors-v2/connector-jdbc/src/main/java/org/apache/seatunnel/connectors/seatunnel/jdbc/sink/JdbcSink.java:74-92 | after prepare a writer is created; it is the exactly-once writer, with no states and the job context, iff exactly-once is configured; both kinds get the context, dialect, sink config and row type |
| JdbcSink.RestoredWriterGating | seatunnel-connectors-v2/connector-jdbc/src/main/java/org/apache/seatunnel/connectors/seatunnel/jdbc/sink/JdbcSink.java:94-102 | restoring with exactly-once gives the exactly-once writer carrying the given states; otherwise it is the ordinary writer createWriter would make |
| JdbcSink.RestoreNothingIsCreate | seatunnel-connectors-v2/connector-jdbc/src/main/java/org/apache/seatunnel/connectors/seatunnel/jdbc/sink/JdbcSink.java:74-102 | restoring from no states gives the writer creation gives |
| JdbcSink.CommitPartsGating | seatunnel-connectors-v2/connector-jdbc/src/main/java/org/apache/seatunnel/connectors/seatunnel/jdbc/sink/JdbcSink.java:104-142 | after prepare the aggregated committer (on the sink config) and the serializers are present iff exactly-once is configured, which is exactly when the writer is the exactly-once one |
| JdbcSink.JdbcSinkObject.constructor | seatunnel-connectors-v2/connector-jdbc/src/main/java/org/apache/seatunnel/connectors/seatunnel/jdbc/sink/JdbcSink.java:51-59 | a new sink has no plugin config, row type, job context, sink config or dialect |
| JdbcSink.JdbcSinkObject.Prepare | seatunnel-connectors-v2/connector-jdbc/src/main/java/org/apache/seatunnel/connectors/seatunnel/jdbc/sink/JdbcSink.java:66-72 | the new fields and outcome are those of the prepare specification |
| JdbcSink.JdbcSinkObject.SetTypeInfo | seatunnel-connectors-v2/connector-jdbc/src/main/java/org/apache/seatunnel/connectors/seatunnel/jdbc/sink/JdbcSink.java:113-116 | the row type is set and nothing else changes |
| JdbcSink.JdbcSinkObject.SetJobContext | seatunnel-connectors-v2/connector-jdbc/src/main/java/org/apache/seatunnel/connectors/seatunnel/jdbc/sink/JdbcSink.java:131-134 | the job context is set and nothing else changes |
| JdbcSink.JdbcSinkObject.GetConsumedType | seatunnel-connectors-v2/connector-jdbc/src/main/java/org/apache/seatunnel/connectors/seatunnel/jdbc/sink/JdbcSink.java:118-121 | the consumed type is the stored row type |
| JdbcSink.JdbcSinkObject.CreateWriter | seatunnel-connectors-v2/connector-jdbc/src/main/java/org/apache/seatunnel/connectors/seatunnel/jdbc/sink/JdbcSink.java:74-92 | the writer is the specified one; it exists iff the sink was prepared and is exactly-once iff so configured |
| JdbcSink.JdbcSinkObject.RestoreWriter | seatunnel-connectors-v2/connector-jdbc/src/main/java/org/apache/seatunnel/connectors/seatunnel/jdbc/sink/JdbcSink.java:94-102 | the writer is the specified restored one, and an exactly-once writer carries the given states |
| JdbcSink.JdbcSinkObject.CreateAggregatedCommitter | seatunnel-connectors-v2/connector-jdbc/src/main/java/org/apache/seatunnel/connectors/seatunnel/jdbc/sink/JdbcSink.java:104-111 | the committer is the specified one, present iff exactly-once |
| JdbcSink.JdbcSinkObject.GetAggregatedCommitInfoSerializer | seatunnel-connectors-v2/connector-jdbc/src/main/java/org/apache/seatunnel/connectors/seatunnel/jdbc/sink/JdbcSink.java:123-129 | the serializer is present iff exactly-once |
| JdbcSink.JdbcSinkObject.GetCommitInfoSerializer | seatunnel-connectors-v2/connector-jdbc/src/main/java/org/apache/seatunnel/connectors/seatunnel/jdbc/sink/JdbcSink.java:136-142 | the serializer is present iff exactly-once |

## Left out

- Concurrency: the StarRocks scheduler thread, `synchronized` and `volatile` are not modelled. The periodic flush is the explicit `Tick` method, and every call runs sequentially.
- Real waiting: `Thread.sleep` is not performed. The computed backoff is recorded, and an interrupted wait is one of the outcomes the oracle can give.
- Foreign clients are oracles or call logs: the StarRocks stream-load visitor, `EsRestClient`, the Kafka transaction senders, the Hadoop output streams, Jedis and JedisCluster, the Neo4j driver, the Hive metastore, the S3 read strategy, and the JDBC dialect loader.
- Serializers and deserializers are functions the model is given, never defined: the JSON, text and CSV row serializers, Jackson's row deserializers, and typesafe `Config` rendering (`ReadonlyConfig.fromConfig`, `convertValue`, `flatteningMap`, `convertToJsonString`).
- Nondeterminism is a parameter: `UUID.randomUUID` labels are draw numbers, and the random Kafka transaction suffix and `System.currentTimeMillis` are inputs.
- Key spellings of constant classes outside this model (`Config` of the Kafka connectors, `Constant`, `HiveConfig`, `S3Config`, `Neo4jSinkConfig`, `ServerConfigOptions`) follow the connectors' documented option names; the proofs use only that they are distinct.
- `CheckConfigUtil` is not part of this model: its message wording ("please specify [k] as non-empty", the at-least-one text) follows SeaTunnel's `CheckConfigUtil`.
- JavaText.ToUpper: upper-cases ASCII letters only, whereas Java's `toUpperCase` also maps non-ASCII letters; every name it is compared with is ASCII.
- `SeaTunnelRowType` is opaque: a row type built from a schema config, the simple text schema, or one a strategy reports.
- `SeaTunnelSchema.buildWithConfig` is modelled as the total function `FromSchema`; its own failures on a malformed schema are not modelled.
- `PrepareFailException` does not record its cause: the S3 "Read file schema error." failure keeps only its message.
- The S3 plugin name (`FileSystemType.S3.getFileSystemPluginName()`) is taken to be "S3File"; `FileSystemType` is not part of this model.
- `HttpParameter.buildWithConfig` is not part of this model: it is given as whether it throws, and the source remembers the config it was built from.
- `JdbcSinkConfig` is reduced to its URL and exactly-once flag; `JdbcSinkConfig.of`, `ReadonlyConfig.fromConfig` and `JdbcDialectLoader.load` are parameters.
- The default `SeaTunnelSink.restoreWriter` is taken to be `createWriter`; the interface is not part of this model.
- `getPluginName` methods are constants of each module.
- The Kafka source's `createReader`, `createEnumerator` and `restoreEnumerator` only hand the metadata to classes that are not part of this model, so they are left out.
- `BaseFileSource` and `BaseHdfsFileSink`, which the S3 source and Hive sink extend, are not part of this model beyond the fields `prepare` sets.
- `Formatter.parse` of the date, datetime and time formatters is given as functions from a name to a formatter or an exception; which names are legal, and the wording of the "Illegal format" exception, belong to `DateUtils`, `DateTimeUtils` and `TimeUtils`, which are not part of this model.
- I/O exceptions from reading the JVM options file are not modelled; the file's lines are the input, and the resolved path is a parameter.
- `ReadonlyConfig.equals` against an object that is not a `ReadonlyConfig` is not modelled, and neither are `fromMap` and `fromConfig`.
- The YAML processor's option keys, section names and config defaults are parameters, with the keys compared at one level distinct, because `ServerConfigOptions`, `SeaTunnelConfigSections` and the config classes are not part of this model.
- The text writer's `rowDelimiter.getBytes()` uses the platform's default charset, which is a parameter (`encode`) of `TextWriteStrategy.TextWriter.constructor` rather than a fixed encoding.
- StarRocksManager.BackoffMonotone: the wait `getRetryBackoffMultiplierMs() * i` is computed over unbounded integers. In Java it is an `int` product, which wraps past 2^31-1, and `Thread.sleep` then throws on the negative wait. The wait is non-decreasing and capped only while `multiplier * maxRetries` fits in an `int`.
- StarRocksManager.SinkManager.Write: `batchRowCount` (a Java `int`) and `batchBytesSize` (a `long`) are unbounded counters. Their wrap-around, which needs over 2^31-1 rows or 2^63-1 bytes in one batch, is not modelled.
- KafkaSinkWriter.TransactionIdInjective: `lastCheckpointId + 1` and `checkpointId + 1` are Java `long` additions, taken here over unbounded integers. At `Long.MAX_VALUE` the Java sum wraps to `Long.MIN_VALUE`.
- KafkaSinkWriter.SnapshotsBeginDistinct: relies on the same unbounded `checkpointId + 1`, so the distinct transaction ids it proves assume no checkpoint id reaches `Long.MAX_VALUE`.
- TypesafeConfig.GetIntegral: a string that `Long.parseLong` rejects is read by typesafe through `Double.parseDouble` and truncated (" 12" gives 12, "1.5" gives 1); the model reports the wrong type there, because floating point is not modelled. This applies to `start_mode.timestamp`, the Neo4j limits and the Kafka sink `partition`.
- KafkaSource.AsLong: `(long) Double.parseDouble` is the parameter `parseDouble`, so the value of a fractional or exponent text is given, not computed. A number node is an integer; a typesafe number too large for a long, which Jackson would read as a big integer and wrap, is not modelled.
- JavaText.ParseIntegral: accepts ASCII digits only, whereas `Integer.parseInt`, `Integer.valueOf` and `Long.parseLong` accept any Unicode decimal digit through `Character.digit`; a partition such as "t-\u0661\u0662" in `OffsetKey`, or such a port in a Redis node, parses in Java but not here.
- Floating-point values appear only in end-to-end tests, which are not modelled.
