/** StarRocksSinkManager: the batch buffer of the StarRocks sink, the stream-load retry loop
    that empties it, and the periodic flush whose failure is latched for the next caller.
    The stream-load visitor is an oracle: a list of the replies it will give, consumed one per
    load, every load it receives being logged. */
module StarRocksManager {
  import opened Wrappers
  import opened JavaText
  import opened JavaErrors

  type Bytes = seq<bv8>

  /** The parts of the sink's SinkConfig that the manager reads. */
  datatype SinkConfig = SinkConfig(
    batchMaxSize: int,
    batchMaxBytes: int,
    maxRetries: int,
    retryBackoffMultiplierMs: int,
    maxRetryBackoffMs: int,
    labelPrefix: Option<string>,
    batchIntervalMs: Option<int>)

  /** A batch label: the configured prefix followed by a random UUID. The UUID is modelled by
      the number of the draw that produced it, so two draws never give the same label. */
  datatype Label = Label(prefix: string, uuid: nat)

  datatype FlushTuple = FlushTuple(batchLabel: Label, bytes: int, rows: seq<Bytes>)

  /** A label change made after a failed load that asked for a new label. */
  datatype Relabel = Relabel(from: Label, to: Label)

  /** What one doStreamLoad call does: return normally, or throw `cause`. A failure says whether
      it is a StarRocksStreamLoadFailedException asking for a new label, and whether the
      backoff sleep that follows it is interrupted. */
  datatype LoadReply = Loaded | LoadFailed(cause: Exception, needReCreateLabel: bool, interrupted: bool)

  /** The periodic flush task: never scheduled, running, cancelled by close, or ended because
      one of its runs threw an unchecked exception (later runs are then suppressed). */
  datatype TimerState = NotScheduled | Scheduled | Cancelled | Stopped

  /** The manager's fields, together with the oracle and the logs of the calls it made. */
  datatype ManagerState = ManagerState(
    batch: seq<Bytes>,
    rowCount: int,
    bytesSize: int,
    flushException: Option<Exception>,
    initialized: bool,
    timer: TimerState,
    replies: seq<LoadReply>,
    draws: nat,
    loads: seq<FlushTuple>,
    relabels: seq<Relabel>,
    waits: seq<int>)

  const WriteFailedMessage: string := "Writing records to StarRocks failed."
  const InterruptedMessage: string := "Unable to flush; interrupted while doing another attempt."

  function InitialState(replies: seq<LoadReply>): ManagerState {
    ManagerState([], 0, 0, None, false, NotScheduled, replies, 0, [], [], [])
  }

  /** The prefix createBatchLabel puts before the UUID: nothing for a null or empty prefix. */
  function LabelPrefix(c: SinkConfig): string {
    match c.labelPrefix
    case Some(p) => p
    case None => ""
  }

  function TotalBytes(rows: seq<Bytes>): nat {
    if rows == [] then 0 else TotalBytes(rows[..|rows| - 1]) + |rows[|rows| - 1]|
  }

  predicate CountersMatch(batch: seq<Bytes>, rowCount: int, bytesSize: int) {
    rowCount == |batch| && bytesSize == TotalBytes(batch)
  }

  /** Every label comes from an earlier draw, no two loads share a label, and no load carries
      a label produced by a relabel. */
  predicate LabelsFresh(loads: seq<FlushTuple>, relabels: seq<Relabel>, draws: nat) {
    && (forall i | 0 <= i < |loads| :: loads[i].batchLabel.uuid < draws)
    && (forall j | 0 <= j < |relabels| :: relabels[j].to.uuid < draws)
    && (forall i, j | 0 <= i < |loads| && 0 <= j < |relabels| ::
          loads[i].batchLabel.uuid != relabels[j].to.uuid)
    && (forall i, j | 0 <= i < j < |loads| :: loads[i].batchLabel.uuid != loads[j].batchLabel.uuid)
  }

  /** The invariant the manager keeps. */
  predicate ValidState(s: ManagerState) {
    CountersMatch(s.batch, s.rowCount, s.bytesSize) && LabelsFresh(s.loads, s.relabels, s.draws)
  }

  /** Math.min(retryBackoffMultiplierMs * i, maxRetryBackoffMs). */
  function Backoff(c: SinkConfig, i: int): int {
    var linear := c.retryBackoffMultiplierMs * i;
    if linear <= c.maxRetryBackoffMs then linear else c.maxRetryBackoffMs
  }

  function NextReply(replies: seq<LoadReply>): LoadReply {
    if replies == [] then Loaded else replies[0]
  }

  function RestReplies(replies: seq<LoadReply>): seq<LoadReply> {
    if replies == [] then [] else replies[1..]
  }

  function Cleared(s: ManagerState): ManagerState {
    s.(batch := [], rowCount := 0, bytesSize := 0)
  }

  /** The tuple of the next load: a freshly drawn label, the byte count and a copy of the buffer. */
  function NextTuple(c: SinkConfig, s: ManagerState): FlushTuple {
    FlushTuple(Label(LabelPrefix(c), s.draws), s.bytesSize, s.batch)
  }

  /** One stream load: a label drawn, the tuple handed to the visitor, its reply consumed. */
  function LoadStep(c: SinkConfig, s: ManagerState): ManagerState {
    s.(draws := s.draws + 1, replies := RestReplies(s.replies), loads := s.loads + [NextTuple(c, s)])
  }

  /** A relabel: one more label drawn to replace `from`. */
  function RelabelStep(c: SinkConfig, s: ManagerState, from: Label): ManagerState {
    s.(draws := s.draws + 1, relabels := s.relabels + [Relabel(from, Label(LabelPrefix(c), s.draws))])
  }

  function WaitStep(s: ManagerState, ms: int): ManagerState {
    s.(waits := s.waits + [ms])
  }

  /** Iteration `i` of the retry loop of flush and every iteration after it. */
  function Attempts(c: SinkConfig, i: nat, s: ManagerState): (ManagerState, Outcome<Exception>)
    decreases c.maxRetries + 1 - i
  {
    if i > c.maxRetries then (Cleared(s), Pass)
    else
      var loaded := LoadStep(c, s);
      match NextReply(s.replies)
      case Loaded => Attempts(c, i + 1, loaded)
      case LoadFailed(cause, relabel, interrupted) =>
        if i >= c.maxRetries then (loaded, Fail(IOException(WriteFailedMessage, Some(cause))))
        else
          var relabelled := if relabel then RelabelStep(c, loaded, NextTuple(c, s).batchLabel) else loaded;
          var backoff := Backoff(c, i);
          if backoff < 0 then (relabelled, Fail(IllegalArgumentException("timeout value is negative")))
          else if interrupted then (WaitStep(relabelled, backoff), Fail(IOException(InterruptedMessage, Some(cause))))
          else Attempts(c, i + 1, WaitStep(relabelled, backoff))
  }

  /** The state the failed iteration `i` hands to iteration i+1, when it does. */
  function Retried(c: SinkConfig, i: nat, s: ManagerState): ManagerState {
    var loaded := LoadStep(c, s);
    var relabelled :=
      if NextReply(s.replies).LoadFailed? && NextReply(s.replies).needReCreateLabel
      then RelabelStep(c, loaded, NextTuple(c, s).batchLabel) else loaded;
    WaitStep(relabelled, Backoff(c, i))
  }

  /** Whether iteration `i` goes on to iteration i+1. */
  predicate Continues(c: SinkConfig, i: nat, s: ManagerState) {
    i <= c.maxRetries &&
    match NextReply(s.replies)
    case Loaded => true
    case LoadFailed(_, _, interrupted) => i < c.maxRetries && Backoff(c, i) >= 0 && !interrupted
  }

  /** The state iteration i+1 starts from. */
  function Next(c: SinkConfig, i: nat, s: ManagerState): ManagerState {
    if NextReply(s.replies).Loaded? then LoadStep(c, s) else Retried(c, i, s)
  }

  /** How iteration `i` ends the loop when it does not go on to the next one. */
  function Final(c: SinkConfig, i: nat, s: ManagerState): (ManagerState, Outcome<Exception>)
    requires !Continues(c, i, s)
  {
    if i > c.maxRetries then (Cleared(s), Pass)
    else
      var loaded := LoadStep(c, s);
      var reply := NextReply(s.replies);
      assert reply.LoadFailed?;
      if i >= c.maxRetries then (loaded, Fail(IOException(WriteFailedMessage, Some(reply.cause))))
      else
        var relabelled := if reply.needReCreateLabel then RelabelStep(c, loaded, NextTuple(c, s).batchLabel) else loaded;
        if Backoff(c, i) < 0 then (relabelled, Fail(IllegalArgumentException("timeout value is negative")))
        else (WaitStep(relabelled, Backoff(c, i)), Fail(IOException(InterruptedMessage, Some(reply.cause))))
  }

  /** One iteration of the loop: it either hands on to the next or ends the loop. */
  lemma AttemptsStep(c: SinkConfig, i: nat, s: ManagerState)
    ensures Continues(c, i, s) ==> Attempts(c, i, s) == Attempts(c, i + 1, Next(c, i, s))
    ensures !Continues(c, i, s) ==> Attempts(c, i, s) == Final(c, i, s)
  {
  }

  /** checkFlushException: a latched exception is rethrown wrapped in a RuntimeException. */
  function CheckFlushExceptionSpec(s: ManagerState): (o: Outcome<Exception>)
    ensures o.Fail? <==> s.flushException.Some?
    ensures o.Fail? ==> o.error.RuntimeException? && o.error.cause == s.flushException
  {
    match s.flushException
    case Some(e) => Fail(RuntimeException(WriteFailedMessage, Some(e)))
    case None => Pass
  }

  function FlushSpec(c: SinkConfig, s: ManagerState): (ManagerState, Outcome<Exception>) {
    if s.flushException.Some? then (s, CheckFlushExceptionSpec(s))
    else if s.batch == [] then (s, Pass)
    else Attempts(c, 0, s)
  }

  /** tryInit: the first call schedules the periodic flush when an interval is configured;
      scheduleAtFixedRate refuses a period that is not positive. */
  function InitSpec(c: SinkConfig, s: ManagerState): (ManagerState, Outcome<Exception>) {
    if s.initialized then (s, Pass)
    else
      match c.batchIntervalMs
      case None => (s.(initialized := true), Pass)
      case Some(ms) =>
        if ms <= 0 then (s.(initialized := true), Fail(IllegalArgumentException("")))
        else (s.(initialized := true, timer := Scheduled), Pass)
  }

  /** The buffer after one record: its UTF-8 bytes appended, one more row, that many more bytes. */
  function Appended(s: ManagerState, record: string): ManagerState {
    var bts := Utf8(record);
    s.(batch := s.batch + [bts], rowCount := s.rowCount + 1, bytesSize := s.bytesSize + |bts|)
  }

  predicate ThresholdReached(c: SinkConfig, s: ManagerState) {
    s.rowCount >= c.batchMaxSize || s.bytesSize >= c.batchMaxBytes
  }

  function WriteSpec(c: SinkConfig, s: ManagerState, record: string): (ManagerState, Outcome<Exception>) {
    var (s0, init) := InitSpec(c, s);
    if init.Fail? then (s0, init)
    else if s0.flushException.Some? then (s0, CheckFlushExceptionSpec(s0))
    else
      var s1 := Appended(s0, record);
      if ThresholdReached(c, s1) then FlushSpec(c, s1) else (s1, Pass)
  }

  function CancelTimer(s: ManagerState): ManagerState {
    s.(timer := if s.timer == NotScheduled then NotScheduled else Cancelled)
  }

  /** close: cancel the periodic task if one was scheduled, then flush once. */
  function CloseSpec(c: SinkConfig, s: ManagerState): (ManagerState, Outcome<Exception>) {
    FlushSpec(c, CancelTimer(s))
  }

  /** One run of the periodic task: an IOException from flush is latched, any other exception
      ends the task. */
  function TickSpec(c: SinkConfig, s: ManagerState): ManagerState {
    if s.timer != Scheduled then s
    else
      var (s1, o) := FlushSpec(c, s);
      match o
      case Pass => s1
      case Fail(e) => if e.IOException? then s1.(flushException := Some(e)) else s1.(timer := Stopped)
  }

  // ----- properties of the specification -----

  predicate WriteFailure(o: Outcome<Exception>) {
    o.Fail? && o.error.IOException? && o.error.message == WriteFailedMessage
  }

  /** The buffer is emptied only when the loop runs to its end, and kept whole when the flush
      throws; the latch, the initialisation flag and the timer are not touched. */
  lemma {:induction false} AttemptsKeepBatch(c: SinkConfig, i: nat, s: ManagerState)
    ensures var (r, o) := Attempts(c, i, s);
      && (o.Pass? ==> r.batch == [] && r.rowCount == 0 && r.bytesSize == 0)
      && (o.Fail? ==> r.batch == s.batch && r.rowCount == s.rowCount && r.bytesSize == s.bytesSize)
      && r.flushException == s.flushException && r.initialized == s.initialized && r.timer == s.timer
    decreases c.maxRetries + 1 - i
  {
    AttemptsStep(c, i, s);
    if Continues(c, i, s) {
      AttemptsKeepBatch(c, i + 1, Next(c, i, s));
    }
  }

  /** Every load of one flush carries the buffer and byte count as they were before it. */
  lemma {:induction false} AttemptsLoadBatch(c: SinkConfig, i: nat, s: ManagerState)
    ensures var r := Attempts(c, i, s).0;
      && |s.loads| <= |r.loads| && r.loads[..|s.loads|] == s.loads
      && (forall k | |s.loads| <= k < |r.loads| :: r.loads[k].rows == s.batch && r.loads[k].bytes == s.bytesSize)
    decreases c.maxRetries + 1 - i
  {
    AttemptsStep(c, i, s);
    if Continues(c, i, s) {
      var t := Next(c, i, s);
      assert t.batch == s.batch && t.bytesSize == s.bytesSize && t.loads == s.loads + [NextTuple(c, s)];
      AttemptsLoadBatch(c, i + 1, t);
      var r := Attempts(c, i + 1, t).0;
      assert r.loads[..|s.loads|] == r.loads[..|t.loads|][..|s.loads|];
    }
  }

  /** Both of the above. */
  lemma AttemptsBuffer(c: SinkConfig, i: nat, s: ManagerState)
    ensures var (r, o) := Attempts(c, i, s);
      && (o.Pass? ==> r.batch == [] && r.rowCount == 0 && r.bytesSize == 0)
      && (o.Fail? ==> r.batch == s.batch && r.rowCount == s.rowCount && r.bytesSize == s.bytesSize)
      && r.flushException == s.flushException && r.initialized == s.initialized && r.timer == s.timer
      && |s.loads| <= |r.loads| && r.loads[..|s.loads|] == s.loads
      && (forall k | |s.loads| <= k < |r.loads| :: r.loads[k].rows == s.batch && r.loads[k].bytes == s.bytesSize)
  {
    AttemptsKeepBatch(c, i, s);
    AttemptsLoadBatch(c, i, s);
  }

  /** The loop makes one load per remaining index at most, and at least one when any index
      remains. It makes them all when it runs to its end or when the last one fails, and fewer
      when a backoff ends it early. */
  lemma {:induction false} AttemptsCount(c: SinkConfig, i: nat, s: ManagerState)
    requires i <= c.maxRetries + 1
    ensures var (r, o) := Attempts(c, i, s);
      && |s.loads| <= |r.loads| <= |s.loads| + (c.maxRetries + 1 - i)
      && (i <= c.maxRetries ==> |s.loads| < |r.loads|)
      && (o.Pass? || WriteFailure(o) <==> |r.loads| == |s.loads| + (c.maxRetries + 1 - i))
    decreases c.maxRetries + 1 - i
  {
    AttemptsStep(c, i, s);
    if Continues(c, i, s) {
      AttemptsCount(c, i + 1, Next(c, i, s));
    }
  }

  /** With a stream-load visitor that never fails, the loop loads every index, each under the
      next label drawn, makes no relabel and no wait, and empties the buffer. */
  lemma {:induction false} AttemptsAllLoaded(c: SinkConfig, i: nat, s: ManagerState)
    requires i <= c.maxRetries + 1
    requires forall k | 0 <= k < |s.replies| :: s.replies[k].Loaded?
    ensures var (r, o) := Attempts(c, i, s);
      && o.Pass? && r.batch == [] && r.rowCount == 0 && r.bytesSize == 0
      && |r.loads| == |s.loads| + (c.maxRetries + 1 - i)
      && r.loads[..|s.loads|] == s.loads
      && (forall k | |s.loads| <= k < |r.loads| ::
            r.loads[k] == FlushTuple(Label(LabelPrefix(c), s.draws + (k - |s.loads|)), s.bytesSize, s.batch))
      && r.relabels == s.relabels && r.waits == s.waits
    decreases c.maxRetries + 1 - i
  {
    if i <= c.maxRetries {
      var loaded := LoadStep(c, s);
      assert forall k | 0 <= k < |loaded.replies| :: loaded.replies[k] == s.replies[k + 1];
      AttemptsAllLoaded(c, i + 1, loaded);
    }
  }

  /** `ws` extends `prefix` by waits that lie in [lo, hi] and never decrease. */
  predicate WaitsAfter(prefix: seq<int>, ws: seq<int>, lo: int, hi: int) {
    && |prefix| <= |ws| && ws[..|prefix|] == prefix
    && (forall k | |prefix| <= k < |ws| :: lo <= ws[k] <= hi)
    && (forall k, l | |prefix| <= k <= l < |ws| :: ws[k] <= ws[l])
  }

  /** Waits that follow at most one wait `b` no larger than any of them extend what came
      before `b` as they extended what came after it. */
  lemma WaitsPrepend(prefix: seq<int>, mid: seq<int>, ws: seq<int>, b: int, lo: int, lo': int, hi: int)
    requires mid == prefix || mid == prefix + [b]
    requires lo <= b <= lo' && b <= hi
    requires WaitsAfter(mid, ws, lo', hi)
    ensures WaitsAfter(prefix, ws, lo, hi)
  {
    assert ws[..|prefix|] == mid[..|prefix|];
  }

  /** One iteration waits at most once, for the backoff of its index. */
  lemma StepWaits(c: SinkConfig, i: nat, s: ManagerState)
    ensures Continues(c, i, s) ==> Next(c, i, s).waits == s.waits || Next(c, i, s).waits == s.waits + [Backoff(c, i)]
    ensures !Continues(c, i, s) ==> Final(c, i, s).0.waits == s.waits || Final(c, i, s).0.waits == s.waits + [Backoff(c, i)]
  {
  }

  /** The waits of one flush, taken after failed attempts i, i+1, ..., are non-decreasing and
      lie between the backoff of the first index and the cap; no sleep is refused. */
  lemma {:induction false} AttemptsWaits(c: SinkConfig, i: nat, s: ManagerState)
    requires c.retryBackoffMultiplierMs >= 0 && c.maxRetryBackoffMs >= 0
    ensures var (r, o) := Attempts(c, i, s);
      && WaitsAfter(s.waits, r.waits, Backoff(c, i), c.maxRetryBackoffMs)
      && !(o.Fail? && o.error.IllegalArgumentException?)
    decreases c.maxRetries + 1 - i
  {
    BackoffMonotone(c, i, i + 1);
    AttemptsStep(c, i, s);
    StepWaits(c, i, s);
    if Continues(c, i, s) {
      var t := Next(c, i, s);
      AttemptsWaits(c, i + 1, t);
      var r := Attempts(c, i + 1, t).0;
      WaitsPrepend(s.waits, t.waits, r.waits, Backoff(c, i), Backoff(c, i), Backoff(c, i + 1), c.maxRetryBackoffMs);
    } else {
      var r := Final(c, i, s).0;
      WaitsPrepend(s.waits, r.waits, r.waits, Backoff(c, i), Backoff(c, i), Backoff(c, i), c.maxRetryBackoffMs);
    }
  }

  /** The backoff is 0 after the first attempt, grows with the attempt index and never exceeds
      the cap. */
  lemma BackoffMonotone(c: SinkConfig, i: nat, j: nat)
    requires c.retryBackoffMultiplierMs >= 0 && c.maxRetryBackoffMs >= 0
    requires i <= j
    ensures Backoff(c, 0) == 0
    ensures 0 <= Backoff(c, i) <= Backoff(c, j) <= c.maxRetryBackoffMs
  {
    assert c.retryBackoffMultiplierMs * i <= c.retryBackoffMultiplierMs * j by {
      MulMonotone(c.retryBackoffMultiplierMs, i, j);
    }
  }

  lemma MulMonotone(m: nat, i: nat, j: nat)
    requires i <= j
    ensures 0 <= m * i <= m * j
  {
    assert m * j == m * i + m * (j - i);
  }

  lemma LoadStepFresh(c: SinkConfig, s: ManagerState)
    requires LabelsFresh(s.loads, s.relabels, s.draws)
    ensures var t := LoadStep(c, s); LabelsFresh(t.loads, t.relabels, t.draws)
  {
  }

  lemma RelabelStepFresh(c: SinkConfig, s: ManagerState, from: Label)
    requires LabelsFresh(s.loads, s.relabels, s.draws)
    ensures var t := RelabelStep(c, s, from); LabelsFresh(t.loads, t.relabels, t.draws)
  {
  }

  /** The loop keeps the labels fresh and never draws fewer labels than before. */
  lemma {:induction false} AttemptsFresh(c: SinkConfig, i: nat, s: ManagerState)
    requires LabelsFresh(s.loads, s.relabels, s.draws)
    ensures var r := Attempts(c, i, s).0; LabelsFresh(r.loads, r.relabels, r.draws)
    decreases c.maxRetries + 1 - i
  {
    if i <= c.maxRetries {
      var loaded := LoadStep(c, s);
      LoadStepFresh(c, s);
      RelabelStepFresh(c, loaded, NextTuple(c, s).batchLabel);
      AttemptsStep(c, i, s);
      if Continues(c, i, s) {
        AttemptsFresh(c, i + 1, Next(c, i, s));
      }
    }
  }

  /** The loop keeps the manager's invariant. */
  lemma AttemptsValid(c: SinkConfig, i: nat, s: ManagerState)
    requires ValidState(s)
    ensures ValidState(Attempts(c, i, s).0)
  {
    AttemptsFresh(c, i, s);
    AttemptsBuffer(c, i, s);
  }

  /** A flush with no failure performs exactly maxRetries+1 loads, under fresh labels, of the
      same buffer, and only then empties the buffer. */
  lemma FlushWithoutFailures(c: SinkConfig, s: ManagerState)
    requires c.maxRetries >= 0 && s.flushException.None? && s.batch != []
    requires forall k | 0 <= k < |s.replies| :: s.replies[k].Loaded?
    ensures var (r, o) := FlushSpec(c, s);
      && o.Pass? && r.batch == [] && r.rowCount == 0 && r.bytesSize == 0
      && |r.loads| == |s.loads| + c.maxRetries + 1
      && (forall k | |s.loads| <= k < |r.loads| ::
            r.loads[k] == FlushTuple(Label(LabelPrefix(c), s.draws + (k - |s.loads|)), s.bytesSize, s.batch))
  {
    AttemptsAllLoaded(c, 0, s);
  }

  /** A flush makes at most maxRetries+1 loads; it throws the write failure only after making
      them all, and it keeps the buffer whenever it throws. */
  lemma FlushAttempts(c: SinkConfig, s: ManagerState)
    requires c.maxRetries >= 0
    ensures var (r, o) := FlushSpec(c, s);
      && |s.loads| <= |r.loads| <= |s.loads| + c.maxRetries + 1
      && (WriteFailure(o) ==> |r.loads| == |s.loads| + c.maxRetries + 1)
      && (o.Fail? ==> r.batch == s.batch && r.rowCount == s.rowCount && r.bytesSize == s.bytesSize)
  {
    if s.flushException.None? && s.batch != [] {
      AttemptsCount(c, 0, s);
      AttemptsBuffer(c, 0, s);
    }
  }

  /** A flush that returns normally leaves the buffer empty. */
  lemma FlushPassEmpties(c: SinkConfig, s: ManagerState)
    requires FlushSpec(c, s).1.Pass?
    ensures FlushSpec(c, s).0.batch == [] && FlushSpec(c, s).0.rowCount == (if s.batch == [] then s.rowCount else 0)
  {
    if s.flushException.None? && s.batch != [] {
      AttemptsBuffer(c, 0, s);
    }
  }

  /** An empty buffer: flush makes no load and changes nothing. */
  lemma FlushEmpty(c: SinkConfig, s: ManagerState)
    requires s.flushException.None? && s.batch == []
    ensures FlushSpec(c, s).0 == s && FlushSpec(c, s).1 == Pass
  {
  }

  /** A latched exception makes flush and write throw before the buffer is touched. */
  lemma LatchedException(c: SinkConfig, s: ManagerState, record: string)
    requires s.flushException.Some? && s.initialized
    ensures FlushSpec(c, s).0 == s && FlushSpec(c, s).1 == Fail(RuntimeException(WriteFailedMessage, s.flushException))
    ensures WriteSpec(c, s, record).0 == s && WriteSpec(c, s, record).1 == Fail(RuntimeException(WriteFailedMessage, s.flushException))
  {
  }

  /** A write below both thresholds appends the record's UTF-8 bytes and makes no load. */
  lemma WriteBelowThreshold(c: SinkConfig, s: ManagerState, record: string)
    requires s.initialized && s.flushException.None?
    requires !ThresholdReached(c, Appended(s, record))
    ensures var (r, o) := WriteSpec(c, s, record);
      && o.Pass?
      && r.batch == s.batch + [Utf8(record)]
      && r.rowCount == s.rowCount + 1
      && r.bytesSize == s.bytesSize + |Utf8(record)|
      && r.loads == s.loads
  {
  }

  /** Write reaches the database iff the appended buffer reaches a threshold; the first load then
      carries the earlier rows followed by the new one. */
  lemma WriteLoadsIffThreshold(c: SinkConfig, s: ManagerState, record: string)
    requires s.initialized && s.flushException.None? && c.maxRetries >= 0
    ensures var (r, o) := WriteSpec(c, s, record);
      && (|r.loads| > |s.loads| <==> ThresholdReached(c, Appended(s, record)))
      && (|r.loads| > |s.loads| ==> r.loads[|s.loads|].rows == s.batch + [Utf8(record)])
  {
    var s1 := Appended(s, record);
    assert WriteSpec(c, s, record) == if ThresholdReached(c, s1) then Attempts(c, 0, s1) else (s1, Pass);
    if ThresholdReached(c, s1) {
      AttemptsCount(c, 0, s1);
      AttemptsBuffer(c, 0, s1);
    }
  }

  lemma AppendedValid(s: ManagerState, record: string)
    requires ValidState(s)
    ensures ValidState(Appended(s, record))
  {
    var t := Appended(s, record);
    assert t.batch[..|t.batch| - 1] == s.batch;
  }

  lemma FlushValid(c: SinkConfig, s: ManagerState)
    requires ValidState(s)
    ensures ValidState(FlushSpec(c, s).0)
  {
    AttemptsValid(c, 0, s);
  }

  lemma WriteValid(c: SinkConfig, s: ManagerState, record: string)
    requires ValidState(s)
    ensures ValidState(WriteSpec(c, s, record).0)
  {
    var s0 := InitSpec(c, s).0;
    AppendedValid(s0, record);
    FlushValid(c, Appended(s0, record));
  }

  lemma CloseValid(c: SinkConfig, s: ManagerState)
    requires ValidState(s)
    ensures ValidState(CloseSpec(c, s).0)
  {
    FlushValid(c, CancelTimer(s));
  }

  lemma TickValid(c: SinkConfig, s: ManagerState)
    requires ValidState(s)
    ensures ValidState(TickSpec(c, s))
  {
    FlushValid(c, s);
  }

  /** The periodic task latches an IOException from its flush: the task keeps running, the
      buffer is kept, and the next write rethrows it wrapped in a RuntimeException. */
  lemma TickLatchesIOException(c: SinkConfig, s: ManagerState, record: string)
    requires s.timer == Scheduled && s.initialized
    requires FlushSpec(c, s).1.Fail? && FlushSpec(c, s).1.error.IOException?
    ensures var t := TickSpec(c, s);
      && t.flushException == Some(FlushSpec(c, s).1.error)
      && t.timer == Scheduled
      && t.batch == s.batch
      && WriteSpec(c, t, record).1 == Fail(RuntimeException(WriteFailedMessage, Some(FlushSpec(c, s).1.error)))
      && TickSpec(c, t) == t.(timer := Stopped)
  {
    if s.flushException.None? && s.batch != [] {
      AttemptsBuffer(c, 0, s);
    }
  }

  /** close performs the same loads as one flush, and afterwards the periodic task never runs. */
  lemma CloseIsFinalFlush(c: SinkConfig, s: ManagerState)
    ensures CloseSpec(c, s).0.loads == FlushSpec(c, s).0.loads
    ensures CloseSpec(c, s).1 == FlushSpec(c, s).1
    ensures CloseSpec(c, s).0.timer != Scheduled
    ensures TickSpec(c, CloseSpec(c, s).0) == CloseSpec(c, s).0
  {
    if s.flushException.None? && s.batch != [] {
      AttemptsBuffer(c, 0, CancelTimer(s));
      AttemptsSameLoads(c, 0, s, CancelTimer(s));
    }
  }

  /** The loop does not read the timer, so two states differing only there load the same. */
  lemma {:induction false} AttemptsSameLoads(c: SinkConfig, i: nat, s: ManagerState, t: ManagerState)
    requires t == s.(timer := t.timer)
    ensures Attempts(c, i, t).0 == Attempts(c, i, s).0.(timer := t.timer)
    ensures Attempts(c, i, t).1 == Attempts(c, i, s).1
    decreases c.maxRetries + 1 - i
  {
    AttemptsStep(c, i, s);
    AttemptsStep(c, i, t);
    StepIgnoresTimer(c, i, s, t);
    if Continues(c, i, s) {
      AttemptsSameLoads(c, i + 1, Next(c, i, s), Next(c, i, t));
    }
  }

  /** One iteration does not read the timer. */
  lemma StepIgnoresTimer(c: SinkConfig, i: nat, s: ManagerState, t: ManagerState)
    requires t == s.(timer := t.timer)
    ensures Continues(c, i, t) == Continues(c, i, s)
    ensures Continues(c, i, s) ==> Next(c, i, t) == Next(c, i, s).(timer := t.timer)
    ensures !Continues(c, i, s) ==>
      Final(c, i, t).0 == Final(c, i, s).0.(timer := t.timer) && Final(c, i, t).1 == Final(c, i, s).1
  {
    assert NextTuple(c, t) == NextTuple(c, s);
    assert LoadStep(c, t) == LoadStep(c, s).(timer := t.timer);
  }

  // ----- the manager -----

  class SinkManager {
    const config: SinkConfig
    var batchList: seq<Bytes>
    var batchRowCount: int
    var batchBytesSize: int
    var flushException: Option<Exception>
    var initialize: bool
    var timer: TimerState
    /** The replies the stream-load visitor has still to give. */
    var replies: seq<LoadReply>
    /** How many UUIDs have been drawn. */
    var draws: nat
    var loads: seq<FlushTuple>
    var relabels: seq<Relabel>
    var waits: seq<int>

    function State(): ManagerState
      reads this
    {
      ManagerState(batchList, batchRowCount, batchBytesSize, flushException, initialize, timer,
                   replies, draws, loads, relabels, waits)
    }

    predicate Valid()
      reads this
    {
      ValidState(State())
    }

    constructor(config: SinkConfig, replies: seq<LoadReply>)
      ensures this.config == config && State() == InitialState(replies) && Valid()
    {
      this.config := config;
      batchList := [];
      batchRowCount := 0;
      batchBytesSize := 0;
      flushException := None;
      initialize := false;
      timer := NotScheduled;
      this.replies := replies;
      draws := 0;
      loads := [];
      relabels := [];
      waits := [];
    }

    method CreateBatchLabel() returns (batchLabel: Label)
      modifies this
      ensures batchLabel == Label(LabelPrefix(config), old(draws))
      ensures State() == old(State()).(draws := old(draws) + 1)
    {
      batchLabel := Label(LabelPrefix(config), draws);
      draws := draws + 1;
    }

    /** The stream-load visitor: log the tuple and give the next reply. */
    method DoStreamLoad(tuple: FlushTuple) returns (reply: LoadReply)
      modifies this
      ensures reply == NextReply(old(replies))
      ensures State() == old(State()).(replies := RestReplies(old(replies)), loads := old(loads) + [tuple])
    {
      reply := NextReply(replies);
      replies := RestReplies(replies);
      loads := loads + [tuple];
    }

    method CheckFlushException() returns (o: Outcome<Exception>)
      ensures o == CheckFlushExceptionSpec(State())
    {
      o := Pass;
      if flushException.Some? {
        o := Fail(RuntimeException(WriteFailedMessage, flushException));
      }
    }

    method TryInit() returns (o: Outcome<Exception>)
      modifies this
      ensures (State(), o) == InitSpec(config, old(State()))
    {
      o := Pass;
      if initialize {
        return;
      }
      initialize := true;
      if config.batchIntervalMs.Some? {
        if config.batchIntervalMs.value <= 0 {
          return Fail(IllegalArgumentException(""));
        }
        timer := Scheduled;
      }
    }

    /** The body of the retry loop of flush, for attempt `i`: whether the loop goes on. */
    method Attempt(i: nat) returns (next: bool, o: Outcome<Exception>)
      requires i <= config.maxRetries
      modifies this
      ensures next == Continues(config, i, old(State()))
      ensures next ==> State() == Next(config, i, old(State())) && o == Pass
      ensures !next ==> (State(), o) == Final(config, i, old(State()))
    {
      var batchLabel := CreateBatchLabel();
      var tuple := FlushTuple(batchLabel, batchBytesSize, batchList);
      assert tuple == NextTuple(config, old(State()));
      var reply := DoStreamLoad(tuple);
      assert State() == LoadStep(config, old(State()));
      next, o := true, Pass;
      if reply.LoadFailed? {
        if i >= config.maxRetries {
          return false, Fail(IOException(WriteFailedMessage, Some(reply.cause)));
        }
        if reply.needReCreateLabel {
          ghost var loaded := State();
          var newLabel := CreateBatchLabel();
          relabels := relabels + [Relabel(tuple.batchLabel, newLabel)];
          tuple := tuple.(batchLabel := newLabel);
          assert State() == RelabelStep(config, loaded, NextTuple(config, old(State())).batchLabel);
        }
        var backoff := Backoff(config, i);
        if backoff < 0 {
          return false, Fail(IllegalArgumentException("timeout value is negative"));
        }
        waits := waits + [backoff];
        if reply.interrupted {
          return false, Fail(IOException(InterruptedMessage, Some(reply.cause)));
        }
      }
    }

    method Flush() returns (o: Outcome<Exception>)
      requires Valid()
      modifies this
      ensures (State(), o) == FlushSpec(config, old(State()))
      ensures Valid()
    {
      FlushValid(config, State());
      o := CheckFlushException();
      if o.Fail? {
        return;
      }
      if batchList == [] {
        return;
      }
      var i: nat := 0;
      while i <= config.maxRetries
        invariant Attempts(config, i, State()) == FlushSpec(config, old(State()))
        invariant o == Pass
        decreases config.maxRetries + 1 - i
      {
        ghost var pre := State();
        var next: bool;
        next, o := Attempt(i);
        AttemptsStep(config, i, pre);
        if !next {
          return;
        }
        i := i + 1;
      }
      batchList := [];
      batchRowCount := 0;
      batchBytesSize := 0;
    }

    method Write(record: string) returns (o: Outcome<Exception>)
      requires Valid()
      modifies this
      ensures (State(), o) == WriteSpec(config, old(State()), record)
      ensures Valid()
    {
      o := TryInit();
      if o.Fail? {
        return;
      }
      o := CheckFlushException();
      if o.Fail? {
        return;
      }
      ghost var initialized := State();
      AppendedValid(initialized, record);
      var bts := Utf8(record);
      batchList := batchList + [bts];
      batchRowCount := batchRowCount + 1;
      batchBytesSize := batchBytesSize + |bts|;
      assert State() == Appended(initialized, record);
      if batchRowCount >= config.batchMaxSize || batchBytesSize >= config.batchMaxBytes {
        o := Flush();
      }
    }

    method Close() returns (o: Outcome<Exception>)
      requires Valid()
      modifies this
      ensures (State(), o) == CloseSpec(config, old(State()))
      ensures Valid()
    {
      if timer != NotScheduled {
        timer := Cancelled;
      }
      o := Flush();
    }

    /** One run of the task scheduled by tryInit. */
    method Tick()
      requires Valid()
      modifies this
      ensures State() == TickSpec(config, old(State()))
      ensures Valid()
    {
      if timer != Scheduled {
        return;
      }
      var o := Flush();
      if o.Fail? {
        if o.error.IOException? {
          flushException := Some(o.error);
        } else {
          timer := Stopped;
        }
      }
    }
  }
}
