/** ElasticsearchSinkWriter: rows are serialized into a request list that is bulk-sent, with a
    bounded number of tries, whenever it reaches the batch size, and once more on close. The
    REST client is an oracle: the replies its bulk calls will give, every request body sent
    being logged. */
module ElasticsearchWriter {
  import opened Wrappers
  import opened JavaText
  import opened JavaErrors
  import ConnectorCommon

  /** What one EsRestClient.bulk call does: a response without errors, a response whose
      isErrors() is true, or an exception. */
  datatype BulkReply = BulkOk | BulkErrors(response: string) | TransportFailure(cause: Exception)

  /** The message of the exception thrown after the last try; the format string is passed as
      the message as it stands, without its count filled in. */
  const BulkErrorMessage: string := "bulk elasticsearch error,try count=%d"

  /** The body of one bulk request: the rows joined by newlines, with a final newline. */
  function RequestBody(rows: seq<string>): string {
    Join(rows, "\n") + "\n"
  }

  /** Each row followed by one newline, in order: the shape of a bulk body built row by row. */
  function Lines(rows: seq<string>): string {
    if rows == [] then "" else rows[0] + "\n" + Lines(rows[1..])
  }

  /** The body of a non-empty list is its lines. */
  lemma {:induction false} RequestBodyIsLines(rows: seq<string>)
    requires rows != []
    ensures RequestBody(rows) == Lines(rows)
  {
    if |rows| == 1 {
      assert RequestBody(rows) == rows[0] + "\n";
      assert Lines(rows) == rows[0] + "\n" + Lines([]);
    } else {
      RequestBodyIsLines(rows[1..]);
      assert RequestBody(rows) == rows[0] + "\n" + RequestBody(rows[1..]);
    }
  }

  /** Row i of the lines sits, with its newline, between the rows before it and after it. */
  lemma {:induction false} LinesAt(rows: seq<string>, i: nat)
    requires i < |rows|
    ensures Lines(rows) == Lines(rows[..i]) + rows[i] + "\n" + Lines(rows[i + 1..])
  {
    if i == 0 {
      assert rows[..0] == [] && rows[1..] == rows[i + 1..];
    } else {
      var rest := rows[1..];
      LinesAt(rest, i - 1);
      assert rest[..i - 1] == rows[1..i] && rest[i - 1] == rows[i] && rest[i..] == rows[i + 1..];
      assert rows[..i] != [] && rows[..i][0] == rows[0] && rows[..i][1..] == rows[1..i];
      assert Lines(rows[..i]) == rows[0] + "\n" + Lines(rows[1..i]);
    }
  }

  /** The body of a non-empty list is every row, whole and in order, each followed by one
      newline; so it ends with a newline, and row i sits between the lines of the rows before
      it and those after it. (The empty list is never sent; its body would be one newline.) */
  lemma RequestBodyLines(rows: seq<string>)
    ensures rows == [] ==> RequestBody(rows) == "\n"
    ensures rows != [] ==> RequestBody(rows) == Lines(rows)
    ensures RequestBody(rows) != [] && RequestBody(rows)[|RequestBody(rows)| - 1] == '\n'
    ensures forall i | 0 <= i < |rows| ::
              RequestBody(rows) == Lines(rows[..i]) + rows[i] + "\n" + Lines(rows[i + 1..])
  {
    if rows != [] {
      RequestBodyIsLines(rows);
      forall i | 0 <= i < |rows|
        ensures RequestBody(rows) == Lines(rows[..i]) + rows[i] + "\n" + Lines(rows[i + 1..])
      {
        LinesAt(rows, i);
      }
    }
  }

  /** A body of rows without newlines splits back into those rows and a final empty piece. */
  lemma RequestBodyRows(rows: seq<string>)
    requires rows != []
    requires forall i | 0 <= i < |rows| :: '\n' !in rows[i]
    ensures SplitAll(RequestBody(rows), '\n') == rows + [""]
  {
    JoinSnoc(rows, "", "\n");
    assert Join(rows + [""], "\n") == RequestBody(rows);
    SplitAllOfJoin(rows + [""], '\n');
  }

  function ReplyAt(replies: seq<BulkReply>, k: nat): BulkReply {
    if k < |replies| then replies[k] else BulkOk
  }

  lemma ReplyAtRest(replies: seq<BulkReply>, k: nat)
    ensures ReplyAt(RestBulkReplies(replies), k) == ReplyAt(replies, k + 1)
  {
  }

  function NextBulkReply(replies: seq<BulkReply>): BulkReply {
    ReplyAt(replies, 0)
  }

  function RestBulkReplies(replies: seq<BulkReply>): seq<BulkReply> {
    if replies == [] then [] else replies[1..]
  }

  /** The exception a failed try is caught as: an error response becomes a
      BulkElasticsearchException carrying the response. */
  function TryError(reply: BulkReply): Exception
    requires !reply.BulkOk?
  {
    match reply
    case BulkErrors(response) => BulkElasticsearchException(response, None)
    case TransportFailure(cause) => cause
  }

  /** The requests sent, the replies left and the outcome of one bulkEsWithRetry. */
  datatype BulkRun = BulkRun(sent: seq<string>, rest: seq<BulkReply>, outcome: Outcome<Exception>)

  /** Tries tryCnt, tryCnt+1, ..., maxRetry of bulkEsWithRetry on `rows`. */
  function BulkFrom(rows: seq<string>, maxRetry: int, tryCnt: int, replies: seq<BulkReply>): BulkRun
    decreases maxRetry - tryCnt + 1
  {
    if tryCnt > maxRetry then BulkRun([], replies, Pass)
    else if |rows| == 0 then BulkFrom(rows, maxRetry, tryCnt + 1, replies)
    else
      var body := RequestBody(rows);
      var reply := NextBulkReply(replies);
      if reply.BulkOk? then BulkRun([body], RestBulkReplies(replies), Pass)
      else if tryCnt == maxRetry then
        BulkRun([body], RestBulkReplies(replies), Fail(BulkElasticsearchException(BulkErrorMessage, Some(TryError(reply)))))
      else
        var r := BulkFrom(rows, maxRetry, tryCnt + 1, RestBulkReplies(replies));
        r.(sent := [body] + r.sent)
  }

  function BulkEsWithRetrySpec(rows: seq<string>, maxRetry: int, replies: seq<BulkReply>): BulkRun {
    BulkFrom(rows, maxRetry, 1, replies)
  }

  predicate Failed(reply: BulkReply) {
    !reply.BulkOk?
  }

  function Tries(maxRetry: int, tryCnt: int): nat {
    if maxRetry - tryCnt + 1 >= 0 then maxRetry - tryCnt + 1 else 0
  }

  /** Nothing is sent, and nothing thrown, for an empty list or when no try remains; otherwise
      every request carries the whole list, one per consumed reply, at most one per try. */
  lemma {:induction false} BulkSent(rows: seq<string>, maxRetry: int, tryCnt: int, replies: seq<BulkReply>)
    ensures var r := BulkFrom(rows, maxRetry, tryCnt, replies);
      && |r.sent| <= Tries(maxRetry, tryCnt)
      && (rows == [] || tryCnt > maxRetry ==> r.sent == [] && r.outcome == Pass && r.rest == replies)
      && (rows != [] && tryCnt <= maxRetry ==> |r.sent| >= 1)
      && (forall k | 0 <= k < |r.sent| :: r.sent[k] == RequestBody(rows))
      && r.rest == if |r.sent| <= |replies| then replies[|r.sent|..] else []
    decreases maxRetry - tryCnt + 1
  {
    if tryCnt <= maxRetry {
      if |rows| == 0 {
        BulkSent(rows, maxRetry, tryCnt + 1, replies);
      } else if Failed(NextBulkReply(replies)) && tryCnt < maxRetry {
        var rest := RestBulkReplies(replies);
        BulkSent(rows, maxRetry, tryCnt + 1, rest);
        var r := BulkFrom(rows, maxRetry, tryCnt + 1, rest);
        if |r.sent| < |rest| {
          assert rest[|r.sent|..] == replies[|r.sent| + 1..];
        }
      }
    }
  }

  /** The tries stop at the first reply without errors: every reply before it failed. */
  lemma {:induction false} BulkStopsAtFirstSuccess(rows: seq<string>, maxRetry: int, tryCnt: int, replies: seq<BulkReply>)
    ensures var r := BulkFrom(rows, maxRetry, tryCnt, replies);
      && (forall k | 0 <= k < |r.sent| - 1 :: Failed(ReplyAt(replies, k)))
      && (r.outcome.Pass? && |r.sent| > 0 ==> !Failed(ReplyAt(replies, |r.sent| - 1)))
    decreases maxRetry - tryCnt + 1
  {
    if tryCnt <= maxRetry {
      if |rows| == 0 {
        BulkStopsAtFirstSuccess(rows, maxRetry, tryCnt + 1, replies);
      } else if Failed(NextBulkReply(replies)) && tryCnt < maxRetry {
        var rest := RestBulkReplies(replies);
        BulkStopsAtFirstSuccess(rows, maxRetry, tryCnt + 1, rest);
        var r := BulkFrom(rows, maxRetry, tryCnt + 1, rest);
        forall k | 1 <= k < |r.sent|
          ensures Failed(ReplyAt(replies, k))
        {
          ReplyAtRest(replies, k - 1);
        }
        if r.outcome.Pass? && |r.sent| > 0 {
          ReplyAtRest(replies, |r.sent| - 1);
        }
      }
    }
  }

  /** bulkEsWithRetry throws iff the list is not empty and every try fails; it then has made
      every try, and the exception carries the last try's failure. */
  lemma {:induction false} BulkFailsIff(rows: seq<string>, maxRetry: int, tryCnt: int, replies: seq<BulkReply>)
    ensures var r := BulkFrom(rows, maxRetry, tryCnt, replies);
      && (r.outcome.Fail? <==>
            rows != [] && tryCnt <= maxRetry &&
            forall k | 0 <= k < Tries(maxRetry, tryCnt) :: Failed(ReplyAt(replies, k)))
      && (r.outcome.Fail? ==>
            |r.sent| == Tries(maxRetry, tryCnt) &&
            r.outcome.error == BulkElasticsearchException(BulkErrorMessage,
                                 Some(TryError(ReplyAt(replies, Tries(maxRetry, tryCnt) - 1)))))
    decreases maxRetry - tryCnt + 1
  {
    if tryCnt <= maxRetry {
      if |rows| == 0 {
        BulkFailsIff(rows, maxRetry, tryCnt + 1, replies);
      } else if Failed(NextBulkReply(replies)) && tryCnt < maxRetry {
        var rest := RestBulkReplies(replies);
        BulkFailsIff(rows, maxRetry, tryCnt + 1, rest);
        var n := Tries(maxRetry, tryCnt + 1);
        assert Tries(maxRetry, tryCnt) == n + 1;
        forall k | 0 <= k < n
          ensures Failed(ReplyAt(rest, k)) == Failed(ReplyAt(replies, k + 1))
        {
          ReplyAtRest(replies, k);
        }
        ReplyAtRest(replies, n - 1);
        if forall k | 0 <= k < n :: Failed(ReplyAt(rest, k)) {
          forall k | 0 <= k < n + 1
            ensures Failed(ReplyAt(replies, k))
          {
            if k > 0 {
              assert Failed(ReplyAt(rest, k - 1));
            }
          }
        } else {
          var j :| 0 <= j < n && !Failed(ReplyAt(rest, j));
          assert !Failed(ReplyAt(replies, j + 1));
        }
      } else if !Failed(NextBulkReply(replies)) {
        assert !Failed(ReplyAt(replies, 0));
      }
    }
  }

  /** Only whether a reply failed matters: an error response costs a try exactly as a
      transport failure does. */
  lemma {:induction false} BulkFailureKindIrrelevant(rows: seq<string>, maxRetry: int, tryCnt: int,
                                                     replies: seq<BulkReply>, others: seq<BulkReply>)
    requires |replies| == |others|
    requires forall k | 0 <= k < |replies| :: Failed(replies[k]) == Failed(others[k])
    ensures BulkFrom(rows, maxRetry, tryCnt, replies).sent == BulkFrom(rows, maxRetry, tryCnt, others).sent
    ensures BulkFrom(rows, maxRetry, tryCnt, replies).outcome.Fail? == BulkFrom(rows, maxRetry, tryCnt, others).outcome.Fail?
    decreases maxRetry - tryCnt + 1
  {
    if tryCnt <= maxRetry {
      if |rows| == 0 {
        BulkFailureKindIrrelevant(rows, maxRetry, tryCnt + 1, replies, others);
      } else if Failed(NextBulkReply(replies)) && tryCnt < maxRetry {
        BulkFailureKindIrrelevant(rows, maxRetry, tryCnt + 1, RestBulkReplies(replies), RestBulkReplies(others));
      }
    }
  }

  /** The writer's list, the oracle, the request log and whether the client is closed. */
  datatype WriterState = WriterState(requests: seq<string>, replies: seq<BulkReply>, sent: seq<string>, clientClosed: bool)

  /** The writer after a bulk of its list (the list itself is left as it is). */
  function AfterBulk(s: WriterState, run: BulkRun): WriterState {
    s.(replies := run.rest, sent := s.sent + run.sent)
  }

  function WriteSpec(maxBatchSize: int, maxRetryCount: int, s: WriterState, row: string): (WriterState, Outcome<Exception>) {
    var appended := s.(requests := s.requests + [row]);
    if |appended.requests| >= maxBatchSize then
      var run := BulkEsWithRetrySpec(appended.requests, maxRetryCount, s.replies);
      if run.outcome.Fail? then (AfterBulk(appended, run), run.outcome)
      else (AfterBulk(appended, run).(requests := []), Pass)
    else (appended, Pass)
  }

  function CloseSpec(maxRetryCount: int, s: WriterState): (WriterState, Outcome<Exception>) {
    var run := BulkEsWithRetrySpec(s.requests, maxRetryCount, s.replies);
    if run.outcome.Fail? then (AfterBulk(s, run), run.outcome)
    else (AfterBulk(s, run).(clientClosed := true), Pass)
  }

  /** After a write that returns normally the list is below the batch size (or empty, for a
      batch size below 1); a write whose bulk throws keeps the list, new row included. */
  lemma WriteKeepsBatchBound(maxBatchSize: int, maxRetryCount: int, s: WriterState, row: string)
    requires |s.requests| < maxBatchSize || s.requests == []
    ensures var (r, o) := WriteSpec(maxBatchSize, maxRetryCount, s, row);
      && (o.Pass? ==> |r.requests| < maxBatchSize || r.requests == [])
      && (o.Fail? ==> r.requests == s.requests + [row])
      && (|s.requests| + 1 < maxBatchSize ==> r == s.(requests := s.requests + [row]) && o.Pass?)
  {
  }

  /** close sends the leftover rows under the same rule; the client is closed only when that
      returns normally. */
  lemma CloseSendsLeftover(maxRetryCount: int, s: WriterState)
    ensures var (r, o) := CloseSpec(maxRetryCount, s);
      && r.clientClosed == (o.Pass? || s.clientClosed)
      && (o.Fail? <==>
            (s.requests != [] && maxRetryCount >= 1 &&
             forall k | 0 <= k < maxRetryCount :: Failed(ReplyAt(s.replies, k))))
      && (s.requests == [] || maxRetryCount < 1 ==> r.sent == s.sent && o.Pass?)
  {
    BulkFailsIff(s.requests, maxRetryCount, 1, s.replies);
    BulkSent(s.requests, maxRetryCount, 1, s.replies);
  }

  class SinkWriter {
    const maxBatchSize: int
    const maxRetryCount: int
    /** The row serializer, seen as the function it computes. */
    const serializeRow: ConnectorCommon.Row -> string
    var requestEsList: seq<string>
    /** The replies the REST client has still to give. */
    var replies: seq<BulkReply>
    /** The request bodies sent so far. */
    var sent: seq<string>
    var clientClosed: bool

    function State(): WriterState
      reads this
    {
      WriterState(requestEsList, replies, sent, clientClosed)
    }

    constructor(maxBatchSize: int, maxRetryCount: int, serializeRow: ConnectorCommon.Row -> string, replies: seq<BulkReply>)
      ensures this.maxBatchSize == maxBatchSize && this.maxRetryCount == maxRetryCount
      ensures this.serializeRow == serializeRow
      ensures State() == WriterState([], replies, [], false)
    {
      this.maxBatchSize := maxBatchSize;
      this.maxRetryCount := maxRetryCount;
      this.serializeRow := serializeRow;
      requestEsList := [];
      this.replies := replies;
      sent := [];
      clientClosed := false;
    }

    method Write(element: ConnectorCommon.Row) returns (o: Outcome<Exception>)
      modifies this
      ensures (State(), o) == WriteSpec(maxBatchSize, maxRetryCount, old(State()), serializeRow(element))
    {
      var indexRequestRow := serializeRow(element);
      requestEsList := requestEsList + [indexRequestRow];
      o := Pass;
      if |requestEsList| >= maxBatchSize {
        o := BulkEsWithRetry(maxRetryCount);
        if o.Fail? {
          return;
        }
        requestEsList := [];
      }
    }

    method PrepareCommit() returns (info: Option<()>)
      ensures info == None
    {
      info := None;
    }

    /** abortPrepare: nothing to undo, so the writer is left as it was. */
    method AbortPrepare()
      ensures State() == old(State())
    {
    }

    method BulkEsWithRetry(maxRetry: int) returns (o: Outcome<Exception>)
      modifies this
      ensures State() == AfterBulk(old(State()), BulkEsWithRetrySpec(old(requestEsList), maxRetry, old(replies)))
      ensures o == BulkEsWithRetrySpec(old(requestEsList), maxRetry, old(replies)).outcome
    {
      var rows := requestEsList;
      var pending := replies;
      ghost var total := BulkEsWithRetrySpec(rows, maxRetry, pending);
      var bodies: seq<string> := [];
      var tryCnt := 1;
      o := Pass;
      while tryCnt <= maxRetry
        invariant total.sent == bodies + BulkFrom(rows, maxRetry, tryCnt, pending).sent
        invariant total.rest == BulkFrom(rows, maxRetry, tryCnt, pending).rest
        invariant total.outcome == BulkFrom(rows, maxRetry, tryCnt, pending).outcome
        decreases maxRetry - tryCnt + 1
      {
        if |rows| > 0 {
          var requestBody := Join(rows, "\n") + "\n";
          var reply := NextBulkReply(pending);
          ghost var before := pending;
          pending := RestBulkReplies(pending);
          bodies := bodies + [requestBody];
          if reply.BulkOk? {
            assert BulkFrom(rows, maxRetry, tryCnt, before) == BulkRun([requestBody], pending, Pass);
            break;
          }
          if tryCnt == maxRetry {
            o := Fail(BulkElasticsearchException(BulkErrorMessage, Some(TryError(reply))));
            break;
          }
          ghost var after := BulkFrom(rows, maxRetry, tryCnt + 1, pending);
          assert BulkFrom(rows, maxRetry, tryCnt, before) == after.(sent := [requestBody] + after.sent);
        }
        tryCnt := tryCnt + 1;
      }
      replies := pending;
      sent := sent + bodies;
    }

    method Close() returns (o: Outcome<Exception>)
      modifies this
      ensures (State(), o) == CloseSpec(maxRetryCount, old(State()))
    {
      o := BulkEsWithRetry(maxRetryCount);
      if o.Fail? {
        return;
      }
      clientClosed := true;
    }
  }
}
