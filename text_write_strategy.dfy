/** TextWriteStrategy: one output stream per file path being written, rows separated by the row
    delimiter, and finishAndCloseFile that hands every open file over to be moved. Each stream
    is the sequence of bytes written to it; opening, flushing and closing a stream are recorded
    in call logs, and the file system's failures are parameters. */
module TextWriteStrategy {
  import opened Wrappers
  import opened JavaText
  import opened JavaErrors
  import ConnectorCommon

  type Bytes = seq<bv8>

  /** The rows of one file, separated by `delimiter`, with no delimiter before the first. */
  function Joined(rows: seq<Bytes>, delimiter: Bytes): (b: Bytes)
    ensures |rows| == 1 ==> b == rows[0]
    decreases |rows|
  {
    if |rows| == 0 then []
    else if |rows| == 1 then rows[0]
    else Joined(rows[..|rows| - 1], delimiter) + delimiter + rows[|rows| - 1]
  }

  lemma JoinedSnoc(rows: seq<Bytes>, row: Bytes, delimiter: Bytes)
    requires rows != []
    ensures Joined(rows + [row], delimiter) == Joined(rows, delimiter) + delimiter + row
  {
    assert (rows + [row])[..|rows|] == rows;
  }

  /** new RuntimeException(e) for an IOException e carrying `message`. */
  function WrappedIOException(message: string): Exception {
    RuntimeException("java.io.IOException: " + message, Some(IOException(message, None)))
  }

  /** Where the two stream writes of `write` may fail. */
  datatype WriteFault = NoFault | DelimiterWriteFails(message: string) | RowWriteFails(message: string)

  /** The writer's tables and the stream calls made so far. */
  datatype TextState = TextState(
    streams: map<string, Bytes>,
    isFirstWrite: map<string, bool>,
    needMoveFiles: map<string, string>,
    openCalls: seq<string>,
    closeCalls: seq<string>)

  /** The two tables always have the same paths. */
  predicate TablesAgree(s: TextState) {
    s.streams.Keys == s.isFirstWrite.Keys
  }

  /** The contents of the open streams are `rows` joined, and a stream is on its first write
      exactly when nothing has been written to it. */
  predicate Holds(s: TextState, rows: map<string, seq<Bytes>>, delimiter: Bytes) {
    && TablesAgree(s)
    && rows.Keys == s.streams.Keys
    && forall p | p in rows :: s.streams[p] == Joined(rows[p], delimiter) && (s.isFirstWrite[p] <==> rows[p] == [])
  }

  /** getOrCreateOutputStream: open a stream only for a path that has none; a failure to open
      is rethrown wrapped. */
  function OpenSpec(s: TextState, path: string, openFailure: Option<string>): (r: (TextState, Outcome<Exception>))
    requires TablesAgree(s)
    ensures TablesAgree(r.0)
    ensures r.1.Pass? ==> path in r.0.streams
  {
    if path in s.streams then (s, Pass)
    else match openFailure
      case Some(m) => (s, Fail(WrappedIOException(m)))
      case None => (s.(streams := s.streams[path := []], isFirstWrite := s.isFirstWrite[path := true],
                       openCalls := s.openCalls + [path]), Pass)
  }

  /** write of one row, already serialized to `row`, to `path`. */
  function WriteSpec(delimiter: Bytes, s: TextState, path: string, row: Bytes, openFailure: Option<string>, fault: WriteFault): (r: (TextState, Outcome<Exception>))
    requires TablesAgree(s)
    ensures TablesAgree(r.0)
  {
    var (t, open) := OpenSpec(s, path, openFailure);
    if open.Fail? then (t, open) else StreamWrite(delimiter, t, path, row, fault)
  }

  /** The body of write once the stream is open: the delimiter unless it is the first write,
      then the row. */
  function StreamWrite(delimiter: Bytes, t: TextState, path: string, row: Bytes, fault: WriteFault): (r: (TextState, Outcome<Exception>))
    requires TablesAgree(t) && path in t.streams
    ensures TablesAgree(r.0)
  {
    if t.isFirstWrite[path] then
      var u := t.(isFirstWrite := t.isFirstWrite[path := false]);
      if fault.RowWriteFails? then (u, Fail(WrappedIOException(fault.message)))
      else (u.(streams := u.streams[path := u.streams[path] + row]), Pass)
    else if fault.DelimiterWriteFails? then (t, Fail(WrappedIOException(fault.message)))
    else
      var u := t.(streams := t.streams[path := t.streams[path] + delimiter]);
      if fault.RowWriteFails? then (u, Fail(WrappedIOException(fault.message)))
      else (u.(streams := u.streams[path := u.streams[path] + row]), Pass)
  }

  /** The forEach of finishAndCloseFile over the open paths in `order`, the iteration order of
      the table: each is flushed and closed, then scheduled to move to its target; a flush
      failure is rethrown after the close and ends the forEach, so the tables are not cleared. */
  function FinishFrom(targetOf: string -> string, s: TextState, order: seq<string>, flushFailure: map<string, string>): (TextState, Outcome<Exception>)
    decreases |order|
  {
    if order == [] then (s.(streams := map[], isFirstWrite := map[]), Pass)
    else
      var k := order[0];
      var after := s.(closeCalls := s.closeCalls + [k]);
      if k in flushFailure then (after, Fail(WrappedIOException(flushFailure[k])))
      else FinishFrom(targetOf, after.(needMoveFiles := after.needMoveFiles[k := targetOf(k)]), order[1..], flushFailure)
  }

  /** Every open path, listed once. */
  predicate Enumerates(order: seq<string>, streams: map<string, Bytes>) {
    && (forall i, j | 0 <= i < j < |order| :: order[i] != order[j])
    && (forall i | 0 <= i < |order| :: order[i] in streams)
    && (forall p | p in streams :: p in order)
  }

  // ----- What write promises -----

  /** The tables after a successful write of `row` to `path`. */
  function Written(delimiter: Bytes, s: TextState, path: string, row: Bytes): TextState
    requires TablesAgree(s)
  {
    var content := if path in s.streams then s.streams[path] + (if s.isFirstWrite[path] then [] else delimiter) + row else row;
    s.(streams := s.streams[path := content], isFirstWrite := s.isFirstWrite[path := false])
  }

  /** A successful write appends the row to its file, after a delimiter unless the file is
      new or still on its first write, opens the file only if it had no stream, and leaves
      every other stream alone. */
  lemma WriteAppends(delimiter: Bytes, s: TextState, path: string, row: Bytes, openFailure: Option<string>, fault: WriteFault)
    requires TablesAgree(s)
    requires WriteSpec(delimiter, s, path, row, openFailure, fault).1.Pass?
    ensures WriteSpec(delimiter, s, path, row, openFailure, fault).0
      == Written(delimiter, s, path, row).(openCalls := s.openCalls + NewOpen(s, path, openFailure))
  {
    if path !in s.streams {
      var t := OpenSpec(s, path, openFailure).0;
      assert t == s.(streams := s.streams[path := []], isFirstWrite := s.isFirstWrite[path := true],
                     openCalls := s.openCalls + [path]);
      assert t.streams[path] + row == row;
      assert t.streams[path := row] == s.streams[path := row];
      assert t.isFirstWrite[path := false] == s.isFirstWrite[path := false];
    } else {
      assert s.openCalls + NewOpen(s, path, openFailure) == s.openCalls;
      var content := s.streams[path];
      if s.isFirstWrite[path] {
        assert content + [] + row == content + row;
      } else {
        assert s.streams[path := content + delimiter][path := content + delimiter + row] == s.streams[path := content + delimiter + row];
      }
    }
  }

  lemma WrittenPreserves(delimiter: Bytes, s: TextState, rows: map<string, seq<Bytes>>, path: string, row: Bytes)
    requires Holds(s, rows, delimiter)
    ensures var before := if path in rows then rows[path] else [];
      Holds(Written(delimiter, s, path, row), rows[path := before + [row]], delimiter)
  {
    var before := if path in rows then rows[path] else [];
    var t := Written(delimiter, s, path, row);
    var rows2 := rows[path := before + [row]];
    if before != [] {
      JoinedSnoc(before, row, delimiter);
      assert t.streams[path] == Joined(before, delimiter) + delimiter + row;
    } else {
      assert before + [row] == [row];
      assert t.streams[path] == row by {
        if path in s.streams {
          assert s.streams[path] == [];
        }
      }
    }
    HoldsUpdate(delimiter, s, rows, t, path, before + [row]);
  }

  /** Replacing one stream by the joined form of its new rows, no longer on its first write. */
  lemma HoldsUpdate(delimiter: Bytes, s: TextState, rows: map<string, seq<Bytes>>, t: TextState, path: string, r: seq<Bytes>)
    requires Holds(s, rows, delimiter) && r != []
    requires t.streams == s.streams[path := Joined(r, delimiter)] && t.isFirstWrite == s.isFirstWrite[path := false]
    ensures Holds(t, rows[path := r], delimiter)
  {
    var rows2 := rows[path := r];
    forall p | p in rows2
      ensures t.streams[p] == Joined(rows2[p], delimiter) && (t.isFirstWrite[p] <==> rows2[p] == [])
    {
      if p != path {
        assert t.streams[p] == s.streams[p] && rows2[p] == rows[p] && t.isFirstWrite[p] == s.isFirstWrite[p];
      }
    }
  }

  /** A successful write keeps `rows`, with the new row added to its file, describing every
      open stream. */
  lemma WritePreserves(delimiter: Bytes, s: TextState, rows: map<string, seq<Bytes>>, path: string, row: Bytes,
                       openFailure: Option<string>, fault: WriteFault)
    requires Holds(s, rows, delimiter)
    requires WriteSpec(delimiter, s, path, row, openFailure, fault).1.Pass?
    ensures var before := if path in rows then rows[path] else [];
      Holds(WriteSpec(delimiter, s, path, row, openFailure, fault).0, rows[path := before + [row]], delimiter)
  {
    WriteAppends(delimiter, s, path, row, openFailure, fault);
    WrittenPreserves(delimiter, s, rows, path, row);
  }

  /** Opening happens only for a path without a stream, and it marks the path's first write;
      the only other change a failed open makes is none. */
  lemma OpenOnlyWhenAbsent(delimiter: Bytes, s: TextState, path: string, row: Bytes, openFailure: Option<string>, fault: WriteFault)
    requires TablesAgree(s)
    ensures var t := WriteSpec(delimiter, s, path, row, openFailure, fault).0;
      && (path in s.streams ==> t.openCalls == s.openCalls)
      && (path !in s.streams ==> t.openCalls == s.openCalls + [path] || t == s)
      && (path !in s.streams && openFailure.Some? ==> t == s)
      && (path !in s.streams && openFailure.None? ==> OpenSpec(s, path, None).0.isFirstWrite[path])
      && t.needMoveFiles == s.needMoveFiles && t.closeCalls == s.closeCalls
  {
  }

  /** writes in turn, as (path, serialized row, open failure, write fault). */
  datatype WriteCall = WriteCall(path: string, row: Bytes, openFailure: Option<string>, fault: WriteFault)

  /** The state one write call leaves. */
  function Step(delimiter: Bytes, s: TextState, c: WriteCall): (t: TextState)
    requires TablesAgree(s)
    ensures TablesAgree(t)
  {
    WriteSpec(delimiter, s, c.path, c.row, c.openFailure, c.fault).0
  }

  function Writes(delimiter: Bytes, s: TextState, calls: seq<WriteCall>): (t: TextState)
    requires TablesAgree(s)
    ensures TablesAgree(t)
    decreases |calls|
  {
    if calls == [] then s else Writes(delimiter, Step(delimiter, s, calls[0]), calls[1..])
  }

  predicate Distinct(xs: seq<string>) {
    forall i, j | 0 <= i < j < |xs| :: xs[i] != xs[j]
  }

  function Elements(xs: seq<string>): set<string> {
    set x | x in xs
  }

  lemma ElementsConcat(a: seq<string>, b: seq<string>)
    ensures Elements(a + b) == Elements(a) + Elements(b)
  {
  }

  lemma DistinctConcat(a: seq<string>, b: seq<string>)
    requires Distinct(a) && Distinct(b) && Elements(a) !! Elements(b)
    ensures Distinct(a + b)
  {
    forall i, j | 0 <= i < j < |a + b| ensures (a + b)[i] != (a + b)[j] {
      if i < |a| && j >= |a| {
        assert (a + b)[i] in Elements(a);
        assert (a + b)[j] == b[j - |a|];
      } else if i >= |a| {
        assert (a + b)[i] == b[i - |a|];
      }
    }
  }

  /** The path one write opens, if it opens one. */
  function NewOpen(s: TextState, path: string, openFailure: Option<string>): seq<string> {
    if path !in s.streams && openFailure.None? then [path] else []
  }

  lemma WriteOpens(delimiter: Bytes, s: TextState, c: WriteCall)
    requires TablesAgree(s)
    ensures var t := Step(delimiter, s, c);
      && t.openCalls == s.openCalls + NewOpen(s, c.path, c.openFailure)
      && t.streams.Keys == s.streams.Keys + Elements(NewOpen(s, c.path, c.openFailure))
      && Elements(NewOpen(s, c.path, c.openFailure)) !! s.streams.Keys
  {
    var path := c.path;
    var n := NewOpen(s, path, c.openFailure);
    if n == [path] {
      assert Elements(n) == {path};
    } else {
      assert Elements(n) == {};
    }
  }

  /** Two stretches of openings, each distinct and new to the streams before it, make one. */
  lemma OpensCombine(sOpen: seq<string>, uOpen: seq<string>, tOpen: seq<string>,
                     sKeys: set<string>, uKeys: set<string>, tKeys: set<string>, n1: seq<string>, n2: seq<string>)
    requires uOpen == sOpen + n1 && |n1| <= 1 && uKeys == sKeys + Elements(n1) && Elements(n1) !! sKeys
    requires tOpen == uOpen + n2 && Distinct(n2) && tKeys == uKeys + Elements(n2) && Elements(n2) !! uKeys
    ensures |sOpen| <= |tOpen| && tOpen == sOpen + tOpen[|sOpen|..]
    ensures Distinct(tOpen[|sOpen|..])
    ensures Elements(tOpen[|sOpen|..]) !! sKeys
    ensures tKeys == sKeys + Elements(tOpen[|sOpen|..])
  {
    assert tOpen[|sOpen|..] == n1 + n2;
    ElementsConcat(n1, n2);
    DistinctConcat(n1, n2);
  }

  /** Between two finishAndCloseFile calls, no path is opened twice: the new openings are
      distinct, none of them had a stream before, and they are exactly the new streams. */
  lemma {:induction false} WritesOpenOnce(delimiter: Bytes, s: TextState, calls: seq<WriteCall>)
    requires TablesAgree(s)
    ensures var t := Writes(delimiter, s, calls);
      && |s.openCalls| <= |t.openCalls|
      && var added := t.openCalls[|s.openCalls|..];
        && t.openCalls == s.openCalls + added
        && Distinct(added)
        && Elements(added) !! s.streams.Keys
        && t.streams.Keys == s.streams.Keys + Elements(added)
    decreases |calls|
  {
    if calls == [] {
      assert Elements(s.openCalls[|s.openCalls|..]) == {};
    } else {
      var c := calls[0];
      var u := Step(delimiter, s, c);
      var t := Writes(delimiter, u, calls[1..]);
      assert t == Writes(delimiter, s, calls);
      WriteOpens(delimiter, s, c);
      WritesOpenOnce(delimiter, u, calls[1..]);
      OpensCombine(s.openCalls, u.openCalls, t.openCalls, s.streams.Keys, u.streams.Keys, t.streams.Keys,
                   NewOpen(s, c.path, c.openFailure), t.openCalls[|u.openCalls|..]);
    }
  }

  // ----- What finishAndCloseFile promises -----

  /** needMoveFiles.put(key, getTargetLocation(key)) for each of `keys` in turn. */
  function Scheduled(targetOf: string -> string, m: map<string, string>, keys: seq<string>): map<string, string>
    decreases |keys|
  {
    if keys == [] then m else Scheduled(targetOf, m[keys[0] := targetOf(keys[0])], keys[1..])
  }

  /** Every scheduled path maps to its target; nothing scheduled before is lost, and other
      entries keep their targets. */
  lemma {:induction false} ScheduledContents(targetOf: string -> string, m: map<string, string>, keys: seq<string>)
    ensures var r := Scheduled(targetOf, m, keys);
      && (forall p | p in keys :: p in r && r[p] == targetOf(p))
      && (forall p | p in r && p !in keys :: p in m && r[p] == m[p])
      && (forall p | p in m :: p in r)
    decreases |keys|
  {
    if keys != [] {
      ScheduledContents(targetOf, m[keys[0] := targetOf(keys[0])], keys[1..]);
      forall p | p in keys
        ensures p == keys[0] || p in keys[1..]
      {
      }
    }
  }

  /** Without a flush failure, every open path is closed once and scheduled to move to its
      target location, and both tables end empty. */
  lemma {:induction false} FinishMovesAll(targetOf: string -> string, s: TextState, order: seq<string>, flushFailure: map<string, string>)
    requires forall i | 0 <= i < |order| :: order[i] !in flushFailure
    ensures var (t, o) := FinishFrom(targetOf, s, order, flushFailure);
      && o == Pass
      && t.streams == map[] && t.isFirstWrite == map[]
      && t.closeCalls == s.closeCalls + order
      && t.openCalls == s.openCalls
      && t.needMoveFiles == Scheduled(targetOf, s.needMoveFiles, order)
    decreases |order|
  {
    if order != [] {
      var k := order[0];
      var u := s.(closeCalls := s.closeCalls + [k], needMoveFiles := s.needMoveFiles[k := targetOf(k)]);
      FinishMovesAll(targetOf, u, order[1..], flushFailure);
      assert u.closeCalls + order[1..] == s.closeCalls + order;
    }
  }

  /** A flush failure at the j-th path ends the forEach there: that path is closed but not
      scheduled, the later ones are neither, the tables keep every stream, and the failure is
      thrown wrapped in a RuntimeException. */
  lemma {:induction false} FinishFlushFailure(targetOf: string -> string, s: TextState, order: seq<string>,
                                              flushFailure: map<string, string>, j: nat)
    requires j < |order| && order[j] in flushFailure
    requires forall i | 0 <= i < j :: order[i] !in flushFailure
    ensures var (t, o) := FinishFrom(targetOf, s, order, flushFailure);
      && o == Fail(WrappedIOException(flushFailure[order[j]]))
      && t.streams == s.streams && t.isFirstWrite == s.isFirstWrite
      && t.closeCalls == s.closeCalls + order[..j + 1]
      && t.needMoveFiles == Scheduled(targetOf, s.needMoveFiles, order[..j])
    decreases j
  {
    var k := order[0];
    if j > 0 {
      assert k !in flushFailure;
      var u := s.(closeCalls := s.closeCalls + [k], needMoveFiles := s.needMoveFiles[k := targetOf(k)]);
      assert FinishFrom(targetOf, s, order, flushFailure) == FinishFrom(targetOf, u, order[1..], flushFailure);
      FinishFlushFailure(targetOf, u, order[1..], flushFailure, j - 1);
      assert order[1..][..j] == order[1..j + 1];
      assert order[..j + 1] == [k] + order[1..j + 1];
      assert u.closeCalls + order[1..][..j] == s.closeCalls + order[..j + 1];
      var front := order[..j];
      assert front[0] == k && front[1..] == order[1..][..j - 1];
      assert Scheduled(targetOf, s.needMoveFiles, front) == Scheduled(targetOf, u.needMoveFiles, front[1..]);
    } else {
      assert order[..0] == [] && order[..1] == [k];
    }
  }

  /** After finishAndCloseFile, the next write to any path reopens its stream and writes the
      row with no delimiter before it. */
  lemma WriteAfterFinish(targetOf: string -> string, delimiter: Bytes, s: TextState, order: seq<string>,
                         path: string, row: Bytes, fault: WriteFault)
    requires !fault.RowWriteFails?
    ensures var t := FinishFrom(targetOf, s, order, map[]).0;
      && TablesAgree(t)
      && var (u, o) := WriteSpec(delimiter, t, path, row, None, fault);
        o == Pass && u.openCalls == t.openCalls + [path] && u.streams == map[path := row]
  {
    FinishMovesAll(targetOf, s, order, map[]);
    var t := FinishFrom(targetOf, s, order, map[]).0;
    assert OpenSpec(t, path, None).0.streams == map[path := []];
    assert [] + row == row;
  }

  // ----- The writer -----

  class TextWriter {
    const rowDelimiter: string
    /** String.getBytes() in the platform's default charset, which the model does not fix. */
    const encode: string -> Bytes
    /** The TextSerializationSchema, seen as the function it computes. */
    const serialize: ConnectorCommon.Row -> Bytes
    /** getTargetLocation, which lives outside this class. */
    const targetOf: string -> string
    var beingWrittenOutputStream: map<string, Bytes>
    var isFirstWrite: map<string, bool>
    var needMoveFiles: map<string, string>
    var openCalls: seq<string>
    var closeCalls: seq<string>
    /** The rows written to each open stream. */
    ghost var rows: map<string, seq<Bytes>>

    function State(): TextState
      reads this
    {
      TextState(beingWrittenOutputStream, isFirstWrite, needMoveFiles, openCalls, closeCalls)
    }

    function Delimiter(): Bytes {
      encode(rowDelimiter)
    }

    ghost predicate Valid()
      reads this
    {
      Holds(State(), rows, Delimiter())
    }

    constructor(rowDelimiter: string, encode: string -> Bytes, serialize: ConnectorCommon.Row -> Bytes, targetOf: string -> string)
      ensures this.rowDelimiter == rowDelimiter && this.encode == encode && this.serialize == serialize && this.targetOf == targetOf
      ensures State() == TextState(map[], map[], map[], [], [])
      ensures Valid()
    {
      this.rowDelimiter := rowDelimiter;
      this.encode := encode;
      this.serialize := serialize;
      this.targetOf := targetOf;
      beingWrittenOutputStream := map[];
      isFirstWrite := map[];
      needMoveFiles := map[];
      openCalls := [];
      closeCalls := [];
      rows := map[];
    }

    /** `filePath` is the path getOrCreateFilePathBeingWritten gives the row; `openFailure` and
        `fault` are the IOExceptions the file system throws, if any. */
    method Write(row: ConnectorCommon.Row, filePath: string, openFailure: Option<string>, fault: WriteFault) returns (o: Outcome<Exception>)
      requires TablesAgree(State())
      modifies this
      ensures (State(), o) == WriteSpec(Delimiter(), old(State()), filePath, serialize(row), openFailure, fault)
      ensures TablesAgree(State())
      ensures old(Valid()) && o.Pass? ==> Valid()
    {
      ghost var before := State();
      ghost var rowsBefore := if filePath in rows then rows[filePath] else [];
      o := GetOrCreateOutputStream(filePath, openFailure);
      if o.Fail? {
        return;
      }
      o := WriteToStream(filePath, serialize(row), fault);
      if o.Pass? {
        if old(Valid()) {
          WritePreserves(Delimiter(), before, old(rows), filePath, serialize(row), openFailure, fault);
        }
        rows := old(rows)[filePath := rowsBefore + [serialize(row)]];
      }
    }

    method WriteToStream(filePath: string, bytes: Bytes, fault: WriteFault) returns (o: Outcome<Exception>)
      requires TablesAgree(State()) && filePath in beingWrittenOutputStream
      modifies this
      ensures (State(), o) == StreamWrite(Delimiter(), old(State()), filePath, bytes, fault)
      ensures rows == old(rows)
    {
      if isFirstWrite[filePath] {
        isFirstWrite := isFirstWrite[filePath := false];
      } else {
        if fault.DelimiterWriteFails? {
          return Fail(WrappedIOException(fault.message));
        }
        beingWrittenOutputStream := beingWrittenOutputStream[filePath := beingWrittenOutputStream[filePath] + Delimiter()];
      }
      if fault.RowWriteFails? {
        return Fail(WrappedIOException(fault.message));
      }
      beingWrittenOutputStream := beingWrittenOutputStream[filePath := beingWrittenOutputStream[filePath] + bytes];
      o := Pass;
    }

    method GetOrCreateOutputStream(filePath: string, openFailure: Option<string>) returns (o: Outcome<Exception>)
      requires TablesAgree(State())
      modifies this
      ensures (State(), o) == OpenSpec(old(State()), filePath, openFailure)
      ensures rows == old(rows)
    {
      if filePath !in beingWrittenOutputStream {
        if openFailure.Some? {
          return Fail(WrappedIOException(openFailure.value));
        }
        beingWrittenOutputStream := beingWrittenOutputStream[filePath := []];
        isFirstWrite := isFirstWrite[filePath := true];
        openCalls := openCalls + [filePath];
      }
      o := Pass;
    }

    /** `order` is the iteration order of the stream table; `flushFailure` maps a path to the
        message of the IOException its flush throws; the closes that fail are only logged, so
        they do not change the outcome. */
    method FinishAndCloseFile(order: seq<string>, flushFailure: map<string, string>, closeFailures: set<string>) returns (o: Outcome<Exception>)
      requires Enumerates(order, beingWrittenOutputStream)
      modifies this
      ensures (State(), o) == FinishFrom(targetOf, old(State()), order, flushFailure)
      ensures o.Pass? ==> Valid()
    {
      var i := 0;
      while i < |order|
        invariant 0 <= i <= |order|
        invariant beingWrittenOutputStream == old(beingWrittenOutputStream) && isFirstWrite == old(isFirstWrite)
        invariant FinishFrom(targetOf, State(), order[i..], flushFailure) == FinishFrom(targetOf, old(State()), order, flushFailure)
      {
        var key := order[i];
        closeCalls := closeCalls + [key];
        if key in flushFailure {
          return Fail(WrappedIOException(flushFailure[key]));
        }
        needMoveFiles := needMoveFiles[key := targetOf(key)];
        assert order[i..][1..] == order[i + 1..];
        i := i + 1;
      }
      beingWrittenOutputStream := map[];
      isFirstWrite := map[];
      rows := map[];
      o := Pass;
    }
  }
}
