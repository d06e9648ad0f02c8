/**
 * The offset-index half of `ConversationCache` (src/conversation-cache.ts) and the watcher
 * callbacks that drive it (src/server-wiring.ts): loops over spans, chunks and rows, over
 * tables changed in place. Each operation is tied to its specification in OffsetIndex.
 */
module ConversationCacheIndex {
  import opened Common
  import opened LineSplit
  import opened LineScan
  import opened OffsetIndex

  const CHUNK: nat := 256 * 1024

  /** The file name after the last separator, without a trailing `.jsonl`. */
  function ConversationIdForFile(path: string): string {
    var name := LastSegment(path);
    if |name| >= 6 && name[|name| - 6..] == ".jsonl" then name[..|name| - 6] else name
  }

  function LastSegment(path: string): string {
    if path == [] || Separator(path[|path| - 1]) then []
    else LastSegment(path[..|path| - 1]) + [path[|path| - 1]]
  }

  class ConversationCache<S(!new), M(!new)> {
    /** The line reducer for a path and its meta row's provider column; see LineScan.LineParserFor. */
    const lineParserFor: (string, Option<Option<string>>) -> Option<Parser<S, M>>
    /** `conversation_meta.provider` by file path. */
    var providers: map<string, Option<string>>
    /** `conversation_file_state` by file path. */
    var fileStates: map<string, FileState>
    /** `conversation_message_index`, by conversation id and message number. */
    var messageIndex: map<string, map<nat, Row>>
    var indexParseState: map<string, S>

    constructor (reducers: Reducers<S, M>)
      ensures forall path, row :: lineParserFor(path, row) == LineParserFor(reducers, path, row)
      ensures forall path :: IndexOf(path) == EmptyIndex()
    {
      lineParserFor := (path, row) => LineParserFor(reducers, path, row);
      providers, fileStates, messageIndex, indexParseState := map[], map[], map[], map[];
    }

    /** One file's share of the tables. */
    ghost function IndexOf(path: string): Index<S>
      reads this
    {
      Index(Table(ConversationIdForFile(path)),
            if path in fileStates then Some(fileStates[path]) else None,
            if path in indexParseState then Some(indexParseState[path]) else None)
    }

    function Table(id: string): map<nat, Row>
      reads this
    {
      if id in messageIndex then messageIndex[id] else map[]
    }

    /** The rows of every other conversation. */
    function OtherRows(id: string): map<string, map<nat, Row>>
      reads this
    {
      messageIndex - {id}
    }

    function ParserFor(path: string): Option<Parser<S, M>>
      reads this
    {
      lineParserFor(path, if path in providers then Some(providers[path]) else None)
    }

    /** Nothing outside this file's own keys changes. */
    twostate predicate OnlyChanges(path: string)
      reads this
    {
      var id := ConversationIdForFile(path);
      && providers == old(providers)
      && OtherRows(id) == old(OtherRows(id))
      && fileStates - {path} == old(fileStates) - {path}
      && indexParseState - {path} == old(indexParseState) - {path}
    }

    /** Files keyed to another conversation id keep their index. */
    twostate lemma OthersKeepTheirIndex(path: string, other: string)
      requires OnlyChanges(path) && ConversationIdForFile(other) != ConversationIdForFile(path)
      ensures IndexOf(other) == old(IndexOf(other))
    {
      var id, key := ConversationIdForFile(path), ConversationIdForFile(other);
      assert key in messageIndex <==> key in messageIndex - {id};
      assert key in old(messageIndex) <==> key in old(messageIndex) - {id};
      assert other in fileStates <==> other in fileStates - {path};
      assert other in old(fileStates) <==> other in old(fileStates) - {path};
      assert other in indexParseState <==> other in indexParseState - {path};
      assert other in old(indexParseState) <==> other in old(indexParseState) - {path};
      assert key in messageIndex ==> (messageIndex - {id})[key] == (old(messageIndex) - {id})[key];
      assert other in fileStates ==> (fileStates - {path})[other] == (old(fileStates) - {path})[other];
      assert other in indexParseState ==> (indexParseState - {path})[other] == (old(indexParseState) - {path})[other];
    }

    /** Give each line to the reducer; a message takes the next number and a row, anything else no row. */
    static method NumberSpans(p: Parser<S, M>, resumed: S, first: nat, spans: seq<LineSpan>)
        returns (state: S, nextIndex: nat, rows: seq<Row>, numbers: seq<Option<nat>>)
      ensures var a := Scan(p, Acc(resumed, first, [], [], [], []), spans);
              state == a.state && nextIndex == a.next && rows == a.rows && numbers == a.seqs
    {
      state, nextIndex, rows, numbers := resumed, first, [], [];
      for i := 0 to |spans|
        invariant var a := ScanTo(p, Acc(resumed, first, [], [], [], []), spans, i);
                  state == a.state && nextIndex == a.next && rows == a.rows && numbers == a.seqs
      {
        var span := spans[i];
        var (s, msg) := p.step(state, span.text, nextIndex);
        state := s;
        match msg
        case None =>
          numbers := numbers + [None];
        case Some(_) =>
          rows := rows + [Row(nextIndex, span.byteOffset, span.byteLength)];
          numbers := numbers + [Some(nextIndex)];
          nextIndex := nextIndex + 1;
      }
    }

    method ExtendMessageIndex(path: string, spans: seq<LineSpan>, identity: nat, readFrom: nat, endOffset: nat)
        returns (seqs: Option<seq<Option<nat>>>)
      modifies this
      ensures (IndexOf(path), seqs) == Extend(ParserFor(path), old(IndexOf(path)), spans, identity, readFrom, endOffset)
      ensures OnlyChanges(path)
    {
      var parser := ParserFor(path);
      if parser.None? {
        return Some(seq(|spans|, _ => None));
      }
      var p := parser.value;
      var expectedStart := if path in fileStates then fileStates[path].byteOffset else 0;
      if readFrom != expectedStart {
        return None;
      }
      if |spans| == 0 {
        return Some([]);
      }
      var resumed := if p.stateful && path in indexParseState then indexParseState[path] else p.init;
      var first: nat := if path in fileStates then fileStates[path].lastMessageIndex + 1 else 0;
      var state, nextIndex, rows, numbers := NumberSpans(p, resumed, first, spans);
      CommitRead(path, rows, FileState(identity, endOffset, nextIndex as int - 1), if p.stateful then Some(state) else None);
      seqs := Some(numbers);
    }

    /** Keep the reducer's state, then write the rows and the file state in one transaction. */
    method CommitRead(path: string, rows: seq<Row>, fileState: FileState, state: Option<S>)
      modifies this
      ensures IndexOf(path) == Index(InsertRows(old(IndexOf(path)).rows, rows), Some(fileState),
                                     if state.Some? then state else old(IndexOf(path)).parseState)
      ensures OnlyChanges(path)
    {
      if state.Some? {
        indexParseState := indexParseState[path := state.value];
      }
      AppendMessageIndexRows(ConversationIdForFile(path), rows);
      fileStates := fileStates[path := fileState];
    }

    /** Upsert rows by number, one at a time. */
    method AppendMessageIndexRows(id: string, rows: seq<Row>)
      modifies this`messageIndex
      ensures messageIndex == old(messageIndex)[id := InsertRows(old(Table(id)), rows)]
    {
      var table := Table(id);
      for i := 0 to |rows|
        invariant table == InsertTo(old(Table(id)), rows, i)
      {
        table := table[rows[i].messageIndex := rows[i]];
      }
      messageIndex := messageIndex[id := table];
    }

    method DeleteFileIndex(path: string)
      modifies this
      ensures IndexOf(path) == EmptyIndex()
      ensures OnlyChanges(path)
    {
      messageIndex := messageIndex - {ConversationIdForFile(path)};
      fileStates := fileStates - {path};
      indexParseState := indexParseState - {path};
    }

    method ClearIndexParseState(path: string)
      modifies this`indexParseState
      ensures indexParseState == old(indexParseState) - {path}
    {
      indexParseState := indexParseState - {path};
    }

    /** Rebuild a file's index from byte 0. */
    method RunBackfill(path: string, file: seq<Byte>, identity: nat)
      modifies this
      ensures IndexOf(path) == Backfill(ParserFor(path), file, identity)
      ensures OnlyChanges(path)
    {
      DeleteFileIndex(path);
      var parser := ParserFor(path);
      if parser.None? {
        return;
      }
      var p := parser.value;
      var state, nextIndex, lastConsumedEnd := WalkFile(ConversationIdForFile(path), p, file);
      fileStates := fileStates[path := FileState(identity, lastConsumedEnd, nextIndex as int - 1)];
      if p.stateful {
        indexParseState := indexParseState[path := state];
      }
    }

    /** Walk the whole file in reads of any size up to CHUNK, carrying each torn line into the next chunk. */
    method WalkFile(id: string, p: Parser<S, M>, file: seq<Byte>) returns (state: S, nextIndex: nat, lastConsumedEnd: nat)
      requires Table(id) == map[]
      modifies this`messageIndex
      ensures lastConsumedEnd == SplitLines(file, 0).consumed
      ensures var a := FullScan(p, file);
              state == a.state && nextIndex == a.next && Table(id) == InsertRows(map[], a.rows)
      ensures OtherRows(id) == old(OtherRows(id))
    {
      var fileOffset: nat, carry: seq<Byte>, pos: nat := 0, [], 0;
      state, nextIndex, lastConsumedEnd := p.init, 0, 0;
      ghost var walked: seq<Byte> := [];
      StartOfWalk(id, p, file);
      hide ReadSoFar, WalkedTo, OtherRows, SplitLines, FullScan, InsertRows;
      while pos < |file|
        invariant ReadSoFar(file, pos, walked, carry)
        invariant lastConsumedEnd == fileOffset == |walked|
        invariant WalkedTo(id, p, walked, state, nextIndex)
        invariant OtherRows(id) == old(OtherRows(id))
      {
        var consumed, bytesRead;
        state, nextIndex, consumed, carry, bytesRead, walked :=
          WalkRead(id, p, file, pos, walked, fileOffset, carry, state, nextIndex);
        pos := pos + bytesRead;
        fileOffset := fileOffset + consumed;
        lastConsumedEnd := fileOffset;
      }
      EndOfWalk(id, p, file, walked, carry, state, nextIndex);
    }

    /** The bytes read so far are those walked and the torn line carried. */
    static ghost predicate ReadSoFar(file: seq<Byte>, pos: nat, walked: seq<Byte>, carry: seq<Byte>) {
      pos <= |file| && walked + carry == file[..pos] && SplitLines(carry, |walked|) == Split([], 0)
    }

    static lemma ReadContinues(file: seq<Byte>, pos: nat, n: nat, walked: seq<Byte>, carry: seq<Byte>, consumed: nat)
      requires ReadSoFar(file, pos, walked, carry) && pos + n <= |file| && consumed <= |carry| + n
      requires var combined := carry + file[pos..pos + n];
               SplitLines(combined[consumed..], |walked| + consumed) == Split([], 0)
      ensures var combined := carry + file[pos..pos + n];
              ReadSoFar(file, pos + n, walked + combined[..consumed], combined[consumed..])
    {
      hide SplitLines;
      var combined := carry + file[pos..pos + n];
      assert walked + combined == (walked + carry) + file[pos..pos + n];
      assert (walked + combined[..consumed]) + combined[consumed..] == walked + combined;
    }

    /** How many bytes a read returns: anything from 1 up to CHUNK and what is left. */
    static method ReadSize(available: nat) returns (bytesRead: nat)
      requires available > 0
      ensures 1 <= bytesRead <= CHUNK && bytesRead <= available
    {
      bytesRead :| 1 <= bytesRead <= CHUNK && bytesRead <= available;
    }

    /** The walk has indexed `prefix`. */
    ghost predicate WalkedTo(id: string, p: Parser<S, M>, prefix: seq<Byte>, state: S, nextIndex: nat)
      reads this
    {
      var a := FullScan(p, prefix);
      && Whole(prefix, 0)
      && state == a.state && nextIndex == a.next && Table(id) == InsertRows(map[], a.rows)
    }

    /** Index the complete lines of one chunk (with the torn line carried into it). */
    method WalkChunk(id: string, p: Parser<S, M>, ghost walked: seq<Byte>, fileOffset: nat, combined: seq<Byte>,
                     state0: S, next0: nat)
        returns (state: S, nextIndex: nat, consumed: nat)
      requires fileOffset == |walked| && WalkedTo(id, p, walked, state0, next0)
      modifies this`messageIndex
      ensures consumed == SplitLines(combined, fileOffset).consumed
      ensures SplitLines(combined[consumed..], fileOffset + consumed) == Split([], 0)
      ensures WalkedTo(id, p, walked + combined[..consumed], state, nextIndex)
      ensures OtherRows(id) == old(OtherRows(id))
    {
      var spans;
      spans, consumed := SplitCompleteLines(combined, fileOffset);
      ContinueWalk(p, walked, combined);
      ChunkRows(p, FullScan(p, walked), spans);
      var rows, numbers;
      state, nextIndex, rows, numbers := NumberSpans(p, state0, next0, spans);
      AppendMessageIndexRows(id, rows);
    }

    /** The rows of one chunk, inserted after those of the lines before it. */
    static lemma {:induction false} ChunkRows(p: Parser<S, M>, before: Acc<S, M>, spans: seq<LineSpan>)
      ensures var a, after := Scan(p, Acc(before.state, before.next, [], [], [], []), spans), Scan(p, before, spans);
              && a.state == after.state && a.next == after.next
              && InsertRows(InsertRows(map[], before.rows), a.rows) == InsertRows(map[], after.rows)
    {
      var resumed := Acc(before.state, before.next, [], [], [], []);
      var more := Scan(p, resumed, spans).rows;
      ScanFromTail(p, before, resumed, spans, |spans|);
      InsertConcat(map[], before.rows, more, |more|);
    }

    /** One chunk of the walk: the scan of the walked prefix grows by the chunk's complete lines. */
    static lemma {:induction false} ContinueWalk(p: Parser<S, M>, walked: seq<Byte>, combined: seq<Byte>)
      requires Whole(walked, 0)
      ensures var r := SplitLines(combined, |walked|);
              && Whole(walked + combined[..r.consumed], 0)
              && FullScan(p, walked + combined[..r.consumed]) == Scan(p, FullScan(p, walked), r.spans)
              && SplitLines(combined[r.consumed..], |walked| + r.consumed) == Split([], 0)
    {
      hide SplitTo, ScanTo;
      var r := SplitLines(combined, |walked|);
      SplitOfConsumed(combined, |walked|);
      LongerPrefix(p, walked, combined[..r.consumed]);
      RestHasNoLine(combined, |walked|, |walked| + r.consumed);
    }

    /** One read: its chunk behind the torn line carried, the complete lines indexed, the rest carried on. */
    method WalkRead(id: string, p: Parser<S, M>, file: seq<Byte>, pos: nat, ghost walked: seq<Byte>, fileOffset: nat, carry: seq<Byte>,
                    state0: S, next0: nat)
        returns (state: S, nextIndex: nat, consumed: nat, rest: seq<Byte>, bytesRead: nat, ghost walked': seq<Byte>)
      requires pos < |file| && fileOffset == |walked|
      requires ReadSoFar(file, pos, walked, carry) && WalkedTo(id, p, walked, state0, next0)
      modifies this`messageIndex
      ensures bytesRead >= 1 && pos + bytesRead <= |file| && |walked'| == fileOffset + consumed
      ensures ReadSoFar(file, pos + bytesRead, walked', rest) && WalkedTo(id, p, walked', state, nextIndex)
      ensures OtherRows(id) == old(OtherRows(id))
    {
      hide ReadSoFar, WalkedTo, OtherRows, SplitLines, FullScan, InsertRows;
      bytesRead := ReadSize(|file| - pos);
      var combined := carry + file[pos..pos + bytesRead];
      state, nextIndex, consumed := WalkChunk(id, p, walked, fileOffset, combined, state0, next0);
      ReadContinues(file, pos, bytesRead, walked, carry, consumed);
      walked' := walked + combined[..consumed];
      rest := combined[consumed..];
    }

    lemma {:induction false} StartOfWalk(id: string, p: Parser<S, M>, file: seq<Byte>)
      requires Table(id) == map[]
      ensures ReadSoFar(file, 0, [], []) && WalkedTo(id, p, [], p.init, 0)
    {
    }

    /** What is left without a newline adds nothing. */
    lemma {:induction false} EndOfWalk(id: string, p: Parser<S, M>, file: seq<Byte>, walked: seq<Byte>, carry: seq<Byte>, state: S,
                                       nextIndex: nat)
      requires ReadSoFar(file, |file|, walked, carry) && WalkedTo(id, p, walked, state, nextIndex)
      ensures SplitLines(file, 0).consumed == |walked|
      ensures var a := FullScan(p, file);
              state == a.state && nextIndex == a.next && Table(id) == InsertRows(map[], a.rows)
    {
      assert file[..|file|] == file;
      SplitAfterPrefix(walked, carry, 0);
      assert SplitLines(walked, 0).spans + [] == SplitLines(walked, 0).spans;
      hide SplitTo, ScanTo, InsertTo;
    }

    /** A page of messages read straight from the index, or `None` to fall back to the scanner. */
    method ReadMessageWindow(path: string, file: seq<Byte>, identity: nat, fromIndex: int, toIndex: int)
        returns (page: Option<Page<M>>)
      ensures page == Window(ParserFor(path), IndexOf(path), file, identity, fromIndex, toIndex)
    {
      hide ParseRows, RowsBetween, ParserFor, ConversationIdForFile;
      if path !in fileStates {
        return None;
      }
      var fileState := fileStates[path];
      if identity != fileState.identity || |file| != fileState.byteOffset {
        return None;
      }
      var parser := ParserFor(path);
      if fileState.lastMessageIndex < 0 || parser.None? {
        return None;
      }
      var p := parser.value;
      var total := fileState.lastMessageIndex + 1;
      var from := if fromIndex < 0 then 0 else fromIndex;
      var to := if toIndex < total then toIndex else total;
      if to <= from {
        return Some(Page([], total, from));
      }
      var lookback := if p.stateful then PARSE_STATE_LOOKBACK else 0;
      var rows := GetMessageIndexWindow(ConversationIdForFile(path), if from < lookback then 0 else from - lookback, to);
      if |rows| == 0 {
        return None;
      }
      var messages := ParseWindow(p, file, rows, from);
      page := Some(Page(messages, total, from));
    }

    /** Read and parse the rows' byte ranges; rows below `from` only build parse state. */
    static method ParseWindow(p: Parser<S, M>, file: seq<Byte>, rows: seq<Row>, from: nat) returns (messages: seq<M>)
      ensures messages == ParseRows(p, file, rows, from, |rows|).1
    {
      var state := p.init;
      messages := [];
      for i := 0 to |rows|
        invariant state == ParseRows(p, file, rows, from, i).0
        invariant messages == ParseRows(p, file, rows, from, i).1
      {
        var row := rows[i];
        var r := p.step(state, TextAt(file, row), row.messageIndex);
        state := r.0;
        if r.1.Some? && row.messageIndex >= from {
          messages := messages + [r.1.value];
        }
      }
    }

    method GetMessageIndexWindow(id: string, fromIndex: nat, toIndex: int) returns (rows: seq<Row>)
      ensures rows == RowsBetween(Table(id), fromIndex, toIndex)
    {
      rows := [];
      var table := Table(id);
      var k: int := fromIndex;
      while k < toIndex
        invariant fromIndex <= k && (k <= toIndex || k == fromIndex)
        invariant rows == RowsBetween(table, fromIndex, k)
      {
        if k in table {
          rows := rows + [table[k]];
        }
        k := k + 1;
      }
    }

    // ── The watcher callbacks ────────────────────────────────────────────────

    /** `onNewLineSpans`: extend, or drop the index and rebuild it when the read is declined. */
    method OnNewLineSpans(path: string, spans: seq<LineSpan>, readFrom: nat, endOffset: nat, file: seq<Byte>, identity: nat)
        returns (pendingLineSeqs: Option<seq<Option<nat>>>)
      modifies this
      ensures var r := Extend(ParserFor(path), old(IndexOf(path)), spans, identity, readFrom, endOffset);
              && pendingLineSeqs == r.1
              && IndexOf(path) == if r.1.Some? then r.0 else Backfill(ParserFor(path), file, identity)
      ensures OnlyChanges(path)
    {
      label before:
      pendingLineSeqs := ExtendMessageIndex(path, spans, identity, readFrom, endOffset);
      if pendingLineSeqs.None? {
        DeleteFileIndex(path);
        ClearIndexParseState(path);
        RunBackfill(path, file, identity);
      }
    }

    method OnTruncated(path: string)
      modifies this
      ensures IndexOf(path) == EmptyIndex()
      ensures OnlyChanges(path)
    {
      DeleteFileIndex(path);
      ClearIndexParseState(path);
    }

    /** `dropRowsById` and `clearAll`, as the index sees them: rows go, file states stay. */
    method DropRows(ids: set<string>)
      modifies this`messageIndex
      ensures forall q :: IndexOf(q) ==
                old(IndexOf(q)).(rows := if ConversationIdForFile(q) in ids then map[] else old(IndexOf(q)).rows)
    {
      messageIndex := messageIndex - ids;
    }
  }
}
