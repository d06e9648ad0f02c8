/**
 * The per-message byte-span index of one transcript (src/conversation-cache.ts), on values:
 * what each writer leaves behind and what a windowed read serves.
 *
 * `ConversationCache` (its own file) runs these operations with loops over mutable tables.
 */
module OffsetIndex {
  import opened Common
  import opened LineSplit
  import opened LineScan

  type LastIndex = x: int | -1 <= x witness -1

  /** `identity` stands for dev:ino. */
  datatype FileState = FileState(identity: nat, byteOffset: nat, lastMessageIndex: LastIndex)

  /** One file's share of the tables, and the reducer kept for its next append. */
  datatype Index<S> = Index(rows: map<nat, Row>, fileState: Option<FileState>, parseState: Option<S>)

  datatype Page<M> = Page(messages: seq<M>, total: nat, fromIndex: nat)

  const PARSE_STATE_LOOKBACK: nat := 8

  function EmptyIndex<S>(): Index<S> { Index(map[], None, None) }

  /** Upsert by message number. */
  function InsertRows(table: map<nat, Row>, rows: seq<Row>): map<nat, Row> {
    InsertTo(table, rows, |rows|)
  }

  function InsertTo(table: map<nat, Row>, rows: seq<Row>, n: nat): map<nat, Row>
    requires n <= |rows|
  {
    if n == 0 then table else InsertTo(table, rows, n - 1)[rows[n - 1].messageIndex := rows[n - 1]]
  }

  function ResumeAcc<S, M>(p: Parser<S, M>, ix: Index<S>): Acc<S, M> {
    var state := if p.stateful && ix.parseState.Some? then ix.parseState.value else p.init;
    var next: nat := if ix.fileState.Some? then ix.fileState.value.lastMessageIndex + 1 else 0;
    Acc(state, next, [], [], [], [])
  }

  function ExpectedStart<S>(ix: Index<S>): nat {
    if ix.fileState.Some? then ix.fileState.value.byteOffset else 0
  }

  /** `extendMessageIndex`: one watcher read. `None` declines the read and changes nothing. */
  function Extend<S, M>(p: Option<Parser<S, M>>, ix: Index<S>, spans: seq<LineSpan>, identity: nat, readFrom: nat,
                        endOffset: nat): (Index<S>, Option<seq<Option<nat>>>)
  {
    if p.None? then (ix, Some(seq(|spans|, _ => None)))
    else if readFrom != ExpectedStart(ix) then (ix, None)
    else if spans == [] then (ix, Some([]))
    else
      var a := Scan(p.value, ResumeAcc(p.value, ix), spans);
      NextNeverDrops(p.value, ResumeAcc(p.value, ix), spans, |spans|);
      (Index(InsertRows(ix.rows, a.rows), Some(FileState(identity, endOffset, a.next - 1)),
             if p.value.stateful then Some(a.state) else ix.parseState),
       Some(a.seqs))
  }

  /** `runBackfill` as one step over the file it reads. */
  function Backfill<S, M>(p: Option<Parser<S, M>>, file: seq<Byte>, identity: nat): Index<S> {
    if p.None? then EmptyIndex()
    else
      var a := FullScan(p.value, file);
      NextNeverDrops(p.value, Fresh(p.value.init), SplitLines(file, 0).spans, |SplitLines(file, 0).spans|);
      Index(InsertRows(map[], a.rows), Some(FileState(identity, SplitLines(file, 0).consumed, a.next - 1)),
            if p.value.stateful then Some(a.state) else None)
  }

  /** The rows present with lo <= number < hi, in ascending order. */
  function RowsBetween(table: map<nat, Row>, lo: nat, hi: int): seq<Row> {
    if hi <= lo then []
    else RowsBetween(table, lo, hi - 1) + if hi - 1 in table then [table[hi - 1]] else []
  }

  /** Reducer state and served messages after the first `n` rows; only numbers at or above `from` are served. */
  function ParseRows<S, M>(p: Parser<S, M>, file: seq<Byte>, rows: seq<Row>, from: nat, n: nat): (S, seq<M>)
    requires n <= |rows|
  {
    if n == 0 then (p.init, [])
    else
      var q, row := ParseRows(p, file, rows, from, n - 1), rows[n - 1];
      var r := p.step(q.0, TextAt(file, row), row.messageIndex);
      (r.0, q.1 + if r.1.Some? && row.messageIndex >= from then [r.1.value] else [])
  }

  /** `readMessageWindow`: a page for [fromIndex, toIndex), or `None` when the index declines. */
  function Window<S, M>(p: Option<Parser<S, M>>, ix: Index<S>, file: seq<Byte>, identity: nat, fromIndex: int,
                        toIndex: int): Option<Page<M>>
  {
    if ix.fileState.None? then None
    else
      var fs := ix.fileState.value;
      if identity != fs.identity || |file| != fs.byteOffset then None
      else if fs.lastMessageIndex < 0 || p.None? then None
      else
        var total := fs.lastMessageIndex + 1;
        var from := if fromIndex < 0 then 0 else fromIndex;
        var to := if toIndex < total then toIndex else total;
        if to <= from then Some(Page([], total, from))
        else
          var rows := RowsBetween(ix.rows, WindowStart(p.value, from), to);
          if rows == [] then None
          else Some(Page(ParseRows(p.value, file, rows, from, |rows|).1, total, from))
  }

  function WindowStart<S, M>(p: Parser<S, M>, from: nat): nat {
    var lookback := if p.stateful then PARSE_STATE_LOOKBACK else 0;
    if from < lookback then 0 else from - lookback
  }

  // ── What the tables hold ───────────────────────────────────────────────────

  /** The index describes `prefix`: every row it still has is that message's row. */
  ghost predicate Represents<S, M>(p: Parser<S, M>, ix: Index<S>, prefix: seq<Byte>) {
    && ix.fileState.Some?
    && ix.fileState.value.byteOffset == |prefix| == SplitLines(prefix, 0).consumed
    && ix.fileState.value.lastMessageIndex == FullScan(p, prefix).next - 1
    && RowsMatch(ix.rows, FullScan(p, prefix).rows)
  }

  /** Every row in the table is the one the list has under its number; the table may lack some. */
  ghost predicate RowsMatch(table: map<nat, Row>, rows: seq<Row>) {
    forall k :: k in table ==> k < |rows| && table[k] == rows[k]
  }

  function Numbers(lo: nat, hi: nat): (r: set<nat>)
    ensures forall k: nat :: k in r <==> lo <= k < hi
  {
    if hi <= lo then {} else Numbers(lo, hi - 1) + {hi - 1}
  }

  lemma {:induction false} InsertedRows(table: map<nat, Row>, rows: seq<Row>, first: nat, n: nat)
    requires n <= |rows| && forall i :: 0 <= i < n ==> rows[i].messageIndex == first + i
    requires forall k :: k in table ==> k < first
    ensures var t := InsertTo(table, rows, n);
            && (forall k :: k in t <==> k in table || first <= k < first + n)
            && (forall k :: k in table ==> t[k] == table[k])
            && (forall k :: first <= k < first + n ==> t[k] == rows[k - first])
  {
    if n > 0 {
      InsertedRows(table, rows, first, n - 1);
    }
  }

  lemma {:induction false} InsertOfPrefix(table: map<nat, Row>, x: seq<Row>, y: seq<Row>, n: nat)
    requires n <= |x| && n <= |y| && forall i :: 0 <= i < n ==> x[i] == y[i]
    ensures InsertTo(table, x, n) == InsertTo(table, y, n)
  {
    if n > 0 { InsertOfPrefix(table, x, y, n - 1); }
  }

  lemma {:induction false} InsertConcat(table: map<nat, Row>, x: seq<Row>, y: seq<Row>, n: nat)
    requires n <= |y|
    ensures InsertTo(table, x + y, |x| + n) == InsertTo(InsertRows(table, x), y, n)
  {
    if n == 0 { InsertOfPrefix(table, x + y, x, |x|); } else { InsertConcat(table, x, y, n - 1); }
  }

  lemma {:induction false} FullScanInStep<S(!new), M>(p: Parser<S, M>, file: seq<Byte>)
    requires ShapeIgnoresState(p)
    ensures InStep(p, FullScan(p, file))
  {
    var spans := SplitLines(file, 0).spans;
    ScanInStep(p, spans, |spans|);
  }

  /** A backfill describes everything up to the last newline, and lacks no row. */
  lemma {:induction false} BackfillRepresents<S(!new), M>(p: Parser<S, M>, file: seq<Byte>, identity: nat)
    requires ShapeIgnoresState(p)
    ensures Represents(p, Backfill(Some(p), file, identity), file[..SplitLines(file, 0).consumed])
    ensures Backfill(Some(p), file, identity).rows.Keys == Numbers(0, FullScan(p, file).next)
  {
    var rows := FullScan(p, file).rows;
    SplitOfConsumed(file, 0);
    FullScanInStep(p, file);
    InsertedRows(map[], rows, 0, |rows|);
  }

  /** The scan of a longer prefix continues the shorter one's. */
  lemma {:induction false} LongerPrefix<S, M>(p: Parser<S, M>, prefix: seq<Byte>, c: seq<Byte>)
    requires Whole(prefix, 0) && Whole(c, |prefix|)
    ensures Whole(prefix + c, 0)
    ensures FullScan(p, prefix + c) == Scan(p, FullScan(p, prefix), SplitLines(c, |prefix|).spans)
  {
    SplitAfterPrefix(prefix, c, 0);
    ScanConcat(p, Fresh(p.init), SplitLines(prefix, 0).spans, SplitLines(c, |prefix|).spans);
  }

  /** What resuming at `before`'s number adds, next to the uninterrupted scan. */
  lemma {:induction false} ResumedScan<S(!new), M>(p: Parser<S, M>, before: Acc<S, M>, resumed: Acc<S, M>, spans: seq<LineSpan>)
    requires ShapeIgnoresState(p)
    requires resumed.next == before.next && resumed.rows == [] && resumed.seqs == []
    requires InStep(p, before) && InStep(p, Scan(p, before, spans))
    ensures Scan(p, before, spans).next == Scan(p, resumed, spans).next == before.next + |Scan(p, resumed, spans).rows|
    ensures Scan(p, before, spans).rows == before.rows + Scan(p, resumed, spans).rows
    ensures Scan(p, before, spans).seqs == before.seqs + Scan(p, resumed, spans).seqs
    ensures forall i :: 0 <= i < |Scan(p, resumed, spans).rows| ==>
              Scan(p, resumed, spans).rows[i].messageIndex == before.next + i
  {
    NumberingIgnoresState(p, before, resumed, spans, |spans|);
    var a, after := Scan(p, resumed, spans), Scan(p, before, spans);
    forall i | 0 <= i < |a.rows| ensures a.rows[i].messageIndex == before.next + i {
      assert a.rows[i] == after.rows[before.next + i];
    }
  }

  /** The index after a contiguous read of the whole lines `c`. */
  function ExtendBy<S, M>(p: Parser<S, M>, ix: Index<S>, at: nat, c: seq<Byte>, identity: nat): (Index<S>, Option<seq<Option<nat>>>) {
    Extend(Some(p), ix, SplitLines(c, at).spans, identity, at, at + |c|)
  }

  /** A contiguous read keeps the index true of the longer prefix, whatever reducer state it resumed from. */
  lemma {:induction false} ExtendRepresents<S(!new), M(!new)>(p: Parser<S, M>, ix: Index<S>, prefix: seq<Byte>, c: seq<Byte>,
                                                              identity: nat)
    requires ShapeIgnoresState(p)
    requires Represents(p, ix, prefix) || (ix.fileState.None? && ix.rows == map[] && prefix == [])
    requires Whole(c, |prefix|) && SplitLines(c, |prefix|).spans != []
    ensures ExtendBy(p, ix, |prefix|, c, identity).1.Some?
    ensures Represents(p, ExtendBy(p, ix, |prefix|, c, identity).0, prefix + c)
    ensures FullScan(p, prefix).next <= FullScan(p, prefix + c).next
    ensures ExtendBy(p, ix, |prefix|, c, identity).0.rows.Keys
         == ix.rows.Keys + Numbers(FullScan(p, prefix).next, FullScan(p, prefix + c).next)
  {
    var spans := SplitLines(c, |prefix|).spans;
    LongerPrefix(p, prefix, c);
    FullScanInStep(p, prefix);
    FullScanInStep(p, prefix + c);
    assert ResumeAcc(p, ix).next == FullScan(p, prefix).next;
    ResumedScan(p, FullScan(p, prefix), ResumeAcc(p, ix), spans);
    RowsAfterInsert(ix.rows, FullScan(p, prefix).rows, Scan(p, ResumeAcc(p, ix), spans).rows);
  }

  /** Inserting the rows that follow `old_` keeps the table part of the longer list. */
  lemma {:induction false} RowsAfterInsert(table: map<nat, Row>, old_: seq<Row>, more: seq<Row>)
    requires forall i :: 0 <= i < |more| ==> more[i].messageIndex == |old_| + i
    requires RowsMatch(table, old_)
    ensures RowsMatch(InsertRows(table, more), old_ + more)
    ensures InsertRows(table, more).Keys == table.Keys + Numbers(|old_|, |old_| + |more|)
  {
    InsertedRows(table, more, |old_|, |more|);
  }

  /** Resuming an exact index reaches the full scan's state, number and table. */
  lemma {:induction false} ResumedLikeFull<S(!new), M(!new)>(p: Parser<S, M>, ix: Index<S>, before: Acc<S, M>, spans: seq<LineSpan>)
    requires ShapeIgnoresState(p)
    requires InStep(p, before) && InStep(p, Scan(p, before, spans))
    requires ResumeAcc(p, ix).next == before.next && (p.stateful ==> ResumeAcc(p, ix).state == before.state)
    requires ix.rows == InsertRows(map[], before.rows)
    ensures var a, after := Scan(p, ResumeAcc(p, ix), spans), Scan(p, before, spans);
            && a.next == after.next && (p.stateful ==> a.state == after.state)
            && after.seqs == before.seqs + a.seqs
            && InsertRows(ix.rows, a.rows) == InsertRows(map[], after.rows)
  {
    ResumedScan(p, before, ResumeAcc(p, ix), spans);
    if p.stateful {
      ScanFromTail(p, before, ResumeAcc(p, ix), spans, |spans|);
    }
    var more := Scan(p, ResumeAcc(p, ix), spans).rows;
    InsertConcat(map[], before.rows, more, |more|);
  }

  /** An exact index resumes where the full scan of its prefix stands. */
  lemma {:induction false} ResumePoint<S(!new), M(!new)>(p: Parser<S, M>, ix: Index<S>, prefix: seq<Byte>, identity: nat)
    requires ShapeIgnoresState(p) && Whole(prefix, 0)
    requires ix == Backfill(Some(p), prefix, identity) || (ix == EmptyIndex() && prefix == [])
    ensures InStep(p, FullScan(p, prefix))
    ensures ExpectedStart(ix) == |prefix|
    ensures ResumeAcc(p, ix).next == FullScan(p, prefix).next
    ensures p.stateful ==> ResumeAcc(p, ix).state == FullScan(p, prefix).state
    ensures ix.rows == InsertRows(map[], FullScan(p, prefix).rows)
    ensures !p.stateful ==> ix.parseState.None?
  {
    FullScanInStep(p, prefix);
  }

  /** Both writers reach the same scan: a contiguous read of `c` and a walk of the longer prefix. */
  lemma {:induction false} ResumedAtPrefix<S(!new), M(!new)>(p: Parser<S, M>, ix: Index<S>, prefix: seq<Byte>, c: seq<Byte>,
                                                             identity: nat)
    requires ShapeIgnoresState(p) && Whole(prefix, 0) && Whole(c, |prefix|)
    requires ix == Backfill(Some(p), prefix, identity) || (ix == EmptyIndex() && prefix == [])
    ensures var a, after := Scan(p, ResumeAcc(p, ix), SplitLines(c, |prefix|).spans), FullScan(p, prefix + c);
            && a.next == after.next && (p.stateful ==> a.state == after.state)
            && after.seqs == FullScan(p, prefix).seqs + a.seqs
            && InsertRows(ix.rows, a.rows) == InsertRows(map[], after.rows)
  {
    LongerPrefix(p, prefix, c);
    ResumePoint(p, ix, prefix, identity);
    FullScanInStep(p, prefix + c);
    ResumedLikeFull(p, ix, FullScan(p, prefix), SplitLines(c, |prefix|).spans);
  }

  /** From an exact index the extended one is exact too: row for row what one backfill writes. */
  lemma {:induction false} ExtendIsBackfill<S(!new), M(!new)>(p: Parser<S, M>, ix: Index<S>, prefix: seq<Byte>, c: seq<Byte>,
                                                              identity: nat)
    requires ShapeIgnoresState(p) && Whole(prefix, 0)
    requires ix == Backfill(Some(p), prefix, identity) || (ix == EmptyIndex() && prefix == [])
    requires Whole(c, |prefix|) && SplitLines(c, |prefix|).spans != []
    ensures ExtendBy(p, ix, |prefix|, c, identity).0 == Backfill(Some(p), prefix + c, identity)
  {
    ResumedAtPrefix(p, ix, prefix, c, identity);
    ResumePoint(p, ix, prefix, identity);
    LongerPrefix(p, prefix, c);
    var after := FullScan(p, prefix + c);
    var a := Scan(p, ResumeAcc(p, ix), SplitLines(c, |prefix|).spans);
    assert |prefix + c| == |prefix| + |c|;
    BackfillOfWhole(p, prefix + c, identity);
    ExtendWrites(p, ix, |prefix|, c, identity);
    hide *;
  }

  /** What a backfill writes for a file of whole lines. */
  lemma {:induction false} BackfillOfWhole<S, M>(p: Parser<S, M>, file: seq<Byte>, identity: nat)
    requires SplitLines(file, 0).consumed == |file|
    ensures var a := FullScan(p, file);
            Backfill(Some(p), file, identity) ==
            Index(InsertRows(map[], a.rows), Some(FileState(identity, |file|, a.next - 1)),
                  if p.stateful then Some(a.state) else None)
  {
    hide InsertRows, SplitLines, FullScan;
  }

  /** What an accepted read with lines writes. */
  lemma {:induction false} ExtendWrites<S, M>(p: Parser<S, M>, ix: Index<S>, at: nat, c: seq<Byte>, identity: nat)
    requires at == ExpectedStart(ix) && SplitLines(c, at).spans != [] && (!p.stateful ==> ix.parseState.None?)
    ensures var a := Scan(p, ResumeAcc(p, ix), SplitLines(c, at).spans);
            ExtendBy(p, ix, at, c, identity).0 ==
            Index(InsertRows(ix.rows, a.rows), Some(FileState(identity, at + |c|, a.next - 1)),
                  if p.stateful then Some(a.state) else None)
  {
    hide InsertRows, SplitLines, Scan, ResumeAcc;
  }

  /** The numbers handed back for a read are the full scan's numbers for those lines. */
  lemma {:induction false} ExtendNumbersLines<S(!new), M(!new)>(p: Parser<S, M>, ix: Index<S>, prefix: seq<Byte>, c: seq<Byte>,
                                                                identity: nat)
    requires ShapeIgnoresState(p) && Whole(prefix, 0)
    requires ix == Backfill(Some(p), prefix, identity) || (ix == EmptyIndex() && prefix == [])
    requires Whole(c, |prefix|) && SplitLines(c, |prefix|).spans != []
    ensures ExtendBy(p, ix, |prefix|, c, identity).1.Some?
    ensures FullScan(p, prefix + c).seqs == FullScan(p, prefix).seqs + ExtendBy(p, ix, |prefix|, c, identity).1.value
  {
    ResumedAtPrefix(p, ix, prefix, c, identity);
    ResumePoint(p, ix, prefix, identity);
  }

  // ── What a window serves ───────────────────────────────────────────────────

  /**
   * The reducer's memory reaches back at most `PARSE_STATE_LOOKBACK` messages: `view` gives
   * its answer from those alone, whatever else it has read.
   */
  ghost predicate RemembersEight<S, M>(p: Parser<S, M>, view: (seq<(Line, nat)>, Line, nat) -> Option<M>) {
    forall items, n: nat, l, i :: n <= |items| ==>
      p.step(Run(p, items, n), l, i).1 == view(LastK(PARSE_STATE_LOOKBACK, Kept(p, items, n)), l, i)
  }

  ghost predicate AllPresent(table: map<nat, Row>, lo: nat, hi: int) {
    forall k: nat :: lo <= k < hi ==> k in table
  }

  /** How many rows of a range are present. */
  lemma {:induction false} RowsBetweenCount(table: map<nat, Row>, lo: nat, hi: int)
    requires forall k :: k in table ==> table[k].messageIndex == k
    ensures var rs := RowsBetween(table, lo, hi);
            && (forall i :: 0 <= i < |rs| ==> lo <= rs[i].messageIndex < hi && rs[i].messageIndex in table
                                              && rs[i] == table[rs[i].messageIndex])
            && (lo <= hi ==> |rs| <= hi - lo)
            && (lo <= hi ==> (|rs| == hi - lo <==> AllPresent(table, lo, hi)))
            && (lo <= hi && AllPresent(table, lo, hi) ==> forall i :: 0 <= i < |rs| ==> rs[i].messageIndex == lo + i)
  {
    if lo < hi {
      RowsBetweenCount(table, lo, hi - 1);
      if AllPresent(table, lo, hi) {
        assert AllPresent(table, lo, hi - 1);
        assert hi - 1 in table;
      } else if AllPresent(table, lo, hi - 1) {
        assert hi - 1 !in table;
      }
    }
  }

  lemma {:induction false} RowsBetweenSplit(table: map<nat, Row>, lo: nat, mid: nat, hi: int)
    requires lo <= mid <= hi
    ensures RowsBetween(table, lo, hi) == RowsBetween(table, lo, mid) + RowsBetween(table, mid, hi)
  {
    if mid < hi { RowsBetweenSplit(table, lo, mid, hi - 1); }
  }

  /** The items a list of rows feeds to the reducer. */
  function Items(file: seq<Byte>, rows: seq<Row>): (r: seq<(Line, nat)>)
    ensures |r| == |rows|
  {
    seq(|rows|, i requires 0 <= i < |rows| => (TextAt(file, rows[i]), rows[i].messageIndex))
  }

  /** The state after some rows is the reducer's state after their items. */
  lemma {:induction false} ParsedState<S, M>(p: Parser<S, M>, file: seq<Byte>, rows: seq<Row>, from: nat, n: nat)
    requires n <= |rows|
    ensures ParseRows(p, file, rows, from, n).0 == Run(p, Items(file, rows), n)
  {
    if n > 0 { ParsedState(p, file, rows, from, n - 1); }
  }

  /** Rows that are messages, the first `skip` of them below `from`. */
  ghost predicate WindowShape<S, M>(p: Parser<S, M>, file: seq<Byte>, rows: seq<Row>, from: nat, skip: nat) {
    && skip <= |rows|
    && forall i :: 0 <= i < |rows| ==>
         && (rows[i].messageIndex >= from <==> i >= skip)
         && IsMessage(p, TextAt(file, rows[i]), rows[i].messageIndex)
  }

  /** The answer for row `i` after the rows before it. */
  function Answer<S, M>(p: Parser<S, M>, items: seq<(Line, nat)>, i: nat): Option<M>
    requires i < |items|
  {
    p.step(Run(p, items, i), items[i].0, items[i].1).1
  }

  /** Each row at or above `from` contributes one message: the reducer's answer after the rows before it. */
  lemma {:induction false} ParsedRows<S(!new), M>(p: Parser<S, M>, file: seq<Byte>, rows: seq<Row>, from: nat, skip: nat, n: nat)
    requires ShapeIgnoresState(p) && WindowShape(p, file, rows, from, skip) && n <= |rows|
    ensures var served := ParseRows(p, file, rows, from, n).1;
            && |served| == (if n <= skip then 0 else n - skip)
            && forall i :: skip <= i < n ==> Answer(p, Items(file, rows), i) == Some(served[i - skip])
  {
    if n > 0 {
      ParsedRows(p, file, rows, from, skip, n - 1);
      ParsedState(p, file, rows, from, n - 1);
      OneMoreParsed(p, file, rows, from, skip, n);
    }
    hide *;
  }

  lemma {:induction false} OneMoreParsed<S(!new), M>(p: Parser<S, M>, file: seq<Byte>, rows: seq<Row>, from: nat, skip: nat, n: nat)
    requires ShapeIgnoresState(p) && WindowShape(p, file, rows, from, skip) && 0 < n <= |rows|
    requires ParseRows(p, file, rows, from, n - 1).0 == Run(p, Items(file, rows), n - 1)
    requires var served := ParseRows(p, file, rows, from, n - 1).1;
             && |served| == (if n - 1 <= skip then 0 else n - 1 - skip)
             && forall i :: skip <= i < n - 1 ==> Answer(p, Items(file, rows), i) == Some(served[i - skip])
    ensures var served := ParseRows(p, file, rows, from, n).1;
            && |served| == (if n <= skip then 0 else n - skip)
            && forall i :: skip <= i < n ==> Answer(p, Items(file, rows), i) == Some(served[i - skip])
  {
    var q, row := ParseRows(p, file, rows, from, n - 1), rows[n - 1];
    var r := p.step(q.0, TextAt(file, row), row.messageIndex);
    assert ParseRows(p, file, rows, from, n).1 == q.1 + if r.1.Some? && row.messageIndex >= from then [r.1.value] else [];
    assert r.1.Some? by { assert IsMessage(p, TextAt(file, row), row.messageIndex); }
    assert Answer(p, Items(file, rows), n - 1) == r.1;
    assert row.messageIndex >= from <==> n - 1 >= skip;
    hide *;
  }

  /** The rows of a represented file are message lines with their own numbers. */
  lemma {:induction false} RowsAreMessages<S(!new), M>(p: Parser<S, M>, file: seq<Byte>)
    requires ShapeIgnoresState(p)
    ensures InStep(p, FullScan(p, file))
    ensures var a := FullScan(p, file);
            forall k :: 0 <= k < a.next ==>
              && MessageLines(p, a)[k] == (TextAt(file, a.rows[k]), k)
              && IsMessage(p, TextAt(file, a.rows[k]), k)
  {
    var spans := SplitLines(file, 0).spans;
    var a := FullScan(p, file);
    SpansAreLines(file, 0, |file|);
    RowsPointAtLines(p, file, spans, |spans|);
    assert PointsAtLines(p, file, a);
    KeptAreMessages(p, a.fed, |a.fed|);
    forall k | 0 <= k < a.next
      ensures MessageLines(p, a)[k] == (TextAt(file, a.rows[k]), k) && IsMessage(p, TextAt(file, a.rows[k]), k)
    {
      var line := MessageLines(p, a)[k];
      assert line in MessageLines(p, a);
      assert line.0 == TextAt(file, a.rows[k]) && line.1 == k;
    }
  }

  /** A stateless reducer's answer is the same after any items. */
  lemma {:induction false} StatelessAnswer<S(!new), M>(p: Parser<S, M>, x: seq<(Line, nat)>, i: nat, y: seq<(Line, nat)>, j: nat)
    requires Stateless(p) && i < |x| && j <= |y|
    ensures Answer(p, x, i) == p.step(Run(p, y, j), x[i].0, x[i].1).1
  {
  }

  /** So is the answer of a reducer that remembers eight messages, once eight (or all) are the same. */
  lemma {:induction false} RememberedAnswer<S, M>(p: Parser<S, M>, view: (seq<(Line, nat)>, Line, nat) -> Option<M>,
                                                  x: seq<(Line, nat)>, i: nat, y: seq<(Line, nat)>, j: nat)
    requires RemembersEight(p, view) && i < |x| && j <= |y|
    requires LastK(PARSE_STATE_LOOKBACK, Kept(p, x, i)) == LastK(PARSE_STATE_LOOKBACK, Kept(p, y, j))
    ensures Answer(p, x, i) == p.step(Run(p, y, j), x[i].0, x[i].1).1
  {
    assert p.step(Run(p, y, j), x[i].0, x[i].1).1 == view(LastK(PARSE_STATE_LOOKBACK, Kept(p, y, j)), x[i].0, x[i].1);
  }

  /** The last eight messages before `k` are the same seen from `lo`, if `lo` is far enough back. */
  lemma {:induction false} RecentMessages<S, M>(p: Parser<S, M>, lines: seq<(Line, nat)>, lo: nat, hi: nat, k: nat)
    requires lo <= k <= hi <= |lines| && (lo == 0 || k - lo >= PARSE_STATE_LOOKBACK)
    requires forall l :: l in lines ==> IsMessage(p, l.0, l.1)
    ensures LastK(PARSE_STATE_LOOKBACK, Kept(p, lines[lo..hi], k - lo)) == LastK(PARSE_STATE_LOOKBACK, lines[..k])
  {
    KeptOfMessages(p, lines[lo..hi], k - lo);
    LastKOfSuffix(PARSE_STATE_LOOKBACK, lines[..k], lo);
    assert lines[lo..hi][..k - lo] == lines[..k][lo..];
  }

  /** Read from `lo` messages in, message `k` comes out as in the full parse. */
  lemma {:induction false} AnswerFrom<S(!new), M>(p: Parser<S, M>, view: (seq<(Line, nat)>, Line, nat) -> Option<M>,
                                                  file: seq<Byte>, lo: nat, hi: nat, k: nat)
    requires Lawful(p) && (p.stateful ==> RemembersEight(p, view))
    requires lo <= k < hi <= FullScan(p, file).next
    requires p.stateful ==> lo == 0 || k - lo >= PARSE_STATE_LOOKBACK
    ensures InStep(p, FullScan(p, file))
    ensures Answer(p, MessageLines(p, FullScan(p, file))[lo..hi], k - lo) == Some(FullScan(p, file).msgs[k])
  {
    var spans := SplitLines(file, 0).spans;
    var a := FullScan(p, file);
    var at := ScanAnswers(p, spans, |spans|, k);
    hide FullScan, SplitLines, ScanTo, Run;
    var lines := MessageLines(p, a);
    assert AnsweredAt(p, a, k, at);
    assert lines[lo..hi][k - lo] == lines[k];
    if p.stateful {
      RecentOfScan(p, a, lo, hi, k);
      hide MessageLines;
      RememberedAnswer(p, view, lines[lo..hi], k - lo, a.fed, at);
    } else {
      hide MessageLines;
      StatelessAnswer(p, lines[lo..hi], k - lo, a.fed, at);
    }
    hide *;
  }

  lemma {:induction false} RecentOfScan<S, M>(p: Parser<S, M>, a: Acc<S, M>, lo: nat, hi: nat, k: nat)
    requires lo <= k <= hi <= |MessageLines(p, a)| && (lo == 0 || k - lo >= PARSE_STATE_LOOKBACK)
    ensures LastK(PARSE_STATE_LOOKBACK, Kept(p, MessageLines(p, a)[lo..hi], k - lo))
         == LastK(PARSE_STATE_LOOKBACK, MessageLines(p, a)[..k])
  {
    KeptAreMessages(p, a.fed, |a.fed|);
    RecentMessages(p, MessageLines(p, a), lo, hi, k);
  }

  /** The rows a window reads, when none is missing, are the full scan's own rows. */
  lemma {:induction false} WindowRows<S(!new), M>(p: Parser<S, M>, ix: Index<S>, file: seq<Byte>, lo: nat, hi: nat)
    requires ShapeIgnoresState(p) && Represents(p, ix, file)
    requires lo <= hi <= FullScan(p, file).next && AllPresent(ix.rows, lo, hi)
    ensures InStep(p, FullScan(p, file))
    ensures RowsBetween(ix.rows, lo, hi) == FullScan(p, file).rows[lo..hi]
  {
    FullScanInStep(p, file);
    RowsBetweenCount(ix.rows, lo, hi);
    var rs := RowsBetween(ix.rows, lo, hi);
    forall i | 0 <= i < |rs| ensures rs[i] == FullScan(p, file).rows[lo..hi][i] {
      assert rs[i].messageIndex == lo + i;
    }
  }

  /** A run of the full scan's rows feeds the reducer its message lines. */
  lemma {:induction false} SliceItems<S(!new), M>(p: Parser<S, M>, file: seq<Byte>, lo: nat, from: nat, to: nat)
    requires ShapeIgnoresState(p) && lo <= from <= to <= FullScan(p, file).next
    ensures InStep(p, FullScan(p, file))
    ensures WindowShape(p, file, FullScan(p, file).rows[lo..to], from, from - lo)
    ensures Items(file, FullScan(p, file).rows[lo..to]) == MessageLines(p, FullScan(p, file))[lo..to]
  {
    RowsAreMessages(p, file);
    hide FullScan, SplitLines;
    var a := FullScan(p, file);
    var rows := a.rows[lo..to];
    assert |a.rows| == a.next && |MessageLines(p, a)| == a.next;
    forall i | 0 <= i < |rows|
      ensures Items(file, rows)[i] == MessageLines(p, a)[lo..to][i] && IsMessage(p, TextAt(file, rows[i]), rows[i].messageIndex)
      ensures rows[i].messageIndex == lo + i
    {
      assert rows[i] == a.rows[lo + i] && MessageLines(p, a)[lo + i] == (TextAt(file, a.rows[lo + i]), lo + i);
    }
    hide MessageLines, IsMessage, TextAt, InStep;
  }

  /** Started `lo` messages in, messages from..to come out as in the full parse. */
  ghost predicate ReadsSame<S, M>(p: Parser<S, M>, a: Acc<S, M>, lo: nat, from: nat, to: nat) {
    && lo <= from <= to <= a.next == |a.msgs| == |MessageLines(p, a)|
    && forall k :: from <= k < to ==> Answer(p, MessageLines(p, a)[lo..to], k - lo) == Some(a.msgs[k])
  }

  lemma {:induction false} WindowReadsSame<S(!new), M>(p: Parser<S, M>, view: (seq<(Line, nat)>, Line, nat) -> Option<M>,
                                                       file: seq<Byte>, from: nat, to: nat)
    requires Lawful(p) && (p.stateful ==> RemembersEight(p, view))
    requires from <= to <= FullScan(p, file).next
    ensures ReadsSame(p, FullScan(p, file), WindowStart(p, from), from, to)
  {
    FullScanInStep(p, file);
    forall k | from <= k < to
      ensures Answer(p, MessageLines(p, FullScan(p, file))[WindowStart(p, from)..to], k - WindowStart(p, from))
           == Some(FullScan(p, file).msgs[k])
    {
      AnswerFrom(p, view, file, WindowStart(p, from), to, k);
    }
  }

  /** Parsing rows yields `want` when each row's answer is the wanted message. */
  lemma {:induction false} ParsedAs<S(!new), M>(p: Parser<S, M>, file: seq<Byte>, rows: seq<Row>, from: nat, skip: nat, want: seq<M>)
    requires ShapeIgnoresState(p) && WindowShape(p, file, rows, from, skip) && |want| == |rows| - skip
    requires forall i :: skip <= i < |rows| ==> Answer(p, Items(file, rows), i) == Some(want[i - skip])
    ensures ParseRows(p, file, rows, from, |rows|).1 == want
  {
    ParsedRows(p, file, rows, from, skip, |rows|);
    var served := ParseRows(p, file, rows, from, |rows|).1;
    forall j | 0 <= j < |want| ensures served[j] == want[j] {
      assert Answer(p, Items(file, rows), skip + j) == Some(want[skip + j - skip]);
    }
  }

  /** Parsing a run of the full scan's rows yields its messages when they come out the same from there. */
  lemma {:induction false} ParsedSlice<S(!new), M>(p: Parser<S, M>, file: seq<Byte>, lo: nat, from: nat, to: nat)
    requires ShapeIgnoresState(p) && ReadsSame(p, FullScan(p, file), lo, from, to)
    ensures |FullScan(p, file).rows| == FullScan(p, file).next
    ensures ParseRows(p, file, FullScan(p, file).rows[lo..to], from, to - lo).1 == FullScan(p, file).msgs[from..to]
  {
    hide WindowShape, ShapeIgnoresState, ReadsSame, Items, Answer, FullScan, MessageLines, ParseRows, Run;
    var a := FullScan(p, file);
    SliceAnswers(p, a, lo, from, to);
    SliceItems(p, file, lo, from, to);
    assert |a.rows| == a.next;
    ParsedAs(p, file, a.rows[lo..to], from, from - lo, a.msgs[from..to]);
  }

  lemma {:induction false} SliceAnswers<S, M>(p: Parser<S, M>, a: Acc<S, M>, lo: nat, from: nat, to: nat)
    requires ReadsSame(p, a, lo, from, to)
    ensures lo <= from <= to <= a.next == |a.msgs| == |MessageLines(p, a)|
    ensures forall i :: from - lo <= i < to - lo ==>
              Answer(p, MessageLines(p, a)[lo..to], i) == Some(a.msgs[from..to][i - (from - lo)])
  {
    hide Answer, MessageLines;
    forall i | from - lo <= i < to - lo
      ensures Answer(p, MessageLines(p, a)[lo..to], i) == Some(a.msgs[from..to][i - (from - lo)])
    {
      SliceAnswer(p, a, lo, from, to, i);
    }
  }

  lemma {:induction false} SliceAnswer<S, M>(p: Parser<S, M>, a: Acc<S, M>, lo: nat, from: nat, to: nat, i: nat)
    requires ReadsSame(p, a, lo, from, to) && from - lo <= i < to - lo
    ensures Answer(p, MessageLines(p, a)[lo..to], i) == Some(a.msgs[from..to][i - (from - lo)])
  {
    hide Answer, MessageLines;
    assert Answer(p, MessageLines(p, a)[lo..to], lo + i - lo) == Some(a.msgs[lo + i]);
  }

  /** The messages of a window none of whose rows is missing. */
  lemma {:induction false} WindowMessages<S(!new), M(!new)>(p: Parser<S, M>, view: (seq<(Line, nat)>, Line, nat) -> Option<M>,
                                                            ix: Index<S>, file: seq<Byte>, from: nat, to: nat)
    requires Lawful(p) && (p.stateful ==> RemembersEight(p, view))
    requires Represents(p, ix, file) && from < to <= FullScan(p, file).next
    requires AllPresent(ix.rows, WindowStart(p, from), to)
    ensures InStep(p, FullScan(p, file))
    ensures var rows := RowsBetween(ix.rows, WindowStart(p, from), to);
            ParseRows(p, file, rows, from, |rows|).1 == FullScan(p, file).msgs[from..to]
  {
    hide FullScan, SplitLines, ParseRows, RowsBetween, RowsMatch, ReadsSame, RemembersEight, AllPresent;
    WindowReadsSame(p, view, file, from, to);
    WindowRows(p, ix, file, WindowStart(p, from), to);
    ParsedSlice(p, file, WindowStart(p, from), from, to);
  }

  /**
   * Exactly when a window none of whose rows is missing is right, for any reducer: each of its messages
   * comes out of the reducer started fresh at the lookback as it does out of the full parse.
   */
  lemma {:induction false} WindowIsRightIff<S(!new), M(!new)>(p: Parser<S, M>, ix: Index<S>, file: seq<Byte>, from: nat, to: nat)
    requires ShapeIgnoresState(p) && Represents(p, ix, file) && from < to <= FullScan(p, file).next
    requires AllPresent(ix.rows, WindowStart(p, from), to)
    ensures FullScan(p, file).next == |FullScan(p, file).msgs|
    ensures var rows := RowsBetween(ix.rows, WindowStart(p, from), to);
            ParseRows(p, file, rows, from, |rows|).1 == FullScan(p, file).msgs[from..to]
            <==> ReadsSame(p, FullScan(p, file), WindowStart(p, from), from, to)
  {
    hide FullScan, RowsBetween, ParseRows, Items, Answer, MessageLines, WindowShape, ShapeIgnoresState, AllPresent, RowsMatch, ReadsSame;
    var lo, a := WindowStart(p, from), FullScan(p, file);
    WindowRows(p, ix, file, lo, to);
    SliceItems(p, file, lo, from, to);
    assert |a.rows| == |a.msgs| == |MessageLines(p, a)| == a.next;
    var rows := a.rows[lo..to];
    ParsedRows(p, file, rows, from, from - lo, to - lo);
    AnswersAreSliceIff(p, a, ParseRows(p, file, rows, from, to - lo).1, lo, from, to);
  }

  /** Messages that are the answers from `lo` on are the slice exactly if the answers from there are those of the full parse. */
  lemma {:induction false} AnswersAreSliceIff<S, M>(p: Parser<S, M>, a: Acc<S, M>, served: seq<M>, lo: nat, from: nat, to: nat)
    requires lo <= from <= to <= a.next == |a.msgs| == |MessageLines(p, a)| && |served| == to - from
    requires forall i :: from - lo <= i < to - lo ==> Answer(p, MessageLines(p, a)[lo..to], i) == Some(served[i - (from - lo)])
    ensures served == a.msgs[from..to] <==> ReadsSame(p, a, lo, from, to)
  {
    hide Answer, MessageLines;
    if ReadsSame(p, a, lo, from, to) {
      forall j | 0 <= j < |served| ensures served[j] == a.msgs[from..to][j] {
        assert Answer(p, MessageLines(p, a)[lo..to], from + j - lo) == Some(a.msgs[from + j]);
      }
    }
    if served == a.msgs[from..to] {
      forall k | from <= k < to ensures Answer(p, MessageLines(p, a)[lo..to], k - lo) == Some(a.msgs[k]) {
        assert a.msgs[k] == served[k - lo - (from - lo)];
      }
    }
  }

  /**
   * Exactly when an index that lacks no row is true of another file of the same size, or read by another
   * reducer: the rows that reducer gives that file are the rows it was built of.
   */
  lemma {:induction false} StaysTrueIff<S(!new), M(!new)>(p: Parser<S, M>, ix: Index<S>, old_: seq<Byte>, q: Parser<S, M>, file: seq<Byte>)
    requires ShapeIgnoresState(p) && ShapeIgnoresState(q) && Represents(p, ix, old_) && |file| == |old_|
    requires ix.rows.Keys == Numbers(0, FullScan(p, old_).next)
    ensures Represents(q, ix, file) <==> SplitLines(file, 0).consumed == |file| && FullScan(q, file).rows == FullScan(p, old_).rows
  {
    FullScanInStep(p, old_);
    FullScanInStep(q, file);
    hide FullScan, SplitLines;
    var mine, theirs := FullScan(p, old_).rows, FullScan(q, file).rows;
    assert forall k :: 0 <= k < |mine| ==> k in ix.rows.Keys;
    if Represents(q, ix, file) {
      forall k | 0 <= k < |mine| ensures theirs[k] == mine[k] { assert k in ix.rows; }
      assert theirs == mine;
    }
    hide InStep;
  }

  /** The slice `[fromIndex, toIndex)` of a full parse, with the clamping a page applies. */
  function PageOf<M>(msgs: seq<M>, fromIndex: int, toIndex: int): Page<M> {
    var from := if fromIndex < 0 then 0 else fromIndex;
    var to := if toIndex < |msgs| then toIndex else |msgs|;
    Page(if from <= to then msgs[from..to] else [], |msgs|, from)
  }

  /**
   * A window the index serves is the slice of a full parse of the current file, as long as no
   * row it needs has been lost: for a stateless reducer always, for a stateful one whenever
   * its memory reaches back at most eight messages.
   */
  lemma {:induction false} WindowServesSlice<S(!new), M(!new)>(p: Parser<S, M>,
                                                               view: (seq<(Line, nat)>, Line, nat) -> Option<M>,
                                                               ix: Index<S>, file: seq<Byte>, identity: nat,
                                                               fromIndex: int, toIndex: int)
    requires Lawful(p) && (p.stateful ==> RemembersEight(p, view))
    requires |file| == ExpectedStart(ix) ==> ix.fileState.None? || Represents(p, ix, file)
    requires AllPresent(ix.rows, WindowStart(p, if fromIndex < 0 then 0 else fromIndex), FullScan(p, file).next)
    ensures var w := Window(Some(p), ix, file, identity, fromIndex, toIndex);
            w.Some? ==> w.value == PageOf(FullScan(p, file).msgs, fromIndex, toIndex)
  {
    hide FullScan, SplitLines, ParseRows, RowsBetween, RowsMatch, RemembersEight;
    FullScanInStep(p, file);
    var from := if fromIndex < 0 then 0 else fromIndex;
    var to := if toIndex < FullScan(p, file).next then toIndex else FullScan(p, file).next;
    if Window(Some(p), ix, file, identity, fromIndex, toIndex).Some? && from < to {
      assert ix.fileState.value.lastMessageIndex + 1 == FullScan(p, file).next;
      WindowMessages(p, view, ix, file, from, to);
    }
    hide WindowStart, AllPresent, Lawful;
  }

  /**
   * When a served page is right: only if every row of the page is still in the table, and, for a reducer
   * whose memory reaches back at most eight messages, whenever the lookback rows are there too. For a
   * stateless one, which reads no others, exactly then. Rows can go missing without the file state
   * knowing: `clearAll` and `dropRowsById` leave it as it is.
   */
  lemma {:induction false} PageIsSliceIffRowsPresent<S(!new), M(!new)>(p: Parser<S, M>,
                                                                       view: (seq<(Line, nat)>, Line, nat) -> Option<M>,
                                                                       ix: Index<S>, file: seq<Byte>, identity: nat,
                                                                       fromIndex: nat, toIndex: nat)
    requires Lawful(p) && (p.stateful ==> RemembersEight(p, view)) && Represents(p, ix, file)
    requires fromIndex < toIndex <= FullScan(p, file).next
    requires Window(Some(p), ix, file, identity, fromIndex, toIndex).Some?
    ensures FullScan(p, file).next == |FullScan(p, file).msgs|
    ensures var right := Window(Some(p), ix, file, identity, fromIndex, toIndex).value.messages
                           == FullScan(p, file).msgs[fromIndex..toIndex];
            && (right ==> AllPresent(ix.rows, fromIndex, toIndex))
            && (AllPresent(ix.rows, WindowStart(p, fromIndex), toIndex) ==> right)
            && (!p.stateful ==> (right <==> AllPresent(ix.rows, fromIndex, toIndex)))
  {
    ServedCount(p, ix, file, fromIndex, toIndex);
    if AllPresent(ix.rows, WindowStart(p, fromIndex), toIndex) {
      WindowMessages(p, view, ix, file, fromIndex, toIndex);
    }
    hide FullScan, ParseRows, RowsBetween, AllPresent;
  }

  /** A page holds one message per row present: fewer than it covers as soon as one row is lost. */
  lemma {:induction false} ServedCount<S(!new), M>(p: Parser<S, M>, ix: Index<S>, file: seq<Byte>, from: nat, to: nat)
    requires ShapeIgnoresState(p) && Represents(p, ix, file)
    requires from < to <= FullScan(p, file).next
    ensures FullScan(p, file).next == |FullScan(p, file).msgs|
    ensures var rows := RowsBetween(ix.rows, WindowStart(p, from), to);
            |ParseRows(p, file, rows, from, |rows|).1| == to - from <==> AllPresent(ix.rows, from, to)
  {
    var lo := WindowStart(p, from);
    RowsAreMessages(p, file);
    RowsBetweenSplit(ix.rows, lo, from, to);
    RowsBetweenCount(ix.rows, lo, from);
    RowsBetweenCount(ix.rows, from, to);
    var before, rows := RowsBetween(ix.rows, lo, from), RowsBetween(ix.rows, lo, to);
    assert WindowShape(p, file, rows, from, |before|);
    ParsedRows(p, file, rows, from, |before|, |rows|);
  }
}
