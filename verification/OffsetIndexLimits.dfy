/**
 * Where the offset index stops agreeing with a full parse: concrete files showing that each
 * condition of the theorems in OffsetIndexRuns is needed.
 */
module OffsetIndexLimits {
  import opened Common
  import opened LineSplit
  import opened LineScan
  import opened OffsetIndex
  import opened OffsetIndexRuns

  /** A file of one-byte lines. */
  lemma {:induction false} OneByteLines(file: seq<Byte>, k: nat)
    requires 2 * k <= |file| && forall i :: 0 <= i < k ==> file[2 * i] != NEWLINE && file[2 * i + 1] == NEWLINE
    ensures var r := SplitTo(file, 0, 2 * k);
            && r.consumed == 2 * k && |r.spans| == k
            && forall i :: 0 <= i < k ==> r.spans[i] == LineSpan(2 * i, 1, [file[2 * i]])
  {
    if k > 0 {
      OneByteLines(file, k - 1);
      assert SplitTo(file, 0, 2 * k - 1) == SplitTo(file, 0, 2 * (k - 1));
      assert file[2 * (k - 1)..2 * k - 1] == [file[2 * (k - 1)]];
    }
  }

  // ── Lost rows ───────────────────────────────────────────────────────────────

  /** Every line is a message: its own text. */
  function Echo(): Parser<bool, Line> {
    Parser(false, false, (s: bool, l: Line, i: nat) => (s, Some(l)))
  }

  lemma {:induction false} EchoScan(file: seq<Byte>, k: nat)
    requires |file| == 2 * k && forall i :: 0 <= i < k ==> file[2 * i] != NEWLINE && file[2 * i + 1] == NEWLINE
    ensures var a := FullScan(Echo(), file);
            && Whole(file, 0) && a.next == k == |a.msgs| == |a.rows|
            && forall i :: 0 <= i < k ==> a.msgs[i] == [file[2 * i]] && a.rows[i] == Row(i, 2 * i, 1)
  {
    OneByteLines(file, k);
    EchoScanTo(file, SplitLines(file, 0).spans, k);
  }

  lemma {:induction false} EchoScanTo(file: seq<Byte>, spans: seq<LineSpan>, n: nat)
    requires n <= |spans| && 2 * |spans| <= |file|
    requires forall i :: 0 <= i < |spans| ==> spans[i] == LineSpan(2 * i, 1, [file[2 * i]])
    ensures var a := ScanTo(Echo(), Fresh(false), spans, n);
            && a.next == n == |a.msgs| == |a.rows|
            && forall i :: 0 <= i < n ==> a.msgs[i] == [file[2 * i]] && a.rows[i] == Row(i, 2 * i, 1)
  {
    if n > 0 { EchoScanTo(file, spans, n - 1); }
  }

  lemma RunOfTwo<S, M>(p: Parser<S, M>, w: World<S>, a: Event, b: Event)
    ensures RunSteps(p, w, [a, b]) == Step(p, Step(p, w, a), b)
  {
    assert [a, b][1..] == [b] && [b][1..] == [];
    assert RunSteps(p, Step(p, w, a), [b]) == RunSteps(p, Step(p, Step(p, w, a), b), []);
  }

  lemma RunOfThree<S, M>(p: Parser<S, M>, w: World<S>, a: Event, b: Event, c: Event)
    ensures RunSteps(p, w, [a, b, c]) == Step(p, Step(p, Step(p, w, a), b), c)
  {
    assert [a, b, c][1..] == [b, c];
    RunOfTwo(p, Step(p, w, a), b, c);
  }

  lemma RunOfFour<S, M>(p: Parser<S, M>, w: World<S>, a: Event, b: Event, c: Event, d: Event)
    ensures RunSteps(p, w, [a, b, c, d]) == Step(p, Step(p, Step(p, Step(p, w, a), b), c), d)
  {
    assert [a, b, c, d][1..] == [b, c, d];
    RunOfThree(p, Step(p, w, a), b, c, d);
  }

  lemma RunOfFive<S, M>(p: Parser<S, M>, w: World<S>, a: Event, b: Event, c: Event, d: Event, e: Event)
    ensures RunSteps(p, w, [a, b, c, d, e]) == Step(p, Step(p, Step(p, Step(p, Step(p, w, a), b), c), d), e)
  {
    assert [a, b, c, d, e][1..] == [b, c, d, e];
    RunOfFour(p, Step(p, w, a), b, c, d, e);
  }

  /** A tailed file of one line after a backfill. */
  const ONE_LINE: World<bool> := World([97, 10], 1, Some(2), true, Index(map[0 := Row(0, 0, 1)], Some(FileState(1, 2, 0)), None))

  lemma BackfilledOneLine()
    ensures Step(Echo(), World([97, 10], 1, Some(2), true, EmptyIndex()), BackfillNow) == ONE_LINE
  {
    EchoScan([97, 10], 1);
    assert InsertTo(map[], FullScan(Echo(), [97, 10]).rows, 1) == map[0 := Row(0, 0, 1)];
  }

  /** The next line's read, on an index whose only row was dropped. */
  lemma ReadAfterLoss(w: World<bool>)
    requires w == World([97, 10, 98, 10], 1, Some(2), true, Index(map[], Some(FileState(1, 2, 0)), None))
    ensures Step(Echo(), w, Poll) == w.(watch := Some(4), ix := Index(map[1 := Row(1, 2, 1)], Some(FileState(1, 4, 1)), None))
  {
    hide SplitTo, ScanTo, InsertTo;
    assert w.file[2..] == [98, 10];
    SecondLine();
    var a := Scan(Echo(), ResumeAcc(Echo(), w.ix), [LineSpan(2, 1, [98])]);
    OneLineScanned(ResumeAcc(Echo(), w.ix));
    assert a.rows == [Row(1, 2, 1)] && a.next == 2;
    OneRowInserted(Row(1, 2, 1));
  }

  lemma SecondLine()
    ensures SplitLines([98, 10], 2) == Split([LineSpan(2, 1, [98])], 2)
  {
    assert SplitTo([98, 10], 2, 1) == Split([], 0);
    assert [98, 10][0..1] == [98];
  }

  lemma OneLineScanned(a: Acc<bool, Line>)
    ensures var b := Scan(Echo(), a, [LineSpan(2, 1, [98])]);
            b.rows == a.rows + [Row(a.next, 2, 1)] && b.next == a.next + 1
  {
    assert ScanTo(Echo(), a, [LineSpan(2, 1, [98])], 0) == a;
  }

  lemma OneRowInserted(r: Row)
    ensures InsertRows(map[], [r]) == map[r.messageIndex := r]
  {
    assert InsertTo(map[], [r], 0) == map[];
  }

  /**
   * `dropRowsById` or `clearAll` on a tailed file, a rescan that brings its meta row back, then one
   * append: the index still claims the old messages, has a row only for the new one, and serves
   * that one as the whole page.
   */
  lemma LostRowsServeShortPage()
    ensures var w := RunSteps(Echo(), World([97, 10], 1, Some(2), true, EmptyIndex()),
                              [BackfillNow, LoseRows({0}), Learn(true), Append([98, 10]), Poll]);
            && w.file == [97, 10, 98, 10]
            && FullScan(Echo(), w.file).msgs == [[97], [98]]
            && ServeWindow(Echo(), w, 0, 2) == Some(Page([[98]], 2, 0))
  {
    hide SplitTo, ScanTo, InsertTo, ParseRows, RowsBetween, ReadNewLines, Backfill;
    RunOfFive(Echo(), World([97, 10], 1, Some(2), true, EmptyIndex()), BackfillNow, LoseRows({0}), Learn(true), Append([98, 10]), Poll);
    BackfilledOneLine();
    var w3 := Step(Echo(), Step(Echo(), Step(Echo(), ONE_LINE, LoseRows({0})), Learn(true)), Append([98, 10]));
    assert w3 == World([97, 10, 98, 10], 1, Some(2), true, Index(map[], Some(FileState(1, 2, 0)), None)) by {
      assert ONE_LINE.ix.rows - {0} == map[];
      assert [97, 10] + [98, 10] == [97, 10, 98, 10];
    }
    ReadAfterLoss(w3);
    EchoScan([97, 10, 98, 10], 2);
    ShortPage(Step(Echo(), w3, Poll));
    assert FullScan(Echo(), [97, 10, 98, 10]).msgs == [[97], [98]];
  }

  lemma ShortPage(w: World<bool>)
    requires w == World([97, 10, 98, 10], 1, Some(4), true, Index(map[1 := Row(1, 2, 1)], Some(FileState(1, 4, 1)), None))
    ensures ServeWindow(Echo(), w, 0, 2) == Some(Page([[98]], 2, 0))
  {
    assert RowsBetween(w.ix.rows, 0, 0) == [] && RowsBetween(w.ix.rows, 0, 1) == [];
    assert RowsBetween(w.ix.rows, 0, 2) == [Row(1, 2, 1)];
    assert TextAt(w.file, Row(1, 2, 1)) == [98];
    assert ParseRows(Echo(), w.file, [Row(1, 2, 1)], 0, 0) == (false, []);
    assert ParseRows(Echo(), w.file, [Row(1, 2, 1)], 0, 1).1 == [[98]];
  }

  // ── A file that grows back over its index ───────────────────────────────────

  /** Two lines, the first two bytes long. */
  const INDEXED: seq<Byte> := [97, 97, 10, 98, 10]
  /** Other content of the same size. */
  const REGROWN: seq<Byte> := [99, 10, 100, 100, 10]

  lemma SplitsOfFive()
    ensures SplitLines(INDEXED, 0) == Split([LineSpan(0, 2, [97, 97]), LineSpan(3, 1, [98])], 5)
    ensures SplitLines(REGROWN, 0) == Split([LineSpan(0, 1, [99]), LineSpan(2, 2, [100, 100])], 5)
  {
    assert SplitTo(INDEXED, 0, 2) == Split([], 0);
    assert INDEXED[0..2] == [97, 97] && INDEXED[3..4] == [98];
    assert SplitTo(INDEXED, 0, 3) == Split([LineSpan(0, 2, [97, 97])], 3);
    assert SplitTo(INDEXED, 0, 4) == Split([LineSpan(0, 2, [97, 97])], 3);
    assert SplitTo(REGROWN, 0, 1) == Split([], 0);
    assert REGROWN[0..1] == [99] && REGROWN[2..4] == [100, 100];
    assert SplitTo(REGROWN, 0, 2) == Split([LineSpan(0, 1, [99])], 2);
    assert SplitTo(REGROWN, 0, 4) == Split([LineSpan(0, 1, [99])], 2) by {
      assert SplitTo(REGROWN, 0, 3) == Split([LineSpan(0, 1, [99])], 2);
    }
  }

  lemma EchoOfTwo(x: LineSpan, y: LineSpan)
    ensures var a := Scan(Echo(), Fresh(false), [x, y]);
            && a.msgs == [x.text, y.text] && a.next == 2
            && a.rows == [Row(0, x.byteOffset, x.byteLength), Row(1, y.byteOffset, y.byteLength)]
  {
    assert ScanTo(Echo(), Fresh(false), [x, y], 1).msgs == [x.text];
  }

  lemma IndexedFive()
    ensures Backfill(Some(Echo()), INDEXED, 1)
         == Index(map[0 := Row(0, 0, 2), 1 := Row(1, 3, 1)], Some(FileState(1, 5, 1)), None)
  {
    SplitsOfFive();
    EchoOfTwo(LineSpan(0, 2, [97, 97]), LineSpan(3, 1, [98]));
    assert InsertTo(map[], [Row(0, 0, 2), Row(1, 3, 1)], 1) == map[0 := Row(0, 0, 2)];
  }

  lemma OldSpansPage(ix: Index<bool>)
    requires ix == Index(map[0 := Row(0, 0, 2), 1 := Row(1, 3, 1)], Some(FileState(1, 5, 1)), None)
    ensures Window(Some(Echo()), ix, REGROWN, 1, 0, 2) == Some(Page([[99, 10], [100]], 2, 0))
  {
    var rows := [Row(0, 0, 2), Row(1, 3, 1)];
    assert RowsBetween(ix.rows, 0, 0) == [] && RowsBetween(ix.rows, 0, 1) == [Row(0, 0, 2)];
    assert RowsBetween(ix.rows, 0, 2) == rows;
    assert TextAt(REGROWN, rows[0]) == [99, 10] && TextAt(REGROWN, rows[1]) == [100];
    assert ParseRows(Echo(), REGROWN, rows, 0, 0) == (false, []);
    assert ParseRows(Echo(), REGROWN, rows, 0, 1).1 == [[99, 10]];
    assert ParseRows(Echo(), REGROWN, rows, 0, 2).1 == [[99, 10], [100]];
  }

  /**
   * A file rewritten shorter and grown back to its indexed size before the tail looks again is
   * served by the old spans. `Allowed` rules out exactly the append that crosses the index.
   */
  lemma RegrowthServesOldSpans()
    ensures var w := RunSteps(Echo(), World(INDEXED, 1, None, true, EmptyIndex()), [BackfillNow, Rewrite([], 1), Append(REGROWN)]);
            && FullScan(Echo(), w.file).msgs == [[99], [100, 100]]
            && ServeWindow(Echo(), w, 0, 2) == Some(Page([[99, 10], [100]], 2, 0))
            && !Allowed(w.(file := []), Append(REGROWN))
  {
    hide SplitTo, ScanTo, InsertTo, ParseRows, RowsBetween;
    RunOfThree(Echo(), World(INDEXED, 1, None, true, EmptyIndex()), BackfillNow, Rewrite([], 1), Append(REGROWN));
    IndexedFive();
    assert [] + REGROWN == REGROWN;
    OldSpansPage(Backfill(Some(Echo()), INDEXED, 1));
    SplitsOfFive();
    EchoOfTwo(LineSpan(0, 1, [99]), LineSpan(2, 2, [100, 100]));
  }

  /** When the index would have stayed true of the regrown file: exactly if both files give the same rows. */
  lemma RegrownStaysTrueIff<S(!new), M(!new)>(p: Parser<S, M>, indexed: seq<Byte>, file: seq<Byte>, identity: nat)
    requires ShapeIgnoresState(p) && Whole(indexed, 0) && |file| == |indexed|
    ensures Represents(p, Backfill(Some(p), indexed, identity), file)
            <==> Whole(file, 0) && FullScan(p, file).rows == FullScan(p, indexed).rows
  {
    BackfillRepresents(p, indexed, identity);
    assert indexed[..|indexed|] == indexed;
    StaysTrueIff(p, Backfill(Some(p), indexed, identity), indexed, p, file);
  }

  // ── A provider that changes over a kept index ───────────────────────────────

  /** No line is a message. */
  function Mute(): Parser<bool, Line> {
    Parser(false, false, (s: bool, l: Line, i: nat) => (s, None))
  }

  /** The meta row of an indexed file comes to name another reducer: the old one's rows are served as messages that are none. */
  lemma SwitchServesOldRows()
    ensures var w := Step(Echo(), World([97, 10], 1, Some(2), true, EmptyIndex()), BackfillNow);
            && FullScan(Mute(), w.file).msgs == []
            && ServeWindow(Mute(), w, 0, 1) == Some(Page([], 1, 0))
            && !NothingToServe(w)
  {
    BackfilledOneLine();
    hide SplitTo;
    MuteScan(SplitLines([97, 10], 0).spans, |SplitLines([97, 10], 0).spans|);
    assert RowsBetween(ONE_LINE.ix.rows, 0, 0) == [] && RowsBetween(ONE_LINE.ix.rows, 0, 1) == [Row(0, 0, 1)];
    assert ParseRows(Mute(), ONE_LINE.file, [Row(0, 0, 1)], 0, 0) == (false, []);
    assert ParseRows(Mute(), ONE_LINE.file, [Row(0, 0, 1)], 0, 1).1 == [];
  }

  lemma {:induction false} MuteScan(spans: seq<LineSpan>, n: nat)
    requires n <= |spans|
    ensures ScanTo(Mute(), Fresh(false), spans, n).msgs == []
  {
    if n > 0 { MuteScan(spans, n - 1); }
  }

  /** An index that lacks no row stays true under another reducer exactly if that one gives the file the same rows. */
  lemma SwitchStaysTrueIff<S(!new), M(!new)>(p: Parser<S, M>, q: Parser<S, M>, file: seq<Byte>, identity: nat)
    requires ShapeIgnoresState(p) && ShapeIgnoresState(q) && Whole(file, 0)
    ensures Represents(q, Backfill(Some(p), file, identity), file) <==> FullScan(q, file).rows == FullScan(p, file).rows
  {
    BackfillRepresents(p, file, identity);
    assert file[..|file|] == file;
    StaysTrueIff(p, Backfill(Some(p), file, identity), file, q, file);
  }

  // ── A message that depends on the ninth message before it ───────────────────

  const USE: Byte := 117
  const RESULT: Byte := 114
  const OTHER: Byte := 120

  /** A result is typed only while an earlier use is still pending. */
  function Pending(): Parser<bool, bool> {
    Parser(true, false, (s: bool, l: Line, i: nat) =>
      if l == [] then (s, Some(false))
      else if l[0] == USE then (true, Some(false))
      else if l[0] == RESULT then (false, Some(s)) else (s, Some(false)))
  }

  const NINE_APART: seq<Byte> := [
    USE, 10, OTHER, 10, OTHER, 10, OTHER, 10, OTHER, 10, OTHER, 10, OTHER, 10, OTHER, 10, OTHER, 10, RESULT, 10]

  lemma {:induction false} PendingScan(spans: seq<LineSpan>, n: nat)
    requires 1 <= n <= |spans| && spans[0].text == [USE] && forall i :: 1 <= i < n ==> spans[i].text == [OTHER]
    ensures var a := ScanTo(Pending(), Fresh(false), spans, n);
            && a.state && a.next == n == |a.msgs| == |a.rows|
            && forall i :: 0 <= i < n ==> a.rows[i] == Row(i, spans[i].byteOffset, spans[i].byteLength)
  {
    if n == 1 {
      assert ScanTo(Pending(), Fresh(false), spans, 0) == Fresh(false);
    } else {
      PendingScan(spans, n - 1);
    }
  }

  lemma {:induction false} PendingRows(file: seq<Byte>, rows: seq<Row>, n: nat)
    requires n <= |rows| && forall i :: 0 <= i < n ==> TextAt(file, rows[i]) == [OTHER] && rows[i].messageIndex < 9
    ensures ParseRows(Pending(), file, rows, 9, n).0 == false && ParseRows(Pending(), file, rows, 9, n).1 == []
  {
    if n > 0 {
      PendingRows(file, rows, n - 1);
      OtherIsPending(rows[n - 1].messageIndex);
      assert ParseRows(Pending(), file, rows, 9, n).0 == Pending().step(false, [OTHER], rows[n - 1].messageIndex).0;
      assert ParseRows(Pending(), file, rows, 9, n).1 == [];
    }
    hide *;
  }

  lemma OtherIsPending(i: nat)
    ensures Pending().step(false, [OTHER], i) == (false, Some(false))
  {
    assert [OTHER][0] == OTHER;
  }

  lemma NineApartScan()
    ensures var a := FullScan(Pending(), NINE_APART);
            && Whole(NINE_APART, 0) && a.next == 10 == |a.msgs| == |a.rows| && a.msgs[9] == true
            && forall i :: 0 <= i < 10 ==> a.rows[i] == Row(i, 2 * i, 1)
  {
    var file := NINE_APART;
    assert forall i :: 0 <= i < 10 ==> file[2 * i] != NEWLINE && file[2 * i + 1] == NEWLINE;
    OneByteLines(file, 10);
    var spans := SplitLines(file, 0).spans;
    forall i | 1 <= i < 9 ensures spans[i].text == [OTHER] {
      assert file[2 * i] == OTHER;
    }
    PendingScan(spans, 9);
    var nine := ScanTo(Pending(), Fresh(false), spans, 9);
    assert spans[9] == LineSpan(18, 1, [RESULT]);
    assert FullScan(Pending(), file) == Feed(Pending(), nine, spans[9]);
  }

  /** A use nine messages back is outside the lookback: the window serves the result untyped. */
  lemma NinthMessageBackIsMissed()
    ensures var ix := Backfill(Some(Pending()), NINE_APART, 1);
            && |FullScan(Pending(), NINE_APART).msgs| == 10
            && FullScan(Pending(), NINE_APART).msgs[9] == true
            && Window(Some(Pending()), ix, NINE_APART, 1, 9, 10) == Some(Page([false], 10, 9))
  {
    hide ScanTo, SplitTo;
    var file := NINE_APART;
    NineApartScan();
    var a := FullScan(Pending(), file);
    var ix := Backfill(Some(Pending()), file, 1);
    InsertedRows(map[], a.rows, 0, 10);
    RowsBetweenCount(ix.rows, 1, 10);
    var rows := RowsBetween(ix.rows, 1, 10);
    forall i | 0 <= i < 9 ensures rows[i] == Row(i + 1, 2 * (i + 1), 1) {
      assert rows[i].messageIndex == 1 + i;
    }
    LastRowUntyped(rows);
  }

  lemma LastRowUntyped(rows: seq<Row>)
    requires |rows| == 9 && forall i :: 0 <= i < 9 ==> rows[i] == Row(i + 1, 2 * (i + 1), 1)
    ensures ParseRows(Pending(), NINE_APART, rows, 9, 9).1 == [false]
  {
    var file := NINE_APART;
    forall i | 0 <= i < 8 ensures TextAt(file, rows[i]) == [OTHER] {
      assert file[2 * (i + 1)] == OTHER;
      assert file[2 * (i + 1)..2 * (i + 1) + 1] == [file[2 * (i + 1)]];
    }
    PendingRows(file, rows, 8);
    assert TextAt(file, rows[8]) == [RESULT];
  }
}
