/**
 * The offset index over whole runs: a file that grows, is rewritten shorter, is watched,
 * missed, backfilled, while the server restarts and rows get dropped
 * (src/server-wiring.ts, src/services/conversations/conversationWatcher.ts).
 */
module OffsetIndexRuns {
  import opened Common
  import opened LineSplit
  import opened LineScan
  import opened OffsetIndex

  /** `watch` is the tail's byte offset; `known` says the file's meta row names an indexable provider. */
  datatype World<S> = World(file: seq<Byte>, identity: nat, watch: Option<nat>, known: bool, ix: Index<S>)

  datatype Event =
    | Append(bytes: seq<Byte>)
    | Rewrite(file: seq<Byte>, identity: nat)  // truncated in place, or replaced by another file
    | Attach                        // a tail starts at the current end of file
    | Detach
    | Poll                          // the tail reads what was appended
    | PollLost                      // it reads, but the index callback fails
    | BackfillNow
    | Restart                       // tails and reducer state are gone, tables stay
    | LoseRows(lost: set<nat>)      // clearAll / dropRowsById: rows and the meta row
    | Learn(known: bool)

  function ParserOf<S, M>(p: Parser<S, M>, w: World<S>): Option<Parser<S, M>> {
    if w.known then Some(p) else None
  }

  /** `onNewLineSpans`: extend, or rebuild when the read is declined. */
  function OnNewLineSpans<S, M>(p: Parser<S, M>, w: World<S>, spans: seq<LineSpan>, readFrom: nat, endOffset: nat): Index<S> {
    var r := Extend(ParserOf(p, w), w.ix, spans, w.identity, readFrom, endOffset);
    if r.1.Some? then r.0 else Backfill(ParserOf(p, w), w.file, w.identity)
  }

  /** A tail past the end of the file restarts at 0 and drops the index. */
  function SeeTruncation<S>(w: World<S>): World<S> {
    if w.watch.Some? && |w.file| < w.watch.value then w.(watch := Some(0), ix := EmptyIndex()) else w
  }

  /** One read of the tail; the index is told only about reads that hold a nonblank complete line. */
  function ReadNewLines<S, M>(p: Parser<S, M>, w: World<S>, lost: bool): World<S> {
    var t := SeeTruncation(w);
    if t.watch.None? || |t.file| <= t.watch.value then t
    else
      var from := t.watch.value;
      var sp := SplitLines(t.file[from..], from);
      var end := from + sp.consumed;
      t.(watch := Some(end),
         ix := if sp.spans == [] || lost then t.ix else OnNewLineSpans(p, t, sp.spans, from, end))
  }

  function Step<S, M>(p: Parser<S, M>, w: World<S>, e: Event): World<S> {
    match e
    case Append(bytes) => w.(file := w.file + bytes)
    case Rewrite(file, identity) => w.(file := file, identity := identity)
    case Attach => if w.watch.Some? then w else w.(watch := Some(|w.file|))
    case Detach => w.(watch := None)
    case Poll => ReadNewLines(p, w, false)
    case PollLost => ReadNewLines(p, w, true)
    case BackfillNow => w.(ix := Backfill(ParserOf(p, w), w.file, w.identity))
    case Restart => w.(watch := None, ix := w.ix.(parseState := None))
    case LoseRows(lost) => w.(known := false, ix := w.ix.(rows := w.ix.rows - lost))
    case Learn(known) => w.(known := known)
  }

  function RunSteps<S, M>(p: Parser<S, M>, w: World<S>, es: seq<Event>): World<S>
    decreases |es|
  {
    if es == [] then w else RunSteps(p, Step(p, w, es[0]), es[1..])
  }

  // ── The invariant ───────────────────────────────────────────────────────────

  /** The index is of another file than the one there now. */
  predicate Replaced<S>(w: World<S>) {
    w.ix.fileState.Some? && w.ix.fileState.value.identity != w.identity
  }

  /** The indexed bytes are still the file's, or the file is visibly another one or shorter than what was indexed. */
  ghost predicate Sound<S, M>(p: Parser<S, M>, w: World<S>) {
    if w.ix.fileState.None? then w.ix.rows == map[]
    else Replaced(w) || |w.file| < ExpectedStart(w.ix) || Represents(p, w.ix, w.file[..ExpectedStart(w.ix)])
  }

  /** Sound, and no row is missing. */
  ghost predicate Intact<S, M>(p: Parser<S, M>, w: World<S>) {
    && Sound(p, w)
    && (w.ix.fileState.Some? && !Replaced(w) && ExpectedStart(w.ix) <= |w.file| ==>
          w.ix.rows.Keys == Numbers(0, FullScan(p, w.file[..ExpectedStart(w.ix)]).next))
  }

  /** A tail that stands exactly at the end of a replaced file's index: its next read would be taken for the old file's. */
  predicate ReadsOn<S>(w: World<S>) {
    Replaced(w) && w.watch == Some(ExpectedStart(w.ix)) && |w.file| > ExpectedStart(w.ix)
  }

  /**
   * What the world may do. A rewrite brings another file or leaves this one shorter than what is
   * indexed, so that it can be seen; a file cut short does not grow back over the index before
   * anyone looks; and no tail reads on from the end of a replaced file's index.
   */
  predicate Allowed<S>(w: World<S>, e: Event) {
    match e
    case Append(bytes) =>
      w.ix.fileState.None? || Replaced(w) || ExpectedStart(w.ix) <= |w.file| || |w.file| + |bytes| < ExpectedStart(w.ix)
    case Rewrite(file, identity) =>
      w.ix.fileState.None? || identity != w.ix.fileState.value.identity || |file| < ExpectedStart(w.ix)
    case Poll => !ReadsOn(w)
    case _ => true
  }

  predicate AllowedRun<S, M>(p: Parser<S, M>, w: World<S>, es: seq<Event>)
    decreases |es|
  {
    es == [] || (Allowed(w, es[0]) && AllowedRun(p, Step(p, w, es[0]), es[1..]))
  }

  lemma {:induction false} BackfillIsIntact<S(!new), M(!new)>(p: Parser<S, M>, w: World<S>)
    requires ShapeIgnoresState(p)
    ensures Intact(p, w.(ix := Backfill(ParserOf(p, w), w.file, w.identity)))
  {
    if w.known {
      BackfillRepresents(p, w.file, w.identity);
      SplitOfConsumed(w.file, 0);
    }
  }

  lemma EmptyFile<S, M>(p: Parser<S, M>)
    ensures FullScan(p, []).next == 0 && FullScan(p, []).rows == []
  {
  }

  /** A contiguous read: the prefix the index describes grows by the read's whole lines. */
  lemma {:induction false} ContiguousRead<S(!new), M(!new)>(p: Parser<S, M>, w: World<S>, from: nat)
    requires ShapeIgnoresState(p) && Sound(p, w) && w.known
    requires from == ExpectedStart(w.ix) && from < |w.file| && !Replaced(w)
    requires SplitLines(w.file[from..], from).spans != []
    ensures var sp := SplitLines(w.file[from..], from);
            var w' := w.(ix := OnNewLineSpans(p, w, sp.spans, from, from + sp.consumed));
            Sound(p, w') && (Intact(p, w) ==> Intact(p, w'))
  {
    hide SplitTo, ScanTo, InsertTo, Kept;
    var sp := SplitLines(w.file[from..], from);
    var prefix, c := w.file[..from], w.file[from..][..sp.consumed];
    SplitOfConsumed(w.file[from..], from);
    assert w.file[..from + sp.consumed] == prefix + c;
    if w.ix.fileState.None? { assert prefix == []; }
    ExtendRepresents(p, w.ix, prefix, c, w.identity);
    if Intact(p, w) {
      if w.ix.fileState.None? { assert FullScan(p, prefix).next == 0 by { EmptyFile(p); } }
      assert Numbers(0, FullScan(p, prefix).next) + Numbers(FullScan(p, prefix).next, FullScan(p, prefix + c).next)
          == Numbers(0, FullScan(p, prefix + c).next);
    }
  }

  /** The tail's offset alone matters to neither. */
  lemma {:induction false} WatchMayMove<S, M>(p: Parser<S, M>, w: World<S>, watch: Option<nat>)
    requires Sound(p, w)
    ensures Sound(p, w.(watch := watch)) && (Intact(p, w) ==> Intact(p, w.(watch := watch)))
  {
  }

  lemma {:induction false} TruncationKeeps<S, M>(p: Parser<S, M>, w: World<S>)
    requires Sound(p, w)
    ensures Sound(p, SeeTruncation(w)) && (Intact(p, w) ==> Intact(p, SeeTruncation(w)))
    ensures ReadsOn(SeeTruncation(w)) ==> ReadsOn(w)
  {
  }

  lemma DeclinedWhenBehind<S, M>(p: Parser<S, M>, ix: Index<S>, spans: seq<LineSpan>, identity: nat, from: nat, end: nat)
    requires from != ExpectedStart(ix)
    ensures Extend(Some(p), ix, spans, identity, from, end).1.None?
  {
  }

  /** What the index callback does with a read, before the tail's offset moves. */
  lemma {:induction false} CallbackKeeps<S(!new), M(!new)>(p: Parser<S, M>, t: World<S>, from: nat)
    requires ShapeIgnoresState(p) && Sound(p, t) && !ReadsOn(t) && t.watch == Some(from) && from < |t.file|
    requires SplitLines(t.file[from..], from).spans != []
    ensures var sp := SplitLines(t.file[from..], from);
            var u := t.(ix := OnNewLineSpans(p, t, sp.spans, from, from + sp.consumed));
            Sound(p, u) && (Intact(p, t) ==> Intact(p, u))
  {
    var sp := SplitLines(t.file[from..], from);
    if t.known {
      if from == ExpectedStart(t.ix) {
        ContiguousRead(p, t, from);
      } else {
        BackfillIsIntact(p, t);
        DeclinedWhenBehind(p, t.ix, sp.spans, t.identity, from, from + sp.consumed);
      }
    } else {
      assert t == t.(ix := OnNewLineSpans(p, t, sp.spans, from, from + sp.consumed));
    }
    hide Sound, Intact, SplitLines, Extend, Backfill;
  }

  lemma {:induction false} ReadKeepsInvariant<S(!new), M(!new)>(p: Parser<S, M>, w: World<S>, lost: bool)
    requires ShapeIgnoresState(p) && Sound(p, w) && (lost || !ReadsOn(w))
    ensures Sound(p, ReadNewLines(p, w, lost))
    ensures Intact(p, w) ==> Intact(p, ReadNewLines(p, w, lost))
  {
    hide Sound, Intact, SeeTruncation, ReadsOn, OnNewLineSpans, SplitLines;
    TruncationKeeps(p, w);
    var t := SeeTruncation(w);
    if t.watch.Some? && t.watch.value < |t.file| {
      var from := t.watch.value;
      var sp := SplitLines(t.file[from..], from);
      WatchMayMove(p, t, Some(from + sp.consumed));
      if sp.spans != [] && !lost {
        CallbackKeeps(p, t, from);
        WatchMayMove(p, t.(ix := OnNewLineSpans(p, t, sp.spans, from, from + sp.consumed)), Some(from + sp.consumed));
      }
    }
  }

  lemma {:induction false} StepKeepsInvariant<S(!new), M(!new)>(p: Parser<S, M>, w: World<S>, e: Event)
    requires ShapeIgnoresState(p) && Sound(p, w) && Allowed(w, e)
    ensures Sound(p, Step(p, w, e))
    ensures Intact(p, w) && !e.LoseRows? ==> Intact(p, Step(p, w, e))
  {
    match e
    case Append(bytes) =>
      if w.ix.fileState.Some? && ExpectedStart(w.ix) <= |w.file| {
        assert (w.file + bytes)[..ExpectedStart(w.ix)] == w.file[..ExpectedStart(w.ix)];
      }
    case Poll => ReadKeepsInvariant(p, w, false);
    case PollLost => ReadKeepsInvariant(p, w, true);
    case BackfillNow => BackfillIsIntact(p, w);
    case _ =>
  }

  lemma {:induction false} StretchKeepsInvariant<S(!new), M(!new)>(p: Parser<S, M>, w: World<S>, es: seq<Event>)
    requires ShapeIgnoresState(p) && Sound(p, w) && AllowedRun(p, w, es)
    ensures Sound(p, RunSteps(p, w, es))
    ensures Intact(p, w) && (forall e :: e in es ==> !e.LoseRows?) ==> Intact(p, RunSteps(p, w, es))
    decreases |es|
  {
    if es != [] {
      StepKeepsInvariant(p, w, es[0]);
      StretchKeepsInvariant(p, Step(p, w, es[0]), es[1..]);
    }
  }

  // ── Runs in which the meta row changes its provider ─────────────────────────

  /** A stretch of a run in which the meta row, whenever it is there, names one reducer. */
  datatype Stretch<!S, !M> = Stretch(p: Parser<S, M>, es: seq<Event>)

  function RunAll<S, M>(w: World<S>, run: seq<Stretch<S, M>>): World<S>
    decreases |run|
  {
    if run == [] then w else RunAll(RunSteps(run[0].p, w, run[0].es), run[1..])
  }

  /** There is no index, or it is visibly not of the file as it stands. */
  predicate NothingToServe<S>(w: World<S>) {
    w.ix.fileState.None? || Replaced(w) || |w.file| < ExpectedStart(w.ix)
  }

  /** The provider changes only while there is nothing to serve. */
  ghost predicate AllowedAll<S(!new), M(!new)>(w: World<S>, run: seq<Stretch<S, M>>)
    decreases |run|
  {
    run == [] ||
    (ShapeIgnoresState(run[0].p) && NothingToServe(w) && AllowedRun(run[0].p, w, run[0].es)
     && AllowedAll(RunSteps(run[0].p, w, run[0].es), run[1..]))
  }

  predicate LosesNothing<S, M>(run: seq<Stretch<S, M>>) {
    forall i :: 0 <= i < |run| ==> forall e :: e in run[i].es ==> !e.LoseRows?
  }

  /** The reducer the meta row named last. */
  function Reducer<S, M>(run: seq<Stretch<S, M>>): Parser<S, M>
    requires run != []
  {
    run[|run| - 1].p
  }

  lemma {:induction false} RunKeepsInvariant<S(!new), M(!new)>(w: World<S>, run: seq<Stretch<S, M>>)
    requires run != [] && AllowedAll(w, run) && (w.ix.fileState.None? ==> w.ix.rows == map[])
    ensures Sound(Reducer(run), RunAll(w, run))
    ensures LosesNothing(run) ==> Intact(Reducer(run), RunAll(w, run))
    decreases |run|
  {
    var p, es := run[0].p, run[0].es;
    assert Intact(p, w);
    StretchKeepsInvariant(p, w, es);
    var v := RunSteps(p, w, es);
    assert v.ix.fileState.None? ==> v.ix.rows == map[];
    hide Sound, Intact, RunSteps, AllowedRun, NothingToServe;
    if |run| == 1 {
      assert run[1..] == [] && RunAll(v, run[1..]) == v;
    } else {
      assert forall i :: 0 <= i < |run[1..]| ==> run[1..][i] == run[i + 1];
      RunKeepsInvariant(v, run[1..]);
    }
  }

  // ── What any run serves ─────────────────────────────────────────────────────

  function ServeWindow<S, M>(p: Parser<S, M>, w: World<S>, fromIndex: int, toIndex: int): Option<Page<M>> {
    Window(ParserOf(p, w), w.ix, w.file, w.identity, fromIndex, toIndex)
  }

  /**
   * After any run from an empty index in which no row is dropped, a served window is the slice
   * of a full parse of the current file by the reducer now in force.
   */
  lemma {:induction false} RunServesSlices<S(!new), M(!new)>(run: seq<Stretch<S, M>>,
                                                             view: (seq<(Line, nat)>, Line, nat) -> Option<M>,
                                                             w0: World<S>, fromIndex: int, toIndex: int)
    requires run != [] && Lawful(Reducer(run)) && (Reducer(run).stateful ==> RemembersEight(Reducer(run), view))
    requires w0.ix == EmptyIndex() && AllowedAll(w0, run) && LosesNothing(run)
    ensures var p, w := Reducer(run), RunAll(w0, run);
            var page := ServeWindow(p, w, fromIndex, toIndex);
            page.Some? ==> page.value == PageOf(FullScan(p, w.file).msgs, fromIndex, toIndex)
  {
    RunKeepsInvariant(w0, run);
    hide RunAll, AllowedAll;
    IntactServesSlices(Reducer(run), view, RunAll(w0, run), fromIndex, toIndex);
  }

  lemma {:induction false} IntactServesSlices<S(!new), M(!new)>(p: Parser<S, M>,
                                                                view: (seq<(Line, nat)>, Line, nat) -> Option<M>,
                                                                w: World<S>, fromIndex: int, toIndex: int)
    requires Lawful(p) && (p.stateful ==> RemembersEight(p, view)) && Intact(p, w)
    ensures var page := ServeWindow(p, w, fromIndex, toIndex);
            page.Some? ==> page.value == PageOf(FullScan(p, w.file).msgs, fromIndex, toIndex)
  {
    if ServeWindow(p, w, fromIndex, toIndex).Some? {
      assert w.file[..|w.file|] == w.file;
      assert AllPresent(w.ix.rows, WindowStart(p, if fromIndex < 0 then 0 else fromIndex), FullScan(p, w.file).next) by {
        assert forall k: nat :: k < FullScan(p, w.file).next ==> k in w.ix.rows.Keys;
      }
      WindowServesSlice(p, view, w.ix, w.file, w.identity, fromIndex, toIndex);
    }
  }

  /** In the same runs, exactly when a window is served: the index covers the whole file and found a message in it. */
  lemma {:induction false} RunServesWhenCovered<S(!new), M(!new)>(run: seq<Stretch<S, M>>, w0: World<S>, fromIndex: int, toIndex: int)
    requires run != [] && ShapeIgnoresState(Reducer(run))
    requires w0.ix == EmptyIndex() && AllowedAll(w0, run) && LosesNothing(run)
    ensures var p, w := Reducer(run), RunAll(w0, run);
            ServeWindow(p, w, fromIndex, toIndex).Some?
            <==> (w.known && w.ix.fileState.Some? && w.ix.fileState.value.identity == w.identity
                  && ExpectedStart(w.ix) == |w.file| && FullScan(p, w.file).next > 0)
  {
    RunKeepsInvariant(w0, run);
    hide RunAll, AllowedAll;
    IntactServesWhenCovered(Reducer(run), RunAll(w0, run), fromIndex, toIndex);
  }

  lemma {:induction false} IntactServesWhenCovered<S(!new), M(!new)>(p: Parser<S, M>, w: World<S>, fromIndex: int, toIndex: int)
    requires ShapeIgnoresState(p) && Intact(p, w)
    ensures ServeWindow(p, w, fromIndex, toIndex).Some?
            <==> (w.known && w.ix.fileState.Some? && w.ix.fileState.value.identity == w.identity
                  && ExpectedStart(w.ix) == |w.file| && FullScan(p, w.file).next > 0)
  {
    assert w.file[..|w.file|] == w.file;
    hide FullScan, SplitLines, ParseRows, RowsBetween, RowsMatch;
    if w.known && w.ix.fileState.Some? && !Replaced(w) && ExpectedStart(w.ix) == |w.file| {
      FullScanInStep(p, w.file);
      var total := FullScan(p, w.file).next;
      var from := if fromIndex < 0 then 0 else fromIndex;
      var to := if toIndex < total then toIndex else total;
      if from < to {
        assert AllPresent(w.ix.rows, WindowStart(p, from), to) by {
          assert forall k: nat :: k < total ==> k in w.ix.rows.Keys;
        }
        WindowRows(p, w.ix, w.file, WindowStart(p, from), to);
        assert RowsBetween(w.ix.rows, WindowStart(p, from), to) != [];
      }
    }
    hide AllPresent, Numbers, InStep;
  }

  /**
   * Even after rows were dropped: a page served is right only if its rows are all present, and if the
   * lookback rows are too it is right; for a stateless reducer, exactly if its rows are.
   */
  lemma {:induction false} RunServesRightPageIff<S(!new), M(!new)>(run: seq<Stretch<S, M>>,
                                                                   view: (seq<(Line, nat)>, Line, nat) -> Option<M>,
                                                                   w0: World<S>, fromIndex: nat, toIndex: nat)
    requires run != [] && Lawful(Reducer(run)) && (Reducer(run).stateful ==> RemembersEight(Reducer(run), view))
    requires w0.ix == EmptyIndex() && AllowedAll(w0, run)
    requires ServeWindow(Reducer(run), RunAll(w0, run), fromIndex, toIndex).Some?
    requires fromIndex < toIndex <= FullScan(Reducer(run), RunAll(w0, run).file).next
    ensures var p, w := Reducer(run), RunAll(w0, run);
            && FullScan(p, w.file).next == |FullScan(p, w.file).msgs|
            && var right := ServeWindow(p, w, fromIndex, toIndex).value.messages == FullScan(p, w.file).msgs[fromIndex..toIndex];
            && (right ==> AllPresent(w.ix.rows, fromIndex, toIndex))
            && (AllPresent(w.ix.rows, WindowStart(p, fromIndex), toIndex) ==> right)
            && (!p.stateful ==> (right <==> AllPresent(w.ix.rows, fromIndex, toIndex)))
  {
    var p, w := Reducer(run), RunAll(w0, run);
    RunKeepsInvariant(w0, run);
    hide RunAll, AllowedAll;
    assert w.file[..|w.file|] == w.file;
    PageIsSliceIffRowsPresent(p, view, w.ix, w.file, w.identity, fromIndex, toIndex);
  }

  // ── Chopping the same bytes into reads ──────────────────────────────────────

  /** Each chunk is appended, then read by the tail. */
  function FeedChunks<S, M>(p: Parser<S, M>, w: World<S>, chunks: seq<seq<Byte>>): World<S>
    decreases |chunks|
  {
    if chunks == [] then w else FeedChunks(p, AppendAndPoll(p, w, chunks[0]), chunks[1..])
  }

  function AppendAndPoll<S, M>(p: Parser<S, M>, w: World<S>, bytes: seq<Byte>): World<S> {
    Step(p, Step(p, w, Append(bytes)), Poll)
  }

  function Joined(chunks: seq<seq<Byte>>): seq<Byte> {
    if chunks == [] then [] else chunks[0] + Joined(chunks[1..])
  }

  /** The index is exact for the bytes up to its offset; only blank lines lie between that and the tail. */
  ghost predicate ExactUpTo<S, M>(p: Parser<S, M>, w: World<S>) {
    var at := ExpectedStart(w.ix);
    && w.known && w.watch.Some? && at <= w.watch.value <= |w.file|
    && Whole(w.file[..at], 0)
    && (w.ix == Backfill(Some(p), w.file[..at], w.identity) || (w.ix == EmptyIndex() && at == 0))
    && Whole(w.file[at..w.watch.value], at) && SplitLines(w.file[at..w.watch.value], at).spans == []
  }

  /** And the tail has consumed every complete line. */
  ghost predicate Exact<S, M>(p: Parser<S, M>, w: World<S>) {
    ExactUpTo(p, w) && NoLine(w.file[w.watch.value..])
  }

  ghost predicate NoLine(bytes: seq<Byte>) {
    forall i :: 0 <= i < |bytes| ==> bytes[i] != NEWLINE
  }

  lemma {:induction false} BackfillOfConsumed<S, M>(p: Parser<S, M>, file: seq<Byte>, identity: nat)
    ensures Backfill(Some(p), file[..SplitLines(file, 0).consumed], identity) == Backfill(Some(p), file, identity)
    ensures Whole(file[..SplitLines(file, 0).consumed], 0)
  {
    SplitOfConsumed(file, 0);
  }

  /** A rebuild is exact and leaves nothing between index and tail. */
  lemma {:induction false} RebuildIsExact<S, M>(p: Parser<S, M>, w: World<S>)
    requires w.known && w.watch == Some(SplitLines(w.file, 0).consumed)
    ensures ExactUpTo(p, w.(ix := Backfill(Some(p), w.file, w.identity)))
  {
    BackfillOfConsumed(p, w.file, w.identity);
    ConsumedEndsLine(w.file, 0, |w.file|);
  }

  /** The split of a file from a line boundary ends where the split of the whole file does. */
  lemma {:induction false} ConsumedFrom(file: seq<Byte>, from: nat)
    requires from <= |file| && Whole(file[..from], 0)
    ensures SplitLines(file, 0).consumed == from + SplitLines(file[from..], from).consumed
  {
    assert file == file[..from] + file[from..];
    SplitAfterPrefix(file[..from], file[from..], 0);
  }

  lemma {:induction false} WholeTwice(file: seq<Byte>, a: nat, b: nat)
    requires a <= b <= |file| && Whole(file[..a], 0) && Whole(file[a..b], a)
    ensures Whole(file[..b], 0)
    ensures SplitLines(file[..b], 0).spans == SplitLines(file[..a], 0).spans + SplitLines(file[a..b], a).spans
  {
    assert file[..b] == file[..a] + file[a..b];
    SplitAfterPrefix(file[..a], file[a..b], 0);
  }

  lemma SliceOfAppend<T>(s: seq<T>, t: seq<T>, lo: nat, hi: nat)
    requires lo <= hi <= |s|
    ensures (s + t)[lo..hi] == s[lo..hi]
    ensures lo == 0 ==> (s + t)[..hi] == s[..hi]
  {
  }

  /** A read of blank lines only: the tail moves on, the index does not. */
  lemma {:induction false} BlankRead<S, M>(p: Parser<S, M>, w: World<S>, end: nat)
    requires ExactUpTo(p, w) && w.watch.value <= end <= |w.file|
    requires Whole(w.file[w.watch.value..end], w.watch.value)
    requires SplitLines(w.file[w.watch.value..end], w.watch.value).spans == []
    ensures ExactUpTo(p, w.(watch := Some(end)))
  {
    hide Backfill, SplitTo;
    var at, from := ExpectedStart(w.ix), w.watch.value;
    assert w.file[at..end] == w.file[at..from] + w.file[from..end];
    SplitAfterPrefix(w.file[at..from], w.file[from..end], at);
  }

  /** A read that starts where the index stops. */
  lemma {:induction false} ContiguousExact<S(!new), M(!new)>(p: Parser<S, M>, w: World<S>, end: nat)
    requires ShapeIgnoresState(p) && ExactUpTo(p, w) && w.watch.value == ExpectedStart(w.ix) <= end <= |w.file|
    requires Whole(w.file[w.watch.value..end], w.watch.value)
    requires SplitLines(w.file[w.watch.value..end], w.watch.value).spans != []
    ensures var from := w.watch.value;
            var r := Extend(Some(p), w.ix, SplitLines(w.file[from..end], from).spans, w.identity, from, end);
            r.1.Some? && ExactUpTo(p, w.(watch := Some(end), ix := r.0))
  {
    var from := w.watch.value;
    assert w.file[..end] == w.file[..from] + w.file[from..end];
    ExtendIsBackfill(p, w.ix, w.file[..from], w.file[from..end], w.identity);
    SplitAfterPrefix(w.file[..from], w.file[from..end], 0);
    assert w.file[end..end] == [];
  }

  /** One read of an exact world, in the three ways it can go. */
  lemma {:induction false} ReadIsExact<S(!new), M(!new)>(p: Parser<S, M>, u: World<S>)
    requires ShapeIgnoresState(p) && ExactUpTo(p, u) && u.watch.value < |u.file|
    ensures ExactUpTo(p, ReadNewLines(p, u, false))
    ensures ReadNewLines(p, u, false).watch.value
         == u.watch.value + SplitLines(u.file[u.watch.value..], u.watch.value).consumed
  {
    hide Backfill, Extend, SplitTo;
    var from := u.watch.value;
    var rest := u.file[from..];
    var sp := SplitLines(rest, from);
    var end := from + sp.consumed;
    SplitOfConsumed(rest, from);
    assert u.file[from..end] == rest[..sp.consumed];
    if sp.spans == [] {
      BlankRead(p, u, end);
    } else if from == ExpectedStart(u.ix) {
      ContiguousExact(p, u, end);
    } else {
      var at := ExpectedStart(u.ix);
      WholeTwice(u.file, at, from);
      ConsumedFrom(u.file, from);
      RebuildIsExact(p, u.(watch := Some(end)));
      DeclinedWhenBehind(p, u.ix, sp.spans, u.identity, from, end);
    }
  }

  lemma {:induction false} AppendIsExact<S, M>(p: Parser<S, M>, w: World<S>, bytes: seq<Byte>)
    requires ExactUpTo(p, w)
    ensures ExactUpTo(p, w.(file := w.file + bytes))
  {
    hide Backfill, SplitTo;
    SliceOfAppend(w.file, bytes, 0, ExpectedStart(w.ix));
    SliceOfAppend(w.file, bytes, ExpectedStart(w.ix), w.watch.value);
  }

  lemma {:induction false} ReadKeepsExact<S(!new), M(!new)>(p: Parser<S, M>, w: World<S>, bytes: seq<Byte>)
    requires ShapeIgnoresState(p) && Exact(p, w)
    ensures Exact(p, AppendAndPoll(p, w, bytes))
    ensures AppendAndPoll(p, w, bytes).file == w.file + bytes
    ensures AppendAndPoll(p, w, bytes).identity == w.identity
  {
    hide Backfill, SplitTo, Extend;
    var u := w.(file := w.file + bytes);
    AppendIsExact(p, w, bytes);
    if u.watch.value < |u.file| {
      var rest := u.file[u.watch.value..];
      ReadIsExact(p, u);
      ConsumedEndsLine(rest, u.watch.value, |rest|);
    }
  }

  lemma {:induction false} FeedKeepsExact<S(!new), M(!new)>(p: Parser<S, M>, w: World<S>, chunks: seq<seq<Byte>>)
    requires ShapeIgnoresState(p) && Exact(p, w)
    ensures Exact(p, FeedChunks(p, w, chunks))
    ensures FeedChunks(p, w, chunks).file == w.file + Joined(chunks)
    ensures FeedChunks(p, w, chunks).identity == w.identity
    decreases |chunks|
  {
    hide Exact, Step, Backfill;
    if chunks == [] {
      assert w.file + Joined(chunks) == w.file;
    } else {
      ReadKeepsExact(p, w, chunks[0]);
      var v := AppendAndPoll(p, w, chunks[0]);
      FeedKeepsExact(p, v, chunks[1..]);
      assert (w.file + chunks[0]) + Joined(chunks[1..]) == w.file + (chunks[0] + Joined(chunks[1..]));
    }
  }

  /** What an exact index holds, next to one backfill of the whole file. */
  lemma {:induction false} ExactIsBackfill<S, M>(p: Parser<S, M>, w: World<S>)
    requires Exact(p, w)
    ensures var whole := Backfill(Some(p), w.file, w.identity);
            && w.watch == Some(SplitLines(w.file, 0).consumed)
            && w.ix.rows == whole.rows
            && (w.ix.fileState.Some? ==> w.ix.fileState.value.lastMessageIndex == whole.fileState.value.lastMessageIndex)
            && (w.ix.fileState.Some? && ExpectedStart(w.ix) == w.watch.value ==> w.ix == whole)
  {
    hide SplitTo;
    var at, end := ExpectedStart(w.ix), w.watch.value;
    WholeTwice(w.file, at, end);
    ConsumedFrom(w.file, end);
    NoNewlineNoSpan(w.file[end..], end, |w.file| - end);
    BackfillOfConsumed(p, w.file, w.identity);
    assert SplitLines(w.file[..end], 0).spans == SplitLines(w.file[..at], 0).spans;
    assert FullScan(p, w.file[..end]) == FullScan(p, w.file[..at]);
    if w.ix == EmptyIndex() { EmptyFile(p); }
  }

  lemma EmptyIsExact<S, M>(p: Parser<S, M>, identity: nat)
    ensures Exact(p, World([], identity, Some(0), true, EmptyIndex()))
  {
  }

  /**
   * However the same bytes arrive, reading them through the tail leaves the rows, numbers and
   * tail offset of one backfill of the whole file; the stored offset too, except that trailing
   * blank lines read on their own are not recorded.
   */
  lemma {:induction false} ChoppedReadsEqualBackfill<S(!new), M(!new)>(p: Parser<S, M>, identity: nat, chunks: seq<seq<Byte>>)
    requires ShapeIgnoresState(p)
    ensures var w := FeedChunks(p, World([], identity, Some(0), true, EmptyIndex()), chunks);
            var whole := Backfill(Some(p), Joined(chunks), identity);
            && w.file == Joined(chunks)
            && w.watch == Some(SplitLines(w.file, 0).consumed)
            && w.ix.rows == whole.rows
            && (w.ix.fileState.Some? ==> w.ix.fileState.value.lastMessageIndex == whole.fileState.value.lastMessageIndex)
            && (w.ix.fileState.Some? && ExpectedStart(w.ix) == w.watch.value ==> w.ix == whole)
            && (forall i :: ExpectedStart(w.ix) <= i < w.watch.value ==> w.file[i] == NEWLINE)
  {
    hide Step, Backfill, SplitLines, Exact;
    var w0 := World([], identity, Some(0), true, EmptyIndex());
    EmptyIsExact(p, identity);
    FeedKeepsExact(p, w0, chunks);
    var w := FeedChunks(p, w0, chunks);
    assert [] + Joined(chunks) == Joined(chunks);
    ExactIsBackfill(p, w);
    BlankBetween(p, w);
    hide FeedChunks, Joined;
  }

  /** Between the index and the tail there are only blank lines. */
  lemma {:induction false} BlankBetween<S, M>(p: Parser<S, M>, w: World<S>)
    requires Exact(p, w)
    ensures forall i :: ExpectedStart(w.ix) <= i < w.watch.value ==> w.file[i] == NEWLINE
  {
    hide Backfill, SplitTo;
    var at, end := ExpectedStart(w.ix), w.watch.value;
    OnlyBlankLines(w.file[at..end], at);
    forall i | at <= i < end ensures w.file[i] == NEWLINE {
      assert w.file[i] == w.file[at..end][i - at];
    }
  }

  /** Whole lines without a span are all empty. */
  lemma {:induction false} OnlyBlankLines(bytes: seq<Byte>, base: nat)
    requires Whole(bytes, base) && SplitLines(bytes, base).spans == []
    ensures forall i :: 0 <= i < |bytes| ==> bytes[i] == NEWLINE
  {
    BlankPrefix(bytes, base, |bytes|);
  }

  lemma {:induction false} BlankPrefix(bytes: seq<Byte>, base: nat, n: nat)
    requires n <= |bytes| && SplitTo(bytes, base, n).consumed == n && SplitTo(bytes, base, n).spans == []
    ensures forall i :: 0 <= i < n ==> bytes[i] == NEWLINE
  {
    if n > 0 {
      SplitToStep(bytes, base, n);
      assert bytes[n - 1] == NEWLINE by { ConsumedEndsLine(bytes, base, n); }
      BlankPrefix(bytes, base, n - 1);
    }
    hide SplitTo;
  }
}
