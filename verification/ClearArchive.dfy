/**
 * The replay archive (src/pty-shared.ts:92-159): what a render terminal drew before its full clears,
 * then what it drew since.
 *
 * A buffer row is a slot with an identity: a new one when it is pushed at the bottom or reset by a
 * clear, in top-down order; everything else that changes its text repaints it in place.
 */
module ClearArchive {
  import opened Common

  const ROWS := 40
  const SCROLLBACK := 1000
  const ARCHIVE_MAX := 4000

  datatype Row = Row(id: nat, text: string)

  /**
   * `rows` is scrollback then viewport, `marker` the last copied scrollback row. For the proofs only:
   * `ever` is the archive without its cap; `trimmed`, `blanks` and `alternate` are the identities lost
   * to the scrollback cap uncopied, dropped as trailing blanks, and drawn on the alternate buffer.
   */
  datatype Screen = Screen(
    rows: seq<Row>, baseY: nat, marker: Option<nat>, alt: Option<seq<Row>>, nextId: nat,
    archived: seq<Row>, ever: seq<Row>, trimmed: set<nat>, blanks: set<nat>, alternate: set<nat>)

  datatype Event =
    | Paint(y: nat, text: string)
    | Scroll
    | EraseAll
    | EraseScrollback
    | EnterAlternate
    | LeaveAlternate

  function BlankRows(from: nat, n: nat): seq<Row> {
    seq(n, i requires 0 <= i < n => Row(from + i, ""))
  }

  const NEW_SCREEN := Screen(BlankRows(0, ROWS), 0, None, None, ROWS, [], [], {}, {}, {})

  function Ids(rows: seq<Row>): set<nat> {
    set i | 0 <= i < |rows| :: rows[i].id
  }

  // ── Reading rows ────────────────────────────────────────────────────────────

  function TrimBlanks(rows: seq<Row>): seq<Row> {
    if rows == [] || rows[|rows| - 1].text != "" then rows else TrimBlanks(rows[..|rows| - 1])
  }

  function ReadRows(rows: seq<Row>, from: nat, to: nat): seq<Row>
    requires to <= |rows|
  {
    if from >= to then [] else TrimBlanks(rows[from..to])
  }

  /** `slice(-k)`: all of it for `k` 0, as `-0` is 0. */
  function SliceLast<T>(s: seq<T>, k: nat): seq<T> {
    if k == 0 then s else LastK(k, s)
  }

  function FirstUncopied(s: Screen): nat {
    match s.marker case None => 0 case Some(line) => line + 1
  }

  function Active(s: Screen): seq<Row> {
    match s.alt case None => s.rows case Some(rows) => rows
  }

  /** `read`. */
  function Live(s: Screen): seq<Row> {
    ReadRows(Active(s), FirstUncopied(s), |Active(s)|)
  }

  function Replay(s: Screen, maxLines: nat): seq<Row> {
    s.archived + SliceLast(Live(s), maxLines)
  }

  // ── Operations ──────────────────────────────────────────────────────────────

  /** `capture`: the rows a clear is about to erase are copied; the mark moves to the last scrollback row. */
  function Capture(s: Screen, end: nat): Screen
    requires end <= |s.rows|
  {
    if s.alt.Some? then s
    else
      var copied := ReadRows(s.rows, FirstUncopied(s), end);
      var seen := if FirstUncopied(s) < end then s.rows[FirstUncopied(s)..end] else [];
      s.(archived := LastK(ARCHIVE_MAX, s.archived + copied), ever := s.ever + copied,
         blanks := s.blanks + (Ids(seen) - Ids(copied)),
         marker := if s.baseY > 0 then Some(s.baseY - 1) else None)
  }

  function BlankAlternate(s: Screen): Screen {
    var rows := BlankRows(s.nextId, ROWS);
    s.(alt := Some(rows), nextId := s.nextId + ROWS, alternate := s.alternate + Ids(rows))
  }

  /** The terminal resets its viewport. */
  function ResetViewport(s: Screen): Screen
    requires s.baseY <= |s.rows|
  {
    match s.alt
    case Some(_) => BlankAlternate(s)
    case None => s.(rows := s.rows[..s.baseY] + BlankRows(s.nextId, ROWS), nextId := s.nextId + ROWS)
  }

  /** The terminal drops `n` rows from the top; a marker on one of them is disposed. */
  function TrimStart(s: Screen, n: nat): Screen
    requires n <= s.baseY && n <= |s.rows|
  {
    s.(rows := s.rows[n..], baseY := s.baseY - n,
       marker := if s.marker.Some? && s.marker.value >= n then Some(s.marker.value - n) else None)
  }

  function PushRow(s: Screen): Screen {
    s.(rows := s.rows + [Row(s.nextId, "")], baseY := s.baseY + 1, nextId := s.nextId + 1)
  }

  /** The first row goes and a blank one comes at the end. */
  function Shifted(rows: seq<Row>, id: nat): seq<Row> {
    if rows == [] then [] else rows[1..] + [Row(id, "")]
  }

  /** One line scrolls off the viewport; past the scrollback cap the oldest row goes. */
  function ScrollUp(s: Screen): Screen
    requires |s.rows| == s.baseY + ROWS
  {
    match s.alt
    case Some(rows) =>
      s.(alt := Some(Shifted(rows, s.nextId)), nextId := s.nextId + 1, alternate := s.alternate + {s.nextId})
    case None =>
      var t := PushRow(s);
      if t.baseY <= SCROLLBACK then t
      else TrimStart(t, 1).(trimmed := if s.marker.None? then s.trimmed + {t.rows[0].id} else s.trimmed)
  }

  function PaintRow(s: Screen, y: nat, text: string): Screen {
    match s.alt
    case Some(rows) => if y < |rows| then s.(alt := Some(rows[y := rows[y].(text := text)])) else s
    case None =>
      var at := s.baseY + y;
      if at < |s.rows| then s.(rows := s.rows[at := s.rows[at].(text := text)]) else s
  }

  function Step(s: Screen, e: Event): Screen
    requires |s.rows| == s.baseY + ROWS
  {
    match e
    case Paint(y, text) => PaintRow(s, y, text)
    case Scroll => ScrollUp(s)
    case EraseAll => ResetViewport(Capture(s, |s.rows|))
    case EraseScrollback => if s.alt.Some? then s else TrimStart(Capture(s, s.baseY), s.baseY)
    case EnterAlternate =>
      if s.alt.Some? then s
      else BlankAlternate(s)
    case LeaveAlternate => s.(alt := None)
  }

  // ── Order ───────────────────────────────────────────────────────────────────

  ghost predicate Increasing(rows: seq<Row>) {
    forall i, j :: 0 <= i < j < |rows| ==> rows[i].id < rows[j].id
  }

  ghost predicate Below(rows: seq<Row>, id: nat) {
    forall i :: 0 <= i < |rows| ==> rows[i].id < id
  }

  ghost predicate ShapeOk(s: Screen) {
    && |s.rows| == s.baseY + ROWS && s.baseY <= SCROLLBACK
    && (s.marker.Some? ==> s.marker.value < s.baseY)
    && s.archived == LastK(ARCHIVE_MAX, s.ever)
  }

  ghost predicate OrderOk(s: Screen)
    requires ShapeOk(s)
  {
    && Increasing(s.rows) && Below(s.rows, s.nextId)
    && Increasing(s.ever) && Below(s.ever, s.rows[FirstUncopied(s)].id)
    && (s.alt.Some? ==>
          && Increasing(s.alt.value) && Below(s.alt.value, s.nextId)
          && forall i :: 0 <= i < |s.alt.value| ==> s.rows[|s.rows| - 1].id < s.alt.value[i].id)
  }

  lemma {:induction false} TrimIsPrefix(rows: seq<Row>)
    ensures TrimBlanks(rows) <= rows
    ensures forall i :: |TrimBlanks(rows)| <= i < |rows| ==> rows[i].text == ""
    ensures TrimBlanks(rows) != [] ==> TrimBlanks(rows)[|TrimBlanks(rows)| - 1].text != ""
  {
    if rows != [] && rows[|rows| - 1].text == "" { TrimIsPrefix(rows[..|rows| - 1]); }
  }

  lemma {:induction false} ReadIsIncreasing(rows: seq<Row>, from: nat, to: nat)
    requires to <= |rows| && Increasing(rows)
    ensures Increasing(ReadRows(rows, from, to))
    ensures forall i :: 0 <= i < |ReadRows(rows, from, to)| ==> from + i < to && ReadRows(rows, from, to)[i] == rows[from + i]
  {
    if from < to { TrimIsPrefix(rows[from..to]); }
  }

  lemma {:induction false} IncreasingConcat(a: seq<Row>, b: seq<Row>, k: nat)
    requires Increasing(a) && Increasing(b) && (b != [] ==> Below(a, b[0].id))
    ensures Increasing(a + b) && Increasing(LastK(k, a) + b) && Increasing(LastK(k, a + b))
  {
  }

  lemma {:induction false} CaptureShape(s: Screen, end: nat)
    requires ShapeOk(s) && end <= |s.rows|
    ensures ShapeOk(Capture(s, end))
  {
    if s.alt.None? { LastKOfConcat(ARCHIVE_MAX, s.ever, ReadRows(s.rows, FirstUncopied(s), end)); }
  }

  /** After a capture everything copied lies below what is left to copy. */
  lemma {:induction false} CaptureOrder(s: Screen, end: nat)
    requires ShapeOk(s) && OrderOk(s) && s.alt.None? && FirstUncopied(s) <= end <= |s.rows|
    ensures var copied := ReadRows(s.rows, FirstUncopied(s), end);
            Increasing(s.ever + copied) && Below(s.ever + copied, if end < |s.rows| then s.rows[end].id else s.nextId)
  {
    ReadIsIncreasing(s.rows, FirstUncopied(s), end);
    IncreasingConcat(s.ever, ReadRows(s.rows, FirstUncopied(s), end), 1);
  }

  lemma {:induction false} BlankRowsAppend(rows: seq<Row>, from: nat, n: nat)
    requires Increasing(rows) && Below(rows, from)
    ensures Increasing(rows + BlankRows(from, n)) && Below(rows + BlankRows(from, n), from + n)
  {
  }

  lemma {:induction false} PrefixKeeps(rows: seq<Row>, n: nat, id: nat)
    requires n <= |rows| && Increasing(rows) && Below(rows, id)
    ensures Increasing(rows[..n]) && Below(rows[..n], id)
  {
  }

  lemma {:induction false} EraseAllKeeps(s: Screen)
    requires ShapeOk(s) && OrderOk(s)
    ensures ShapeOk(Step(s, EraseAll)) && OrderOk(Step(s, EraseAll))
  {
    CaptureShape(s, |s.rows|);
    PrefixKeeps(s.rows, s.baseY, s.nextId);
    BlankRowsAppend(s.rows[..s.baseY], s.nextId, ROWS);
    if s.alt.None? {
      CaptureOrder(s, |s.rows|);
      hide ReadRows, TrimBlanks, Increasing, Below, LastK;
      var t := Step(s, EraseAll);
      assert FirstUncopied(t) == s.baseY && t.rows[s.baseY] == BlankRows(s.nextId, ROWS)[0];
    } else {
      hide ReadRows, TrimBlanks, LastK;
    }
  }

  lemma {:induction false} EraseScrollbackKeeps(s: Screen)
    requires ShapeOk(s) && OrderOk(s)
    ensures ShapeOk(Step(s, EraseScrollback)) && OrderOk(Step(s, EraseScrollback))
  {
    CaptureShape(s, s.baseY);
    if s.alt.None? { CaptureOrder(s, s.baseY); }
    hide ReadRows, TrimBlanks;
  }

  lemma {:induction false} PaintKeeps(s: Screen, y: nat, text: string)
    requires ShapeOk(s) && OrderOk(s)
    ensures ShapeOk(PaintRow(s, y, text)) && OrderOk(PaintRow(s, y, text))
  {
    hide LastK;
    var t := PaintRow(s, y, text);
    assert |t.rows| == |s.rows| && forall i :: 0 <= i < |s.rows| ==> t.rows[i].id == s.rows[i].id;
    assert s.alt.Some? <==> t.alt.Some?;
    assert s.alt.Some? ==>
      |t.alt.value| == |s.alt.value| && forall i :: 0 <= i < |s.alt.value| ==> t.alt.value[i].id == s.alt.value[i].id;
    assert t == s.(rows := t.rows, alt := t.alt);
    hide PaintRow;
  }

  lemma {:induction false} PushKeeps(s: Screen)
    requires ShapeOk(s) && OrderOk(s) && s.alt.None?
    ensures var t := PushRow(s);
            && |t.rows| == t.baseY + ROWS && (t.marker.Some? ==> t.marker.value < s.baseY)
            && Increasing(t.rows) && Below(t.rows, t.nextId) && Below(t.ever, t.rows[FirstUncopied(t)].id)
  {
  }

  lemma {:induction false} ShiftKeeps(rows: seq<Row>, id: nat, floor: nat)
    requires Increasing(rows) && Below(rows, id) && floor < id && forall i :: 0 <= i < |rows| ==> floor < rows[i].id
    ensures var more := Shifted(rows, id);
            Increasing(more) && Below(more, id + 1) && forall i :: 0 <= i < |more| ==> floor < more[i].id
  {
  }

  lemma {:induction false} AlternateScrollKeeps(s: Screen)
    requires ShapeOk(s) && OrderOk(s) && s.alt.Some?
    ensures ShapeOk(ScrollUp(s)) && OrderOk(ScrollUp(s))
  {
    ShiftKeeps(s.alt.value, s.nextId, s.rows[|s.rows| - 1].id);
    EverBelow(s.rows, s.nextId, s.nextId + 1);
    hide LastK, Increasing, Below, Shifted;
  }

  lemma {:induction false} ScrollKeeps(s: Screen)
    requires ShapeOk(s) && OrderOk(s)
    ensures ShapeOk(ScrollUp(s)) && OrderOk(ScrollUp(s))
  {
    if s.alt.None? {
      PushKeeps(s);
      var t, u := PushRow(s), ScrollUp(s);
      DropKeeps(t.rows, t.nextId);
      if t.baseY > SCROLLBACK {
        hide Below, LastK;
        assert t.rows[FirstUncopied(t)].id <= u.rows[FirstUncopied(u)].id;
        hide Increasing;
        EverBelow(t.ever, t.rows[FirstUncopied(t)].id, u.rows[FirstUncopied(u)].id);
      } else {
        hide Below, LastK, Increasing;
      }
    } else {
      AlternateScrollKeeps(s);
    }
  }

  lemma {:induction false} DropKeeps(rows: seq<Row>, id: nat)
    requires rows != [] && Increasing(rows) && Below(rows, id)
    ensures Increasing(rows[1..]) && Below(rows[1..], id)
  {
  }

  lemma {:induction false} EverBelow(rows: seq<Row>, id: nat, higher: nat)
    requires Below(rows, id) && id <= higher
    ensures Below(rows, higher)
  {
  }

  lemma {:induction false} StepKeepsOrder(s: Screen, e: Event)
    requires ShapeOk(s) && OrderOk(s)
    ensures ShapeOk(Step(s, e)) && OrderOk(Step(s, e))
  {
    match e
    case Paint(y, text) => PaintKeeps(s, y, text);
    case Scroll => ScrollKeeps(s);
    case EraseAll => EraseAllKeeps(s);
    case EraseScrollback => EraseScrollbackKeeps(s);
    case EnterAlternate => hide LastK;
    case LeaveAlternate => hide Increasing, Below, LastK;
  }

  // ── Runs ────────────────────────────────────────────────────────────────────

  function Run(s: Screen, es: seq<Event>): Screen
    requires ShapeOk(s) && OrderOk(s)
    ensures ShapeOk(Run(s, es)) && OrderOk(Run(s, es))
    decreases |es|
  {
    if es == [] then s
    else
      StepKeepsOrder(s, es[0]);
      Run(Step(s, es[0]), es[1..])
  }

  /**
   * After any mix of repaints, scrolling, trimming, clears and alternate-buffer stretches, the replay
   * shows rows in drawing order and none twice. It is no longer than the archive cap and `maxLines` together
   * exactly if `maxLines` is positive or everything fits the cap: `slice(-0)` cuts nothing.
   */
  lemma {:induction false} ReplayIsInOrder(es: seq<Event>, maxLines: nat)
    ensures ShapeOk(NEW_SCREEN) && OrderOk(NEW_SCREEN)
    ensures var s := Run(NEW_SCREEN, es);
            && Increasing(Replay(s, maxLines)) && |s.archived| <= ARCHIVE_MAX
            && (|Replay(s, maxLines)| <= ARCHIVE_MAX + maxLines <==> maxLines > 0 || |s.archived| + |Live(s)| <= ARCHIVE_MAX)
  {
    var s := Run(NEW_SCREEN, es);
    hide Run;
    LiveIsIncreasing(s);
    LastKIsIncreasing(s.ever, ARCHIVE_MAX);
    LastKIsIncreasing(Live(s), maxLines);
    hide Live;
    var tail := SliceLast(Live(s), maxLines);
    if tail != [] { EverBelowLast(s, tail); }
    IncreasingConcat(s.archived, tail, 1);
  }

  lemma {:induction false} LastKIsIncreasing(rows: seq<Row>, k: nat)
    requires Increasing(rows)
    ensures Increasing(LastK(k, rows)) && forall i :: 0 <= i < |LastK(k, rows)| ==> LastK(k, rows)[i] in rows
  {
  }

  lemma {:induction false} LiveIsIncreasing(s: Screen)
    requires ShapeOk(s) && OrderOk(s)
    ensures Increasing(Live(s))
    ensures forall i :: 0 <= i < |Live(s)| ==> s.rows[FirstUncopied(s)].id <= Live(s)[i].id
  {
    ReadIsIncreasing(Active(s), FirstUncopied(s), |Active(s)|);
  }

  lemma {:induction false} EverBelowLast(s: Screen, tail: seq<Row>)
    requires ShapeOk(s) && OrderOk(s) && tail != []
    requires forall i :: 0 <= i < |tail| ==> tail[i] in Live(s)
    ensures Below(s.archived, tail[0].id)
  {
    LiveIsIncreasing(s);
    assert tail[0] in Live(s);
    hide Live;
    forall i | 0 <= i < |s.archived| ensures s.archived[i].id < tail[0].id {
      assert s.archived[i] in s.ever;
    }
  }

  // ── Conservation ────────────────────────────────────────────────────────────

  function Uncopied(s: Screen): set<nat>
    requires FirstUncopied(s) <= |s.rows|
  {
    Ids(s.rows[FirstUncopied(s)..])
  }

  /**
   * Every row ever drawn is archived, still live and uncopied, lost uncopied to the scrollback cap, a
   * dropped trailing blank, or of the alternate buffer.
   */
  ghost predicate Covered(s: Screen)
    requires ShapeOk(s)
  {
    forall id: nat :: id < s.nextId ==>
      id in Ids(s.ever) || id in Uncopied(s) || id in s.trimmed || id in s.blanks || id in s.alternate
  }

  lemma {:induction false} IdsOfParts(rows: seq<Row>, n: nat)
    requires n <= |rows|
    ensures Ids(rows) == Ids(rows[..n]) + Ids(rows[n..])
  {
    assert rows == rows[..n] + rows[n..];
    IdsOfConcat(rows[..n], rows[n..]);
  }

  lemma {:induction false} IdsOfConcat(a: seq<Row>, b: seq<Row>)
    ensures Ids(a + b) == Ids(a) + Ids(b)
  {
    forall id | id in Ids(a) + Ids(b) ensures id in Ids(a + b) {
      if id in Ids(a) {
        var i :| 0 <= i < |a| && a[i].id == id;
        assert (a + b)[i].id == id;
      } else {
        var i :| 0 <= i < |b| && b[i].id == id;
        assert (a + b)[|a| + i].id == id;
      }
    }
  }

  lemma {:induction false} IdsOfBlankRows(from: nat, n: nat)
    ensures forall id: nat :: id in Ids(BlankRows(from, n)) <==> from <= id < from + n
  {
    forall id: nat | from <= id < from + n ensures id in Ids(BlankRows(from, n)) {
      assert BlankRows(from, n)[id - from].id == id;
    }
  }

  /** Reading takes the rows as they stand, up to trailing blanks. */
  lemma {:induction false} ReadIsFaithful(rows: seq<Row>, from: nat, to: nat)
    requires from <= to <= |rows|
    ensures var r := ReadRows(rows, from, to);
            && |r| <= to - from && (forall i :: 0 <= i < |r| ==> r[i] == rows[from + i])
            && (forall y :: from + |r| <= y < to ==> rows[y].text == "")
  {
    if from < to {
      var slice := rows[from..to];
      TrimIsPrefix(slice);
      var r := TrimBlanks(slice);
      assert forall i :: 0 <= i < |r| ==> r[i] == slice[i];
      assert forall y :: from + |r| <= y < to ==> rows[y] == slice[y - from];
    }
  }

  /** `all` is `ever` and after it the rows from `from` on as they stand, up to trailing blanks before `end`. */
  ghost predicate Copies(ever: seq<Row>, all: seq<Row>, rows: seq<Row>, from: nat, end: nat)
    requires from <= end <= |rows|
  {
    && ever <= all && |all| - |ever| <= end - from
    && (forall i :: |ever| <= i < |all| ==> all[i] == rows[from + i - |ever|])
    && (forall y :: from + |all| - |ever| <= y < end ==> rows[y].text == "")
  }

  /** A capture copies them; on the alternate buffer it does nothing. */
  lemma {:induction false} CaptureIsFaithful(s: Screen, end: nat)
    requires FirstUncopied(s) <= end <= |s.rows|
    ensures var t := Capture(s, end);
            if s.alt.Some? then t == s else Copies(s.ever, t.ever, s.rows, FirstUncopied(s), end)
  {
    CopiedAfter(s.ever, s.rows, FirstUncopied(s), end);
    hide Copies, ReadRows, FirstUncopied, LastK, Ids;
  }

  lemma {:induction false} CopiedAfter(ever: seq<Row>, rows: seq<Row>, from: nat, end: nat)
    requires from <= end <= |rows|
    ensures Copies(ever, ever + ReadRows(rows, from, end), rows, from, end)
  {
    ReadIsFaithful(rows, from, end);
    hide ReadRows;
  }

  /** What a capture takes off the live part is copied or a trailing blank. */
  lemma {:induction false} CaptureCovers(s: Screen, end: nat)
    requires ShapeOk(s) && s.alt.None? && FirstUncopied(s) <= end <= |s.rows|
    ensures var t := Capture(s, end);
            Ids(t.ever) + t.blanks == Ids(s.ever) + s.blanks + Ids(s.rows[FirstUncopied(s)..end])
            && (forall id :: id in Uncopied(s) ==> id in Ids(t.ever) || id in t.blanks || id in Ids(s.rows[end..]))
  {
    var f := FirstUncopied(s);
    var seen := s.rows[f..end];
    TrimIsPrefix(seen);
    var copied := ReadRows(s.rows, f, end);
    assert copied <= seen;
    IdsOfParts(seen, |copied|);
    assert seen[..|copied|] == copied;
    IdsOfConcat(s.ever, copied);
    assert s.rows[f..] == seen + s.rows[end..];
    IdsOfConcat(seen, s.rows[end..]);
    hide Ids, ReadRows, TrimBlanks;
  }

  lemma {:induction false} EraseAllCovers(s: Screen)
    requires ShapeOk(s) && Covered(s) && s.alt.None? && ShapeOk(Step(s, EraseAll))
    ensures Covered(Step(s, EraseAll))
  {
    var c, t := Capture(s, |s.rows|), Step(s, EraseAll);
    CaptureCovers(s, |s.rows|);
    IdsOfBlankRows(s.nextId, ROWS);
    assert s.rows[|s.rows|..] == [];
    assert t.rows[FirstUncopied(t)..] == BlankRows(s.nextId, ROWS);
    hide Capture, ReadRows, TrimBlanks, LastK;
    forall id: nat | id < t.nextId
      ensures id in Ids(t.ever) || id in Uncopied(t) || id in t.trimmed || id in t.blanks || id in t.alternate
    {
    }
  }

  lemma {:induction false} EraseScrollbackCovers(s: Screen)
    requires ShapeOk(s) && Covered(s) && s.alt.None? && ShapeOk(Step(s, EraseScrollback))
    ensures Covered(Step(s, EraseScrollback))
  {
    var t := Step(s, EraseScrollback);
    CaptureCovers(s, s.baseY);
    assert t.rows[FirstUncopied(t)..] == s.rows[s.baseY..];
    hide ReadRows, TrimBlanks, LastK, Ids;
  }

  lemma {:induction false} IdsOfOne(row: Row)
    ensures Ids([row]) == {row.id}
  {
    assert [row][0] == row;
  }

  /** A scroll's new row joins the uncopied ones; what leaves them is trimmed. */
  lemma {:induction false} ScrollLeaves(s: Screen)
    requires ShapeOk(s) && s.alt.None?
    ensures var t := ScrollUp(s);
            FirstUncopied(t) <= |t.rows| && s.trimmed <= t.trimmed && Uncopied(s) + {s.nextId} <= Uncopied(t) + t.trimmed
  {
    var p, t, f := PushRow(s), ScrollUp(s), FirstUncopied(s);
    assert p.rows[f..] == s.rows[f..] + [Row(s.nextId, "")];
    IdsOfConcat(s.rows[f..], [Row(s.nextId, "")]);
    IdsOfOne(Row(s.nextId, ""));
    if p.baseY > SCROLLBACK {
      if s.marker.None? {
        assert p.rows[f..] == [p.rows[0]] + p.rows[1..];
        IdsOfConcat([p.rows[0]], p.rows[1..]);
        IdsOfOne(p.rows[0]);
      } else {
        assert t.rows[FirstUncopied(t)..] == p.rows[f..];
      }
    }
    hide Ids, LastK;
  }

  lemma {:induction false} ScrollCovers(s: Screen)
    requires ShapeOk(s) && Covered(s) && s.alt.None? && ShapeOk(ScrollUp(s))
    ensures Covered(ScrollUp(s))
  {
    ScrollLeaves(s);
    var t := ScrollUp(s);
    assert t.ever == s.ever && t.nextId == s.nextId + 1 && t.blanks == s.blanks && t.alternate == s.alternate;
    hide ScrollUp, Uncopied, Ids, LastK;
  }

  lemma {:induction false} PaintCovers(s: Screen, y: nat, text: string)
    requires ShapeOk(s) && Covered(s) && ShapeOk(PaintRow(s, y, text))
    ensures Covered(PaintRow(s, y, text))
  {
    hide LastK, Ids;
    var t := PaintRow(s, y, text);
    assert |t.rows| == |s.rows| && t.marker == s.marker;
    assert forall i :: 0 <= i < |s.rows| ==> t.rows[i].id == s.rows[i].id;
    SameIds(s.rows[FirstUncopied(s)..], t.rows[FirstUncopied(t)..]);
    assert t.ever == s.ever && t.nextId == s.nextId && t.trimmed == s.trimmed;
    assert t.blanks == s.blanks && t.alternate == s.alternate;
    hide PaintRow, ShapeOk;
  }

  lemma {:induction false} SameIds(a: seq<Row>, b: seq<Row>)
    requires |a| == |b| && forall i :: 0 <= i < |a| ==> a[i].id == b[i].id
    ensures Ids(a) == Ids(b)
  {
    forall id | id in Ids(a) ensures id in Ids(b) {
      var i :| 0 <= i < |a| && a[i].id == id;
      assert b[i].id == id;
    }
  }

  lemma {:induction false} StepCovers(s: Screen, e: Event)
    requires ShapeOk(s) && Covered(s) && ShapeOk(Step(s, e))
    ensures Covered(Step(s, e))
  {
    hide LastK, ReadRows, TrimBlanks;
    if e.Paint? {
      PaintCovers(s, e.y, e.text);
    } else if s.alt.None? && e.Scroll? {
      ScrollCovers(s);
    } else if s.alt.None? && e.EraseAll? {
      EraseAllCovers(s);
    } else if s.alt.None? && e.EraseScrollback? {
      EraseScrollbackCovers(s);
    } else {
      AlternateCovers(s, e);
    }
  }

  lemma {:induction false} AlternateCovers(s: Screen, e: Event)
    requires ShapeOk(s) && Covered(s) && ShapeOk(Step(s, e)) && !e.Paint?
    requires s.alt.Some? || e.EnterAlternate? || e.LeaveAlternate?
    ensures Covered(Step(s, e))
  {
    IdsOfBlankRows(s.nextId, ROWS);
    var t := Step(s, e);
    assert t.rows[FirstUncopied(t)..] == s.rows[FirstUncopied(s)..];
    hide LastK, Ids;
  }

  lemma {:induction false} RunCovers(s: Screen, es: seq<Event>)
    requires ShapeOk(s) && OrderOk(s) && Covered(s)
    ensures Covered(Run(s, es))
    decreases |es|
  {
    if es != [] {
      StepKeepsOrder(s, es[0]);
      StepCovers(s, es[0]);
      hide ShapeOk, OrderOk, Covered, Step;
      RunCovers(Step(s, es[0]), es[1..]);
    }
  }

  /** The archived rows its cap has cut: all but the last `ARCHIVE_MAX` ever archived. */
  function CutByCap(s: Screen): seq<Row> {
    if |s.ever| <= ARCHIVE_MAX then [] else s.ever[..|s.ever| - ARCHIVE_MAX]
  }

  /**
   * In every run a drawn row is in the archive or live and uncopied, unless the archive's cap cut it, the
   * scrollback cap did before it was copied, it was a dropped trailing blank, or of the alternate buffer.
   */
  lemma {:induction false} NoRowVanishes(es: seq<Event>, id: nat)
    ensures ShapeOk(NEW_SCREEN) && OrderOk(NEW_SCREEN)
    ensures var s := Run(NEW_SCREEN, es);
            id < s.nextId ==>
              || id in Ids(s.archived) || id in Uncopied(s)
              || id in Ids(CutByCap(s)) || id in s.trimmed || id in s.blanks || id in s.alternate
  {
    IdsOfBlankRows(0, ROWS);
    assert NEW_SCREEN.rows[0..] == BlankRows(0, ROWS);
    RunCovers(NEW_SCREEN, es);
    var s := Run(NEW_SCREEN, es);
    hide Run, Ids;
    assert s.ever == CutByCap(s) + s.archived;
    IdsOfConcat(CutByCap(s), s.archived);
  }
}
