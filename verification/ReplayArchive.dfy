/** The archive object beside a render terminal (src/pty-shared.ts:92-159), refining the replay machine. */
module ReplayArchive {
  import opened Common
  import opened ClearArchive
  import Machine = ClearArchive

  /** The parts of the terminal the archive reads, and the marker it registers there. */
  class Terminal {
    var rows: seq<Row>
    var baseY: nat
    var marker: Option<nat>
    var alternate: Option<seq<Row>>

    constructor ()
      ensures rows == BlankRows(0, ROWS) && baseY == 0 && marker == None && alternate == None
    {
      rows, baseY, marker, alternate := BlankRows(0, ROWS), 0, None, None;
    }
  }

  method ReadRowsLoop(buffer: seq<Row>, from: nat, to: nat) returns (rows: seq<Row>)
    requires to <= |buffer|
    ensures rows == ReadRows(buffer, from, to)
  {
    rows := [];
    var y := from;
    while y < to
      invariant from <= y && (from <= to ==> y <= to && rows == buffer[from..y]) && (from > to ==> rows == [])
    {
      rows := rows + [buffer[y]];
      y := y + 1;
    }
    ghost var all := rows;
    while |rows| > 0 && rows[|rows| - 1].text == ""
      invariant TrimBlanks(all) == TrimBlanks(rows)
    {
      rows := rows[..|rows| - 1];
    }
  }

  class ReplayKeeper {
    const screen: Terminal
    var archived: seq<Row>
    ghost var ever: seq<Row>
    ghost var trimmed: set<nat>
    ghost var blanks: set<nat>
    ghost var drawnElsewhere: set<nat>
    ghost var nextId: nat

    constructor (screen: Terminal)
      ensures this.screen == screen && archived == []
    {
      this.screen, archived, ever, trimmed, blanks, drawnElsewhere, nextId := screen, [], [], {}, {}, {}, ROWS;
    }

    ghost function View(): Screen
      reads this, screen
    {
      Screen(screen.rows, screen.baseY, screen.marker, screen.alternate, nextId, archived, ever, trimmed, blanks, drawnElsewhere)
    }

    method FirstUncopiedRow() returns (row: nat)
      ensures row == FirstUncopied(View())
    {
      row := 0;
      if screen.marker.Some? { row := screen.marker.value + 1; }
    }

    /** Copied rows go to the end; past the cap the oldest go. */
    method Push(rows: seq<Row>)
      requires |archived| <= ARCHIVE_MAX
      modifies this`archived
      ensures archived == LastK(ARCHIVE_MAX, old(archived) + rows)
    {
      if |rows| > 0 {
        archived := archived + rows;
        if |archived| > ARCHIVE_MAX { archived := LastK(ARCHIVE_MAX, archived); }
      } else {
        assert archived + rows == archived;
      }
    }

    /** Before an erase of mode 2 (the whole buffer) or mode 3 (the scrollback). */
    method Capture(mode: nat)
      requires ShapeOk(View()) && (mode == 2 || mode == 3)
      modifies this, screen`marker
      ensures View() == Machine.Capture(old(View()), if mode == 2 then |old(screen.rows)| else old(screen.baseY))
    {
      hide ReadRows, LastK, Ids;
      if screen.alternate.Some? { return; }
      var end := if mode == 2 then |screen.rows| else screen.baseY;
      var first := FirstUncopiedRow();
      var rows := ReadRowsLoop(screen.rows, first, end);
      blanks := blanks + (Ids(if first < end then screen.rows[first..end] else []) - Ids(rows));
      ever := ever + rows;
      Push(rows);
      screen.marker := if screen.baseY > 0 then Some(screen.baseY - 1) else None;
    }

    /** Archived rows, then the rows drawn since, the latter cut to `maxLines`. */
    method Read(maxLines: nat) returns (lines: seq<Row>, archivedLineCount: nat)
      ensures lines == Replay(View(), maxLines) && archivedLineCount == |archived|
      ensures lines[..archivedLineCount] == archived
    {
      hide ReadRows, LastK;
      var buffer := if screen.alternate.Some? then screen.alternate.value else screen.rows;
      var first := FirstUncopiedRow();
      var live := ReadRowsLoop(buffer, first, |buffer|);
      lines, archivedLineCount := archived + SliceLast(live, maxLines), |archived|;
    }
  }
}
