/**
 * Claude's turn signal in the PTY output (src/pty-manager.ts:79, 1344-1360): the escape is matched in
 * chunks whose boundaries are arbitrary, carrying the end of one chunk into the next.
 *
 * Strings are sequences of UTF-16 code units, which is what the regular expressions work on.
 */
module TurnSignal {

  type CodeUnit = n: nat | n < 0x10000

  const ESC: CodeUnit := 0x1b
  const BRACKET: CodeUnit := 0x5d  // ]
  const SEMI: CodeUnit := 0x3b     // ;
  const ZERO: CodeUnit := 0x30
  const TWO: CodeUnit := 0x32
  const FOUR: CodeUnit := 0x34
  const NINE: CodeUnit := 0x39
  const IDLE_GLYPH: CodeUnit := 0x2733                                    // ✳
  const BUSY_GLYPHS: set<CodeUnit> := {0x25d0, 0x25d3, 0x25d1, 0x25d2}   // ◐ ◓ ◑ ◒

  predicate Digit(c: CodeUnit) { ZERO <= c <= NINE }

  /** `.` in a regular expression without the `s` flag. */
  predicate AnyChar(c: CodeUnit) { c != 0x0a && c != 0x0d && c != 0x2028 && c != 0x2029 }

  /** `ESC]9;4;` and a digit at `i`. */
  predicate ProgressAt(w: seq<CodeUnit>, i: nat) {
    && i + 7 <= |w| && w[i] == ESC && w[i + 1] == BRACKET && w[i + 2] == NINE && w[i + 3] == SEMI
    && w[i + 4] == FOUR && w[i + 5] == SEMI && Digit(w[i + 6])
  }

  /** `ESC]0;` or `ESC]2;` at `i`, with a code unit after it. */
  predicate TitleAt(w: seq<CodeUnit>, i: nat) {
    i + 5 <= |w| && w[i] == ESC && w[i + 1] == BRACKET && (w[i + 2] == ZERO || w[i + 2] == TWO) && w[i + 3] == SEMI
  }

  predicate GlyphTitleAt(w: seq<CodeUnit>, i: nat) {
    TitleAt(w, i) && (w[i + 4] == IDLE_GLYPH || w[i + 4] in BUSY_GLYPHS)
  }

  /** The signals that end at position `e`: at most one, `true` for busy. */
  function EndingAt(w: seq<CodeUnit>, e: nat): seq<bool>
    requires e <= |w|
  {
    if e >= 7 && ProgressAt(w, e - 7) then [w[e - 1] != ZERO]
    else if e >= 5 && GlyphTitleAt(w, e - 5) then [w[e - 1] != IDLE_GLYPH]
    else []
  }

  /** The signals of `w` that end in `(from, n]`, in order. */
  function Signals(w: seq<CodeUnit>, from: nat, n: nat): seq<bool>
    requires from <= n <= |w|
    decreases n
  {
    if n == from then [] else Signals(w, from, n - 1) + EndingAt(w, n)
  }

  /** Every signal of an output stream. */
  function AllSignals(w: seq<CodeUnit>): seq<bool> { Signals(w, 0, |w|) }

  // ── Matching one window ─────────────────────────────────────────────────────

  /** No signal starts before `i` and ends after it. */
  ghost predicate NoneAcross(w: seq<CodeUnit>, i: nat) {
    forall j: nat :: j < i ==> (ProgressAt(w, j) ==> j + 7 <= i) && (GlyphTitleAt(w, j) ==> j + 5 <= i)
  }

  lemma {:induction false} NothingEndsInside(w: seq<CodeUnit>, i: nat, n: nat)
    requires i <= n <= |w| && NoneAcross(w, i)
    requires forall e :: i < e <= n ==> EndingAt(w, e) == []
    ensures Signals(w, 0, n) == Signals(w, 0, i)
  {
    if n > i { NothingEndsInside(w, i, n - 1); }
  }

  /** After a match of `len` code units at `i`, the search resumes with nothing missed. */
  lemma {:induction false} AfterMatch(w: seq<CodeUnit>, i: nat, len: nat)
    requires NoneAcross(w, i)
    requires (len == 7 && ProgressAt(w, i)) || (len == 5 && GlyphTitleAt(w, i))
    ensures NoneAcross(w, i + len)
    ensures Signals(w, 0, i + len) == Signals(w, 0, i) + [if len == 7 then w[i + 6] != ZERO else w[i + 4] != IDLE_GLYPH]
  {
    assert forall k :: i < k < i + len ==> w[k] != ESC;
    NothingEndsInside(w, i, i + len - 1);
    assert EndingAt(w, i + len) == [if len == 7 then w[i + 6] != ZERO else w[i + 4] != IDLE_GLYPH];
  }

  lemma {:induction false} AfterMismatch(w: seq<CodeUnit>, i: nat)
    requires NoneAcross(w, i) && i < |w| && !ProgressAt(w, i) && !GlyphTitleAt(w, i)
    ensures NoneAcross(w, i + 1) && Signals(w, 0, i + 1) == Signals(w, 0, i)
  {
    assert EndingAt(w, i + 1) == [];
  }

  /** `matchAll`: leftmost matches, each search resuming after the last match, find every signal. */
  method MatchAll(w: seq<CodeUnit>) returns (signals: seq<bool>)
    ensures signals == AllSignals(w)
  {
    signals := [];
    var i := 0;
    while i < |w|
      invariant i <= |w| && NoneAcross(w, i) && signals == Signals(w, 0, i)
    {
      hide Signals, NoneAcross;
      if ProgressAt(w, i) {
        AfterMatch(w, i, 7);
        signals, i := signals + [w[i + 6] != ZERO], i + 7;
      } else if GlyphTitleAt(w, i) {
        AfterMatch(w, i, 5);
        signals, i := signals + [w[i + 4] != IDLE_GLYPH], i + 5;
      } else {
        AfterMismatch(w, i);
        i := i + 1;
      }
    }
  }

  // ── The carried tail ────────────────────────────────────────────────────────

  /** `lastIndexOf(ESC)` in the first `n` code units. */
  function LastEsc(w: seq<CodeUnit>, n: nat): (r: int)
    requires n <= |w|
    ensures -1 <= r < n
    ensures r >= 0 ==> w[r] == ESC
    ensures forall i :: r < i < n ==> w[i] != ESC
  {
    if n == 0 then -1 else if w[n - 1] == ESC then n - 1 else LastEsc(w, n - 1)
  }

  /** `/^\x1b\](?:9;4;\d|[02];.)/`. */
  predicate Complete(rest: seq<CodeUnit>) {
    ProgressAt(rest, 0) || (TitleAt(rest, 0) && AnyChar(rest[4]))
  }

  /** The window from its last escape on. */
  function Rest(w: seq<CodeUnit>): seq<CodeUnit> {
    var esc := LastEsc(w, |w|);
    if esc >= 0 then w[esc..] else []
  }

  /** The tail kept for the next chunk. */
  function Carry(w: seq<CodeUnit>): (tail: seq<CodeUnit>)
    ensures |tail| < 7
  {
    var rest := Rest(w);
    if |rest| < 7 && !Complete(rest) then rest else []
  }

  lemma {:induction false} LastEscOfConcat(u: seq<CodeUnit>, v: seq<CodeUnit>, n: nat)
    requires n <= |v|
    ensures LastEsc(u + v, |u| + n) == if LastEsc(v, n) >= 0 then |u| + LastEsc(v, n) else LastEsc(u, |u|)
  {
    if n == 0 {
      LastEscOfPrefix(u, v, |u|);
    } else {
      assert (u + v)[|u| + n - 1] == v[n - 1];
      LastEscOfConcat(u, v, n - 1);
    }
  }

  lemma {:induction false} LastEscOfPrefix(u: seq<CodeUnit>, v: seq<CodeUnit>, n: nat)
    requires n <= |u|
    ensures LastEsc(u + v, n) == LastEsc(u, n)
  {
    if n > 0 { LastEscOfPrefix(u, v, n - 1); }
  }

  lemma {:induction false} StaysComplete(rest: seq<CodeUnit>, v: seq<CodeUnit>)
    requires Complete(rest)
    ensures Complete(rest + v)
  {
    assert forall i :: 0 <= i < |rest| ==> (rest + v)[i] == rest[i];
  }

  lemma {:induction false} RestOfConcat(u: seq<CodeUnit>, v: seq<CodeUnit>)
    ensures Rest(u + v) == if Rest(v) != [] then Rest(v) else if Rest(u) != [] then Rest(u) + v else []
  {
    LastEscOfConcat(u, v, |v|);
    var e, k := LastEsc(u, |u|), LastEsc(v, |v|);
    if k >= 0 {
      assert (u + v)[|u| + k..] == v[k..];
    } else if e >= 0 {
      assert (u + v)[e..] == u[e..] + v;
    }
  }

  lemma {:induction false} RestOfRest(u: seq<CodeUnit>)
    ensures Rest(Rest(u)) == Rest(u)
  {
    var e := LastEsc(u, |u|);
    if e >= 0 {
      var r := u[e..];
      assert r[0] == ESC && forall i :: 0 < i < |r| ==> r[i] != ESC;
      assert LastEsc(r, |r|) == 0 && r[0..] == r;
    }
  }

  /** Carrying from a window gives what carrying from the whole stream would. */
  lemma {:induction false} CarryOfWindow(u: seq<CodeUnit>, v: seq<CodeUnit>)
    ensures Carry(Carry(u) + v) == Carry(u + v)
  {
    RestOfConcat(u, v);
    RestOfConcat(Carry(u), v);
    RestOfRest(u);
    if Complete(Rest(u)) { StaysComplete(Rest(u), v); }
    hide Rest, Complete;
    NothingCarriedAtFirst();
  }

  lemma {:induction false} NothingCarriedAtFirst()
    ensures Rest([]) == [] && Carry([]) == [] && AllSignals([]) == []
  {
  }

  // ── Chunk boundaries do not matter ──────────────────────────────────────────

  lemma {:induction false} EndingAtShifts(w: seq<CodeUnit>, s: seq<CodeUnit>, k: nat, e: nat)
    requires e <= |w| && |s| == k + |w| && s[k..] == w
    requires (e >= 5 || k + e < 5 || !GlyphTitleAt(s, k + e - 5)) && (e >= 7 || k + e < 7 || !ProgressAt(s, k + e - 7))
    ensures EndingAt(w, e) == EndingAt(s, k + e)
  {
    assert forall i :: 0 <= i < |w| ==> w[i] == s[k + i];
  }

  /** A signal that reaches into `v` starts in the carried tail or in `v`. */
  lemma {:induction false} WindowEndsAsStream(u: seq<CodeUnit>, v: seq<CodeUnit>, e: nat)
    requires |Carry(u)| < e <= |Carry(u)| + |v|
    ensures EndingAt(Carry(u) + v, e) == EndingAt(u + v, |u| - |Carry(u)| + e)
  {
    hide Carry, EndingAt, GlyphTitleAt, ProgressAt;
    WindowEndsStream(u, v);
    var w, s, k := Carry(u) + v, u + v, |u| - |Carry(u)|;
    if k + e >= 5 && k + e - 5 < k { StartsInCarry(u, v, k + e - 5, 5); }
    if k + e >= 7 && k + e - 7 < k { StartsInCarry(u, v, k + e - 7, 7); }
    EndingAtShifts(w, s, k, e);
  }

  lemma {:induction false} WindowEndsStream(u: seq<CodeUnit>, v: seq<CodeUnit>)
    ensures |Carry(u)| <= |u| && (u + v)[|u| - |Carry(u)|..] == Carry(u) + v
  {
    var k := |u| - |Carry(u)|;
    assert Carry(u) == u[k..];
    assert u + v == u[..k] + (u[k..] + v);
  }

  lemma {:induction false} StartsInCarry(u: seq<CodeUnit>, v: seq<CodeUnit>, j: nat, len: nat)
    requires j < |u| - |Carry(u)| && j + len > |u|
    ensures len == 5 ==> !GlyphTitleAt(u + v, j)
    ensures len == 7 ==> !ProgressAt(u + v, j)
  {
    var s := u + v;
    if (len == 5 && GlyphTitleAt(s, j)) || (len == 7 && ProgressAt(s, j)) {
      assert false;
    }
  }

  /** The carried tail holds no complete signal, so none is counted twice. */
  lemma {:induction false} CarryHoldsNoSignal(u: seq<CodeUnit>, v: seq<CodeUnit>, n: nat)
    requires n <= |Carry(u)|
    ensures Signals(Carry(u) + v, 0, n) == []
  {
    if n > 0 {
      CarryHoldsNoSignal(u, v, n - 1);
      NoneEndsInCarry(u, v, n);
    }
  }

  lemma {:induction false} NoneEndsInCarry(u: seq<CodeUnit>, v: seq<CodeUnit>, n: nat)
    requires 0 < n <= |Carry(u)|
    ensures EndingAt(Carry(u) + v, n) == []
  {
    var t, w := Carry(u), Carry(u) + v;
    assert t[0] == ESC && !Complete(t);
    assert forall i :: 0 < i < |t| ==> t[i] != ESC;
    hide Carry, Rest;
    assert forall i :: 0 <= i < |t| ==> w[i] == t[i];
  }

  lemma {:induction false} WindowSignals(u: seq<CodeUnit>, v: seq<CodeUnit>, n: nat)
    requires n <= |v|
    ensures Signals(Carry(u) + v, 0, |Carry(u)| + n) == Signals(u + v, |u|, |u| + n)
  {
    hide Carry, EndingAt;
    if n == 0 {
      CarryHoldsNoSignal(u, v, |Carry(u)|);
    } else {
      WindowSignals(u, v, n - 1);
      WindowEndsAsStream(u, v, |Carry(u)| + n);
    }
  }

  lemma {:induction false} SignalsOfPrefix(u: seq<CodeUnit>, v: seq<CodeUnit>, n: nat)
    requires n <= |u|
    ensures Signals(u + v, 0, n) == Signals(u, 0, n)
  {
    if n > 0 {
      SignalsOfPrefix(u, v, n - 1);
      assert forall i :: 0 <= i < |u| ==> (u + v)[i] == u[i];
    }
  }

  lemma {:induction false} SignalsSplit(w: seq<CodeUnit>, m: nat, n: nat)
    requires m <= n <= |w|
    ensures Signals(w, 0, n) == Signals(w, 0, m) + Signals(w, m, n)
  {
    hide EndingAt;
    if n > m { SignalsSplit(w, m, n - 1); }
  }

  /** One more chunk adds exactly the signals of its window. */
  lemma {:induction false} ChunkAddsItsWindow(u: seq<CodeUnit>, v: seq<CodeUnit>)
    ensures AllSignals(u + v) == AllSignals(u) + AllSignals(Carry(u) + v)
  {
    hide Carry, EndingAt;
    SignalsSplit(u + v, |u|, |u + v|);
    SignalsOfPrefix(u, v, |u|);
    WindowSignals(u, v, |v|);
  }

  function Concat(chunks: seq<seq<CodeUnit>>, n: nat): seq<CodeUnit>
    requires n <= |chunks|
  {
    if n == 0 then [] else Concat(chunks, n - 1) + chunks[n - 1]
  }

  /** `progressTail` after the first `n` chunks. */
  function TailAfter(chunks: seq<seq<CodeUnit>>, n: nat): seq<CodeUnit>
    requires n <= |chunks|
  {
    if n == 0 then [] else Carry(TailAfter(chunks, n - 1) + chunks[n - 1])
  }

  /** The signals matched in the windows of the first `n` chunks, in order. */
  function MatchedIn(chunks: seq<seq<CodeUnit>>, n: nat): seq<bool>
    requires n <= |chunks|
  {
    if n == 0 then [] else MatchedIn(chunks, n - 1) + AllSignals(TailAfter(chunks, n - 1) + chunks[n - 1])
  }

  /**
   * However the output stream is cut into chunks, the signals matched over all windows are those of
   * the unsplit stream, each once and in order, with a carried tail shorter than 7 code units.
   */
  lemma {:induction false} SplitDoesNotMatter(chunks: seq<seq<CodeUnit>>, n: nat)
    requires n <= |chunks|
    ensures TailAfter(chunks, n) == Carry(Concat(chunks, n)) && |TailAfter(chunks, n)| < 7
    ensures MatchedIn(chunks, n) == AllSignals(Concat(chunks, n))
  {
    hide AllSignals, Carry;
    if n == 0 {
      NothingCarriedAtFirst();
    } else {
      SplitDoesNotMatter(chunks, n - 1);
      CarryOfWindow(Concat(chunks, n - 1), chunks[n - 1]);
      ChunkAddsItsWindow(Concat(chunks, n - 1), chunks[n - 1]);
    }
  }

  // ── What one chunk does to the open turn ────────────────────────────────────

  datatype Turn = NoTurn | Submitted | Working | Ending | Held

  /** The transition of `trackProgress` for one signal. */
  function NextTurn(before: Turn, busy: bool): Turn {
    if busy then Working else if before == Working then Ending else before
  }

  /** `trackProgress` applies only the last signal of the window. */
  function ChunkTurn(before: Turn, signals: seq<bool>): Turn {
    if signals == [] then before else NextTurn(before, signals[|signals| - 1])
  }

  /** Every signal applied in order, as if each had come in a chunk of its own. */
  function FoldTurn(before: Turn, signals: seq<bool>, n: nat): Turn
    requires n <= |signals|
  {
    if n == 0 then before else NextTurn(FoldTurn(before, signals, n - 1), signals[n - 1])
  }

  lemma {:induction false} FoldTurnIs(before: Turn, signals: seq<bool>, n: nat)
    requires n <= |signals|
    ensures true !in signals[..n] ==> FoldTurn(before, signals, n) == if n == 0 then before else NextTurn(before, false)
    ensures true in signals[..n] ==> FoldTurn(before, signals, n) == if signals[n - 1] then Working else Ending
  {
    if n > 0 {
      FoldTurnIs(before, signals, n - 1);
      assert signals[..n] == signals[..n - 1] + [signals[n - 1]];
    }
  }

  /**
   * Exactly when the turn after a chunk is the one the signals give one at a time: not when a busy
   * and then an idle signal arrive in one chunk while the turn is neither working nor ending.
   */
  lemma {:induction false} ChunkTurnIsFoldIff(before: Turn, signals: seq<bool>)
    ensures ChunkTurn(before, signals) == FoldTurn(before, signals, |signals|)
            <==> (|| signals == [] || signals[|signals| - 1] || true !in signals || before == Working || before == Ending)
  {
    FoldTurnIs(before, signals, |signals|);
    assert signals[..|signals|] == signals;
  }

  const BUSY_PROGRESS: seq<CodeUnit> := [ESC, BRACKET, NINE, SEMI, FOUR, SEMI, 0x33]
  const IDLE_PROGRESS: seq<CodeUnit> := [ESC, BRACKET, NINE, SEMI, FOUR, SEMI, ZERO]

  lemma {:induction false} OneSignalEach()
    ensures AllSignals(BUSY_PROGRESS) == [true] && AllSignals(IDLE_PROGRESS) == [false]
    ensures Carry(BUSY_PROGRESS) == []
  {
    SevenLong(BUSY_PROGRESS);
    SevenLong(IDLE_PROGRESS);
    assert BUSY_PROGRESS[0] == ESC;
  }

  lemma {:induction false} SevenLong(w: seq<CodeUnit>)
    requires |w| == 7 && ProgressAt(w, 0)
    ensures AllSignals(w) == [w[6] != ZERO]
  {
    NothingEndsInside(w, 0, 6);
    assert AllSignals(w) == Signals(w, 0, 6) + EndingAt(w, 7);
  }

  /** The same bytes, after a submit: cut in two the turn is ending; in one piece it is still only submitted. */
  lemma {:induction false} OneChunkHidesAWholeTurn()
    ensures ChunkTurn(Submitted, AllSignals(BUSY_PROGRESS + IDLE_PROGRESS)) == Submitted
    ensures ChunkTurn(ChunkTurn(Submitted, AllSignals(BUSY_PROGRESS)), AllSignals(Carry(BUSY_PROGRESS) + IDLE_PROGRESS)) == Ending
  {
    OneSignalEach();
    ChunkAddsItsWindow(BUSY_PROGRESS, IDLE_PROGRESS);
    assert Carry(BUSY_PROGRESS) + IDLE_PROGRESS == IDLE_PROGRESS;
  }
}
