/**
 * Cutting appended bytes into complete lines (src/utils/fileIdentity.ts).
 *
 * A line ends at its newline; bytes after the last newline stay unconsumed, and a bare
 * newline is consumed without producing a span.
 */
module LineSplit {
  newtype Byte = x: int | 0 <= x < 256

  const NEWLINE: Byte := 10

  /** `text` is the line's bytes; UTF-8 decoding is a function of them and is not modelled. */
  datatype LineSpan = LineSpan(byteOffset: nat, byteLength: nat, text: seq<Byte>)

  datatype Split = Split(spans: seq<LineSpan>, consumed: nat)

  /** The split of a whole buffer. */
  function SplitLines(buf: seq<Byte>, base: nat): (r: Split)
    ensures r.consumed <= |buf|
  {
    SplitTo(buf, base, |buf|)
  }

  /** The split of the first `n` bytes, as a fold: the specification of the loop below. */
  function SplitTo(buf: seq<Byte>, base: nat, n: nat): (r: Split)
    requires n <= |buf|
    ensures r.consumed <= n
  {
    if n == 0 then Split([], 0)
    else
      var r := SplitTo(buf, base, n - 1);
      if buf[n - 1] != NEWLINE then r
      else Split(r.spans + LineAt(buf, base, r.consumed, n - 1), n)
  }

  /** The span of `buf[from..to]`, or nothing when that line is empty. */
  function LineAt(buf: seq<Byte>, base: nat, from: nat, to: nat): seq<LineSpan>
    requires from <= to <= |buf|
  {
    if from == to then [] else [LineSpan(base + from, to - from, buf[from..to])]
  }

  method SplitCompleteLines(buf: seq<Byte>, base: nat) returns (spans: seq<LineSpan>, consumed: nat)
    ensures Split(spans, consumed) == SplitLines(buf, base)
  {
    spans := [];
    var lineStart := 0;
    consumed := 0;
    var i := 0;
    while i < |buf|
      invariant 0 <= i <= |buf| && lineStart == consumed <= i
      invariant Split(spans, consumed) == SplitTo(buf, base, i)
    {
      if buf[i] == NEWLINE {
        var lineLen := i - lineStart;
        if lineLen > 0 {
          spans := spans + [LineSpan(base + lineStart, lineLen, buf[lineStart..i])];
        }
        lineStart := i + 1;
        consumed := lineStart;
      }
      i := i + 1;
    }
  }

  // ── The spans are exactly the buffer's nonempty complete lines ──────────────

  /** `buf[from..to]` is a whole nonempty line of `buf`, its newline at `to`. */
  ghost predicate IsLine(buf: seq<Byte>, from: nat, to: nat) {
    && from < to < |buf|
    && buf[to] == NEWLINE
    && (forall i :: from <= i < to ==> buf[i] != NEWLINE)
    && (from == 0 || buf[from - 1] == NEWLINE)
  }

  /** `s` is the whole line of `buf` at its own absolute place. */
  ghost predicate SpanInPlace(buf: seq<Byte>, base: nat, s: LineSpan) {
    && base <= s.byteOffset
    && IsLine(buf, s.byteOffset - base, s.byteOffset - base + s.byteLength)
    && s.text == buf[s.byteOffset - base..s.byteOffset - base + s.byteLength]
  }

  /** Consumption stops just past the last newline, and every span lies before that point. */
  lemma {:induction false} ConsumedEndsLine(buf: seq<Byte>, base: nat, n: nat)
    requires n <= |buf|
    ensures var r := SplitTo(buf, base, n);
            && (r.consumed == 0 || buf[r.consumed - 1] == NEWLINE)
            && (forall i :: r.consumed <= i < n ==> buf[i] != NEWLINE)
            && (forall s :: s in r.spans ==> base <= s.byteOffset && s.byteOffset - base + s.byteLength < r.consumed)
  {
    if n > 0 {
      ConsumedEndsLine(buf, base, n - 1);
    }
  }

  /** Every span is a whole line of the buffer, at its own absolute place. */
  lemma {:induction false} SpansAreLines(buf: seq<Byte>, base: nat, n: nat)
    requires n <= |buf|
    ensures forall s :: s in SplitTo(buf, base, n).spans ==> SpanInPlace(buf, base, s)
  {
    if n > 0 {
      SpansAreLines(buf, base, n - 1);
      ConsumedEndsLine(buf, base, n - 1);
    }
  }

  /** Spans come in file order and do not overlap. */
  lemma {:induction false} SpansAreOrdered(buf: seq<Byte>, base: nat, n: nat)
    requires n <= |buf|
    ensures var r := SplitTo(buf, base, n);
            forall j, k :: 0 <= j < k < |r.spans| ==>
              r.spans[j].byteOffset + r.spans[j].byteLength < r.spans[k].byteOffset
  {
    if n > 0 {
      SpansAreOrdered(buf, base, n - 1);
      ConsumedEndsLine(buf, base, n - 1);
    }
  }

  /** Every whole line of the buffer has a span: together with SpansAreLines, exactly the lines. */
  lemma {:induction false} EveryLineHasSpan(buf: seq<Byte>, base: nat, n: nat, from: nat, to: nat)
    requires n <= |buf| && IsLine(buf, from, to) && to < n
    ensures LineSpan(base + from, to - from, buf[from..to]) in SplitTo(buf, base, n).spans
  {
    if to < n - 1 {
      EveryLineHasSpan(buf, base, n - 1, from, to);
    } else {
      ConsumedEndsLine(buf, base, n - 1);
      // Bytes after the last newline hold none, so the line starts where consumption stopped.
      assert SplitTo(buf, base, n - 1).consumed == from;
      assert LineAt(buf, base, from, to) == [LineSpan(base + from, to - from, buf[from..to])];
    }
  }

  // ── Splitting in pieces ─────────────────────────────────────────────────────

  /** Bytes that end at a newline (or none at all): what an index writer consumes. */
  ghost predicate Whole(bytes: seq<Byte>, base: nat) {
    SplitLines(bytes, base).consumed == |bytes|
  }

  /** Only the first `n` bytes matter. */
  lemma {:induction false} SplitOfPrefix(buf: seq<Byte>, other: seq<Byte>, base: nat, n: nat)
    requires n <= |buf| && n <= |other| && forall i :: 0 <= i < n ==> buf[i] == other[i]
    ensures SplitTo(buf, base, n) == SplitTo(other, base, n)
  {
    if n > 0 {
      SplitOfPrefix(buf, other, base, n - 1);
      var c := SplitTo(buf, base, n - 1).consumed;
      assert buf[c..n - 1] == other[c..n - 1];
    }
  }

  /** One more byte. */
  lemma {:induction false} SplitToStep(buf: seq<Byte>, base: nat, n: nat)
    requires 0 < n <= |buf|
    ensures var r, s := SplitTo(buf, base, n - 1), SplitTo(buf, base, n);
            if buf[n - 1] == NEWLINE then s == Split(r.spans + LineAt(buf, base, r.consumed, n - 1), n) else s == r
  {
  }

  /** The first `n` bytes split after `at` as they do on their own, after the spans of `first`. */
  ghost predicate SplitsAfter(whole: seq<Byte>, base: nat, at: nat, b: seq<Byte>, first: seq<LineSpan>, n: nat)
    requires n <= |b| && at + |b| <= |whole|
  {
    && SplitTo(whole, base, at + n).spans == first + SplitTo(b, base + at, n).spans
    && SplitTo(whole, base, at + n).consumed == at + SplitTo(b, base + at, n).consumed
  }

  lemma {:induction false} SplitToAfterPrefix(p: seq<Byte>, b: seq<Byte>, base: nat, n: nat)
    requires Whole(p, base) && n <= |b|
    ensures SplitsAfter(p + b, base, |p|, b, SplitLines(p, base).spans, n)
  {
    hide SplitTo, SplitLines, SplitsAfter;
    if n == 0 {
      AfterPrefixStart(p, b, base);
    } else {
      SplitToAfterPrefix(p, b, base, n - 1);
      var from := SplitTo(b, base + |p|, n - 1).consumed;
      assert (p + b)[|p| + from..|p| + n - 1] == b[from..n - 1];
      AfterPrefixStep(p + b, base, |p|, b, SplitLines(p, base).spans, n);
    }
  }

  lemma {:induction false} AfterPrefixStart(p: seq<Byte>, b: seq<Byte>, base: nat)
    requires Whole(p, base)
    ensures SplitsAfter(p + b, base, |p|, b, SplitLines(p, base).spans, 0)
  {
    SplitOfPrefix(p + b, p, base, |p|);
  }

  lemma {:induction false} AfterPrefixStep(whole: seq<Byte>, base: nat, at: nat, b: seq<Byte>, first: seq<LineSpan>, n: nat)
    requires 0 < n <= |b| && at + |b| <= |whole|
    requires SplitsAfter(whole, base, at, b, first, n - 1) && whole[at + n - 1] == b[n - 1]
    requires var from := SplitTo(b, base + at, n - 1).consumed; whole[at + from..at + n - 1] == b[from..n - 1]
    ensures SplitsAfter(whole, base, at, b, first, n)
  {
    SplitToStep(whole, base, at + n);
    SplitToStep(b, base + at, n);
    var r := SplitTo(b, base + at, n - 1);
    var line := LineAt(b, base + at, r.consumed, n - 1);
    assert LineAt(whole, base, at + r.consumed, at + n - 1) == line;
    hide SplitTo, LineAt;
    JoinStep(SplitTo(whole, base, at + n - 1), SplitTo(whole, base, at + n), r, SplitTo(b, base + at, n),
             first, at, line, b[n - 1] == NEWLINE, n);
  }

  lemma JoinStep(r: Split, r': Split, s: Split, s': Split, first: seq<LineSpan>, at: nat, line: seq<LineSpan>, newline: bool, n: nat)
    requires r.spans == first + s.spans && r.consumed == at + s.consumed
    requires if newline then r' == Split(r.spans + line, at + n) && s' == Split(s.spans + line, n) else r' == r && s' == s
    ensures r'.spans == first + s'.spans && r'.consumed == at + s'.consumed
  {
  }

  /** A prefix of whole lines splits off: what follows it is split on its own. */
  lemma SplitAfterPrefix(p: seq<Byte>, b: seq<Byte>, base: nat)
    requires Whole(p, base)
    ensures SplitLines(p + b, base).spans == SplitLines(p, base).spans + SplitLines(b, base + |p|).spans
    ensures SplitLines(p + b, base).consumed == |p| + SplitLines(b, base + |p|).consumed
  {
    SplitToAfterPrefix(p, b, base, |b|);
  }

  lemma {:induction false} SplitToConsumed(buf: seq<Byte>, base: nat, n: nat)
    requires n <= |buf|
    ensures SplitTo(buf, base, SplitTo(buf, base, n).consumed) == SplitTo(buf, base, n)
  {
    if n > 0 { SplitToConsumed(buf, base, n - 1); }
  }

  /** The consumed bytes alone give the same split. */
  lemma SplitOfConsumed(buf: seq<Byte>, base: nat)
    ensures SplitLines(buf[..SplitLines(buf, base).consumed], base) == SplitLines(buf, base)
  {
    var c := SplitLines(buf, base).consumed;
    SplitToConsumed(buf, base, |buf|);
    SplitOfPrefix(buf, buf[..c], base, c);
  }

  /** Bytes without a newline make no span and consume nothing. */
  lemma {:induction false} NoNewlineNoSpan(buf: seq<Byte>, base: nat, n: nat)
    requires n <= |buf| && forall i :: 0 <= i < n ==> buf[i] != NEWLINE
    ensures SplitTo(buf, base, n) == Split([], 0)
  {
    if n > 0 { NoNewlineNoSpan(buf, base, n - 1); }
  }

  /** What is left after the consumed bytes holds no complete line. */
  lemma RestHasNoLine(buf: seq<Byte>, base: nat, at: nat)
    ensures SplitLines(buf[SplitLines(buf, base).consumed..], at) == Split([], 0)
  {
    var c := SplitLines(buf, base).consumed;
    ConsumedEndsLine(buf, base, |buf|);
    NoNewlineNoSpan(buf[c..], at, |buf| - c);
  }
}
