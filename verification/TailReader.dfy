/**
 * The backward chunk reader (src/conversation-cache.ts:1689-1746): the trailing lines of a file, read
 * from its end in fixed-size chunks, and the last qualifying ones stored in file order. Over bytes.
 */
module TailReader {
  import opened Common

  type Byte = n: nat | n < 256
  type Text = seq<Byte>
  type Message = nat

  const NEWLINE: Byte := 10

  // ── Splitting ───────────────────────────────────────────────────────────────

  /** One more byte: a newline begins a new part, anything else goes on the end of the last. */
  function Extend(parts: seq<Text>, c: Byte): (r: seq<Text>)
    requires parts != []
    ensures r != []
  {
    if c == NEWLINE then parts + [[]] else parts[..|parts| - 1] + [parts[|parts| - 1] + [c]]
  }

  /** `s.split("\n")` of the first `n` bytes: one part more than there are newlines. */
  function SplitTo(s: Text, n: nat): (parts: seq<Text>)
    requires n <= |s|
    ensures parts != []
  {
    if n == 0 then [[]]
    else
      Extend(SplitTo(s, n - 1), s[n - 1])
  }

  function Split(s: Text): (parts: seq<Text>)
    ensures parts != []
  {
    SplitTo(s, |s|)
  }

  /** Two splits glued where they meet. */
  function Glue(a: seq<Text>, b: seq<Text>): (r: seq<Text>)
    requires a != [] && b != []
    ensures |r| == |a| + |b| - 1
  {
    a[..|a| - 1] + [a[|a| - 1] + b[0]] + b[1..]
  }

  lemma {:induction false} SplitOfPrefix(a: Text, b: Text, n: nat)
    requires n <= |a|
    ensures SplitTo(a + b, n) == SplitTo(a, n)
  {
    if n > 0 { SplitOfPrefix(a, b, n - 1); }
  }

  lemma {:induction false} GlueExtends(a: seq<Text>, b: seq<Text>, c: Byte)
    requires a != [] && b != []
    ensures Extend(Glue(a, b), c) == Glue(a, Extend(b, c))
  {
    if |b| == 1 {
      assert a[|a| - 1] + b[0] + [c] == a[|a| - 1] + (b[0] + [c]);
    }
  }

  lemma {:induction false} GlueTail(a: seq<Text>, b: seq<Text>)
    requires a != [] && b != []
    ensures Glue(a, b) == Glue(a, [b[0]]) + b[1..]
  {
  }

  lemma {:induction false} GlueNothing(p: seq<Text>)
    requires p != []
    ensures Glue(p, [[]]) == p
  {
    assert p[|p| - 1] + [] == p[|p| - 1];
  }

  lemma {:induction false} SplitGlues(a: Text, b: Text, n: nat)
    requires n <= |b|
    ensures SplitTo(a + b, |a| + n) == Glue(Split(a), SplitTo(b, n))
  {
    if n == 0 {
      SplitOfPrefix(a, b, |a|);
      GlueNothing(Split(a));
    } else {
      SplitGlues(a, b, n - 1);
      hide Glue, Split, Extend;
      assert (a + b)[|a| + n - 1] == b[n - 1];
      GlueExtends(Split(a), SplitTo(b, n - 1), b[n - 1]);
    }
  }

  predicate NoNewline(s: Text) { NEWLINE !in s }

  lemma {:induction false} SplitHasNoNewline(s: Text, n: nat)
    requires n <= |s|
    ensures forall i :: 0 <= i < |SplitTo(s, n)| ==> NoNewline(SplitTo(s, n)[i])
  {
    if n > 0 { SplitHasNoNewline(s, n - 1); }
  }

  lemma {:induction false} SplitOfOneLine(s: Text, n: nat)
    requires n <= |s| && NoNewline(s)
    ensures SplitTo(s, n) == [s[..n]]
  {
    if n > 0 {
      SplitOfOneLine(s, n - 1);
      assert s[..n] == s[..n - 1] + [s[n - 1]];
      ExtendOne(s[..n - 1], s[n - 1]);
    }
    hide Extend;
  }

  lemma {:induction false} ExtendOne(line: Text, c: Byte)
    requires c != NEWLINE
    ensures Extend([line], c) == [line + [c]]
  {
  }

  lemma {:induction false} SplitJoins(a: Text, b: Text)
    ensures Split(a + b) == Glue(Split(a), Split(b))
  {
    SplitGlues(a, b, |b|);
    hide SplitTo, Glue;
  }

  lemma {:induction false} FirstPartIsOneLine(s: Text)
    ensures NoNewline(Split(s)[0])
  {
    SplitHasNoNewline(s, |s|);
    hide SplitTo, NoNewline;
  }

  lemma {:induction false} OnePart(line: Text)
    requires NoNewline(line)
    ensures Split(line) == [line]
  {
    SplitOfOneLine(line, |line|);
    assert line[..|line|] == line;
  }

  /** A chunk in front: the parts of the chunk with the partial line on its end, then the rest unchanged. */
  lemma {:induction false} ChunkInFront(chunk: Text, rest: Text)
    ensures Split(chunk + rest) == Split(chunk + Split(rest)[0]) + Split(rest)[1..]
  {
    hide Split, Glue, NoNewline;
    var partial := Split(rest)[0];
    SplitJoins(chunk, rest);
    FirstPartIsOneLine(rest);
    OnePart(partial);
    SplitJoins(chunk, partial);
    GlueTail(Split(chunk), Split(rest));
  }

  // ── Lines kept, last first ──────────────────────────────────────────────────

  function Reversed<T>(s: seq<T>): (r: seq<T>)
    ensures |r| == |s| && forall i :: 0 <= i < |s| ==> r[i] == s[|s| - 1 - i]
  {
    if s == [] then [] else Reversed(s[1..]) + [s[0]]
  }

  lemma {:induction false} ReversedOfConcat<T>(a: seq<T>, b: seq<T>)
    ensures Reversed(a + b) == Reversed(b) + Reversed(a)
  {
  }

  /** The messages of the lines that qualify, in the order of the lines. */
  function Qualifying(lines: seq<Text>, parse: Text -> Option<Message>): seq<Message> {
    if lines == [] then []
    else
      var m := parse(lines[|lines| - 1]);
      Qualifying(lines[..|lines| - 1], parse) + if m.Some? then [m.value] else []
  }

  lemma {:induction false} QualifyingOfConcat(a: seq<Text>, b: seq<Text>, parse: Text -> Option<Message>)
    ensures Qualifying(a + b, parse) == Qualifying(a, parse) + Qualifying(b, parse)
  {
    if b == [] {
      assert a + b == a;
    } else {
      assert (a + b)[..|a + b| - 1] == a + b[..|b| - 1];
      QualifyingOfConcat(a, b[..|b| - 1], parse);
    }
  }

  // ── The reader ──────────────────────────────────────────────────────────────

  /** One chunk: its parts but the first are pushed, last first; the first is carried. */
  method PushParts(lines: seq<Text>, parts: seq<Text>) returns (more: seq<Text>)
    requires parts != []
    ensures more == lines + Reversed(parts[1..])
  {
    more := lines;
    var i := |parts| - 1;
    while i >= 1
      invariant 0 <= i < |parts| && more == lines + Reversed(parts[i + 1..])
    {
      more := more + [parts[i]];
      assert parts[i..][1..] == parts[i + 1..];
      i := i - 1;
    }
  }

  /** The lines held once the file is read from `pos` on: one for each newline. */
  function Held(file: Text, pos: nat): nat
    requires pos <= |file|
  {
    |Split(file[pos..])| - 1
  }

  /** Where reading backward from `pos` stops: at the start of the file, or with four lines for each wanted. */
  function StopFrom(file: Text, chunkSize: nat, tailSize: nat, pos: nat): (r: nat)
    requires chunkSize > 0 && pos <= |file|
    ensures r <= pos
  {
    if pos == 0 || Held(file, pos) >= tailSize * 4 then pos
    else StopFrom(file, chunkSize, tailSize, if chunkSize < pos then pos - chunkSize else 0)
  }

  function StopAt(file: Text, chunkSize: nat, tailSize: nat): (r: nat)
    requires chunkSize > 0
    ensures r <= |file|
  {
    StopFrom(file, chunkSize, tailSize, |file|)
  }

  /** The reader stops with enough lines or none left to read, and one chunk earlier it had too few. */
  lemma {:induction false} StopsOnTime(file: Text, chunkSize: nat, tailSize: nat, pos: nat)
    requires chunkSize > 0 && pos <= |file|
    ensures var stop := StopFrom(file, chunkSize, tailSize, pos);
            && (stop == 0 || Held(file, stop) >= tailSize * 4)
            && (stop < pos ==> Held(file, if stop + chunkSize < |file| then stop + chunkSize else |file|) < tailSize * 4)
    decreases pos
  {
    hide Held;
    if pos > 0 && Held(file, pos) < tailSize * 4 {
      var next := if chunkSize < pos then pos - chunkSize else 0;
      StopsOnTime(file, chunkSize, tailSize, next);
      if next == StopFrom(file, chunkSize, tailSize, next) {
        HeldShrinks(file, pos, if next + chunkSize < |file| then next + chunkSize else |file|);
      }
    }
  }

  lemma {:induction false} HeldShrinks(file: Text, p: nat, q: nat)
    requires p <= q <= |file|
    ensures Held(file, q) <= Held(file, p)
  {
    assert file[p..] == file[p..q] + file[q..];
    SplitGlues(file[p..q], file[q..], |file| - q);
    hide SplitTo;
  }

  /** One chunk read in front: its whole parts are pushed, the first is carried. */
  method ReadChunk(file: Text, pos: nat, toRead: nat, lines: seq<Text>, partial: Text) returns (more: seq<Text>, first: Text)
    requires toRead <= pos <= |file| && Split(file[pos..]) == [partial] + Reversed(lines)
    ensures Split(file[pos - toRead..]) == [first] + Reversed(more)
  {
    hide Split, Reversed;
    ChunkRead(file, pos, toRead, lines, partial);
    var chunk := file[pos - toRead..pos];
    var parts := Split(chunk + partial);
    more := PushParts(lines, parts);
    first := parts[0];
  }

  /**
   * The reading loop, for any chunk size: before the leftover is pushed, `lines` are the trailing
   * lines of the file in reverse, all of them or at least four times the tail.
   */
  method ReadBackward(file: Text, chunkSize: nat, tailSize: nat) returns (lines: seq<Text>, partial: Text, pos: nat)
    requires chunkSize > 0
    ensures pos == StopAt(file, chunkSize, tailSize) && Split(file[pos..]) == [partial] + Reversed(lines)
    ensures |lines| < |Split(file)| && Reversed(lines) == LastK(|lines|, Split(file))
    ensures pos == 0 || |lines| >= tailSize * 4
  {
    pos, partial, lines := |file|, [], [];
    NothingRead(file);
    hide Split, Reversed, LastK, StopFrom;
    while pos > 0 && |lines| < tailSize * 4
      invariant pos <= |file| && Split(file[pos..]) == [partial] + Reversed(lines)
      invariant StopFrom(file, chunkSize, tailSize, pos) == StopAt(file, chunkSize, tailSize)
    {
      var toRead := if chunkSize < pos then chunkSize else pos;
      StopFromSteps(file, chunkSize, tailSize, pos, |lines|);
      lines, partial := ReadChunk(file, pos, toRead, lines, partial);
      pos := pos - toRead;
    }
    TrailingLines(file, pos, lines, partial);
    StopFromSteps(file, chunkSize, tailSize, pos, |lines|);
  }

  lemma {:induction false} NothingRead(file: Text)
    ensures Split(file[|file|..]) == [[]] + Reversed([])
  {
    assert file[|file|..] == [];
  }

  lemma {:induction false} StopFromSteps(file: Text, chunkSize: nat, tailSize: nat, pos: nat, held: nat)
    requires chunkSize > 0 && pos <= |file| && |Split(file[pos..])| == held + 1
    ensures var next := if chunkSize < pos then pos - chunkSize else 0;
            StopFrom(file, chunkSize, tailSize, pos) ==
            if pos == 0 || held >= tailSize * 4 then pos else StopFrom(file, chunkSize, tailSize, next)
  {
  }

  lemma {:induction false} ChunkRead(file: Text, pos: nat, toRead: nat, lines: seq<Text>, partial: Text)
    requires toRead <= pos <= |file| && Split(file[pos..]) == [partial] + Reversed(lines)
    ensures var parts := Split(file[pos - toRead..pos] + partial);
            Split(file[pos - toRead..]) == [parts[0]] + Reversed(lines + Reversed(parts[1..]))
  {
    hide Split;
    var chunk, rest := file[pos - toRead..pos], file[pos..];
    assert file[pos - toRead..] == chunk + rest;
    ChunkInFront(chunk, rest);
    var parts := Split(chunk + partial);
    ReversedTwice(lines, parts[1..]);
    assert Split(rest)[0] == partial && Split(rest)[1..] == Reversed(lines);
    assert parts == [parts[0]] + parts[1..];
  }

  lemma {:induction false} ReversedTwice(lines: seq<Text>, parts: seq<Text>)
    ensures Reversed(lines + Reversed(parts)) == parts + Reversed(lines)
  {
    ReversedOfConcat(lines, Reversed(parts));
    assert Reversed(Reversed(parts)) == parts;
  }

  /** A file's lines around a position: those before it, the one it falls in, and those after it. */
  lemma {:induction false} SplitAround(file: Text, pos: nat)
    requires pos <= |file|
    ensures Split(file) == Glue(Split(file[..pos]), Split(file[pos..]))
  {
    assert file[..pos] + file[pos..] == file;
    SplitJoins(file[..pos], file[pos..]);
    hide Split, Glue;
  }

  lemma {:induction false} TrailingLines(file: Text, pos: nat, lines: seq<Text>, partial: Text)
    requires pos <= |file| && Split(file[pos..]) == [partial] + Reversed(lines)
    ensures |lines| < |Split(file)| && Reversed(lines) == LastK(|lines|, Split(file))
  {
    SplitAround(file, pos);
    hide Split;
    EndOfGlue(Split(file[..pos]), partial, Reversed(lines));
    assert |Reversed(lines)| == |lines|;
  }

  lemma {:induction false} EndOfGlue(a: seq<Text>, partial: Text, rest: seq<Text>)
    requires a != []
    ensures |rest| < |Glue(a, [partial] + rest)| && LastK(|rest|, Glue(a, [partial] + rest)) == rest
  {
  }

  /** The leftover is a whole line exactly when nothing precedes it or a newline does. */
  lemma {:induction false} LeftoverIsWholeIff(file: Text, pos: nat, lines: seq<Text>, partial: Text)
    requires pos <= |file| && Split(file[pos..]) == [partial] + Reversed(lines)
    ensures |lines| < |Split(file)|
    ensures Split(file)[|Split(file)| - 1 - |lines|] == partial <==> pos == 0 || file[pos - 1] == NEWLINE
  {
    var a, b := Split(file[..pos]), Split(file[pos..]);
    SplitAround(file, pos);
    LastPartEmptyIff(file[..pos], pos);
    LastMeetsFirst(a, b);
    hide SplitTo, Reversed, Glue;
    assert |b| == |lines| + 1 && |Split(file)| == |a| + |lines|;
  }

  lemma {:induction false} LastMeetsFirst(a: seq<Text>, b: seq<Text>)
    requires a != [] && b != []
    ensures Glue(a, b)[|a| - 1] == a[|a| - 1] + b[0]
    ensures a[|a| - 1] + b[0] == b[0] <==> a[|a| - 1] == []
  {
    if a[|a| - 1] + b[0] == b[0] { assert |a[|a| - 1]| + |b[0]| == |b[0]|; }
  }

  lemma {:induction false} LastPartEmptyIff(s: Text, n: nat)
    requires n <= |s|
    ensures var parts := SplitTo(s, n); parts[|parts| - 1] == [] <==> n == 0 || s[n - 1] == NEWLINE
  {
  }

  lemma {:induction false} KeepStep(lines: seq<Text>, i: nat, parse: Text -> Option<Message>)
    requires i < |lines|
    ensures Qualifying(Reversed(lines[..i + 1]), parse)
            == (if parse(lines[i]).Some? then [parse(lines[i]).value] else []) + Qualifying(Reversed(lines[..i]), parse)
  {
    assert lines[..i + 1] == lines[..i] + [lines[i]];
    ReversedOfConcat(lines[..i], [lines[i]]);
    QualifyingOfConcat([lines[i]], Reversed(lines[..i]), parse);
    QualifyingOfOne(lines[i], parse);
    assert Reversed([lines[i]]) == [lines[i]];
  }

  lemma {:induction false} KeepEnd(lines: seq<Text>, i: nat, tailSize: nat, parse: Text -> Option<Message>)
    requires i <= |lines| && |Qualifying(Reversed(lines[..i]), parse)| <= tailSize
    requires i == |lines| || |Qualifying(Reversed(lines[..i]), parse)| == tailSize
    ensures Qualifying(Reversed(lines[..i]), parse) == LastK(tailSize, Qualifying(Reversed(lines), parse))
  {
    assert lines == lines[..i] + lines[i..];
    ReversedOfConcat(lines[..i], lines[i..]);
    QualifyingOfConcat(Reversed(lines[i..]), Reversed(lines[..i]), parse);
    if i == |lines| {
      assert lines[..i] == lines;
    } else {
      hide Qualifying, Reversed;
      LastKOfSuffixSeq(tailSize, Qualifying(Reversed(lines[i..]), parse), Qualifying(Reversed(lines[..i]), parse));
    }
  }

  lemma {:induction false} LastKOfSuffixSeq<T>(k: nat, a: seq<T>, b: seq<T>)
    requires |b| == k
    ensures LastK(k, a + b) == b
  {
  }

  /** The storing loop: the last `tailSize` qualifying lines of those read, in file order. */
  method KeepQualifying(lines: seq<Text>, tailSize: nat, parse: Text -> Option<Message>) returns (msgs: seq<Message>)
    ensures msgs == LastK(tailSize, Qualifying(Reversed(lines), parse))
  {
    msgs := [];
    var i := 0;
    while i < |lines| && |msgs| < tailSize
      invariant i <= |lines| && |msgs| <= tailSize && msgs == Qualifying(Reversed(lines[..i]), parse)
    {
      KeepStep(lines, i, parse);
      hide Qualifying, Reversed;
      var m := parse(lines[i]);
      i := i + 1;
      if m.None? { continue; }
      msgs := [m.value] + msgs;
    }
    KeepEnd(lines, i, tailSize, parse);
  }

  lemma {:induction false} QualifyingOfOne(line: Text, parse: Text -> Option<Message>)
    ensures Qualifying([line], parse) == if parse(line).Some? then [parse(line).value] else []
  {
    assert [line][..0] == [];
  }

  /** What is stored, as a function of the file: the last qualifying lines from the stop on, its fragment included. */
  function Stored(file: Text, chunkSize: nat, tailSize: nat, parse: Text -> Option<Message>): seq<Message>
    requires chunkSize > 0
  {
    LastK(tailSize, Qualifying(Split(file[StopAt(file, chunkSize, tailSize)..]), parse))
  }

  /** `populateTailFromFile` after its guards, over a `parse` by which, as the code has it, no blank line qualifies. */
  method PopulateTail(file: Text, chunkSize: nat, tailSize: nat, parse: Text -> Option<Message>) returns (msgs: seq<Message>)
    requires chunkSize > 0 && parse([]).None?
    ensures msgs == Stored(file, chunkSize, tailSize, parse)
  {
    hide Split, Qualifying, LastK;
    var read, leftover, pos := ReadBackward(file, chunkSize, tailSize);
    LeftoverLast(read, leftover);
    ReadQualifying(read, leftover, parse);
    if leftover != [] { read := read + [leftover]; }
    msgs := KeepQualifying(read, tailSize, parse);
  }

  lemma {:induction false} LeftoverLast(read: seq<Text>, leftover: Text)
    ensures Reversed(read + [leftover]) == [leftover] + Reversed(read)
    ensures [] + Reversed(read) == Reversed(read)
  {
    ReversedOfConcat(read, [leftover]);
    assert Reversed([leftover]) == [leftover];
  }

  // ── Against the whole file ──────────────────────────────────────────────────

  /** The last qualifying lines of the whole file, whatever the chunk size. */
  function TrueTail(file: Text, tailSize: nat, parse: Text -> Option<Message>): seq<Message> {
    LastK(tailSize, Qualifying(Split(file), parse))
  }

  /** The lines of the file that begin before a position, the one it cuts included. */
  function LinesBefore(file: Text, pos: nat): seq<Text>
    requires 0 < pos <= |file|
  {
    SplitAround(file, pos);
    Split(file)[..|Split(file[..pos])| - (if file[pos - 1] == NEWLINE then 1 else 0)]
  }

  /** The fragment the reader stopped in passes for the message the lines before it owe the tail. */
  predicate StandsIn(fragment: Option<Message>, owed: seq<Message>, wanted: nat) {
    match fragment
    case None => owed == []
    case Some(m) => owed != [] && owed[|owed| - 1] == m && (|owed| == 1 || wanted == 1)
  }

  /**
   * Exactly when what is stored is the tail of the whole file: it was all read, or the lines after the
   * stop hold enough, or no line before it qualifies; or, stopped inside a line, what it has of that
   * line happens to stand in for what it misses.
   */
  lemma {:induction false} StoredIsTrueTailIff(file: Text, chunkSize: nat, tailSize: nat, parse: Text -> Option<Message>)
    requires chunkSize > 0 && parse([]).None?
    ensures var stop := StopAt(file, chunkSize, tailSize);
            var parts := Split(file[stop..]);
            var after := |Qualifying(parts[1..], parse)|;
            Stored(file, chunkSize, tailSize, parse) == TrueTail(file, tailSize, parse)
            <==> || stop == 0
                 || after >= tailSize
                 || (if file[stop - 1] == NEWLINE then
                       |Qualifying(parts, parse)| >= tailSize || Qualifying(LinesBefore(file, stop), parse) == []
                     else
                       StandsIn(parse(parts[0]), Qualifying(LinesBefore(file, stop), parse), tailSize - after))
  {
    var stop := StopAt(file, chunkSize, tailSize);
    assert file[0..] == file;
    if stop > 0 {
      hide StopAt, Split;
      FirstPartApart(Split(file[stop..]), parse);
      if file[stop - 1] == NEWLINE {
        WholeLeftover(file, stop, parse);
      } else {
        TornLeftover(file, stop, parse);
      }
      hide LinesBefore, Qualifying, LastK;
      var parts := Split(file[stop..]);
      var after, owed := Qualifying(parts[1..], parse), Qualifying(LinesBefore(file, stop), parse);
      LongerTailIff(tailSize, owed, Qualifying(parts, parse));
      FragmentTailIff(tailSize, parse(parts[0]), owed, after);
    }
  }

  lemma {:induction false} FirstPartApart(parts: seq<Text>, parse: Text -> Option<Message>)
    requires parts != []
    ensures Qualifying(parts, parse)
            == (if parse(parts[0]).Some? then [parse(parts[0]).value] else []) + Qualifying(parts[1..], parse)
  {
    assert parts == [parts[0]] + parts[1..];
    QualifyingOfConcat([parts[0]], parts[1..], parse);
    QualifyingOfOne(parts[0], parse);
  }

  /** Stopped just past a newline, the parts read are whole lines. */
  lemma {:induction false} WholeLeftover(file: Text, pos: nat, parse: Text -> Option<Message>)
    requires 0 < pos <= |file| && file[pos - 1] == NEWLINE
    ensures Qualifying(Split(file), parse)
            == Qualifying(LinesBefore(file, pos), parse) + Qualifying(Split(file[pos..]), parse)
  {
    var a, b := Split(file[..pos]), Split(file[pos..]);
    SplitAround(file, pos);
    LastPartEmptyIff(file[..pos], pos);
    hide Split, SplitTo;
    var init := a[..|a| - 1];
    assert a == init + [[]] && Glue(a, b) == init + b by { assert [] + b[0] == b[0]; }
    QualifyingOfConcat(init, b, parse);
  }

  /** Stopped inside a line, the parts after the fragment are whole lines. */
  lemma {:induction false} TornLeftover(file: Text, pos: nat, parse: Text -> Option<Message>)
    requires 0 < pos <= |file| && file[pos - 1] != NEWLINE
    ensures Qualifying(Split(file), parse)
            == Qualifying(LinesBefore(file, pos), parse) + Qualifying(Split(file[pos..])[1..], parse)
  {
    var a, b := Split(file[..pos]), Split(file[pos..]);
    SplitAround(file, pos);
    hide Split;
    assert Glue(a, b) == Glue(a, b)[..|a|] + b[1..];
    QualifyingOfConcat(Glue(a, b)[..|a|], b[1..], parse);
  }

  lemma {:induction false} FragmentTailIff(k: nat, fragment: Option<Message>, owed: seq<Message>, after: seq<Message>)
    ensures LastK(k, (if fragment.Some? then [fragment.value] else []) + after) == LastK(k, owed + after)
            <==> |after| >= k || StandsIn(fragment, owed, k - |after|)
  {
    var front := if fragment.Some? then [fragment.value] else [];
    TailOfConcat(k, front, after);
    TailOfConcat(k, owed, after);
    if |after| < k {
      var x, y := LastK(k - |after|, front), LastK(k - |after|, owed);
      assert x + after == y + after <==> x == y by {
        if x + after == y + after {
          assert |x| == |y| && x == (x + after)[..|x|] && y == (y + after)[..|y|];
        }
      }
    }
  }

  lemma {:induction false} TailOfConcat<T>(k: nat, a: seq<T>, b: seq<T>)
    ensures LastK(k, a + b) == if |b| >= k then LastK(k, b) else LastK(k - |b|, a) + b
  {
  }

  lemma {:induction false} ReadQualifying(lines: seq<Text>, partial: Text, parse: Text -> Option<Message>)
    requires parse([]).None?
    ensures Qualifying((if partial == [] then [] else [partial]) + Reversed(lines), parse)
            == Qualifying([partial] + Reversed(lines), parse)
  {
    QualifyingOfConcat([partial], Reversed(lines), parse);
    QualifyingOfOne(partial, parse);
    assert [] + Reversed(lines) == Reversed(lines);
  }

  lemma {:induction false} LongerTailIff<T>(k: nat, a: seq<T>, b: seq<T>)
    ensures LastK(k, b) == LastK(k, a + b) <==> |b| >= k || a == []
  {
    if |b| >= k {
      assert LastK(k, b) == LastK(k, a + b);
    } else if a != [] {
      assert |LastK(k, a + b)| > |b|;
    } else {
      assert a + b == b;
    }
  }

  /** Read in chunks of 8 for a tail of one, the reader stops a byte short of the only line that qualifies, and stores nothing. */
  lemma {:induction false} StopsBeforeQualifyingLine(parse: Text -> Option<Message>)
    requires parse([65]) == Some(1) && parse([66]).None? && parse([]).None?
    ensures var file: Text := [65, 10, 66, 10, 66, 10, 66, 10, 66];
            StopAt(file, 8, 1) == 1 && Stored(file, 8, 1, parse) == [] && TrueTail(file, 1, parse) == [1]
  {
    var file: Text := [65, 10, 66, 10, 66, 10, 66, 10, 66];
    SplitsTo(file);
    OnlyFirstQualifies(parse);
    StopsAtOne(file);
    hide *;
  }

  lemma {:induction false} StopsAtOne(file: Text)
    requires |file| == 9 && |Split(file[1..])| == 5
    ensures StopAt(file, 8, 1) == 1
  {
    OnePart([]);
    hide Split, StopFrom;
    assert file[9..] == [];
    StopFromSteps(file, 8, 1, 9, 0);
    StopFromSteps(file, 8, 1, 1, 4);
  }

  lemma {:induction false} OnlyFirstQualifies(parse: Text -> Option<Message>)
    requires parse([65]) == Some(1) && parse([66]).None? && parse([]).None?
    ensures Qualifying([[65], [66], [66], [66], [66]], parse) == [1]
    ensures Qualifying([[], [66], [66], [66], [66]], parse) == []
  {
    NoneQualify([[66], [66], [66], [66]], parse);
    NoneQualify([[], [66], [66], [66], [66]], parse);
    FirstPartApart([[65], [66], [66], [66], [66]], parse);
    hide Qualifying;
    assert [[65], [66], [66], [66], [66]][1..] == [[66], [66], [66], [66]];
  }

  lemma {:induction false} NoneQualify(lines: seq<Text>, parse: Text -> Option<Message>)
    requires forall i :: 0 <= i < |lines| ==> parse(lines[i]).None?
    ensures Qualifying(lines, parse) == []
  {
    if lines != [] { NoneQualify(lines[..|lines| - 1], parse); }
  }

  /** A line and its newline in front of a text is one part more. */
  lemma {:induction false} LineInFront(line: Text, rest: Text)
    requires NoNewline(line)
    ensures Split(line + [NEWLINE] + rest) == [line] + Split(rest)
  {
    var head := line + [NEWLINE];
    SplitOfPrefix(line, [NEWLINE], |line|);
    SplitOfOneLine(line, |line|);
    assert line[..|line|] == line;
    assert Split(head) == [line, []];
    SplitGlues(head, rest, |rest|);
    assert [] + Split(rest)[0] == Split(rest)[0];
  }

  lemma {:induction false} SplitsTo(file: Text)
    requires file == [65, 10, 66, 10, 66, 10, 66, 10, 66]
    ensures Split(file) == [[65], [66], [66], [66], [66]]
    ensures Split(file[1..]) == [[], [66], [66], [66], [66]]
  {
    hide Split;
    OnePart([66]);
    LineInFront([66], [66]);
    LineInFront([66], [66] + [10] + [66]);
    LineInFront([66], [66] + [10] + ([66] + [10] + [66]));
    assert file[2..] == [66] + [10] + ([66] + [10] + ([66] + [10] + [66]));
    LineInFront([65], file[2..]);
    LineInFront([], file[2..]);
    assert file[1..] == [] + [10] + file[2..];
    assert file == [65] + [10] + file[2..];
  }
}
