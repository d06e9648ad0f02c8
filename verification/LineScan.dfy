/**
 * Line reducers and the one-pass scan that numbers a file's messages
 * (`lineParserFor` in src/conversation-cache.ts).
 *
 * The providers' line parsers are library code; they enter as functions. What the index
 * adds to them is modelled: which provider reads a file, Codex's leading-context filter,
 * the numbering, and the byte spans.
 */
module LineScan {
  import opened Common
  import opened LineSplit

  type Line = seq<Byte>

  /** A line reducer; `index` is the number the line would get if it is a message. */
  datatype Parser<!S, !M> = Parser(stateful: bool, init: S, step: (S, Line, nat) -> (S, Option<M>))

  /** The four providers' reducers. Only Claude's carries state from line to line. */
  datatype Reducers<!S, !M> = Reducers(
    claudeInit: S,
    claude: (S, Line) -> (S, Option<M>),
    codex: Line -> Option<M>,
    cursor: (Line, nat) -> Option<M>,
    copilot: Line -> Option<M>,
    injectedUserText: M -> bool)

  const CLAUDE_CODE_PROVIDER := "claude-code"
  const CODEX_CLI_PROVIDER := "codex-cli"
  const CURSOR_PROVIDER := "cursor"
  const COPILOT_PROVIDER := "copilot"

  predicate Separator(c: char) { c == '/' || c == '\\' }

  const AGENT_TRANSCRIPTS := "agent-transcripts"

  predicate UnderAgentTranscripts(path: string) {
    exists i :: 0 <= i && i + |AGENT_TRANSCRIPTS| + 2 <= |path|
      && Separator(path[i])
      && path[i + 1..i + 1 + |AGENT_TRANSCRIPTS|] == AGENT_TRANSCRIPTS
      && Separator(path[i + 1 + |AGENT_TRANSCRIPTS|])
  }

  /** The provider whose reducer reads `path`: the meta row's, or Cursor by its transcript directory. */
  function ProviderOf(path: string, stored: Option<string>): string {
    if (stored.None? || stored.value == CLAUDE_CODE_PROVIDER) && UnderAgentTranscripts(path)
    then CURSOR_PROVIDER
    else if stored.Some? then stored.value else CLAUDE_CODE_PROVIDER
  }

  /** `row` is the meta row's provider column; no row, or an unknown provider, means not indexable. */
  function LineParserFor<S, M>(r: Reducers<S, M>, path: string, row: Option<Option<string>>): Option<Parser<S, M>> {
    if row.None? then None
    else
      var provider := ProviderOf(path, row.value);
      if provider == CODEX_CLI_PROVIDER then Some(CodexParser(r))
      else if provider == CURSOR_PROVIDER then
        Some(Parser(false, r.claudeInit, (s: S, l: Line, i: nat) => (s, r.cursor(l, i))))
      else if provider == COPILOT_PROVIDER then
        Some(Parser(false, r.claudeInit, (s: S, l: Line, i: nat) => (s, r.copilot(l))))
      else if provider != CLAUDE_CODE_PROVIDER then None
      else Some(Parser(true, r.claudeInit, (s: S, l: Line, i: nat) => r.claude(s, l)))
  }

  function CodexParser<S, M>(r: Reducers<S, M>): Parser<S, M> {
    Parser(false, r.claudeInit, (s: S, l: Line, i: nat) => (s, CodexLine(r, l, i)))
  }

  /** Injected preamble is dropped only while no message has been numbered yet. */
  function CodexLine<S, M>(r: Reducers<S, M>, l: Line, index: nat): Option<M> {
    var msg := r.codex(l);
    if msg.Some? && index == 0 && r.injectedUserText(msg.value) then None else msg
  }

  /** Whether a line is a message may depend on its number, never on the reducer's state. */
  ghost predicate ShapeIgnoresState<S(!new), M>(p: Parser<S, M>) {
    forall s, t, l, i :: p.step(s, l, i).1.Some? == p.step(t, l, i).1.Some?
  }

  ghost predicate Stateless<S(!new), M>(p: Parser<S, M>) {
    forall s, t, l, i :: p.step(s, l, i).1 == p.step(t, l, i).1
  }

  /** What the index assumes of a reducer. */
  ghost predicate Lawful<S(!new), M>(p: Parser<S, M>) {
    ShapeIgnoresState(p) && (!p.stateful ==> Stateless(p))
  }

  predicate IsMessage<S, M>(p: Parser<S, M>, l: Line, i: nat) {
    p.step(p.init, l, i).1.Some?
  }

  /** Every parser the cache can pick is lawful as soon as Claude's reducer keeps its shape. */
  lemma {:induction false} ParsersAreLawful<S(!new), M>(r: Reducers<S, M>, path: string, row: Option<Option<string>>)
    requires forall s, t, l :: r.claude(s, l).1.Some? == r.claude(t, l).1.Some?
    ensures LineParserFor(r, path, row).Some? ==> Lawful(LineParserFor(r, path, row).value)
  {
    var provider := if row.Some? then ProviderOf(path, row.value) else "";
    if row.Some? && provider == CODEX_CLI_PROVIDER {
    } else if row.Some? && provider == CURSOR_PROVIDER {
    } else if row.Some? && provider == COPILOT_PROVIDER {
    }
  }

  /** One indexed message: its number and where its line lies in the file. */
  datatype Row = Row(messageIndex: nat, byteOffset: nat, byteLength: nat)

  /**
   * What a scan has produced so far. `fed` lists every line given to the reducer with the
   * number it was offered; `seqs` is parallel to the spans.
   */
  datatype Acc<S, M> = Acc(
    state: S, next: nat, rows: seq<Row>, seqs: seq<Option<nat>>, msgs: seq<M>, fed: seq<(Line, nat)>)

  function Fresh<S, M>(s: S): Acc<S, M> {
    Acc(s, 0, [], [], [], [])
  }

  function Feed<S, M>(p: Parser<S, M>, a: Acc<S, M>, span: LineSpan): Acc<S, M> {
    var r := p.step(a.state, span.text, a.next);
    var fed := a.fed + [(span.text, a.next)];
    match r.1
    case None => Acc(r.0, a.next, a.rows, a.seqs + [None], a.msgs, fed)
    case Some(m) =>
      Acc(r.0, a.next + 1, a.rows + [Row(a.next, span.byteOffset, span.byteLength)],
          a.seqs + [Some(a.next)], a.msgs + [m], fed)
  }

  /** The fold over lines that both index writers and the full parse are compared with. */
  function Scan<S, M>(p: Parser<S, M>, a: Acc<S, M>, spans: seq<LineSpan>): Acc<S, M> {
    ScanTo(p, a, spans, |spans|)
  }

  function ScanTo<S, M>(p: Parser<S, M>, a: Acc<S, M>, spans: seq<LineSpan>, n: nat): Acc<S, M>
    requires n <= |spans|
  {
    if n == 0 then a else Feed(p, ScanTo(p, a, spans, n - 1), spans[n - 1])
  }

  lemma {:induction false} ScanOfPrefix<S, M>(p: Parser<S, M>, a: Acc<S, M>, x: seq<LineSpan>, y: seq<LineSpan>, n: nat)
    requires n <= |x| && n <= |y| && forall i :: 0 <= i < n ==> x[i] == y[i]
    ensures ScanTo(p, a, x, n) == ScanTo(p, a, y, n)
  {
    if n > 0 { ScanOfPrefix(p, a, x, y, n - 1); }
  }

  lemma {:induction false} ScanToConcat<S, M>(p: Parser<S, M>, a: Acc<S, M>, x: seq<LineSpan>, y: seq<LineSpan>, n: nat)
    requires n <= |y|
    ensures ScanTo(p, a, x + y, |x| + n) == ScanTo(p, Scan(p, a, x), y, n)
  {
    if n == 0 {
      ScanOfPrefix(p, a, x + y, x, |x|);
    } else {
      ScanToConcat(p, a, x, y, n - 1);
    }
  }

  lemma ScanConcat<S, M>(p: Parser<S, M>, a: Acc<S, M>, x: seq<LineSpan>, y: seq<LineSpan>)
    ensures Scan(p, a, x + y) == Scan(p, Scan(p, a, x), y)
  {
    ScanToConcat(p, a, x, y, |y|);
  }

  /** Parsing the whole file from its first byte. */
  function FullScan<S, M>(p: Parser<S, M>, file: seq<Byte>): Acc<S, M> {
    Scan(p, Fresh(p.init), SplitLines(file, 0).spans)
  }

  /** Reducer state after the first `n` of a list of (line, number) items. */
  function Run<S, M>(p: Parser<S, M>, items: seq<(Line, nat)>, n: nat): S
    requires n <= |items|
  {
    if n == 0 then p.init else p.step(Run(p, items, n - 1), items[n - 1].0, items[n - 1].1).0
  }

  /** Those of the first `n` items that are messages. */
  function Kept<S, M>(p: Parser<S, M>, items: seq<(Line, nat)>, n: nat): seq<(Line, nat)>
    requires n <= |items|
  {
    if n == 0 then []
    else Kept(p, items, n - 1) + if IsMessage(p, items[n - 1].0, items[n - 1].1) then [items[n - 1]] else []
  }

  lemma {:induction false} RunOfPrefix<S, M>(p: Parser<S, M>, x: seq<(Line, nat)>, y: seq<(Line, nat)>, n: nat)
    requires n <= |x| && n <= |y| && forall i :: 0 <= i < n ==> x[i] == y[i]
    ensures Run(p, x, n) == Run(p, y, n)
    ensures Kept(p, x, n) == Kept(p, y, n)
  {
    if n > 0 { RunOfPrefix(p, x, y, n - 1); }
  }

  lemma {:induction false} KeptOfMessages<S, M>(p: Parser<S, M>, items: seq<(Line, nat)>, n: nat)
    requires n <= |items| && forall i :: 0 <= i < n ==> IsMessage(p, items[i].0, items[i].1)
    ensures Kept(p, items, n) == items[..n]
  {
    if n > 0 { KeptOfMessages(p, items, n - 1); }
  }

  lemma {:induction false} KeptAreMessages<S, M>(p: Parser<S, M>, items: seq<(Line, nat)>, n: nat)
    requires n <= |items|
    ensures forall k :: k in Kept(p, items, n) ==> IsMessage(p, k.0, k.1)
  {
    if n > 0 { KeptAreMessages(p, items, n - 1); }
  }

  /** The messages of a scan as the lines they came from, with their numbers. */
  function MessageLines<S, M>(p: Parser<S, M>, a: Acc<S, M>): seq<(Line, nat)> {
    Kept(p, a.fed, |a.fed|)
  }

  /** Rows, messages and message lines in numbering order, one of each per number. */
  ghost predicate InStep<S, M>(p: Parser<S, M>, a: Acc<S, M>) {
    && a.state == Run(p, a.fed, |a.fed|)
    && |a.rows| == |a.msgs| == |MessageLines(p, a)| == a.next
    && (forall k :: 0 <= k < a.next ==> MessageLines(p, a)[k].1 == k)
    && (forall k :: 0 <= k < a.next ==> a.rows[k].messageIndex == k)
  }

  lemma {:induction false} FeedInStep<S(!new), M>(p: Parser<S, M>, a: Acc<S, M>, span: LineSpan)
    requires ShapeIgnoresState(p) && InStep(p, a)
    ensures InStep(p, Feed(p, a, span))
    ensures |Feed(p, a, span).fed| == |a.fed| + 1
    ensures Kept(p, Feed(p, a, span).fed, |a.fed|) == MessageLines(p, a)
    ensures MessageLines(p, Feed(p, a, span))
         == MessageLines(p, a) + if IsMessage(p, span.text, a.next) then [(span.text, a.next)] else []
  {
    var b := Feed(p, a, span);
    RunOfPrefix(p, b.fed, a.fed, |a.fed|);
    assert p.step(a.state, span.text, a.next).1.Some? <==> IsMessage(p, span.text, a.next);
  }

  lemma {:induction false} ScanInStep<S(!new), M>(p: Parser<S, M>, spans: seq<LineSpan>, n: nat)
    requires ShapeIgnoresState(p) && n <= |spans|
    ensures InStep(p, ScanTo(p, Fresh(p.init), spans, n))
  {
    if n > 0 {
      ScanInStep(p, spans, n - 1);
      FeedInStep(p, ScanTo(p, Fresh(p.init), spans, n - 1), spans[n - 1]);
    }
  }

  /** Message `k` is the reducer's answer for its line, given after the first `at` lines. */
  ghost predicate AnsweredAt<S, M>(p: Parser<S, M>, a: Acc<S, M>, k: nat, at: nat)
    requires k < |a.msgs| && k < |MessageLines(p, a)| && at <= |a.fed|
  {
    && Kept(p, a.fed, at) == MessageLines(p, a)[..k]
    && p.step(Run(p, a.fed, at), MessageLines(p, a)[k].0, k).1 == Some(a.msgs[k])
  }

  /** Every message is the reducer's answer after some lines whose messages are exactly the earlier ones. */
  lemma {:induction false} ScanAnswers<S(!new), M>(p: Parser<S, M>, spans: seq<LineSpan>, n: nat, k: nat) returns (at: nat)
    requires ShapeIgnoresState(p) && n <= |spans| && k < ScanTo(p, Fresh(p.init), spans, n).next
    ensures InStep(p, ScanTo(p, Fresh(p.init), spans, n))
    ensures at <= |ScanTo(p, Fresh(p.init), spans, n).fed|
    ensures AnsweredAt(p, ScanTo(p, Fresh(p.init), spans, n), k, at)
  {
    ScanInStep(p, spans, n);
    ScanInStep(p, spans, n - 1);
    var b := ScanTo(p, Fresh(p.init), spans, n - 1);
    var a := ScanTo(p, Fresh(p.init), spans, n);
    FeedInStep(p, b, spans[n - 1]);
    if k < b.next {
      at := ScanAnswers(p, spans, n - 1, k);
      RunOfPrefix(p, a.fed, b.fed, at);
      assert MessageLines(p, a)[..k] == MessageLines(p, b)[..k];
    } else {
      at := |b.fed|;
      RunOfPrefix(p, a.fed, b.fed, at);
      assert MessageLines(p, a)[..k] == MessageLines(p, b);
    }
  }

  /** A row's bytes in the file are its message's line. */
  function TextAt(file: seq<Byte>, r: Row): Line {
    if r.byteOffset + r.byteLength <= |file| then file[r.byteOffset..r.byteOffset + r.byteLength] else []
  }

  /** Every row's bytes are its message's line. */
  ghost predicate PointsAtLines<S, M>(p: Parser<S, M>, file: seq<Byte>, a: Acc<S, M>) {
    && InStep(p, a)
    && forall k :: 0 <= k < a.next ==> TextAt(file, a.rows[k]) == MessageLines(p, a)[k].0
  }

  lemma {:induction false} FeedPointsAtLine<S(!new), M>(p: Parser<S, M>, file: seq<Byte>, a: Acc<S, M>, span: LineSpan)
    requires ShapeIgnoresState(p) && PointsAtLines(p, file, a) && SpanInPlace(file, 0, span)
    ensures PointsAtLines(p, file, Feed(p, a, span))
  {
    FeedInStep(p, a, span);
    assert TextAt(file, Row(a.next, span.byteOffset, span.byteLength)) == span.text;
  }

  lemma {:induction false} RowsPointAtLines<S(!new), M>(p: Parser<S, M>, file: seq<Byte>, spans: seq<LineSpan>, n: nat)
    requires ShapeIgnoresState(p) && n <= |spans|
    requires forall i :: 0 <= i < n ==> SpanInPlace(file, 0, spans[i])
    ensures PointsAtLines(p, file, ScanTo(p, Fresh(p.init), spans, n))
  {
    if n > 0 {
      RowsPointAtLines(p, file, spans, n - 1);
      FeedPointsAtLine(p, file, ScanTo(p, Fresh(p.init), spans, n - 1), spans[n - 1]);
    }
  }

  /** A scan resumed with empty lists, from any reducer state, adds what the uninterrupted scan adds. */
  lemma {:induction false} NumberingIgnoresState<S(!new), M>(p: Parser<S, M>, a: Acc<S, M>, b: Acc<S, M>, spans: seq<LineSpan>,
                                                             n: nat)
    requires ShapeIgnoresState(p) && n <= |spans|
    requires a.next == b.next && b.rows == [] && b.seqs == []
    ensures ScanTo(p, a, spans, n).next == ScanTo(p, b, spans, n).next >= a.next
    ensures ScanTo(p, a, spans, n).rows == a.rows + ScanTo(p, b, spans, n).rows
    ensures ScanTo(p, a, spans, n).seqs == a.seqs + ScanTo(p, b, spans, n).seqs
  {
    if n > 0 {
      NumberingIgnoresState(p, a, b, spans, n - 1);
      var x, y := ScanTo(p, a, spans, n - 1), ScanTo(p, b, spans, n - 1);
      assert p.step(x.state, spans[n - 1].text, x.next).1.Some? == p.step(y.state, spans[n - 1].text, y.next).1.Some?;
    }
  }

  /** A scan resumed with empty lists from the same state and number adds the same rows. */
  lemma {:induction false} ScanFromTail<S, M>(p: Parser<S, M>, a: Acc<S, M>, b: Acc<S, M>, spans: seq<LineSpan>, n: nat)
    requires n <= |spans| && a.state == b.state && a.next == b.next && b.rows == []
    ensures ScanTo(p, a, spans, n).state == ScanTo(p, b, spans, n).state
    ensures ScanTo(p, a, spans, n).next == ScanTo(p, b, spans, n).next
    ensures ScanTo(p, a, spans, n).rows == a.rows + ScanTo(p, b, spans, n).rows
  {
    if n > 0 { ScanFromTail(p, a, b, spans, n - 1); }
  }

  lemma {:induction false} NextNeverDrops<S, M>(p: Parser<S, M>, a: Acc<S, M>, spans: seq<LineSpan>, n: nat)
    requires n <= |spans|
    ensures ScanTo(p, a, spans, n).next >= a.next
  {
    if n > 0 { NextNeverDrops(p, a, spans, n - 1); }
  }

  // ── Codex's leading-context filter ─────────────────────────────────────────

  /** The messages of a Codex file's first `n` lines before any filter. */
  function CodexMessages<S, M>(r: Reducers<S, M>, spans: seq<LineSpan>, n: nat): seq<M>
    requires n <= |spans|
  {
    if n == 0 then []
    else
      var m := r.codex(spans[n - 1].text);
      CodexMessages(r, spans, n - 1) + if m.Some? then [m.value] else []
  }

  function DropWhile<M>(f: M -> bool, s: seq<M>): seq<M> {
    if s != [] && f(s[0]) then DropWhile(f, s[1..]) else s
  }

  lemma {:induction false} DropWhileSnoc<M>(f: M -> bool, s: seq<M>, m: M)
    ensures DropWhile(f, s + [m]) == if DropWhile(f, s) == [] && f(m) then [] else DropWhile(f, s) + [m]
  {
    if s == [] {
      assert (s + [m])[1..] == [];
    } else {
      assert (s + [m])[1..] == s[1..] + [m];
      if f(s[0]) { DropWhileSnoc(f, s[1..], m); }
    }
  }

  /** The position-dependent filter drops exactly the leading run of injected turns, nothing later. */
  lemma {:induction false} CodexFilterDropsLeadingRun<S, M>(r: Reducers<S, M>, spans: seq<LineSpan>, n: nat)
    requires n <= |spans|
    ensures var a := ScanTo(CodexParser(r), Fresh(r.claudeInit), spans, n);
            && a.msgs == DropWhile(r.injectedUserText, CodexMessages(r, spans, n))
            && a.next == |a.msgs|
  {
    if n > 0 {
      CodexFilterDropsLeadingRun(r, spans, n - 1);
      var m := r.codex(spans[n - 1].text);
      var b := ScanTo(CodexParser(r), Fresh(r.claudeInit), spans, n - 1);
      assert CodexParser(r).step(b.state, spans[n - 1].text, b.next).1
          == if m.Some? && b.msgs == [] && r.injectedUserText(m.value) then None else m;
      if m.Some? {
        DropWhileSnoc(r.injectedUserText, CodexMessages(r, spans, n - 1), m.value);
      } else {
        assert CodexMessages(r, spans, n) == CodexMessages(r, spans, n - 1);
      }
    }
  }
}
