/**
 * How the Cursor runner writes a prompt (src/cursor-pty-runner.ts:298-343, 361-377): Ctrl+U, the text
 * and Enter in three writes of one chain of timers, and the boot queue flushed one chain at a time.
 */
module CursorSubmits {

  const SUBMIT_DELAY_MS := 16
  const SUBMIT_MAX_WAIT_MS := 500

  /** A chain waits to type its text, or typed it at `writeAt` and waits to press Enter. */
  datatype Stage = ToType | ToEnter(writeAt: int)

  datatype Chain = Chain(input: nat, flush: bool, stage: Stage)

  /** An input handed to a chain, by the flush or directly. */
  datatype Prompt = Prompt(input: nat, flush: bool)

  datatype Bytes = Clear | Text(input: nat) | Enter

  datatype Write = Write(chain: nat, flush: bool, bytes: Bytes)

  /** The flush loop: not running, waiting for chain `c` to press Enter, or with its timer set. */
  datatype Loop = Stopped | Waiting(c: nat) | TimerSet

  /**
   * Chain `c` was begun with prompt `begun[c]` and is in `chains` until its Enter. `flushed` is the boot
   * queue handed to the flush, of which the loop has shifted the first `shifted`.
   */
  datatype Submits =
    Submits(chains: map<nat, Chain>, begun: seq<Prompt>, flushed: seq<nat>, shifted: nat, loop: Loop, written: seq<Write>)

  const NO_SUBMITS := Submits(map[], [], [], 0, Stopped, [])

  // ── Operations ──────────────────────────────────────────────────────────────

  /** `writeSubmit` up to its first timer. */
  function WriteSubmit(s: Submits, input: nat, flush: bool): Submits {
    var c := |s.begun|;
    s.(chains := s.chains[c := Chain(input, flush, ToType)], begun := s.begun + [Prompt(input, flush)],
       loop := if flush then Waiting(c) else s.loop,
       written := s.written + [Write(c, flush, Clear)])
  }

  function WriteText(s: Submits, c: nat, nowMs: int): Submits
    requires c in s.chains && s.chains[c].stage.ToType?
  {
    var chain := s.chains[c];
    s.(chains := s.chains[c := chain.(stage := ToEnter(nowMs))], written := s.written + [Write(c, chain.flush, Text(chain.input))])
  }

  /** Quiet counts only after a chunk that came later than the text; a silent PTY gets its Enter anyway. */
  predicate EnterDue(writeAt: int, lastChunkMs: int, nowMs: int) {
    || (lastChunkMs > writeAt && nowMs - lastChunkMs >= SUBMIT_DELAY_MS)
    || nowMs - writeAt >= SUBMIT_MAX_WAIT_MS
  }

  /** The Enter of chain `c`, written. */
  function Pressed(s: Submits, c: nat): Submits
    requires c in s.chains
  {
    s.(chains := s.chains - {c}, loop := if s.loop == Waiting(c) then TimerSet else s.loop,
       written := s.written + [Write(c, s.chains[c].flush, Enter)])
  }

  function TrySubmit(s: Submits, c: nat, lastChunkMs: int, nowMs: int): Submits
    requires c in s.chains && s.chains[c].stage.ToEnter?
  {
    if !EnterDue(s.chains[c].stage.writeAt, lastChunkMs, nowMs) then s
    else Pressed(s, c)
  }

  /** The flush loop shifts its next input, or ends. */
  function Fire(s: Submits): Submits {
    if s.shifted >= |s.flushed| then s.(loop := Stopped)
    else WriteSubmit(s.(shifted := s.shifted + 1), s.flushed[s.shifted], true)
  }

  /** `flushQueuedInputs` hands over the boot queue; the loop's first turn is due at once. */
  function HandOver(s: Submits, queue: seq<nat>): Submits {
    s.(flushed := queue, shifted := 0, loop := TimerSet)
  }

  /** Some chain has its Enter still to press. */
  predicate InFlight(s: Submits) { s.chains != map[] }

  /** Nothing was handed to the flush, and nothing is in flight. */
  predicate Untouched(s: Submits) { !InFlight(s) && s.loop.Stopped? && s.flushed == [] && s.shifted == 0 }

  // ── Whole blocks, in order ──────────────────────────────────────────────────

  function BytesOf(written: seq<Write>, c: nat): seq<Bytes> {
    if written == [] then []
    else
      var w := written[|written| - 1];
      BytesOf(written[..|written| - 1], c) + if w.chain == c then [w.bytes] else []
  }

  function FlushBytes(written: seq<Write>): seq<Bytes> {
    if written == [] then []
    else
      var w := written[|written| - 1];
      FlushBytes(written[..|written| - 1]) + if w.flush then [w.bytes] else []
  }

  /** The inputs the flush began chains with, or those begun directly, in order. */
  function Inputs(begun: seq<Prompt>, flush: bool): seq<nat> {
    if begun == [] then []
    else
      var p := begun[|begun| - 1];
      Inputs(begun[..|begun| - 1], flush) + if p.flush == flush then [p.input] else []
  }

  function Block(input: nat): seq<Bytes> { [Clear, Text(input), Enter] }

  function Blocks(queue: seq<nat>, n: nat): seq<Bytes>
    requires n <= |queue|
  {
    if n == 0 then [] else Blocks(queue, n - 1) + Block(queue[n - 1])
  }

  /** How much of its block a chain has written. */
  function Part(chain: Chain): seq<Bytes> {
    if chain.stage.ToType? then [Clear] else [Clear, Text(chain.input)]
  }

  /** A chain in flight carries the prompt it was begun with, and has written the part of its block its stage says. */
  ghost predicate ChainOk(s: Submits, c: nat)
    requires c in s.chains
  {
    && c < |s.begun| && Prompt(s.chains[c].input, s.chains[c].flush) == s.begun[c]
    && BytesOf(s.written, c) == Part(s.chains[c])
  }

  /** A finished chain has written its prompt's block, once; one not begun, nothing. */
  ghost predicate ChainsOk(s: Submits) {
    && (forall c :: c in s.chains ==> ChainOk(s, c))
    && (forall c :: 0 <= c < |s.begun| && c !in s.chains ==> BytesOf(s.written, c) == Block(s.begun[c].input))
    && (forall c :: c >= |s.begun| ==> BytesOf(s.written, c) == [])
  }

  /** The flush chain in flight is the one the loop waits for. */
  ghost predicate LoopOk(s: Submits) {
    && s.shifted <= |s.flushed|
    && (forall c :: c in s.chains && s.chains[c].flush ==> s.loop == Waiting(c))
    && (s.loop.Stopped? ==> s.shifted == |s.flushed|)
    && (s.loop.Waiting? ==>
          && s.shifted > 0 && s.loop.c in s.chains
          && s.chains[s.loop.c].flush && s.chains[s.loop.c].input == s.flushed[s.shifted - 1])
  }

  /** The flush begins its chains with the queue's inputs, in order. */
  ghost predicate QueueOk(s: Submits) {
    s.shifted <= |s.flushed| && Inputs(s.begun, true) == s.flushed[..s.shifted]
  }

  ghost function BlocksSoFar(s: Submits): seq<Bytes>
    requires LoopOk(s)
  {
    if s.loop.Waiting? then Blocks(s.flushed, s.shifted - 1) + Part(s.chains[s.loop.c]) else Blocks(s.flushed, s.shifted)
  }

  /** The flushed writes are whole blocks, in order, up to the chain in flight. */
  ghost predicate FlushOk(s: Submits)
    requires LoopOk(s)
  {
    FlushBytes(s.written) == BlocksSoFar(s)
  }

  ghost predicate SubmitsOk(s: Submits) { ChainsOk(s) && QueueOk(s) && LoopOk(s) && FlushOk(s) }

  lemma {:induction false} OneMoreWrite(written: seq<Write>, w: Write, c: nat)
    ensures BytesOf(written + [w], c) == BytesOf(written, c) + if w.chain == c then [w.bytes] else []
    ensures FlushBytes(written + [w]) == FlushBytes(written) + if w.flush then [w.bytes] else []
  {
    assert (written + [w])[..|written|] == written;
  }

  lemma {:induction false} OneMorePrompt(begun: seq<Prompt>, p: Prompt, flush: bool)
    ensures Inputs(begun + [p], flush) == Inputs(begun, flush) + if p.flush == flush then [p.input] else []
  {
    assert (begun + [p])[..|begun|] == begun;
  }

  lemma {:induction false} WriteSubmitKeepsChains(s: Submits, input: nat, flush: bool)
    requires ChainsOk(s)
    ensures ChainsOk(WriteSubmit(s, input, flush))
  {
    hide BytesOf;
    var t := WriteSubmit(s, input, flush);
    forall c: nat ensures BytesOf(t.written, c) == BytesOf(s.written, c) + if c == |s.begun| then [Clear] else [] {
      OneMoreWrite(s.written, Write(|s.begun|, flush, Clear), c);
    }
  }

  lemma {:induction false} WriteSubmitKeepsLoop(s: Submits, input: nat)
    requires LoopOk(s) && FlushOk(s) && |s.begun| !in s.chains
    ensures LoopOk(WriteSubmit(s, input, false)) && FlushOk(WriteSubmit(s, input, false))
  {
    OneMoreWrite(s.written, Write(|s.begun|, false, Clear), |s.begun|);
    hide BytesOf, FlushBytes, Blocks;
  }

  lemma {:induction false} WriteSubmitKeeps(s: Submits, input: nat)
    requires SubmitsOk(s)
    ensures SubmitsOk(WriteSubmit(s, input, false))
  {
    OneMorePrompt(s.begun, Prompt(input, false), true);
    assert QueueOk(WriteSubmit(s, input, false)) by { hide ChainsOk, LoopOk, FlushOk, Inputs; }
    WriteSubmitKeepsChains(s, input, false);
    WriteSubmitKeepsLoop(s, input);
    hide ChainsOk, QueueOk, LoopOk, FlushOk, WriteSubmit;
  }

  /** A chain's next write leaves the other chains as they are and adds to its own bytes. */
  lemma {:induction false} WriteIsOwn(s: Submits, t: Submits, w: Write)
    requires ChainsOk(s) && w.chain < |s.begun| && t.written == s.written + [w] && t.begun == s.begun
    requires t.chains - {w.chain} == s.chains - {w.chain} && w.chain in s.chains
    requires w.bytes == if w.chain in t.chains then Text(s.chains[w.chain].input) else Enter
    requires w.chain in t.chains ==>
               && t.chains[w.chain].input == s.chains[w.chain].input && t.chains[w.chain].flush == s.chains[w.chain].flush
               && s.chains[w.chain].stage.ToType? && t.chains[w.chain].stage.ToEnter?
    requires w.chain !in t.chains ==> s.chains[w.chain].stage.ToEnter?
    ensures ChainsOk(t)
  {
    hide BytesOf, FlushBytes;
    assert ChainOk(s, w.chain);
    forall k: nat ensures BytesOf(t.written, k) == BytesOf(s.written, k) + if k == w.chain then [w.bytes] else [] {
      OneMoreWrite(s.written, w, k);
    }
    forall k | k in t.chains ensures ChainOk(t, k) {
      if k != w.chain { assert k in t.chains - {w.chain} && ChainOk(s, k); }
    }
    forall k | 0 <= k < |t.begun| && k !in t.chains ensures BytesOf(t.written, k) == Block(t.begun[k].input) {
      if k != w.chain { assert k !in t.chains - {w.chain} && k !in s.chains; }
    }
  }

  lemma {:induction false} WriteTextKeepsFlush(s: Submits, c: nat, nowMs: int)
    requires LoopOk(s) && FlushOk(s) && c in s.chains && s.chains[c].stage.ToType?
    ensures LoopOk(WriteText(s, c, nowMs)) && FlushOk(WriteText(s, c, nowMs))
  {
    hide BytesOf, FlushBytes, Blocks, BlocksSoFar;
    OneMoreWrite(s.written, Write(c, s.chains[c].flush, Text(s.chains[c].input)), c);
    TextAddsToBlocks(s, c, nowMs);
    hide LoopOk;
  }

  lemma {:induction false} TextAddsToBlocks(s: Submits, c: nat, nowMs: int)
    requires LoopOk(s) && c in s.chains && s.chains[c].stage.ToType?
    ensures var t := WriteText(s, c, nowMs);
            LoopOk(t) && BlocksSoFar(t) == BlocksSoFar(s) + if s.chains[c].flush then [Text(s.chains[c].input)] else []
  {
    hide Blocks;
    var t := WriteText(s, c, nowMs);
    assert t.chains.Keys == s.chains.Keys && forall k :: k in s.chains && k != c ==> t.chains[k] == s.chains[k];
    if s.loop == Waiting(c) {
      assert Part(t.chains[c]) == Part(s.chains[c]) + [Text(s.chains[c].input)];
      Regroup(Blocks(s.flushed, s.shifted - 1), Part(s.chains[c]), [Text(s.chains[c].input)]);
    }
    hide Part, WriteText;
  }

  lemma Regroup<T>(a: seq<T>, b: seq<T>, c: seq<T>)
    ensures (a + b) + c == a + (b + c)
  {
  }

  lemma {:induction false} WriteTextKeeps(s: Submits, c: nat, nowMs: int)
    requires SubmitsOk(s) && c in s.chains && s.chains[c].stage.ToType?
    ensures SubmitsOk(WriteText(s, c, nowMs))
  {
    WriteTextKeepsFlush(s, c, nowMs);
    hide LoopOk, FlushOk, Inputs, BytesOf, FlushBytes;
    var t := WriteText(s, c, nowMs);
    assert ChainOk(s, c);
    assert t.chains - {c} == s.chains - {c};
    WriteIsOwn(s, t, Write(c, s.chains[c].flush, Text(s.chains[c].input)));
    hide ChainsOk;
  }

  lemma {:induction false} PressedKeepsFlush(s: Submits, c: nat)
    requires LoopOk(s) && FlushOk(s) && c in s.chains && s.chains[c].stage.ToEnter?
    ensures LoopOk(Pressed(s, c)) && FlushOk(Pressed(s, c))
  {
    hide BytesOf, FlushBytes, Blocks, BlocksSoFar;
    OneMoreWrite(s.written, Write(c, s.chains[c].flush, Enter), c);
    EnterAddsToBlocks(s, c);
    hide LoopOk;
  }

  lemma {:induction false} EnterAddsToBlocks(s: Submits, c: nat)
    requires LoopOk(s) && c in s.chains && s.chains[c].stage.ToEnter?
    ensures var t := Pressed(s, c);
            LoopOk(t) && BlocksSoFar(t) == BlocksSoFar(s) + if s.chains[c].flush then [Enter] else []
  {
    var t := Pressed(s, c);
    assert forall k :: k in t.chains <==> k in s.chains && k != c;
    if s.loop == Waiting(c) {
      assert Blocks(s.flushed, s.shifted) == Blocks(s.flushed, s.shifted - 1) + Block(s.flushed[s.shifted - 1]);
      assert Part(s.chains[c]) + [Enter] == Block(s.flushed[s.shifted - 1]);
      Regroup(Blocks(s.flushed, s.shifted - 1), Part(s.chains[c]), [Enter]);
    }
    hide Blocks, Part, Block, Pressed;
  }

  lemma {:induction false} TrySubmitKeeps(s: Submits, c: nat, lastChunkMs: int, nowMs: int)
    requires SubmitsOk(s) && c in s.chains && s.chains[c].stage.ToEnter?
    ensures SubmitsOk(TrySubmit(s, c, lastChunkMs, nowMs))
  {
    PressedKeepsFlush(s, c);
    hide LoopOk, FlushOk, Inputs, BytesOf, FlushBytes, EnterDue;
    var t := Pressed(s, c);
    assert ChainOk(s, c);
    assert t.chains - {c} == s.chains - {c};
    WriteIsOwn(s, t, Write(c, s.chains[c].flush, Enter));
    hide ChainsOk;
  }

  lemma {:induction false} FireKeepsLoop(s: Submits)
    requires LoopOk(s) && FlushOk(s) && !s.loop.Waiting? && |s.begun| !in s.chains
    ensures LoopOk(Fire(s)) && FlushOk(Fire(s))
  {
    OneMoreWrite(s.written, Write(|s.begun|, true, Clear), |s.begun|);
    hide BytesOf, FlushBytes;
  }

  lemma {:induction false} FireKeepsQueue(s: Submits)
    requires QueueOk(s) && s.shifted < |s.flushed|
    ensures QueueOk(Fire(s))
  {
    OneMorePrompt(s.begun, Prompt(s.flushed[s.shifted], true), true);
    hide Inputs;
  }

  lemma {:induction false} FireKeeps(s: Submits)
    requires SubmitsOk(s) && !s.loop.Waiting?
    ensures SubmitsOk(Fire(s))
  {
    FireKeepsLoop(s);
    if s.shifted < |s.flushed| { FireKeepsQueue(s); }
    hide QueueOk;
    if s.shifted < |s.flushed| {
      WriteSubmitKeepsChains(s.(shifted := s.shifted + 1), s.flushed[s.shifted], true);
    }
    hide LoopOk, FlushOk, WriteSubmit, BytesOf;
  }

  lemma {:induction false} HandOverKeeps(s: Submits, queue: seq<nat>)
    requires SubmitsOk(s) && Untouched(s)
    ensures SubmitsOk(HandOver(s, queue)) && !HandOver(s, queue).loop.Waiting?
  {
    hide BytesOf, FlushBytes, Inputs;
    assert ChainsOk(HandOver(s, queue)) && QueueOk(HandOver(s, queue));
    assert LoopOk(HandOver(s, queue)) && FlushOk(HandOver(s, queue));
  }

  lemma {:induction false} SubmitsStartChains(s: Submits, input: nat)
    ensures InFlight(WriteSubmit(s, input, false))
    ensures s.shifted < |s.flushed| ==> InFlight(Fire(s))
  {
    assert |s.begun| in WriteSubmit(s, input, false).chains;
    assert s.shifted < |s.flushed| ==> |s.begun| in Fire(s).chains;
  }

  /** While the session lives, the flush either has written everything, or holds a chain or a timer that goes on. */
  lemma {:induction false} FlushGoesOn(s: Submits)
    requires SubmitsOk(s)
    ensures FlushBytes(s.written) <= Blocks(s.flushed, |s.flushed|)
    ensures || (s.loop.Waiting? && s.loop.c in s.chains)
            || s.loop.TimerSet?
            || FlushBytes(s.written) == Blocks(s.flushed, |s.flushed|)
  {
    hide ChainsOk, FlushBytes;
    BlocksGrow(s.flushed, s.shifted, |s.flushed|);
    if s.loop.Waiting? {
      assert Blocks(s.flushed, s.shifted) == Blocks(s.flushed, s.shifted - 1) + Block(s.flushed[s.shifted - 1]);
      assert Part(s.chains[s.loop.c]) <= Block(s.flushed[s.shifted - 1]);
    }
  }

  lemma {:induction false} BlocksGrow(queue: seq<nat>, m: nat, n: nat)
    requires m <= n <= |queue|
    ensures Blocks(queue, m) <= Blocks(queue, n)
  {
    if m < n { BlocksGrow(queue, m, n - 1); }
  }

  // ── The bounded wait ────────────────────────────────────────────────────────

  /** What a poll sees: when it runs, and the last chunk before it. */
  datatype Poll = Poll(nowMs: int, lastChunkMs: int)

  /** Each poll is a timer of `SUBMIT_DELAY_MS` set by the one before it, so it may be late but not early. */
  ghost predicate Polled(writeAt: int, polls: seq<Poll>) {
    && (polls != [] ==> polls[0].nowMs >= writeAt + SUBMIT_DELAY_MS)
    && (forall j, k :: 0 <= j < k < |polls| && k == j + 1 ==> polls[k].nowMs >= polls[j].nowMs + SUBMIT_DELAY_MS)
  }

  const MAX_POLLS := 32

  /** A chain's remaining life: poll after poll until its Enter. */
  function RunPolls(s: Submits, c: nat, polls: seq<Poll>, n: nat): Submits
    requires n <= |polls| && c in s.chains && s.chains[c].stage.ToEnter?
    ensures var t := RunPolls(s, c, polls, n); c in t.chains ==> t == s
  {
    if n == 0 then s
    else
      var t := RunPolls(s, c, polls, n - 1);
      if c in t.chains then TrySubmit(t, c, polls[n - 1].lastChunkMs, polls[n - 1].nowMs) else t
  }

  lemma {:induction false} PollIsLateEnough(writeAt: int, polls: seq<Poll>, k: nat)
    requires Polled(writeAt, polls) && k < |polls|
    ensures polls[k].nowMs - writeAt >= (k + 1) * SUBMIT_DELAY_MS
  {
    if k > 0 { PollIsLateEnough(writeAt, polls, k - 1); }
  }

  /** However the PTY paints, Enter is written by the 32nd poll, exactly once. */
  lemma {:induction false} EnterWithinBound(s: Submits, c: nat, polls: seq<Poll>, n: nat)
    requires c in s.chains && s.chains[c].stage.ToEnter? && Polled(s.chains[c].stage.writeAt, polls) && n <= |polls|
    ensures var t := RunPolls(s, c, polls, n);
            && (n >= MAX_POLLS ==> c !in t.chains)
            && t.written == s.written + if c in t.chains then [] else [Write(c, s.chains[c].flush, Enter)]
  {
    if n > 0 {
      EnterWithinBound(s, c, polls, n - 1);
      PollIsLateEnough(s.chains[c].stage.writeAt, polls, n - 1);
    }
  }

  /** The bound is tight: with punctual timers and a PTY that never goes quiet, Enter comes at the 32nd poll, 512 ms on. */
  lemma {:induction false} BusyPtyWaitsToTheBound(s: Submits, c: nat, polls: seq<Poll>, n: nat)
    requires c in s.chains && s.chains[c].stage.ToEnter? && n <= |polls|
    requires forall k :: 0 <= k < |polls| ==> polls[k].nowMs == s.chains[c].stage.writeAt + (k + 1) * SUBMIT_DELAY_MS
                                              && polls[k].lastChunkMs == polls[k].nowMs
    ensures c in RunPolls(s, c, polls, n).chains <==> n < MAX_POLLS
  {
    if n > 0 {
      BusyPtyWaitsToTheBound(s, c, polls, n - 1);
    }
  }
}
