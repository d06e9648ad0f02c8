/**
 * The turn machine of a Cursor session (src/cursor-pty-runner.ts:230-252, 270-377, 507-617): boot, the
 * busy hint, late starts and the stale-submit watch. One PTY life; timers and screen reads are events
 * that may fire at any later step.
 */
module CursorTurn {
  import opened Common
  import opened CursorSubmits

  const LATE_TURN_START_MS := 30000
  const READY_MAX_WAIT_MS := 60000

  datatype Status = Running | WaitingInput | Idle

  datatype StatusSource = Spawn | UserInput | BySignal | PromptMarker | QuietFallback | TimeoutFallback | ProcessExit | Shutdown

  /** A submit of text, a submit of keys, the busy hint, a settling. */
  datatype Mark = Began | KeysSent | Hint | Ended(source: StatusSource)

  /** `bootSeen`: the boot marker is in the output buffer, which is capped. `checks`: screen reads outstanding. */
  datatype Session = Session(
    alive: bool, status: Status, source: StatusSource,
    pendingReady: bool, bootSeen: bool, fallback: bool, queued: seq<nat>,
    turnBusy: bool, awaitingStart: Option<int>, watch: bool, checks: nat, lastChunkMs: int,
    submits: Submits, log: seq<Mark>)

  const SPAWNED := Session(true, Running, Spawn, true, false, true, [], false, None, false, 0, 0, NO_SUBMITS, [])

  datatype Event =
    | Chunk(hint: bool, marker: bool, nowMs: int)  // `marker`: in the buffer after the chunk
    | Quiet
    | ScreenRead(hint: bool, card: bool)
    | FallbackFires(elapsedMs: int)
    | WatchFires
    | TextFires(c: nat, nowMs: int)
    | EnterFires(c: nat, nowMs: int)
    | FlushFires
    | SendInput(input: nat)
    | SendKeys(nowMs: int)
    | Hold
    | Exit

  // ── Operations ──────────────────────────────────────────────────────────────

  /** `beginSubmit`: the hint of an earlier turn is forgotten; the source moves only from waiting. */
  function BeginSubmit(s: Session): Session {
    var t := if s.status == WaitingInput then s.(status := Running, source := UserInput) else s;
    t.(turnBusy := false, log := s.log + [Began])
  }

  /** One turn of the flush loop. */
  function FireFlush(s: Session): Session {
    if s.submits.shifted >= |s.submits.flushed| then s.(submits := Fire(s.submits))
    else BeginSubmit(s).(submits := Fire(s.submits))
  }

  /** The boot queue, if any, is handed over and its first input begun. */
  function FlushQueuedInputs(s: Session): Session {
    if s.queued == [] then s else FireFlush(s.(queued := [], submits := HandOver(s.submits, s.queued)))
  }

  function MarkReady(s: Session, source: StatusSource): Session {
    var t := s.(status := WaitingInput, source := source, watch := false, log := s.log + [Ended(source)]);
    if s.pendingReady then FlushQueuedInputs(t.(pendingReady := false, fallback := false)) else t
  }

  function ResumeLateTurn(s: Session, nowMs: int): Session {
    if s.awaitingStart.None? then s
    else
      var at := s.awaitingStart.value;
      var t := s.(awaitingStart := None);
      if s.status != WaitingInput || nowMs - at > LATE_TURN_START_MS then t
      else t.(status := Running, source := BySignal, turnBusy := true)
  }

  function HandleOutput(s: Session, hint: bool, marker: bool, nowMs: int): Session {
    var t := s.(lastChunkMs := nowMs, bootSeen := marker);
    if !hint then t
    else
      var u := t.(log := s.log + [Hint]);
      if s.status == Running then u.(turnBusy := true, awaitingStart := None) else ResumeLateTurn(u, nowMs)
  }

  function DetectQuiet(s: Session): Session {
    if s.pendingReady then if s.bootSeen then MarkReady(s, PromptMarker) else s
    else if s.status == Running && s.turnBusy then s.(checks := s.checks + 1)
    else s
  }

  function AfterScreenRead(s: Session, hint: bool, card: bool): Session {
    if s.status != Running || !s.turnBusy || hint || card then s
    else MarkReady(s.(turnBusy := false), BySignal)
  }

  function SubmitWatch(s: Session): Session {
    if s.status != Running || s.source != UserInput || s.turnBusy then s else MarkReady(s, QuietFallback)
  }

  function PressEnter(s: Session, c: nat, nowMs: int): Session
    requires c in s.submits.chains && s.submits.chains[c].stage.ToEnter?
  {
    var after := TrySubmit(s.submits, c, s.lastChunkMs, nowMs);
    if c in after.chains then s.(submits := after)
    else s.(submits := after, awaitingStart := Some(nowMs), watch := true)
  }

  /** `sendInput`: held during boot, else submitted. */
  function AcceptInput(s: Session, input: nat): Session {
    if s.pendingReady then s.(queued := s.queued + [input])
    else BeginSubmit(s).(submits := WriteSubmit(s.submits, input, false))
  }

  /** `sendKeys`: a settled session runs again, and the hint flag stays as it is. */
  function AcceptKeys(s: Session, nowMs: int): Session {
    if s.status != WaitingInput then s
    else s.(status := Running, source := UserInput, awaitingStart := Some(nowMs), watch := true, log := s.log + [KeysSent])
  }

  function Stop(s: Session, source: StatusSource): Session {
    s.(alive := false, status := Idle, source := source, pendingReady := false, queued := [], fallback := false,
       turnBusy := false, awaitingStart := None, watch := false, lastChunkMs := 0)
  }

  predicate Enabled(s: Session, e: Event) {
    match e
    case ScreenRead(_, _) => s.checks > 0
    case FallbackFires(_) => s.fallback
    case WatchFires => s.watch
    case TextFires(c, _) => c in s.submits.chains && s.submits.chains[c].stage.ToType?
    case EnterFires(c, _) => c in s.submits.chains && s.submits.chains[c].stage.ToEnter?
    case FlushFires => s.submits.loop.TimerSet?
    case _ => true
  }

  function Step(s: Session, e: Event): Session
    requires Enabled(s, e)
  {
    match e
    case ScreenRead(hint, card) => AfterScreenRead(s.(checks := s.checks - 1), hint, card)
    case _ => if !s.alive then s else LiveStep(s, e)
  }

  function LiveStep(s: Session, e: Event): Session
    requires Enabled(s, e) && s.alive && !e.ScreenRead?
  {
    match e
    case Chunk(hint, marker, nowMs) => HandleOutput(s, hint, marker, nowMs)
    case Quiet => DetectQuiet(s)
    case FallbackFires(elapsedMs) =>
      if !s.pendingReady then s.(fallback := false)
      else if !s.bootSeen && elapsedMs < READY_MAX_WAIT_MS then s
      else MarkReady(s.(fallback := false), TimeoutFallback)
    case WatchFires => SubmitWatch(s.(watch := false))
    case TextFires(c, nowMs) => s.(submits := WriteText(s.submits, c, nowMs))
    case EnterFires(c, nowMs) => PressEnter(s, c, nowMs)
    case FlushFires => FireFlush(s)
    case SendInput(input) => AcceptInput(s, input)
    case SendKeys(nowMs) => AcceptKeys(s, nowMs)
    case Hold => Stop(s, Shutdown)
    case Exit => Stop(s, ProcessExit)
  }

  // ── The invariant ───────────────────────────────────────────────────────────

  predicate Opens(m: Mark) { m.Began? || m.KeysSent? }

  ghost predicate Opened(log: seq<Mark>) { exists m :: 0 <= m < |log| && Opens(log[m]) }

  ghost predicate Settled(log: seq<Mark>) { exists m :: 0 <= m < |log| && log[m].Ended? }

  /** The busy hint was seen since the last submit, of text or keys. */
  ghost predicate HintSeen(log: seq<Mark>) {
    exists j :: 0 <= j < |log| && log[j] == Hint && forall m :: j < m < |log| ==> !Opens(log[m])
  }

  /** The hint was painted during boot, and nothing was submitted since. */
  ghost predicate BootHint(log: seq<Mark>) {
    && !Opened(log)
    && exists j, m :: 0 <= j < m < |log| && log[j] == Hint && log[m].Ended?
  }

  /** The last submit is of keys, the first submit of all, after a boot that painted the hint. */
  ghost predicate KeysHeld(log: seq<Mark>) {
    exists k :: 0 <= k < |log| && log[k] == KeysSent && BootHint(log[..k]) && forall m :: k < m < |log| ==> !Opens(log[m])
  }

  ghost predicate EndOk(log: seq<Mark>, i: nat)
    requires i < |log|
  {
    log[i] == Ended(BySignal) ==> HintSeen(log[..i]) || KeysHeld(log[..i])
  }

  ghost predicate LogOk(log: seq<Mark>) {
    forall i :: 0 <= i < |log| ==> EndOk(log, i)
  }

  ghost predicate BootOk(s: Session) {
    && (s.pendingReady ==>
          && s.alive && s.fallback && s.status == Running && s.source == Spawn && s.awaitingStart.None?
          && Untouched(s.submits))
    && (!s.pendingReady ==> s.queued == [])
    && (!s.alive ==> s.status == Idle && !s.turnBusy && !s.watch)
    && (s.alive ==> s.status != Idle)
    && (s.alive && !s.pendingReady && s.status == Running ==> s.source == UserInput || s.source == BySignal)
  }

  /** Something that will end a running user-input turn: a hint to see cleared, the watch, or a submit on its way. */
  ghost predicate UserTurnEnds(s: Session) {
    s.alive && s.status == Running && s.source == UserInput ==> s.turnBusy || s.watch || InFlight(s.submits)
  }

  /** What the hint flag says: what the log shows during boot, and while waiting exactly that boot's hint is still held. */
  ghost predicate FlagOk(s: Session) {
    && (s.turnBusy ==> HintSeen(s.log) || KeysHeld(s.log))
    && (s.pendingReady ==> !Opened(s.log) && !Settled(s.log) && s.checks == 0 && (s.turnBusy <==> HintSeen(s.log)))
    && (s.alive && s.status == WaitingInput ==> (s.turnBusy <==> BootHint(s.log)))
  }

  /** A submit was begun before anything that waits for one. */
  ghost predicate OpenedOk(s: Session) {
    || Opened(s.log)
    || ((s.alive && s.status == Running ==> s.pendingReady) && s.awaitingStart.None? && !InFlight(s.submits))
  }

  ghost predicate Inv(s: Session) {
    LogOk(s.log) && FlagOk(s) && OpenedOk(s) && BootOk(s) && UserTurnEnds(s) && SubmitsOk(s.submits)
  }

  lemma {:induction false} HintGrows(log: seq<Mark>, m: Mark)
    ensures HintSeen(log + [m]) <==> m == Hint || (HintSeen(log) && !Opens(m))
    ensures Opened(log + [m]) <==> Opened(log) || Opens(m)
    ensures Settled(log + [m]) <==> Settled(log) || m.Ended?
  {
    var grown := log + [m];
    assert grown[|log|] == m && forall j :: 0 <= j < |log| ==> grown[j] == log[j];
  }

  lemma {:induction false} BootHintIs(log: seq<Mark>)
    ensures BootHint(log) ==> !Opened(log) && Settled(log)
    ensures !Opened(log) ==> (HintSeen(log) <==> Hint in log)
  {
  }

  lemma {:induction false} BootHintGrows(log: seq<Mark>, m: Mark)
    ensures BootHint(log + [m]) <==> !Opened(log) && !Opens(m) && (BootHint(log) || (m.Ended? && HintSeen(log)))
  {
    HintGrows(log, m);
    BootHintIs(log);
    hide HintSeen, Opened, Settled;
    var grown := log + [m];
    assert grown[|log|] == m && forall j :: 0 <= j < |log| ==> grown[j] == log[j];
    if !Opened(log) && m.Ended? && HintSeen(log) {
      var j :| 0 <= j < |log| && log[j] == Hint;
      assert grown[j] == Hint && grown[|log|].Ended?;
    }
  }

  lemma {:induction false} KeysHeldGrows(log: seq<Mark>, m: Mark)
    ensures KeysHeld(log + [m]) <==> (m == KeysSent && BootHint(log)) || (KeysHeld(log) && !Opens(m))
  {
    hide BootHint;
    var grown := log + [m];
    assert grown[..|log|] == log;
    assert forall k :: 0 <= k <= |log| ==> grown[..k] == log[..k];
    if m == KeysSent && BootHint(log) { assert grown[|log|] == KeysSent; }
    if KeysHeld(log) && !Opens(m) {
      var k :| 0 <= k < |log| && log[k] == KeysSent && BootHint(log[..k]) && forall n :: k < n < |log| ==> !Opens(log[n]);
      assert grown[k] == KeysSent;
    }
  }

  lemma {:induction false} LogOkGrows(log: seq<Mark>, m: Mark)
    requires LogOk(log) && (m == Ended(BySignal) ==> HintSeen(log) || KeysHeld(log))
    ensures LogOk(log + [m])
  {
    hide HintSeen, KeysHeld;
    var grown := log + [m];
    assert grown[..|log|] == log;
    forall i | 0 <= i < |grown| ensures EndOk(grown, i) {
      if i < |log| { assert grown[..i] == log[..i] && EndOk(log, i); }
    }
  }

  lemma {:induction false} LogGrows(log: seq<Mark>, m: Mark)
    requires LogOk(log) && (m == Ended(BySignal) ==> HintSeen(log) || KeysHeld(log))
    ensures LogOk(log + [m])
    ensures HintSeen(log + [m]) <==> m == Hint || (HintSeen(log) && !Opens(m))
    ensures Opened(log + [m]) <==> Opened(log) || Opens(m)
    ensures Settled(log + [m]) <==> Settled(log) || m.Ended?
    ensures BootHint(log) ==> !Opened(log) && Settled(log)
    ensures BootHint(log + [m]) <==> !Opened(log) && !Opens(m) && (BootHint(log) || (m.Ended? && HintSeen(log)))
    ensures KeysHeld(log + [m]) <==> (m == KeysSent && BootHint(log)) || (KeysHeld(log) && !Opens(m))
  {
    LogOkGrows(log, m);
    HintGrows(log, m);
    BootHintIs(log);
    BootHintGrows(log, m);
    KeysHeldGrows(log, m);
  }

  // ── Every operation keeps it ────────────────────────────────────────────────

  lemma {:induction false} BeginSubmitKeeps(s: Session, submits: Submits)
    requires LogOk(s.log) && BootOk(s) && s.alive && !s.pendingReady && SubmitsOk(submits) && InFlight(submits)
    ensures Inv(BeginSubmit(s).(submits := submits))
  {
    LogGrows(s.log, Began);
    hide LogOk, HintSeen, Opened, Settled, BootHint, KeysHeld, SubmitsOk, Untouched, InFlight;
    var t := BeginSubmit(s).(submits := submits);
    assert BootOk(t) && UserTurnEnds(t) by { hide FlagOk, OpenedOk, Opens; }
    assert OpenedOk(t) by { hide FlagOk, BootOk; }
    assert FlagOk(t) by { hide OpenedOk; }
    hide BootOk, UserTurnEnds, OpenedOk, FlagOk;
  }

  lemma {:induction false} FireFlushKeeps(s: Session)
    requires LogOk(s.log) && BootOk(s) && SubmitsOk(s.submits) && s.alive && !s.pendingReady
    requires !s.submits.loop.Waiting?
    requires s.submits.shifted >= |s.submits.flushed| ==> UserTurnEnds(s) && FlagOk(s) && OpenedOk(s)
    ensures Inv(FireFlush(s))
  {
    FireKeeps(s.submits);
    SubmitsStartChains(s.submits, 0);
    hide LogOk, HintSeen, Opened, Settled, BootHint, KeysHeld, SubmitsOk, Untouched, InFlight, BeginSubmit;
    if s.submits.shifted < |s.submits.flushed| {
      hide Fire;
      BeginSubmitKeeps(s, Fire(s.submits));
    }
  }

  lemma {:induction false} SettleKeeps(s: Session, source: StatusSource)
    requires LogOk(s.log) && BootOk(s.(fallback := s.pendingReady)) && SubmitsOk(s.submits) && s.alive && source != UserInput
    requires if s.pendingReady then FlagOk(s) && OpenedOk(s) else !s.turnBusy && Opened(s.log)
    requires source == BySignal ==> HintSeen(s.log) || KeysHeld(s.log)
    ensures Inv(s.(status := WaitingInput, source := source, watch := false, log := s.log + [Ended(source)],
                   pendingReady := false, fallback := s.fallback && !s.pendingReady, queued := []))
  {
    LogGrows(s.log, Ended(source));
    hide LogOk, HintSeen, Opened, Settled, BootHint, KeysHeld, SubmitsOk, Untouched, InFlight;
    var t := s.(status := WaitingInput, source := source, watch := false, log := s.log + [Ended(source)],
                pendingReady := false, fallback := s.fallback && !s.pendingReady, queued := []);
    assert BootOk(t) && UserTurnEnds(t) by { hide FlagOk, OpenedOk, Opens; }
    assert OpenedOk(t) by { hide FlagOk, BootOk; }
    assert FlagOk(t) by { hide OpenedOk; }
    hide BootOk, UserTurnEnds, OpenedOk, FlagOk;
  }

  lemma {:induction false} MarkReadyKeeps(s: Session, source: StatusSource)
    requires LogOk(s.log) && BootOk(s.(fallback := s.pendingReady)) && SubmitsOk(s.submits) && s.alive && source != UserInput
    requires if s.pendingReady then FlagOk(s) && OpenedOk(s) else !s.turnBusy && Opened(s.log)
    requires source == BySignal ==> HintSeen(s.log) || KeysHeld(s.log)
    ensures Inv(MarkReady(s, source))
  {
    SettleKeeps(s, source);
    var t := s.(status := WaitingInput, source := source, watch := false, log := s.log + [Ended(source)],
                pendingReady := false, fallback := s.fallback && !s.pendingReady, queued := []);
    if s.pendingReady && s.queued != [] {
      HandOverKeeps(s.submits, s.queued);
      hide LogOk, HintSeen, Opened, Settled, BootHint, KeysHeld, FireFlush, SubmitsOk, LoopOk;
      assert Inv(t);
      FireFlushKeeps(t.(submits := HandOver(s.submits, s.queued)));
    } else {
      assert s.queued == [];
      hide Inv;
      assert MarkReady(s, source) == t;
    }
  }

  lemma {:induction false} HintKeeps(s: Session)
    requires Inv(s) && s.alive
    ensures var u := s.(log := s.log + [Hint]);
            HintSeen(u.log) && if s.status == Running then Inv(u.(turnBusy := true, awaitingStart := None)) else Inv(u)
  {
    LogGrows(s.log, Hint);
    hide LogOk, HintSeen, Opened, Settled, BootHint, KeysHeld, SubmitsOk, Untouched, InFlight;
    var u := s.(log := s.log + [Hint]);
    var t := if s.status == Running then u.(turnBusy := true, awaitingStart := None) else u;
    assert BootOk(t) && UserTurnEnds(t) by { hide FlagOk, OpenedOk, Opens; }
    assert OpenedOk(t) by { hide FlagOk, BootOk; }
    assert FlagOk(t) by { hide OpenedOk; }
    hide BootOk, UserTurnEnds, OpenedOk, FlagOk;
  }

  lemma {:induction false} OutputKeeps(s: Session, hint: bool, marker: bool, nowMs: int)
    requires Inv(s) && s.alive
    ensures Inv(HandleOutput(s, hint, marker, nowMs))
  {
    var t := s.(lastChunkMs := nowMs, bootSeen := marker);
    assert Inv(t) by { hide LogOk, HintSeen, Opened, Settled, BootHint, KeysHeld, SubmitsOk, Untouched, InFlight; }
    hide Inv, HintSeen, ResumeLateTurn;
    HintKeeps(t);
    if s.status != Running { ResumeKeeps(t.(log := t.log + [Hint]), nowMs); }
  }

  lemma {:induction false} ResumeKeeps(s: Session, nowMs: int)
    requires Inv(s) && HintSeen(s.log) && s.alive && s.status != Running
    ensures Inv(ResumeLateTurn(s, nowMs))
  {
    hide LogOk, HintSeen, Opened, Settled, BootHint, KeysHeld, SubmitsOk, Untouched, InFlight;
  }

  lemma {:induction false} ChainsMayMove(s: Session, submits: Submits)
    requires Inv(s) && SubmitsOk(submits) && InFlight(submits) && InFlight(s.submits)
    ensures Inv(s.(submits := submits))
  {
    hide LogOk, HintSeen, Opened, Settled, BootHint, KeysHeld, SubmitsOk, Untouched, InFlight;
  }

  lemma {:induction false} TextKeeps(s: Session, c: nat, nowMs: int)
    requires Inv(s) && s.alive && c in s.submits.chains && s.submits.chains[c].stage.ToType?
    ensures Inv(s.(submits := WriteText(s.submits, c, nowMs)))
  {
    InvHasSubmits(s);
    hide Inv, SubmitsOk;
    WriteTextKeeps(s.submits, c, nowMs);
    assert c in WriteText(s.submits, c, nowMs).chains;
    ChainsMayMove(s, WriteText(s.submits, c, nowMs));
  }

  lemma {:induction false} EnterKeeps(s: Session, c: nat, nowMs: int)
    requires Inv(s) && s.alive && c in s.submits.chains && s.submits.chains[c].stage.ToEnter?
    ensures Inv(PressEnter(s, c, nowMs))
  {
    TrySubmitKeeps(s.submits, c, s.lastChunkMs, nowMs);
    hide LogOk, HintSeen, Opened, Settled, BootHint, KeysHeld, SubmitsOk, Untouched, InFlight, TrySubmit;
    assert !Untouched(s.submits) && InFlight(s.submits) by { assert c in s.submits.chains; }
    var t := PressEnter(s, c, nowMs);
    assert BootOk(t) && UserTurnEnds(t) by { hide FlagOk, OpenedOk, Opens; }
    assert OpenedOk(t) by { hide FlagOk, BootOk; }
    assert FlagOk(t) by { hide OpenedOk; }
    hide BootOk, UserTurnEnds, OpenedOk, FlagOk;
  }

  lemma {:induction false} SendKeeps(s: Session, input: nat)
    requires Inv(s) && s.alive
    ensures Inv(AcceptInput(s, input))
  {
    WriteSubmitKeeps(s.submits, input);
    SubmitsStartChains(s.submits, input);
    hide LogOk, HintSeen, Opened, Settled, BootHint, KeysHeld, SubmitsOk, Untouched, InFlight, WriteSubmit, BeginSubmit;
    if s.pendingReady {
      var t := s.(queued := s.queued + [input]);
      assert BootOk(t) && UserTurnEnds(t) by { hide FlagOk, OpenedOk; }
      assert FlagOk(t) && OpenedOk(t) by { hide BootOk, UserTurnEnds; }
      assert Inv(t);
    } else {
      BeginSubmitKeeps(s, WriteSubmit(s.submits, input, false));
    }
    hide Inv;
  }

  lemma {:induction false} KeysKeep(s: Session, nowMs: int)
    requires Inv(s) && s.alive
    ensures Inv(AcceptKeys(s, nowMs))
  {
    LogGrows(s.log, KeysSent);
    hide LogOk, HintSeen, Opened, Settled, BootHint, KeysHeld, SubmitsOk, Untouched, InFlight;
    var t := AcceptKeys(s, nowMs);
    assert t.log == (if s.status == WaitingInput then s.log + [KeysSent] else s.log) && t.submits == s.submits;
    assert BootOk(t) && UserTurnEnds(t) by { hide FlagOk, OpenedOk, Opens; }
    assert OpenedOk(t) by { hide FlagOk, BootOk; }
    assert FlagOk(t) by { hide OpenedOk; }
    hide BootOk, UserTurnEnds, OpenedOk, FlagOk, AcceptKeys;
  }

  lemma {:induction false} SettlersKeep(s: Session, e: Event)
    requires Inv(s) && Enabled(s, e) && (e.Quiet? || e.FallbackFires? || e.WatchFires?) && s.alive
    ensures Inv(LiveStep(s, e))
  {
    hide LogOk, HintSeen, Opened, Settled, BootHint, KeysHeld, SubmitsOk, Untouched, InFlight, MarkReady;
    match e
    case Quiet => if s.pendingReady && s.bootSeen { MarkReadyKeeps(s, PromptMarker); }
    case FallbackFires(elapsedMs) =>
      if s.pendingReady && (s.bootSeen || elapsedMs >= READY_MAX_WAIT_MS) { MarkReadyKeeps(s.(fallback := false), TimeoutFallback); }
    case WatchFires =>
      if s.status == Running && s.source == UserInput && !s.turnBusy { MarkReadyKeeps(s.(watch := false), QuietFallback); }
  }

  lemma {:induction false} ScreenReadKeeps(s: Session, hint: bool, card: bool)
    requires Inv(s) && s.checks > 0
    ensures Inv(Step(s, ScreenRead(hint, card)))
  {
    hide LogOk, HintSeen, Opened, Settled, BootHint, KeysHeld, SubmitsOk, Untouched, InFlight, MarkReady;
    var t := s.(checks := s.checks - 1);
    if s.status == Running && s.turnBusy && !hint && !card { MarkReadyKeeps(t.(turnBusy := false), BySignal); }
  }

  lemma {:induction false} StepKeepsInv(s: Session, e: Event)
    requires Inv(s) && Enabled(s, e)
    ensures Inv(Step(s, e))
  {
    if e.ScreenRead? {
      ScreenReadKeeps(s, e.hint, e.card);
    } else if s.alive {
      match e
      case Chunk(hint, marker, nowMs) => OutputKeeps(s, hint, marker, nowMs);
      case Quiet => SettlersKeep(s, e);
      case FallbackFires(_) => SettlersKeep(s, e);
      case WatchFires => SettlersKeep(s, e);
      case TextFires(c, nowMs) => TextKeeps(s, c, nowMs);
      case EnterFires(c, nowMs) => EnterKeeps(s, c, nowMs);
      case FlushFires => FireFlushKeeps(s);
      case SendInput(input) => SendKeeps(s, input);
      case SendKeys(nowMs) => KeysKeep(s, nowMs);
      case Hold => StopKeeps(s, Shutdown);
      case Exit => StopKeeps(s, ProcessExit);
    }
  }

  lemma {:induction false} StopKeeps(s: Session, source: StatusSource)
    requires Inv(s)
    ensures Inv(Stop(s, source))
  {
    hide LogOk, HintSeen, Opened, Settled, BootHint, KeysHeld, SubmitsOk, Untouched, InFlight;
  }

  // ── Runs ────────────────────────────────────────────────────────────────────

  predicate EnabledRun(s: Session, es: seq<Event>)
    decreases |es|
  {
    es == [] || (Enabled(s, es[0]) && EnabledRun(Step(s, es[0]), es[1..]))
  }

  function Run(s: Session, es: seq<Event>): Session
    requires EnabledRun(s, es)
    decreases |es|
  {
    if es == [] then s else Run(Step(s, es[0]), es[1..])
  }

  lemma {:induction false} SpawnedOk()
    ensures Inv(SPAWNED)
  {
    assert SubmitsOk(NO_SUBMITS);
  }

  lemma {:induction false} RunKeepsInv(s: Session, es: seq<Event>)
    requires Inv(s) && EnabledRun(s, es)
    ensures Inv(Run(s, es))
    decreases |es|
  {
    if es != [] {
      hide Inv, Step;
      StepKeepsInv(s, es[0]);
      RunKeepsInv(Step(s, es[0]), es[1..]);
    }
  }

  lemma {:induction false} InvHasSubmits(s: Session)
    requires Inv(s)
    ensures SubmitsOk(s.submits) && LogOk(s.log) && FlagOk(s) && BootOk(s) && UserTurnEnds(s)
  {
  }

  // ── Every input reaches the PTY ─────────────────────────────────────────────

  /** The inputs a run hands the session: during boot, or past it. */
  function Taken(s: Session, es: seq<Event>, booting: bool): seq<nat>
    requires EnabledRun(s, es)
    decreases |es|
  {
    if es == [] then [] else TakenBy(s, es[0], booting) + Taken(Step(s, es[0]), es[1..], booting)
  }

  function TakenBy(s: Session, e: Event, booting: bool): seq<nat> {
    if e.SendInput? && s.alive && s.pendingReady == booting then [e.input] else []
  }

  /** `boot` waits in the queue until boot ends and is then the flush's; each of `direct` began a chain of its own. */
  ghost predicate Carries(s: Session, boot: seq<nat>, direct: seq<nat>) {
    && Inputs(s.submits.begun, false) == direct
    && (s.pendingReady ==> s.queued == boot && s.submits.flushed == [])
    && (s.alive && !s.pendingReady ==> s.submits.flushed == boot)
    && (s.submits.flushed == [] || s.submits.flushed == boot)
  }

  lemma {:induction false} FireFlushCarries(s: Session, boot: seq<nat>, direct: seq<nat>)
    requires Carries(s, boot, direct) && s.alive && !s.pendingReady
    ensures Carries(FireFlush(s), boot, direct)
  {
    if s.submits.shifted < |s.submits.flushed| {
      OneMorePrompt(s.submits.begun, Prompt(s.submits.flushed[s.submits.shifted], true), false);
    }
    hide Inputs;
  }

  lemma {:induction false} MarkReadyCarries(s: Session, source: StatusSource, boot: seq<nat>, direct: seq<nat>)
    requires Carries(s, boot, direct) && s.alive
    ensures Carries(MarkReady(s, source), boot, direct)
  {
    hide FireFlush, Inputs;
    if s.pendingReady && s.queued != [] {
      var u := s.(status := WaitingInput, source := source, watch := false, log := s.log + [Ended(source)],
                  pendingReady := false, fallback := false, queued := [], submits := HandOver(s.submits, s.queued));
      FireFlushCarries(u, boot, direct);
    }
  }

  lemma {:induction false} AcceptCarries(s: Session, input: nat, boot: seq<nat>, direct: seq<nat>)
    requires Carries(s, boot, direct) && s.alive
    ensures Carries(AcceptInput(s, input), boot + TakenBy(s, SendInput(input), true), direct + TakenBy(s, SendInput(input), false))
  {
    OneMorePrompt(s.submits.begun, Prompt(input, false), false);
    hide Inputs;
    assert boot + [] == boot && direct + [] == direct;
  }

  lemma {:induction false} SettlersCarry(s: Session, e: Event, boot: seq<nat>, direct: seq<nat>)
    requires Carries(s, boot, direct) && Enabled(s, e) && s.alive && (e.Quiet? || e.FallbackFires? || e.WatchFires?)
    ensures Carries(LiveStep(s, e), boot, direct)
  {
    hide MarkReady, Inputs;
    match e
    case Quiet => MarkReadyCarries(s, PromptMarker, boot, direct);
    case FallbackFires(_) => MarkReadyCarries(s.(fallback := false), TimeoutFallback, boot, direct);
    case WatchFires => MarkReadyCarries(s.(watch := false), QuietFallback, boot, direct);
  }

  lemma {:induction false} ScreenReadCarries(s: Session, hint: bool, card: bool, boot: seq<nat>, direct: seq<nat>)
    requires Carries(s, boot, direct) && s.checks > 0 && (s.status == Running ==> s.alive)
    ensures Carries(Step(s, ScreenRead(hint, card)), boot, direct)
  {
    hide MarkReady, Inputs;
    var t := s.(checks := s.checks - 1);
    if s.status == Running { MarkReadyCarries(t.(turnBusy := false), BySignal, boot, direct); }
  }

  lemma {:induction false} OutputCarries(s: Session, hint: bool, marker: bool, nowMs: int, boot: seq<nat>, direct: seq<nat>)
    requires Carries(s, boot, direct)
    ensures Carries(HandleOutput(s, hint, marker, nowMs), boot, direct)
  {
    hide Inputs, ResumeLateTurn;
    var t := s.(lastChunkMs := nowMs, bootSeen := marker);
    var u := t.(log := t.log + [Hint]);
    assert Carries(t, boot, direct) && Carries(u, boot, direct) && Carries(u.(turnBusy := true, awaitingStart := None), boot, direct);
    ResumeCarries(u, nowMs, boot, direct);
    hide Carries;
  }

  lemma {:induction false} ResumeCarries(s: Session, nowMs: int, boot: seq<nat>, direct: seq<nat>)
    requires Carries(s, boot, direct)
    ensures Carries(ResumeLateTurn(s, nowMs), boot, direct)
  {
    hide Inputs;
    var t := s.(awaitingStart := None);
    assert Carries(t, boot, direct) && Carries(t.(status := Running, source := BySignal, turnBusy := true), boot, direct);
    hide Carries;
  }

  predicate LeavesInputs(e: Event) { e.Chunk? || e.TextFires? || e.EnterFires? || e.SendKeys? || e.Hold? || e.Exit? }

  lemma {:induction false} OthersCarry(s: Session, e: Event, boot: seq<nat>, direct: seq<nat>)
    requires Carries(s, boot, direct) && Enabled(s, e) && s.alive && LeavesInputs(e)
    ensures Carries(LiveStep(s, e), boot, direct)
  {
    hide MarkReady, FireFlush, AcceptInput, Inputs, EnterDue, BytesOf;
    match e
    case Chunk(hint, marker, nowMs) => OutputCarries(s, hint, marker, nowMs, boot, direct);
    case TextFires(_, _) =>
    case EnterFires(_, _) =>
    case SendKeys(_) =>
    case Hold =>
    case Exit =>
  }

  lemma {:induction false} StepCarries(s: Session, e: Event, boot: seq<nat>, direct: seq<nat>)
    requires Carries(s, boot, direct) && Inv(s) && Enabled(s, e)
    ensures Carries(Step(s, e), boot + TakenBy(s, e, true), direct + TakenBy(s, e, false))
  {
    assert boot + [] == boot && direct + [] == direct;
    assert (s.status == Running ==> s.alive) && (s.submits.loop.TimerSet? ==> !s.pendingReady);
    hide Inv, Carries;
    if e.ScreenRead? {
      ScreenReadCarries(s, e.hint, e.card, boot, direct);
    } else if s.alive {
      hide HandleOutput, PressEnter, WriteText, AcceptKeys, Stop;
      if LeavesInputs(e) { OthersCarry(s, e, boot, direct); }
      if e.Quiet? || e.FallbackFires? || e.WatchFires? { SettlersCarry(s, e, boot, direct); }
      hide MarkReady;
      if e.FlushFires? { FireFlushCarries(s, boot, direct); }
      if e.SendInput? { AcceptCarries(s, e.input, boot, direct); }
    }
  }

  lemma {:induction false} TakenJoins(s: Session, es: seq<Event>, booting: bool, before: seq<nat>)
    requires EnabledRun(s, es) && es != []
    ensures before + TakenBy(s, es[0], booting) + Taken(Step(s, es[0]), es[1..], booting) == before + Taken(s, es, booting)
  {
    hide Step, TakenBy;
  }

  lemma {:induction false} RunCarries(s: Session, es: seq<Event>, boot: seq<nat>, direct: seq<nat>)
    requires Inv(s) && Carries(s, boot, direct) && EnabledRun(s, es)
    ensures Carries(Run(s, es), boot + Taken(s, es, true), direct + Taken(s, es, false))
    decreases |es|
  {
    hide Inv, Step, Carries, TakenBy;
    if es == [] {
      assert boot + [] == boot && direct + [] == direct;
    } else {
      StepKeepsInv(s, es[0]);
      StepCarries(s, es[0], boot, direct);
      RunCarries(Step(s, es[0]), es[1..], boot + TakenBy(s, es[0], true), direct + TakenBy(s, es[0], false));
      TakenJoins(s, es, true, boot);
      TakenJoins(s, es, false, direct);
    }
  }

  lemma {:induction false} SpawnedRun(es: seq<Event>)
    requires EnabledRun(SPAWNED, es)
    ensures Inv(Run(SPAWNED, es))
    ensures Carries(Run(SPAWNED, es), Taken(SPAWNED, es, true), Taken(SPAWNED, es, false))
  {
    SpawnedOk();
    assert Carries(SPAWNED, [], []);
    RunKeepsInv(SPAWNED, es);
    RunCarries(SPAWNED, es, [], []);
    hide Inv, Carries, Run, Taken;
    assert [] + Taken(SPAWNED, es, true) == Taken(SPAWNED, es, true) && [] + Taken(SPAWNED, es, false) == Taken(SPAWNED, es, false);
  }

  /**
   * The inputs a run sends during boot are queued, and reach the PTY as whole Ctrl+U, text, Enter blocks
   * in the order they were sent, none twice; while the session lives the flush goes on until all are written.
   */
  lemma {:induction false} BootQueueIsWritten(es: seq<Event>)
    requires EnabledRun(SPAWNED, es)
    ensures var s, boot := Run(SPAWNED, es), Taken(SPAWNED, es, true);
            && (s.pendingReady ==> s.queued == boot)
            && FlushBytes(s.submits.written) <= Blocks(boot, |boot|)
            && (s.alive && !s.pendingReady ==>
                  || (s.submits.loop.Waiting? && s.submits.loop.c in s.submits.chains)
                  || s.submits.loop.TimerSet?
                  || FlushBytes(s.submits.written) == Blocks(boot, |boot|))
  {
    SpawnedRun(es);
    hide Inv, Run, EnabledRun, Taken;
    InvHasSubmits(Run(SPAWNED, es));
    FlushGoesOn(Run(SPAWNED, es).submits);
    hide SubmitsOk, BytesOf, FlushBytes, Inputs;
    assert forall queue :: Blocks(queue, 0) == [];
  }

  /**
   * Every input is written by a chain of its own, which writes that input's Ctrl+U, text and Enter, in that
   * order and at most once: past boot one chain for each input sent, in order, and before that for as many
   * of the queued ones as the flush has reached.
   */
  lemma {:induction false} EachInputIsWritten(es: seq<Event>, c: nat)
    requires EnabledRun(SPAWNED, es)
    ensures var s := Run(SPAWNED, es).submits;
            && Inputs(s.begun, false) == Taken(SPAWNED, es, false)
            && Inputs(s.begun, true) <= Taken(SPAWNED, es, true)
            && BytesOf(s.written, c) <= (if c < |s.begun| then Block(s.begun[c].input) else [])
            && (c < |s.begun| && c !in s.chains ==> BytesOf(s.written, c) == Block(s.begun[c].input))
  {
    SpawnedRun(es);
    hide Inv, Run, EnabledRun, Taken;
    InvHasSubmits(Run(SPAWNED, es));
    hide LoopOk, FlushOk, Inputs, BytesOf, FlushBytes;
    var s := Run(SPAWNED, es).submits;
    if c in s.chains { assert ChainOk(s, c); }
  }

  /** A session running on user input always shows the hint, has its watch armed, or has a submit in flight. */
  lemma {:induction false} UserTurnsEnd(es: seq<Event>)
    requires EnabledRun(SPAWNED, es)
    ensures var s := Run(SPAWNED, es);
            s.alive && s.status == Running && s.source == UserInput ==> s.turnBusy || s.watch || InFlight(s.submits)
  {
    SpawnedOk();
    RunKeepsInv(SPAWNED, es);
    hide Inv, Run, EnabledRun;
    InvHasSubmits(Run(SPAWNED, es));
  }

  // ── What a turn signal shows ────────────────────────────────────────────────

  /**
   * A session ends by turn signal only after a busy hint since its last submit, except for the turn of
   * the session's first submit when that is of keys and boot painted the hint. Since the last submit of
   * text there is always one.
   */
  lemma {:induction false} SignalEndsFollowHint(es: seq<Event>, i: nat)
    requires EnabledRun(SPAWNED, es) && i < |Run(SPAWNED, es).log| && Run(SPAWNED, es).log[i] == Ended(BySignal)
    ensures var log := Run(SPAWNED, es).log;
            && (HintSeen(log[..i]) || KeysHeld(log[..i]))
            && forall b :: 0 <= b < i && log[b] == Began ==> exists j :: b < j < i && log[j] == Hint
  {
    SpawnedOk();
    RunKeepsInv(SPAWNED, es);
    hide Inv, Run, EnabledRun;
    InvHasSubmits(Run(SPAWNED, es));
    hide HintSeen, KeysHeld;
    var log := Run(SPAWNED, es).log;
    assert EndOk(log, i);
    forall b | 0 <= b < i && log[b] == Began ensures exists j :: b < j < i && log[j] == Hint { TextNeedsHint(log[..i], b); }
  }

  lemma {:induction false} HeldKeysFollowNoText(log: seq<Mark>)
    requires KeysHeld(log)
    ensures Began !in log
  {
    var k :| 0 <= k < |log| && log[k] == KeysSent && BootHint(log[..k]) && forall m :: k < m < |log| ==> !Opens(log[m]);
    BootHintIs(log[..k]);
    hide BootHint, Settled;
    forall b | 0 <= b < |log| ensures log[b] != Began {
      if b < k { assert log[..k][b] == log[b] && !Opens(log[..k][b]); }
      if b > k { assert !Opens(log[b]); }
    }
  }

  lemma {:induction false} TextNeedsHint(log: seq<Mark>, b: nat)
    requires (HintSeen(log) || KeysHeld(log)) && b < |log| && log[b] == Began
    ensures exists j :: b < j < |log| && log[j] == Hint
  {
    hide KeysHeld;
    if KeysHeld(log) { HeldKeysFollowNoText(log); }
    var j :| 0 <= j < |log| && log[j] == Hint && forall m :: j < m < |log| ==> !Opens(log[m]);
    assert Opens(log[b]);
  }

  ghost predicate Hintless(es: seq<Event>) { forall k :: 0 <= k < |es| ==> !(es[k].Chunk? && es[k].hint) }

  /** The run paints no hint and yet ends the session by turn signal. */
  ghost predicate EndsUnseen(s: Session, es: seq<Event>) {
    && EnabledRun(s, es) && Hintless(es)
    && exists i :: |s.log| <= i < |Run(s, es).log| && Run(s, es).log[i] == Ended(BySignal)
  }

  ghost predicate NoSignalSince(s: Session, t: Session) {
    !t.turnBusy && s.log <= t.log && forall i :: |s.log| <= i < |t.log| ==> t.log[i] != Ended(BySignal)
  }

  lemma {:induction false} MarkReadyWithoutHint(s: Session, source: StatusSource)
    requires !s.turnBusy && source != BySignal
    ensures NoSignalSince(s, MarkReady(s, source))
  {
    hide Fire, HandOver;
    var t := s.(status := WaitingInput, source := source, watch := false, log := s.log + [Ended(source)]);
    var u := t.(pendingReady := false, fallback := false);
    var v := u.(queued := [], submits := HandOver(s.submits, s.queued));
    assert NoSignalSince(s, t) && NoSignalSince(s, u) && NoSignalSince(s, FireFlush(v));
    hide NoSignalSince, FireFlush;
  }

  lemma {:induction false} StepWithoutHint(s: Session, e: Event)
    requires Enabled(s, e) && !s.turnBusy && !(e.Chunk? && e.hint)
    ensures NoSignalSince(s, Step(s, e))
  {
    hide MarkReady, WriteSubmit, WriteText, TrySubmit, Fire, HandOver;
    if e.Quiet? { MarkReadyWithoutHint(s, PromptMarker); }
    if e.FallbackFires? { MarkReadyWithoutHint(s.(fallback := false), TimeoutFallback); }
    if e.WatchFires? { MarkReadyWithoutHint(s.(watch := false), QuietFallback); }
  }

  lemma {:induction false} RunWithoutHint(s: Session, es: seq<Event>)
    requires EnabledRun(s, es) && !s.turnBusy && Hintless(es)
    ensures NoSignalSince(s, Run(s, es))
    decreases |es|
  {
    if es != [] {
      StepWithoutHint(s, es[0]);
      hide Step, Enabled;
      RunWithoutHint(Step(s, es[0]), es[1..]);
    }
  }

  /** Keys sent to a settled session may end by turn signal without any further hint exactly when the flag is held. */
  lemma {:induction false} KeysEndUnseenIff(s: Session, nowMs: int)
    requires s.alive && !s.pendingReady && s.status == WaitingInput
    ensures (exists es :: EndsUnseen(Step(s, SendKeys(nowMs)), es)) <==> s.turnBusy
  {
    var t := Step(s, SendKeys(nowMs));
    if s.turnBusy {
      var u := Step(t, Quiet);
      var v := Step(u, ScreenRead(false, false));
      assert v.log == t.log + [Ended(BySignal)];
      var es := [Quiet, ScreenRead(false, false)] + [];
      RunOfTwo(t, Quiet, ScreenRead(false, false), []);
      assert Run(t, es) == v && v.log[|t.log|] == Ended(BySignal);
      assert EndsUnseen(t, es);
    } else {
      forall es ensures !EndsUnseen(t, es) {
        if EnabledRun(t, es) && Hintless(es) { RunWithoutHint(t, es); }
      }
    }
  }

  /** In any run: exactly when boot painted the hint and nothing was submitted since. */
  lemma {:induction false} KeysNeedNoHintIff(es: seq<Event>, nowMs: int)
    requires EnabledRun(SPAWNED, es) && Run(SPAWNED, es).alive && Run(SPAWNED, es).status == WaitingInput
    ensures (exists more :: EndsUnseen(Step(Run(SPAWNED, es), SendKeys(nowMs)), more)) <==> BootHint(Run(SPAWNED, es).log)
  {
    SpawnedOk();
    RunKeepsInv(SPAWNED, es);
    hide Inv, Run, EnabledRun;
    InvHasSubmits(Run(SPAWNED, es));
    hide EndsUnseen, BootHint;
    KeysEndUnseenIff(Run(SPAWNED, es), nowMs);
  }

  // ── The session nothing ends ────────────────────────────────────────────────

  /** Running past boot, with nothing armed that would settle it: only a new busy hint, a hold or an exit changes that. */
  predicate Lost(s: Session) {
    s.alive && !s.pendingReady && s.status == Running && s.source == BySignal && !s.turnBusy
  }

  /** Short of those, every step leaves it running: watch, quiet checks, further input and keys included. */
  lemma {:induction false} LostStaysLost(s: Session, e: Event)
    requires Lost(s) && Enabled(s, e) && !e.Hold? && !e.Exit? && !(e.Chunk? && e.hint)
    ensures Lost(Step(s, e))
  {
  }

  /** A running session past boot has something that ends it exactly when it is not lost. */
  lemma {:induction false} EndsIffNotLost(es: seq<Event>)
    requires EnabledRun(SPAWNED, es)
    ensures var s := Run(SPAWNED, es);
            s.alive && !s.pendingReady && s.status == Running ==>
              (Lost(s) <==> !s.turnBusy && !(s.source == UserInput && (s.watch || InFlight(s.submits))))
  {
    SpawnedOk();
    RunKeepsInv(SPAWNED, es);
    hide Inv, Run, EnabledRun;
    InvHasSubmits(Run(SPAWNED, es));
  }

  /** The step begins a submit. */
  predicate Submitting(s: Session, e: Event)
    requires Enabled(s, e)
  {
    s.alive && !s.pendingReady && (e.SendInput? || (e.FlushFires? && s.submits.shifted < |s.submits.flushed|))
  }

  /**
   * Exactly which step loses a session: a submit begun while it runs on a late-started turn. The
   * source stays `turn-signal`, which the stale-submit watch does not act on.
   */
  lemma {:induction false} LosesIffSubmitsLate(s: Session, e: Event)
    requires Inv(s) && Enabled(s, e) && !Lost(s)
    ensures Lost(Step(s, e)) <==> Submitting(s, e) && s.status == Running && s.source == BySignal
  {
    hide LogOk, HintSeen, Opened, Settled, BootHint, KeysHeld, SubmitsOk, Untouched, InFlight, WriteSubmit, WriteText, TrySubmit;
  }

  ghost predicate NeverSubmitsLate(s: Session, es: seq<Event>)
    requires EnabledRun(s, es)
    decreases |es|
  {
    es == [] || (!(Submitting(s, es[0]) && s.status == Running && s.source == BySignal) && NeverSubmitsLate(Step(s, es[0]), es[1..]))
  }

  /** Without such a submit no run loses its session. */
  lemma {:induction false} NeverLost(s: Session, es: seq<Event>)
    requires Inv(s) && !Lost(s) && EnabledRun(s, es) && NeverSubmitsLate(s, es)
    ensures !Lost(Run(s, es))
    decreases |es|
  {
    if es != [] {
      StepKeepsInv(s, es[0]);
      LosesIffSubmitsLate(s, es[0]);
      hide Inv, Step, Lost;
      NeverLost(Step(s, es[0]), es[1..]);
    }
  }

  /** Boot, a submit settled as stale, its hint arriving late, and one more submit: lost. */
  const LATE_SUBMIT: seq<Event> :=
    [Chunk(false, true, 0), Quiet] + ([SendInput(1), TextFires(0, 100)]
    + ([EnterFires(0, 700), WatchFires] + ([Chunk(true, false, 5000), SendInput(2)] + [])))

  lemma {:induction false} RunOfCons(s: Session, e: Event, es: seq<Event>)
    requires Enabled(s, e) && EnabledRun(Step(s, e), es)
    ensures EnabledRun(s, [e] + es) && Run(s, [e] + es) == Run(Step(s, e), es)
  {
    assert ([e] + es)[1..] == es;
    hide Step, Enabled;
  }

  lemma {:induction false} RunOfTwo(s: Session, e: Event, f: Event, es: seq<Event>)
    requires Enabled(s, e) && Enabled(Step(s, e), f) && EnabledRun(Step(Step(s, e), f), es)
    ensures EnabledRun(s, [e, f] + es) && Run(s, [e, f] + es) == Run(Step(Step(s, e), f), es)
  {
    hide Step, Enabled;
    RunOfCons(Step(s, e), f, es);
    RunOfCons(s, e, [f] + es);
    assert [e] + ([f] + es) == [e, f] + es;
  }

  function Booted(log: seq<Mark>, turnBusy: bool, bootMs: int): Session {
    SPAWNED.(status := WaitingInput, source := PromptMarker, pendingReady := false, bootSeen := true, fallback := false,
             turnBusy := turnBusy, lastChunkMs := bootMs, log := log)
  }

  /** After the first submit: its text, its Enter, and the watch that settles it as stale. */
  lemma {:induction false} SubmitSettlesStale(s: Session)
    requires s == Booted([Ended(PromptMarker)], false, 0)
    ensures Enabled(s, SendInput(1)) && Enabled(Step(s, SendInput(1)), TextFires(0, 100))
    ensures var t := Step(Step(s, SendInput(1)), TextFires(0, 100));
            && Enabled(t, EnterFires(0, 700)) && Enabled(Step(t, EnterFires(0, 700)), WatchFires)
            && var u := Step(Step(t, EnterFires(0, 700)), WatchFires);
            && u.alive && !u.pendingReady && u.status == WaitingInput && u.awaitingStart == Some(700)
  {
    var s3 := Step(s, SendInput(1));
    assert s3.submits.chains == map[0 := Chain(1, false, ToType)];
    var s4 := Step(s3, TextFires(0, 100));
    assert s4.submits.chains == map[0 := Chain(1, false, ToEnter(100))];
    var s5 := Step(s4, EnterFires(0, 700));
    assert s5.watch && s5.source == UserInput;
  }

  lemma {:induction false} HintThenSubmitLoses(s: Session)
    requires s.alive && !s.pendingReady && s.status == WaitingInput && s.awaitingStart == Some(700)
    ensures Enabled(s, Chunk(true, false, 5000)) && Enabled(Step(s, Chunk(true, false, 5000)), SendInput(2))
    ensures Lost(Step(Step(s, Chunk(true, false, 5000)), SendInput(2)))
  {
    var t := Step(s, Chunk(true, false, 5000));
    assert t.status == Running && t.source == BySignal;
    hide HandleOutput, WriteSubmit;
  }

  lemma {:induction false} BootSteps()
    ensures Enabled(SPAWNED, Chunk(false, true, 0)) && Enabled(Step(SPAWNED, Chunk(false, true, 0)), Quiet)
    ensures Step(Step(SPAWNED, Chunk(false, true, 0)), Quiet) == Booted([Ended(PromptMarker)], false, 0)
  {
  }

  lemma {:induction false} LateSubmitIsLost()
    ensures EnabledRun(SPAWNED, LATE_SUBMIT) && Lost(Run(SPAWNED, LATE_SUBMIT))
  {
    BootSteps();
    var s2 := Booted([Ended(PromptMarker)], false, 0);
    SubmitSettlesStale(s2);
    var s4 := Step(Step(s2, SendInput(1)), TextFires(0, 100));
    var s6 := Step(Step(s4, EnterFires(0, 700)), WatchFires);
    HintThenSubmitLoses(s6);
    hide Step, Enabled, Booted, Lost;
    RunOfTwo(s6, Chunk(true, false, 5000), SendInput(2), []);
    hide Run, EnabledRun;
    var late := [Chunk(true, false, 5000), SendInput(2)] + [];
    RunOfTwo(s4, EnterFires(0, 700), WatchFires, late);
    RunOfTwo(s2, SendInput(1), TextFires(0, 100), [EnterFires(0, 700), WatchFires] + late);
    var submit := [SendInput(1), TextFires(0, 100)] + ([EnterFires(0, 700), WatchFires] + late);
    RunOfTwo(SPAWNED, Chunk(false, true, 0), Quiet, submit);
  }

  /**
   * Keys do not clear the hint flag: a hint painted during boot makes a key sent afterwards end by
   * turn signal although no hint was seen since.
   */
  lemma {:induction false} BootHintEndsKeys()
    ensures var s := Booted([Hint, Ended(PromptMarker)], true, 0);
            && Enabled(SPAWNED, Chunk(true, true, 0)) && Step(Step(SPAWNED, Chunk(true, true, 0)), Quiet) == s
            && Enabled(s, SendKeys(10)) && Enabled(Step(s, SendKeys(10)), Quiet)
            && var t := Step(Step(s, SendKeys(10)), Quiet);
            && Enabled(t, ScreenRead(false, false))
            && Step(t, ScreenRead(false, false)).log == [Hint, Ended(PromptMarker), KeysSent, Ended(BySignal)]
  {
    var s := Booted([Hint, Ended(PromptMarker)], true, 0);
    assert Step(Step(SPAWNED, Chunk(true, true, 0)), Quiet) == s;
    var t := Step(Step(s, SendKeys(10)), Quiet);
    assert t.checks == 1 && t.log == [Hint, Ended(PromptMarker), KeysSent];
  }
}
