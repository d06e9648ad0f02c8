/**
 * The turn machine of a Claude session (src/pty-manager.ts): boot queue, turn open, working, ending
 * and held, late starts and the start grace. One PTY life; timers and promise continuations are
 * events that may fire at any later step, and screen readings are free inputs.
 */
module ClaudeTurn {
  import opened Common
  import opened TurnSignal

  const LATE_TURN_START_MS := 30000

  datatype Status = Running | WaitingInput | Idle

  datatype StatusSource =
    Spawn | UserInput | BySignal | PromptMarker | ScreenMarker | TimeoutFallback | ProcessExit | Shutdown

  /** What happened to the turn: an opening by a submit, a signal, a settling with the turn and gate it found, a late start. */
  datatype Mark =
    | Opened
    | Signal(busy: bool)
    | Settled(source: StatusSource, turn: Turn, gate: bool)
    | LateStart(submittedAt: int, nowMs: int)

  /** Inputs held during boot, flushed ones whose timer has not fired, and those pasted into the PTY. */
  datatype Inputs = Inputs(accepted: seq<nat>, queue: seq<nat>, delayed: multiset<nat>, written: seq<nat>)

  /** `graceTimers`, `rechecks`: timers and screen reads outstanding. */
  datatype Session = Session(
    alive: bool, status: Status, source: StatusSource,
    turn: Turn, awaitingStart: Option<int>, progressSeen: bool, progressTail: seq<CodeUnit>, permissionOpen: bool,
    pendingReady: bool, inputs: Inputs,
    graceTimers: nat, rechecks: nat, fallback: bool, log: seq<Mark>)

  const SPAWNED := Session(true, Running, Spawn, NoTurn, None, false, [], false, true,
                           Inputs([], [], multiset{}, []), 0, 0, true, [])

  datatype Event =
    | Chunk(data: seq<CodeUnit>, marker: bool, nowMs: int)
    | Quiet
    | RecheckReads(screenGate: bool, marker: bool, nowMs: int)
    | GraceFires
    | FallbackFires(nowMs: int)
    | FlushFires(input: nat, nowMs: int)
    | SendInput(input: nat, nowMs: int)
    | SendKeys(answersGate: bool, nowMs: int)
    | PermissionSeen(open: bool)
    | Hold
    | Exit

  // ── Operations ──────────────────────────────────────────────────────────────

  function OpenTurnOnSubmit(s: Session, nowMs: int): Session {
    var t := s.(awaitingStart := Some(nowMs), log := s.log + [Opened]);
    if !s.progressSeen then t else t.(turn := Submitted, graceTimers := s.graceTimers + 1)
  }

  function BeginSubmit(s: Session, nowMs: int): Session {
    OpenTurnOnSubmit(if s.status == WaitingInput then s.(status := Running, source := UserInput) else s, nowMs)
  }

  lemma {:induction false} BeginSubmitIgnoresInputs(s: Session, inputs: Inputs, nowMs: int)
    ensures BeginSubmit(s.(inputs := inputs), nowMs) == BeginSubmit(s, nowMs).(inputs := inputs)
    ensures BeginSubmit(s, nowMs).inputs == s.inputs
  {
    OpenTurnIgnoresInputs(if s.status == WaitingInput then s.(status := Running, source := UserInput) else s, inputs, nowMs);
    hide OpenTurnOnSubmit;
  }

  lemma {:induction false} OpenTurnIgnoresInputs(s: Session, inputs: Inputs, nowMs: int)
    ensures OpenTurnOnSubmit(s.(inputs := inputs), nowMs) == OpenTurnOnSubmit(s, nowMs).(inputs := inputs)
    ensures OpenTurnOnSubmit(s, nowMs).inputs == s.inputs
  {
  }

  function Flushed(i: Inputs): Inputs
    requires i.queue != []
  {
    i.(queue := [], written := i.written + [i.queue[0]], delayed := i.delayed + multiset(i.queue[1..]))
  }

  /** The first queued input is pasted at once, each later one from a timer of its own. */
  function FlushQueuedInputs(s: Session, nowMs: int): Session {
    if s.inputs.queue == [] then s else BeginSubmit(s.(inputs := Flushed(s.inputs)), nowMs)
  }

  function MarkReady(s: Session, source: StatusSource, turn: Turn, gate: bool, nowMs: int): Session {
    var t := s.(fallback := false, status := WaitingInput, source := source, log := s.log + [Settled(source, turn, gate)]);
    if s.pendingReady then FlushQueuedInputs(t.(pendingReady := false), nowMs) else t
  }

  function ResumeLateTurn(s: Session, nowMs: int): Session {
    if s.awaitingStart.None? then s
    else
      var at := s.awaitingStart.value;
      var t := s.(awaitingStart := None);
      if s.status != WaitingInput || nowMs - at > LATE_TURN_START_MS then t
      else t.(status := Running, source := BySignal, log := s.log + [LateStart(at, nowMs)])
  }

  function Marks(signals: seq<bool>): seq<Mark> {
    seq(|signals|, i requires 0 <= i < |signals| => Signal(signals[i]))
  }

  /** The last signal of a chunk moves the turn, and a busy one may be a late start. */
  function Signalled(s: Session, signals: seq<bool>, nowMs: int): Session
    requires signals != []
  {
    var seen := s.(progressSeen := true);
    var resumed := if signals[|signals| - 1] then ResumeLateTurn(seen, nowMs) else seen;
    resumed.(turn := ChunkTurn(s.turn, signals))
  }

  function TrackProgress(s: Session, data: seq<CodeUnit>, nowMs: int): Session {
    var window := s.progressTail + data;
    var signals := AllSignals(window);
    var t := s.(progressTail := Carry(window), log := s.log + Marks(signals));
    if signals == [] then t else Signalled(t, signals, nowMs)
  }

  function HandleOutput(s: Session, data: seq<CodeUnit>, marker: bool, nowMs: int): Session {
    var t := TrackProgress(s, data, nowMs);
    if t.status == Running && marker && t.turn == NoTurn then MarkReady(t, PromptMarker, t.turn, t.permissionOpen, nowMs) else t
  }

  /** `recheckReadyFromScreen` up to its await. */
  function StartRecheck(s: Session): Session {
    if s.alive && s.status == Running then s.(rechecks := s.rechecks + 1) else s
  }

  /** `recheckReadyFromScreen` after the screen was read. */
  function RecheckReady(s: Session, screenGate: bool, marker: bool, nowMs: int): Session {
    var gate := s.permissionOpen || screenGate;
    if s.turn == Ending || s.turn == Held then
      if gate then s.(turn := Held)
      else if s.turn == Held then OpenTurnOnSubmit(s, nowMs)
      else
        var t := s.(turn := NoTurn);
        if s.status == Running then MarkReady(t, BySignal, s.turn, gate, nowMs) else t
    else if marker && s.status == Running && s.turn == NoTurn then MarkReady(s, ScreenMarker, s.turn, gate, nowMs)
    else s
  }

  function Stop(s: Session, source: StatusSource): Session {
    s.(alive := false, status := Idle, source := source, turn := NoTurn, awaitingStart := None, progressSeen := false,
       progressTail := [], permissionOpen := false, pendingReady := false,
       inputs := s.inputs.(queue := []), fallback := false)
  }

  predicate Enabled(s: Session, e: Event) {
    match e
    case RecheckReads(_, _, _) => s.rechecks > 0
    case GraceFires => s.graceTimers > 0
    case FallbackFires(_) => s.fallback
    case FlushFires(input, _) => input in s.inputs.delayed
    case _ => true
  }

  function Step(s: Session, e: Event): Session
    requires Enabled(s, e)
  {
    match e
    case Chunk(data, marker, nowMs) => if s.alive then HandleOutput(s, data, marker, nowMs) else s
    case Quiet => StartRecheck(s)
    case RecheckReads(screenGate, marker, nowMs) => RecheckReady(s.(rechecks := s.rechecks - 1), screenGate, marker, nowMs)
    case GraceFires =>
      var t := s.(graceTimers := s.graceTimers - 1);
      if s.turn != Submitted then t else StartRecheck(t.(turn := NoTurn))
    case FallbackFires(nowMs) =>
      var t := s.(fallback := false);
      if s.status == Running && s.pendingReady then MarkReady(t, TimeoutFallback, s.turn, s.permissionOpen, nowMs) else t
    case FlushFires(input, nowMs) =>
      var i := s.inputs.(delayed := s.inputs.delayed - multiset{input});
      if !s.alive then s.(inputs := i) else BeginSubmit(s.(inputs := i.(written := i.written + [input])), nowMs)
    case SendInput(input, nowMs) =>
      if !s.alive then s
      else
        var i := s.inputs.(accepted := s.inputs.accepted + [input]);
        if s.pendingReady then s.(inputs := i.(queue := i.queue + [input]))
        else BeginSubmit(s.(inputs := i.(written := i.written + [input])), nowMs)
    case SendKeys(answersGate, nowMs) =>
      if !s.alive then s
      else
        var t := if s.status == WaitingInput then OpenTurnOnSubmit(s.(status := Running, source := UserInput), nowMs) else s;
        if answersGate then t.(permissionOpen := false) else t
    case PermissionSeen(open) => if s.alive then s.(permissionOpen := open) else s
    case Hold => if s.alive then Stop(s, Shutdown) else s
    case Exit => if s.alive then Stop(s, ProcessExit) else s
  }

  // ── The invariant ───────────────────────────────────────────────────────────

  ghost predicate NoOpening(log: seq<Mark>, from: nat) {
    forall m :: from <= m < |log| ==> log[m] != Opened
  }

  /** Since the last opening, a busy signal was seen. */
  ghost predicate BusySeen(log: seq<Mark>) {
    exists j :: 0 <= j < |log| && log[j] == Signal(true) && NoOpening(log, j)
  }

  /** Since the last opening, a busy signal and after it an idle one were seen. */
  ghost predicate BusyThenIdle(log: seq<Mark>) {
    exists j, k :: 0 <= j < k < |log| && log[j] == Signal(true) && log[k] == Signal(false) && NoOpening(log, j)
  }

  ghost predicate SettleOk(log: seq<Mark>, i: nat)
    requires i < |log| && log[i].Settled?
  {
    match log[i].source
    case BySignal => log[i].turn == Ending && !log[i].gate && BusyThenIdle(log[..i])
    case PromptMarker => log[i].turn == NoTurn
    case ScreenMarker => log[i].turn == NoTurn
    case source => source == TimeoutFallback
  }

  ghost predicate LogOk(log: seq<Mark>) {
    && (forall i :: 0 <= i < |log| && log[i].Settled? ==> SettleOk(log, i))
    && (forall i :: 0 <= i < |log| && log[i].LateStart? ==> log[i].nowMs - log[i].submittedAt <= LATE_TURN_START_MS)
  }

  ghost predicate TurnOk(s: Session) {
    && (s.turn == Working ==> BusySeen(s.log))
    && (s.turn == Ending || s.turn == Held ==> BusyThenIdle(s.log))
    && (!s.progressSeen ==> s.turn == NoTurn)
    && (s.turn == Submitted ==> s.graceTimers > 0)
    && (!s.alive ==> s.turn == NoTurn && s.status == Idle && !s.pendingReady && !s.fallback)
    && (s.alive ==> s.status != Idle)
  }

  /** Every accepted input is in exactly one place. */
  ghost predicate Conserved(i: Inputs) {
    multiset(i.accepted) == multiset(i.written) + i.delayed + multiset(i.queue)
  }

  ghost predicate InputsOk(s: Session) {
    && (s.alive ==> Conserved(s.inputs))
    && (!s.pendingReady ==> s.inputs.queue == [])
  }

  function Opens(log: seq<Mark>, n: nat): nat
    requires n <= |log|
  {
    if n == 0 then 0 else Opens(log, n - 1) + if log[n - 1].Opened? then 1 else 0
  }

  function LateStarts(log: seq<Mark>, n: nat): nat
    requires n <= |log|
  {
    if n == 0 then 0 else LateStarts(log, n - 1) + if log[n - 1].LateStart? then 1 else 0
  }

  ghost predicate StartsOk(s: Session) {
    LateStarts(s.log, |s.log|) + (if s.awaitingStart.Some? then 1 else 0) <= Opens(s.log, |s.log|)
  }

  ghost predicate Inv(s: Session) {
    LogOk(s.log) && TurnOk(s) && InputsOk(s) && StartsOk(s)
  }

  // ── Growing the log ─────────────────────────────────────────────────────────

  lemma {:induction false} CountsOfPrefix(a: seq<Mark>, b: seq<Mark>, n: nat)
    requires n <= |a|
    ensures Opens(a + b, n) == Opens(a, n) && LateStarts(a + b, n) == LateStarts(a, n)
  {
    if n > 0 { CountsOfPrefix(a, b, n - 1); }
  }

  lemma {:induction false} CountsOfOneMore(a: seq<Mark>, m: Mark)
    ensures Opens(a + [m], |a| + 1) == Opens(a, |a|) + if m.Opened? then 1 else 0
    ensures LateStarts(a + [m], |a| + 1) == LateStarts(a, |a|) + if m.LateStart? then 1 else 0
  {
    CountsOfPrefix(a, [m], |a|);
  }

  lemma {:induction false} CountsOfSignals(a: seq<Mark>, signals: seq<bool>, n: nat)
    requires n <= |signals|
    ensures Opens(a + Marks(signals), |a| + n) == Opens(a, |a|)
    ensures LateStarts(a + Marks(signals), |a| + n) == LateStarts(a, |a|)
  {
    if n == 0 { CountsOfPrefix(a, Marks(signals), |a|); } else { CountsOfSignals(a, signals, n - 1); }
  }

  lemma {:induction false} SeenStays(a: seq<Mark>, b: seq<Mark>)
    requires forall i :: 0 <= i < |b| ==> b[i] != Opened
    ensures BusySeen(a) ==> BusySeen(a + b)
    ensures BusyThenIdle(a) ==> BusyThenIdle(a + b)
  {
    var log := a + b;
    if BusySeen(a) {
      var j :| 0 <= j < |a| && a[j] == Signal(true) && NoOpening(a, j);
      assert log[j] == Signal(true) && NoOpening(log, j);
    }
    if BusyThenIdle(a) {
      var j, k :| 0 <= j < k < |a| && a[j] == Signal(true) && a[k] == Signal(false) && NoOpening(a, j);
      assert log[j] == Signal(true) && log[k] == Signal(false) && NoOpening(log, j);
    }
  }

  lemma {:induction false} LogStaysOk(a: seq<Mark>, b: seq<Mark>)
    requires LogOk(a)
    requires forall i :: 0 <= i < |b| ==> b[i].Opened? || b[i].Signal?
    ensures LogOk(a + b)
  {
    var log := a + b;
    forall i | 0 <= i < |log| && log[i].Settled? ensures SettleOk(log, i) {
      assert log[i] == a[i] && log[..i] == a[..i] && SettleOk(a, i);
    }
  }

  lemma {:induction false} LogAddsSettle(a: seq<Mark>, m: Mark)
    requires LogOk(a) && m.Settled?
    requires m.source == BySignal ==> m.turn == Ending && !m.gate && BusyThenIdle(a)
    requires m.source == PromptMarker || m.source == ScreenMarker ==> m.turn == NoTurn
    requires m.source in {BySignal, PromptMarker, ScreenMarker, TimeoutFallback}
    ensures LogOk(a + [m])
  {
    var log := a + [m];
    assert log[..|a|] == a;
    forall i | 0 <= i < |log| && log[i].Settled? ensures SettleOk(log, i) {
      if i < |a| { assert log[..i] == a[..i] && SettleOk(a, i); }
    }
  }

  lemma {:induction false} LogAddsLateStart(a: seq<Mark>, m: Mark)
    requires LogOk(a) && m.LateStart? && m.nowMs - m.submittedAt <= LATE_TURN_START_MS
    ensures LogOk(a + [m])
  {
    var log := a + [m];
    forall i | 0 <= i < |log| && log[i].Settled? ensures SettleOk(log, i) {
      assert log[i] == a[i] && log[..i] == a[..i] && SettleOk(a, i);
    }
  }

  // ── Every operation keeps it ────────────────────────────────────────────────

  lemma {:induction false} OpenKeeps(s: Session, nowMs: int)
    requires Inv(s) && s.alive
    ensures Inv(OpenTurnOnSubmit(s, nowMs))
  {
    LogStaysOk(s.log, [Opened]);
    CountsOfOneMore(s.log, Opened);
    hide LogOk;
  }

  lemma {:induction false} BeginSubmitKeeps(s: Session, nowMs: int)
    requires Inv(s) && s.alive
    ensures Inv(BeginSubmit(s, nowMs))
  {
    OpenKeeps(if s.status == WaitingInput then s.(status := Running, source := UserInput) else s, nowMs);
  }

  lemma {:induction false} FlushKeeps(s: Session, nowMs: int)
    requires LogOk(s.log) && TurnOk(s) && StartsOk(s) && s.alive && !s.pendingReady
    requires Conserved(s.inputs)
    ensures Inv(FlushQueuedInputs(s, nowMs))
  {
    hide LogOk, BusySeen, BusyThenIdle, BeginSubmit;
    if s.inputs.queue != [] {
      FlushConserves(s.inputs);
      hide Conserved;
      StartsDependOnLog(s, s.(inputs := Flushed(s.inputs)));
      BeginSubmitKeeps(s.(inputs := Flushed(s.inputs)), nowMs);
    }
  }

  lemma {:induction false} FlushConserves(i: Inputs)
    requires Conserved(i) && i.queue != []
    ensures Conserved(Flushed(i))
  {
    assert i.queue == [i.queue[0]] + i.queue[1..];
  }

  lemma {:induction false} MarkReadyKeeps(s: Session, source: StatusSource, turn: Turn, gate: bool, nowMs: int)
    requires LogOk(s.log) && TurnOk(s) && InputsOk(s) && StartsOk(s) && s.alive
    requires source == BySignal ==> turn == Ending && !gate && BusyThenIdle(s.log)
    requires source == PromptMarker || source == ScreenMarker ==> turn == NoTurn
    requires source in {BySignal, PromptMarker, ScreenMarker, TimeoutFallback}
    ensures Inv(MarkReady(s, source, turn, gate, nowMs))
  {
    var m := Settled(source, turn, gate);
    LogAddsSettle(s.log, m);
    SeenStays(s.log, [m]);
    CountsOfOneMore(s.log, m);
    hide LogOk, BusySeen, BusyThenIdle, FlushQueuedInputs;
    if s.pendingReady {
      FlushKeeps(s.(fallback := false, status := WaitingInput, source := source, log := s.log + [m], pendingReady := false), nowMs);
    }
  }

  lemma {:induction false} ResumeKeeps(s: Session, nowMs: int)
    requires LogOk(s.log) && TurnOk(s) && InputsOk(s) && StartsOk(s) && s.alive
    ensures Inv(ResumeLateTurn(s, nowMs))
    ensures BusySeen(s.log) ==> BusySeen(ResumeLateTurn(s, nowMs).log)
  {
    if s.awaitingStart.Some? && s.status == WaitingInput && nowMs - s.awaitingStart.value <= LATE_TURN_START_MS {
      var m := LateStart(s.awaitingStart.value, nowMs);
      LogAddsLateStart(s.log, m);
      SeenStays(s.log, [m]);
      CountsOfOneMore(s.log, m);
    }
    hide LogOk, BusySeen, BusyThenIdle;
  }

  /** Logging the signals of a chunk, before the turn moves. */
  lemma {:induction false} SignalsKeep(s: Session, tail: seq<CodeUnit>, signals: seq<bool>)
    requires Inv(s)
    ensures Inv(s.(progressTail := tail, log := s.log + Marks(signals)))
  {
    LogStaysOk(s.log, Marks(signals));
    SeenStays(s.log, Marks(signals));
    CountsOfSignals(s.log, signals, |signals|);
    hide LogOk, BusySeen, BusyThenIdle, Marks;
  }

  lemma {:induction false} ProgressSeenKeeps(s: Session)
    requires Inv(s)
    ensures Inv(s.(progressSeen := true))
  {
    hide LogOk, BusySeen, BusyThenIdle;
  }

  /** Moving the turn to what the logged signals justify. */
  lemma {:induction false} TurnMoves(s: Session, turn: Turn)
    requires Inv(s) && s.alive && s.progressSeen
    requires turn == Working ==> BusySeen(s.log)
    requires turn == Ending || turn == Held ==> BusyThenIdle(s.log)
    requires turn == Submitted ==> s.turn == Submitted
    ensures Inv(s.(turn := turn))
  {
    hide LogOk, BusySeen, BusyThenIdle;
  }

  lemma {:induction false} SignalledKeeps(s: Session, signals: seq<bool>, nowMs: int)
    requires Inv(s) && s.alive && signals != []
    requires signals[|signals| - 1] ==> BusySeen(s.log)
    requires !signals[|signals| - 1] && s.turn == Working ==> BusyThenIdle(s.log)
    ensures Inv(Signalled(s, signals, nowMs)) && Signalled(s, signals, nowMs).alive
  {
    hide LogOk, BusySeen, BusyThenIdle, InputsOk, StartsOk, Opens, LateStarts;
    var seen := s.(progressSeen := true);
    ProgressSeenKeeps(s);
    if signals[|signals| - 1] {
      ResumeKeeps(seen, nowMs);
      TurnMoves(ResumeLateTurn(seen, nowMs), ChunkTurn(s.turn, signals));
    } else {
      TurnMoves(seen, ChunkTurn(s.turn, signals));
    }
  }

  lemma {:induction false} TrackKeeps(s: Session, data: seq<CodeUnit>, nowMs: int)
    requires Inv(s) && s.alive
    ensures Inv(TrackProgress(s, data, nowMs)) && TrackProgress(s, data, nowMs).alive
  {
    hide AllSignals, Carry;
    var window := s.progressTail + data;
    var signals := AllSignals(window);
    SignalsKeep(s, Carry(window), signals);
    if signals != [] {
      LastSignalSeen(s.log, signals);
      SeenStays(s.log, Marks(signals));
      assert s.turn == Working ==> BusySeen(s.log);
      hide Inv, BusySeen, BusyThenIdle, Marks, Signalled;
      SignalledKeeps(s.(progressTail := Carry(window), log := s.log + Marks(signals)), signals, nowMs);
    }
  }

  /** The last signal of the chunk is what the turn it leads to needs. */
  lemma {:induction false} LastSignalSeen(a: seq<Mark>, signals: seq<bool>)
    requires signals != []
    ensures signals[|signals| - 1] ==> BusySeen(a + Marks(signals))
    ensures !signals[|signals| - 1] && BusySeen(a) ==> BusyThenIdle(a + Marks(signals))
  {
    var log := a + Marks(signals);
    var last := |log| - 1;
    assert log[last] == Signal(signals[|signals| - 1]);
    if signals[|signals| - 1] {
      assert NoOpening(log, last);
    } else if BusySeen(a) {
      var j :| 0 <= j < |a| && a[j] == Signal(true) && NoOpening(a, j);
      assert log[j] == Signal(true) && NoOpening(log, j);
    }
  }

  lemma {:induction false} OutputKeeps(s: Session, data: seq<CodeUnit>, marker: bool, nowMs: int)
    requires Inv(s) && s.alive
    ensures Inv(HandleOutput(s, data, marker, nowMs))
  {
    TrackKeeps(s, data, nowMs);
    hide LogOk, BusySeen, BusyThenIdle, TrackProgress, MarkReady;
    var t := TrackProgress(s, data, nowMs);
    if t.status == Running && marker && t.turn == NoTurn { MarkReadyKeeps(t, PromptMarker, t.turn, t.permissionOpen, nowMs); }
  }

  lemma {:induction false} RecheckKeeps(s: Session, screenGate: bool, marker: bool, nowMs: int)
    requires Inv(s)
    ensures Inv(RecheckReady(s, screenGate, marker, nowMs))
  {
    hide LogOk, BusySeen, BusyThenIdle, MarkReady, OpenTurnOnSubmit;
    var gate := s.permissionOpen || screenGate;
    if s.turn == Ending || s.turn == Held {
      if gate {
      } else if s.turn == Held {
        OpenKeeps(s, nowMs);
      } else if s.status == Running {
        MarkReadyKeeps(s.(turn := NoTurn), BySignal, s.turn, gate, nowMs);
      }
    } else if marker && s.status == Running && s.turn == NoTurn {
      MarkReadyKeeps(s, ScreenMarker, s.turn, gate, nowMs);
    }
  }

  /** Only the inputs move. */
  lemma {:induction false} InputsMove(s: Session, inputs: Inputs)
    requires Inv(s)
    requires s.alive ==> Conserved(inputs)
    requires !s.pendingReady ==> inputs.queue == []
    ensures Inv(s.(inputs := inputs))
  {
    hide LogOk, BusySeen, BusyThenIdle, StartsOk, Conserved;
    StartsDependOnLog(s, s.(inputs := inputs));
  }

  lemma {:induction false} FlushFiresKeeps(s: Session, input: nat, nowMs: int)
    requires Inv(s) && s.alive && input in s.inputs.delayed
    ensures Inv(Step(s, FlushFires(input, nowMs)))
  {
    var i := s.inputs.(delayed := s.inputs.delayed - multiset{input}, written := s.inputs.written + [input]);
    assert Conserved(i);
    InputsMove(s, i);
    hide Inv, BeginSubmit;
    BeginSubmitKeeps(s.(inputs := i), nowMs);
  }

  lemma {:induction false} SendInputKeeps(s: Session, input: nat, nowMs: int)
    requires Inv(s) && s.alive
    ensures Inv(Step(s, SendInput(input, nowMs)))
  {
    var i := s.inputs.(accepted := s.inputs.accepted + [input]);
    var queued, sent := i.(queue := i.queue + [input]), i.(written := i.written + [input]);
    assert Conserved(queued) && Conserved(sent);
    hide BeginSubmit;
    if s.pendingReady {
      InputsMove(s, queued);
    } else {
      InputsMove(s, sent);
      hide Inv;
      BeginSubmitKeeps(s.(inputs := sent), nowMs);
    }
  }

  lemma {:induction false} SendKeysKeeps(s: Session, answersGate: bool, nowMs: int)
    requires Inv(s) && s.alive
    ensures Inv(Step(s, SendKeys(answersGate, nowMs)))
  {
    hide LogOk, BusySeen, BusyThenIdle, StartsOk, OpenTurnOnSubmit;
    var r := s.(status := Running, source := UserInput);
    StartsDependOnLog(s, r);
    var t := if s.status == WaitingInput then OpenTurnOnSubmit(r, nowMs) else s;
    if s.status == WaitingInput { OpenKeeps(r, nowMs); }
    StartsDependOnLog(t, t.(permissionOpen := false));
  }

  lemma {:induction false} SubmitKeeps(s: Session, e: Event)
    requires Inv(s) && Enabled(s, e) && (e.FlushFires? || e.SendInput? || e.SendKeys?)
    ensures Inv(Step(s, e))
  {
    if s.alive {
      hide Step, Inv;
      match e
      case FlushFires(input, nowMs) => FlushFiresKeeps(s, input, nowMs);
      case SendInput(input, nowMs) => SendInputKeeps(s, input, nowMs);
      case SendKeys(answersGate, nowMs) => SendKeysKeeps(s, answersGate, nowMs);
    } else if e.FlushFires? {
      hide LogOk, BusySeen, BusyThenIdle, StartsOk;
      StartsDependOnLog(s, s.(inputs := s.inputs.(delayed := s.inputs.delayed - multiset{e.input})));
    }
  }

  lemma {:induction false} StartsDependOnLog(s: Session, t: Session)
    requires StartsOk(s) && t.log == s.log && (t.awaitingStart == s.awaitingStart || t.awaitingStart.None?)
    ensures StartsOk(t)
  {
  }

  lemma {:induction false} InputsStayOk(s: Session, t: Session)
    requires InputsOk(s) && t.alive == s.alive && t.pendingReady == s.pendingReady && t.inputs == s.inputs
    ensures InputsOk(t)
  {
  }

  lemma {:induction false} StopKeeps(s: Session, source: StatusSource)
    requires Inv(s)
    ensures Inv(Stop(s, source))
  {
    hide LogOk, BusySeen, BusyThenIdle;
  }

  lemma {:induction false} TimersKeep(s: Session, e: Event)
    requires Inv(s) && Enabled(s, e) && (e.Quiet? || e.GraceFires? || e.PermissionSeen?)
    ensures Inv(Step(s, e))
  {
    hide LogOk, BusySeen, BusyThenIdle, StartsOk, InputsOk;
    StartsDependOnLog(s, Step(s, e));
    InputsStayOk(s, Step(s, e));
  }

  lemma {:induction false} FallbackKeeps(s: Session, nowMs: int)
    requires Inv(s) && s.fallback
    ensures Inv(Step(s, FallbackFires(nowMs)))
  {
    hide LogOk, BusySeen, BusyThenIdle, StartsOk, MarkReady;
    var t := s.(fallback := false);
    StartsDependOnLog(s, t);
    if s.status == Running && s.pendingReady {
      MarkReadyKeeps(t, TimeoutFallback, s.turn, s.permissionOpen, nowMs);
    }
  }

  lemma {:induction false} StepKeepsInv(s: Session, e: Event)
    requires Inv(s) && Enabled(s, e)
    ensures Inv(Step(s, e))
  {
    match e
    case Chunk(data, marker, nowMs) =>
      if s.alive { hide HandleOutput, Inv; OutputKeeps(s, data, marker, nowMs); }
    case Quiet => TimersKeep(s, e);
    case RecheckReads(screenGate, marker, nowMs) => RecheckStepKeeps(s, screenGate, marker, nowMs);
    case GraceFires => TimersKeep(s, e);
    case FallbackFires(nowMs) => FallbackKeeps(s, nowMs);
    case FlushFires(_, _) => SubmitKeeps(s, e);
    case SendInput(_, _) => SubmitKeeps(s, e);
    case SendKeys(_, _) => SubmitKeeps(s, e);
    case PermissionSeen(_) => TimersKeep(s, e);
    case Hold => StopKeeps(s, Shutdown);
    case Exit => StopKeeps(s, ProcessExit);
  }

  lemma {:induction false} RecheckStepKeeps(s: Session, screenGate: bool, marker: bool, nowMs: int)
    requires Inv(s) && s.rechecks > 0
    ensures Inv(Step(s, RecheckReads(screenGate, marker, nowMs)))
  {
    hide LogOk, BusySeen, BusyThenIdle, StartsOk, RecheckReady;
    StartsDependOnLog(s, s.(rechecks := s.rechecks - 1));
    RecheckKeeps(s.(rechecks := s.rechecks - 1), screenGate, marker, nowMs);
  }

  // ── Runs ────────────────────────────────────────────────────────────────────

  predicate EnabledRun(s: Session, es: seq<Event>)
    decreases |es|
  {
    es == [] || (Enabled(s, es[0]) && EnabledRun(Step(s, es[0]), es[1..]))
  }

  function Run(s: Session, es: seq<Event>): Session
    requires EnabledRun(s, es)
    decreases |es|
  {
    if es == [] then s else Run(Step(s, es[0]), es[1..])
  }

  lemma {:induction false} RunKeepsInv(s: Session, es: seq<Event>)
    requires Inv(s) && EnabledRun(s, es)
    ensures Inv(Run(s, es))
    decreases |es|
  {
    if es != [] {
      hide Inv, Step;
      StepKeepsInv(s, es[0]);
      RunKeepsInv(Step(s, es[0]), es[1..]);
    }
  }

  /**
   * In every run a session settles by turn signal only out of an ending turn, with no gate read,
   * after a busy and then an idle signal since the last submit; and neither prompt-marker path
   * settles it while a turn is open.
   */
  lemma {:induction false} SettlesForAReason(es: seq<Event>, i: nat)
    requires EnabledRun(SPAWNED, es) && i < |Run(SPAWNED, es).log| && Run(SPAWNED, es).log[i].Settled?
    ensures var log := Run(SPAWNED, es).log;
            && (log[i].source == BySignal ==> log[i].turn == Ending && !log[i].gate && BusyThenIdle(log[..i]))
            && (log[i].source == PromptMarker || log[i].source == ScreenMarker ==> log[i].turn == NoTurn)
            && log[i].source in {BySignal, PromptMarker, ScreenMarker, TimeoutFallback}
  {
    RunKeepsInv(SPAWNED, es);
    hide Run, TurnOk, InputsOk, StartsOk, BusyThenIdle;
    assert SettleOk(Run(SPAWNED, es).log, i);
  }

  // ── What settles a session ──────────────────────────────────────────────────

  ghost predicate Settles(before: seq<Mark>, after: seq<Mark>, source: StatusSource) {
    exists i :: |before| <= i < |after| && after[i].Settled? && after[i].source == source
  }

  ghost predicate SettlesNot(before: seq<Mark>, after: seq<Mark>) {
    before <= after && forall i :: |before| <= i < |after| ==> !after[i].Settled?
  }

  predicate LastIsBusy(signals: seq<bool>) { signals != [] && signals[|signals| - 1] }

  /**
   * The one reason an event may settle a running session for: the boot marker in a chunk that leaves no
   * turn open, a screen read that finds the turn ending and no gate or finds no turn and the marker, or
   * the boot fallback.
   */
  function Reason(s: Session, e: Event): Option<StatusSource> {
    if s.status != Running then None
    else match e
      case Chunk(data, marker, _) =>
        if marker && s.turn == NoTurn && !LastIsBusy(AllSignals(s.progressTail + data)) then Some(PromptMarker) else None
      case RecheckReads(screenGate, marker, _) =>
        if s.turn == Ending && !s.permissionOpen && !screenGate then Some(BySignal)
        else if s.turn == NoTurn && marker then Some(ScreenMarker)
        else None
      case FallbackFires(_) => if s.pendingReady then Some(TimeoutFallback) else None
      case _ => None
  }

  lemma {:induction false} SettlesAfter(a: seq<Mark>, b: seq<Mark>, c: seq<Mark>, source: StatusSource)
    requires SettlesNot(a, b)
    ensures Settles(b, c, source) ==> Settles(a, c, source)
    ensures b <= c && Settles(a, c, source) ==> Settles(b, c, source)
    ensures SettlesNot(b, c) ==> SettlesNot(a, c)
  {
    if Settles(b, c, source) {
      var i :| |b| <= i < |c| && c[i].Settled? && c[i].source == source;
      assert |a| <= i;
    }
    if b <= c && Settles(a, c, source) {
      var i :| |a| <= i < |c| && c[i].Settled? && c[i].source == source;
      assert i >= |b| by { assert forall k :: |a| <= k < |b| ==> c[k] == b[k]; }
    }
  }

  lemma {:induction false} OpeningSettlesNot(s: Session, nowMs: int)
    ensures SettlesNot(s.log, BeginSubmit(s, nowMs).log) && SettlesNot(s.log, OpenTurnOnSubmit(s, nowMs).log)
    ensures OpenTurnOnSubmit(s, nowMs).status == s.status
    ensures BeginSubmit(s, nowMs).status == if s.status == WaitingInput then Running else s.status
  {
  }

  lemma {:induction false} FlushSettlesNot(s: Session, nowMs: int)
    ensures SettlesNot(s.log, FlushQueuedInputs(s, nowMs).log)
    ensures s.inputs.queue == [] ==> FlushQueuedInputs(s, nowMs) == s
  {
    hide BeginSubmit;
    if s.inputs.queue != [] { OpeningSettlesNot(s.(inputs := Flushed(s.inputs)), nowMs); }
  }

  lemma {:induction false} MarkReadySettles(s: Session, cause: StatusSource, turn: Turn, gate: bool, nowMs: int, source: StatusSource)
    ensures var t := MarkReady(s, cause, turn, gate, nowMs);
            && s.log < t.log && (Settles(s.log, t.log, source) <==> source == cause)
            && (s.inputs.queue == [] ==> t.status == WaitingInput)
  {
    hide FlushQueuedInputs;
    var t := MarkReady(s, cause, turn, gate, nowMs);
    var settled := s.log + [Settled(cause, turn, gate)];
    if s.pendingReady {
      FlushSettlesNot(s.(fallback := false, status := WaitingInput, source := cause, log := settled, pendingReady := false), nowMs);
    }
    assert SettlesNot(settled, t.log);
    assert t.log[|s.log|] == settled[|s.log|];
    forall i | |s.log| < i < |t.log| ensures !t.log[i].Settled? { }
  }

  /** The chunk's signals move the turn; what is logged for them settles nothing. */
  lemma {:induction false} TrackSettlesNot(s: Session, data: seq<CodeUnit>, nowMs: int)
    ensures var t := TrackProgress(s, data, nowMs);
            && SettlesNot(s.log, t.log) && t.inputs == s.inputs
            && (t.status == Running && t.turn == NoTurn <==>
                  s.status == Running && s.turn == NoTurn && !LastIsBusy(AllSignals(s.progressTail + data)))
            && (s.status == Running ==> t.status == Running)
  {
    hide AllSignals, Carry;
    assert forall signals, i :: 0 <= i < |Marks(signals)| ==> Marks(signals)[i].Signal?;
    hide Marks;
  }

  lemma {:induction false} ChunkSettles(s: Session, data: seq<CodeUnit>, marker: bool, nowMs: int, source: StatusSource)
    requires s.alive
    ensures var t := HandleOutput(s, data, marker, nowMs);
            && s.log <= t.log
            && (Settles(s.log, t.log, source) <==> Reason(s, Chunk(data, marker, nowMs)) == Some(source))
            && (s.inputs.queue == [] && s.status == Running ==>
                  (t.status == WaitingInput <==> Reason(s, Chunk(data, marker, nowMs)).Some?))
  {
    TrackSettlesNot(s, data, nowMs);
    hide TrackProgress, MarkReady, AllSignals, LastIsBusy;
    var u, t := TrackProgress(s, data, nowMs), HandleOutput(s, data, marker, nowMs);
    MarkReadySettles(u, PromptMarker, u.turn, u.permissionOpen, nowMs, source);
    SettlesAfter(s.log, u.log, t.log, source);
  }

  /** Exactly when, and for which reason, a step settles the session. */
  lemma {:induction false} StepSettlesIff(s: Session, e: Event, source: StatusSource)
    requires TurnOk(s) && Enabled(s, e)
    ensures Settles(s.log, Step(s, e).log, source) <==> Reason(s, e) == Some(source)
    ensures s.inputs.queue == [] && s.status == Running ==> (Step(s, e).status == WaitingInput <==> Reason(s, e).Some?)
  {
    hide BusySeen, BusyThenIdle, HandleOutput, MarkReady, AllSignals, LastIsBusy;
    match e
    case Chunk(data, marker, nowMs) => if s.alive { ChunkSettles(s, data, marker, nowMs, source); }
    case RecheckReads(screenGate, marker, nowMs) => RecheckSettles(s.(rechecks := s.rechecks - 1), screenGate, marker, nowMs, source);
    case FallbackFires(nowMs) =>
      MarkReadySettles(s.(fallback := false), TimeoutFallback, s.turn, s.permissionOpen, nowMs, source);
    case _ => OthersSettleNot(s, e);
  }

  lemma {:induction false} OthersSettleNot(s: Session, e: Event)
    requires TurnOk(s) && Enabled(s, e) && !e.Chunk? && !e.RecheckReads? && !e.FallbackFires?
    ensures SettlesNot(s.log, Step(s, e).log)
    ensures s.status == Running ==> Step(s, e).status != WaitingInput
  {
    hide BusySeen, BusyThenIdle, BeginSubmit, OpenTurnOnSubmit;
    match e
    case FlushFires(input, nowMs) =>
      var i := s.inputs.(delayed := s.inputs.delayed - multiset{input});
      OpeningSettlesNot(s.(inputs := i.(written := i.written + [input])), nowMs);
    case SendInput(input, nowMs) =>
      var i := s.inputs.(accepted := s.inputs.accepted + [input]);
      OpeningSettlesNot(s.(inputs := i.(written := i.written + [input])), nowMs);
    case SendKeys(_, nowMs) => OpeningSettlesNot(s.(status := Running, source := UserInput), nowMs);
    case _ =>
  }

  lemma {:induction false} RecheckSettles(s: Session, screenGate: bool, marker: bool, nowMs: int, source: StatusSource)
    ensures var t, e := RecheckReady(s, screenGate, marker, nowMs), RecheckReads(screenGate, marker, nowMs);
            && (Settles(s.log, t.log, source) <==> Reason(s, e) == Some(source))
            && (s.inputs.queue == [] && s.status == Running ==> (t.status == WaitingInput <==> Reason(s, e).Some?))
  {
    hide MarkReady, OpenTurnOnSubmit, AllSignals, LastIsBusy;
    var gate := s.permissionOpen || screenGate;
    OpeningSettlesNot(s, nowMs);
    if s.turn == Ending { MarkReadySettles(s.(turn := NoTurn), BySignal, s.turn, gate, nowMs, source); }
    if s.turn == NoTurn { MarkReadySettles(s, ScreenMarker, s.turn, gate, nowMs, source); }
  }

  /** A submitted turn always has a start-grace timer that will lapse it, so it never stays open by itself. */
  lemma {:induction false} SubmittedTurnsLapse(es: seq<Event>)
    requires EnabledRun(SPAWNED, es)
    ensures var s := Run(SPAWNED, es);
            s.turn == Submitted ==> Enabled(s, GraceFires) && Step(s, GraceFires).turn == NoTurn
                                    && (s.status == Running ==> Enabled(Step(s, GraceFires), RecheckReads(false, true, 0)))
  {
    RunKeepsInv(SPAWNED, es);
  }

  /** A submit revives a settled session at most once, and only within the late-start window. */
  lemma {:induction false} LateStartsAreBounded(es: seq<Event>)
    requires EnabledRun(SPAWNED, es)
    ensures var log := Run(SPAWNED, es).log;
            && LateStarts(log, |log|) <= Opens(log, |log|)
            && forall i :: 0 <= i < |log| && log[i].LateStart? ==> log[i].nowMs - log[i].submittedAt <= LATE_TURN_START_MS
  {
    RunKeepsInv(SPAWNED, es);
  }

  /** Exactly when a chunk revives a settled session: its last signal is busy, and a submit awaits its start within the window. */
  lemma {:induction false} ChunkRevivesIff(s: Session, data: seq<CodeUnit>, nowMs: int)
    requires s.status == WaitingInput
    ensures var signals := AllSignals(s.progressTail + data);
            TrackProgress(s, data, nowMs).status == Running <==>
              && signals != [] && signals[|signals| - 1]
              && s.awaitingStart.Some? && nowMs - s.awaitingStart.value <= LATE_TURN_START_MS
  {
    hide AllSignals, Carry, Marks, ChunkTurn;
  }

  /**
   * While the session lives, every accepted input is pasted, waiting on its flush timer or queued,
   * each exactly once; and nothing stays queued once the session was ready.
   */
  lemma {:induction false} InputsAreConserved(es: seq<Event>)
    requires EnabledRun(SPAWNED, es)
    ensures var s := Run(SPAWNED, es);
            && (s.alive ==> multiset(s.inputs.accepted)
                            == multiset(s.inputs.written) + s.inputs.delayed + multiset(s.inputs.queue))
            && (!s.pendingReady ==> s.inputs.queue == [])
  {
    RunKeepsInv(SPAWNED, es);
  }

  /** A stopped session is inert: no late timer, read or chunk brings it back. */
  lemma {:induction false} StoppedStaysStopped(s: Session, e: Event)
    requires Inv(s) && !s.alive && Enabled(s, e)
    ensures var t := Step(s, e);
            && !t.alive && t.status == Idle && t.source == s.source && t.turn == NoTurn
            && t.inputs.written == s.inputs.written && t.inputs.accepted == s.inputs.accepted && t.log == s.log
  {
    hide LogOk, BusySeen, BusyThenIdle;
  }
}
