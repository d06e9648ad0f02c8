/** The PTY manager's state for one Claude session (src/pty-manager.ts), refining the turn machine. */
module ClaudeSessions {
  import opened Common
  import opened TurnSignal
  import opened ClaudeTurn
  import Machine = ClaudeTurn

  /** One session's slots in the manager's maps, updated in place by its handlers. */
  class ClaudeSession {
    var alive: bool
    var status: Status
    var statusSource: StatusSource
    var turnOpen: Turn
    var awaitingStart: Option<int>
    var progressSeen: bool
    var progressTail: seq<CodeUnit>
    var permissionOpen: bool
    var pendingReady: bool
    var inputs: Inputs
    var graceTimers: nat
    var rechecks: nat
    var readyFallback: bool
    ghost var log: seq<Mark>

    constructor ()
      ensures View() == SPAWNED
    {
      alive, status, statusSource, turnOpen, awaitingStart := true, Running, Spawn, NoTurn, None;
      progressSeen, progressTail, permissionOpen, pendingReady := false, [], false, true;
      inputs, graceTimers, rechecks, readyFallback, log := Inputs([], [], multiset{}, []), 0, 0, true, [];
    }

    ghost function View(): Session
      reads this
    {
      Session(alive, status, statusSource, turnOpen, awaitingStart, progressSeen, progressTail, permissionOpen, pendingReady,
              inputs, graceTimers, rechecks, readyFallback, log)
    }

    method OpenTurnOnSubmit(nowMs: int)
      modifies this
      ensures View() == Machine.OpenTurnOnSubmit(old(View()), nowMs)
    {
      awaitingStart, log := Some(nowMs), log + [Opened];
      if !progressSeen { return; }
      turnOpen, graceTimers := Submitted, graceTimers + 1;
    }

    method BeginSubmit(nowMs: int)
      modifies this
      ensures View() == Machine.BeginSubmit(old(View()), nowMs)
    {
      if status == WaitingInput {
        status, statusSource := Running, UserInput;
      }
      OpenTurnOnSubmit(nowMs);
    }

    /** Every flushed input but the first gets a timer of its own. */
    method DeferFollowing(queue: seq<nat>)
      requires queue != []
      modifies this`inputs
      ensures inputs == old(inputs).(delayed := old(inputs).delayed + multiset(queue[1..]))
    {
      var i := 1;
      while i < |queue|
        invariant 1 <= i <= |queue|
        invariant inputs == old(inputs).(delayed := old(inputs).delayed + multiset(queue[1..i]))
      {
        assert queue[1..i + 1] == queue[1..i] + [queue[i]];
        inputs := inputs.(delayed := inputs.delayed + multiset{queue[i]});
        i := i + 1;
      }
      assert queue[1..i] == queue[1..];
    }

    method FlushQueuedInputs(nowMs: int)
      modifies this
      ensures View() == Machine.FlushQueuedInputs(old(View()), nowMs)
    {
      hide Machine.BeginSubmit;
      var queue := inputs.queue;
      if queue == [] { return; }
      inputs := inputs.(queue := []);
      ghost var emptied := View();
      BeginSubmitIgnoresInputs(emptied, Flushed(old(inputs)), nowMs);
      BeginSubmit(nowMs);
      inputs := inputs.(written := inputs.written + [queue[0]]);
      DeferFollowing(queue);
    }

    /** `turn` and `gate` are what the caller read; they are only logged. */
    method MarkReady(source: StatusSource, ghost turn: Turn, ghost gate: bool, nowMs: int)
      modifies this
      ensures View() == Machine.MarkReady(old(View()), source, turn, gate, nowMs)
    {
      hide Machine.FlushQueuedInputs;
      readyFallback, status, statusSource := false, WaitingInput, source;
      log := log + [Settled(source, turn, gate)];
      if pendingReady {
        pendingReady := false;
        FlushQueuedInputs(nowMs);
      }
    }

    method ResumeLateTurn(nowMs: int)
      modifies this
      ensures View() == Machine.ResumeLateTurn(old(View()), nowMs)
    {
      if awaitingStart.None? { return; }
      var submittedAt := awaitingStart.value;
      awaitingStart := None;
      if status != WaitingInput || nowMs - submittedAt > LATE_TURN_START_MS { return; }
      status, statusSource, log := Running, BySignal, log + [LateStart(submittedAt, nowMs)];
    }

    method TrackProgress(data: seq<CodeUnit>, nowMs: int)
      modifies this
      ensures View() == Machine.TrackProgress(old(View()), data, nowMs)
    {
      hide AllSignals, Carry, Marks, Machine.ResumeLateTurn;
      var window := progressTail + data;
      var signals := MatchAll(window);
      progressTail, log := Carry(window), log + Marks(signals);
      if signals == [] { return; }
      var busy := signals[|signals| - 1];
      progressSeen := true;
      var before := turnOpen;
      if busy { ResumeLateTurn(nowMs); }
      turnOpen := if busy then Working else if before == Working then Ending else before;
    }

    method HandleOutput(data: seq<CodeUnit>, marker: bool, nowMs: int)
      modifies this
      ensures View() == Step(old(View()), Chunk(data, marker, nowMs))
    {
      hide Machine.TrackProgress, Machine.MarkReady;
      if !alive { return; }
      TrackProgress(data, nowMs);
      if status == Running && marker && turnOpen == NoTurn {
        MarkReady(PromptMarker, turnOpen, permissionOpen, nowMs);
      }
    }

    /** `recheckReadyFromScreen` after its await: what the screen shows is an input. */
    method RecheckReady(screenGate: bool, marker: bool, nowMs: int)
      requires rechecks > 0
      modifies this
      ensures View() == Step(old(View()), RecheckReads(screenGate, marker, nowMs))
    {
      hide Machine.OpenTurnOnSubmit, Machine.MarkReady;
      rechecks := rechecks - 1;
      var turn := turnOpen;
      if turn == Ending || turn == Held {
        var gate := permissionOpen || screenGate;
        if gate {
          if turn == Ending { turnOpen := Held; }
          return;
        }
        if turn == Held {
          OpenTurnOnSubmit(nowMs);
          return;
        }
        turnOpen := NoTurn;
        if status == Running { MarkReady(BySignal, turn, gate, nowMs); }
        return;
      }
      if marker && status == Running && turnOpen == NoTurn {
        MarkReady(ScreenMarker, turnOpen, permissionOpen || screenGate, nowMs);
      }
    }

    /** Refused when the session is gone. */
    method SendInput(input: nat, nowMs: int) returns (sent: bool)
      modifies this
      ensures sent == old(alive)
      ensures View() == Step(old(View()), Event.SendInput(input, nowMs))
    {
      hide Machine.BeginSubmit;
      sent := alive;
      if !alive { return; }
      inputs := inputs.(accepted := inputs.accepted + [input]);
      if pendingReady {
        inputs := inputs.(queue := inputs.queue + [input]);
        return;
      }
      inputs := inputs.(written := inputs.written + [input]);
      BeginSubmit(nowMs);
    }

    method SendKeys(answersGate: bool, nowMs: int) returns (sent: bool)
      modifies this
      ensures sent == old(alive)
      ensures View() == Step(old(View()), Event.SendKeys(answersGate, nowMs))
    {
      hide Machine.OpenTurnOnSubmit;
      sent := alive;
      if !alive { return; }
      if status == WaitingInput {
        status, statusSource := Running, UserInput;
        OpenTurnOnSubmit(nowMs);
      }
      if answersGate { permissionOpen := false; }
    }
  }
}
