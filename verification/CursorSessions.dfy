/** The Cursor runner's state for one session (src/cursor-pty-runner.ts), refining the turn machine. */
module CursorSessions {
  import opened Common
  import opened CursorSubmits
  import opened CursorTurn
  import Machine = CursorTurn

  class CursorSession {
    var alive: bool
    var status: Status
    var statusSource: StatusSource
    var pendingReady: bool
    var bootSeen: bool
    var readyFallback: bool
    var queuedInputs: seq<nat>
    var turnBusy: bool
    var awaitingStart: Option<int>
    var submitWatch: bool
    var checks: nat
    var lastChunkMs: int
    var submits: Submits
    ghost var log: seq<Mark>

    constructor ()
      ensures View() == SPAWNED
    {
      alive, status, statusSource := true, Running, Spawn;
      pendingReady, bootSeen, readyFallback, queuedInputs := true, false, true, [];
      turnBusy, awaitingStart, submitWatch, checks, lastChunkMs := false, None, false, 0, 0;
      submits, log := NO_SUBMITS, [];
    }

    ghost function View(): Session
      reads this
    {
      Session(alive, status, statusSource, pendingReady, bootSeen, readyFallback, queuedInputs,
              turnBusy, awaitingStart, submitWatch, checks, lastChunkMs, submits, log)
    }

    method BeginSubmit()
      modifies this
      ensures View() == Machine.BeginSubmit(old(View()))
    {
      if status == WaitingInput {
        status, statusSource := Running, UserInput;
      }
      turnBusy, log := false, log + [Began];
    }

    /** `fire` of the flush: the next queued input, if any. */
    method FireFlush()
      modifies this
      ensures View() == Machine.FireFlush(old(View()))
    {
      if submits.shifted >= |submits.flushed| {
        submits := submits.(loop := Stopped);
        return;
      }
      hide WriteSubmit;
      var input := submits.flushed[submits.shifted];
      BeginSubmit();
      submits := WriteSubmit(submits.(shifted := submits.shifted + 1), input, true);
    }

    method FlushQueuedInputs()
      modifies this
      ensures View() == Machine.FlushQueuedInputs(old(View()))
    {
      hide Machine.FireFlush;
      if queuedInputs == [] { return; }
      submits, queuedInputs := HandOver(submits, queuedInputs), [];
      FireFlush();
    }

    method MarkReady(source: StatusSource)
      modifies this
      ensures View() == Machine.MarkReady(old(View()), source)
    {
      hide Machine.FlushQueuedInputs;
      status, statusSource, log := WaitingInput, source, log + [Ended(source)];
      var wasPending := pendingReady;
      pendingReady, submitWatch := false, false;
      if wasPending {
        readyFallback := false;
        FlushQueuedInputs();
      }
    }

    method ResumeLateTurn(nowMs: int)
      modifies this
      ensures View() == Machine.ResumeLateTurn(old(View()), nowMs)
    {
      if awaitingStart.None? { return; }
      var submittedAt := awaitingStart.value;
      awaitingStart := None;
      if status != WaitingInput || nowMs - submittedAt > LATE_TURN_START_MS { return; }
      status, statusSource, turnBusy := Running, BySignal, true;
    }

    method HandleOutput(hint: bool, marker: bool, nowMs: int)
      modifies this
      ensures View() == Step(old(View()), Chunk(hint, marker, nowMs))
    {
      hide Machine.ResumeLateTurn;
      if !alive { return; }
      lastChunkMs, bootSeen := nowMs, marker;
      if hint {
        log := log + [Hint];
        if status == Running {
          turnBusy, awaitingStart := true, None;
        } else {
          ResumeLateTurn(nowMs);
        }
      }
    }

    method DetectQuiet()
      modifies this
      ensures View() == Step(old(View()), Quiet)
    {
      hide Machine.MarkReady;
      if !alive { return; }
      if pendingReady {
        if bootSeen { MarkReady(PromptMarker); }
        return;
      }
      if status != Running || !turnBusy { return; }
      checks := checks + 1;
    }

    /** `detectQuiet` once the screen was read. */
    method AfterScreenRead(hint: bool, card: bool)
      requires checks > 0
      modifies this
      ensures View() == Step(old(View()), ScreenRead(hint, card))
    {
      hide Machine.MarkReady;
      checks := checks - 1;
      if status != Running || !turnBusy { return; }
      if hint { return; }
      if card { return; }
      turnBusy := false;
      MarkReady(BySignal);
    }

    method SubmitWatchFires()
      requires submitWatch && alive
      modifies this
      ensures View() == Step(old(View()), WatchFires)
    {
      hide Machine.MarkReady;
      submitWatch := false;
      if status != Running { return; }
      if statusSource != UserInput { return; }
      if turnBusy { return; }
      MarkReady(QuietFallback);
    }

    /** One poll of `trySubmit` for chain `c`. */
    method TrySubmit(c: nat, nowMs: int)
      requires alive && c in submits.chains && submits.chains[c].stage.ToEnter?
      modifies this
      ensures View() == Step(old(View()), EnterFires(c, nowMs))
    {
      var chain := submits.chains[c];
      var quiet := lastChunkMs > chain.stage.writeAt && nowMs - lastChunkMs >= SUBMIT_DELAY_MS;
      var timedOut := nowMs - chain.stage.writeAt >= SUBMIT_MAX_WAIT_MS;
      if !quiet && !timedOut { return; }
      var loop := if submits.loop == Waiting(c) then TimerSet else submits.loop;
      submits := submits.(chains := submits.chains - {c}, loop := loop, written := submits.written + [Write(c, chain.flush, Enter)]);
      awaitingStart, submitWatch := Some(nowMs), true;
    }

    /** Refused when the session is gone. */
    method SendInput(input: nat) returns (sent: bool)
      modifies this
      ensures sent == old(alive)
      ensures View() == Step(old(View()), Event.SendInput(input))
    {
      hide WriteSubmit;
      sent := alive;
      if !alive { return; }
      if pendingReady {
        queuedInputs := queuedInputs + [input];
        return;
      }
      BeginSubmit();
      submits := WriteSubmit(submits, input, false);
    }

    /** Refused when the session is gone. */
    method SendKeys(nowMs: int) returns (sent: bool)
      modifies this
      ensures sent == old(alive)
      ensures View() == Step(old(View()), Event.SendKeys(nowMs))
    {
      sent := alive;
      if !alive { return; }
      if status == WaitingInput {
        status, statusSource, awaitingStart, submitWatch := Running, UserInput, Some(nowMs), true;
        log := log + [KeysSent];
      }
    }
  }
}
