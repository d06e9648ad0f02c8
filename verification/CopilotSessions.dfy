/** The Copilot runner's maps (src/copilot-pty-runner.ts), refining the session machine. */
module CopilotSessions {
  import opened Common
  import opened CopilotRunner
  import Machine = CopilotRunner

  class CopilotPtyRunner {
    var disposed: bool
    var sessions: map<Id, nat>
    var starting: set<Id>
    var booting: set<Id>
    var turnBusy: set<Id>
    var submittedAt: map<Id, int>
    var submitWatches: map<Id, nat>
    var openCards: map<Id, Card>
    var spawned: seq<Spawned>
    var notes: seq<Note>

    constructor ()
      ensures View() == EMPTY
    {
      disposed, sessions, starting, booting, turnBusy := false, map[], {}, {}, {};
      submittedAt, submitWatches, openCards, spawned, notes := map[], map[], map[], [], [];
    }

    function View(): Runner
      reads this
    {
      Runner(disposed, sessions, starting, booting, turnBusy, submittedAt, submitWatches, openCards, spawned, notes)
    }

    /** `start` up to its first await: whether a launch begins. */
    method Start(id: Id) returns (launches: bool)
      modifies this
      ensures View() == Step(old(View()), Event.Start(id))
      ensures launches <==> !old(disposed) && id !in old(sessions) && id !in old(starting)
    {
      launches := false;
      if disposed { return; }
      if id in sessions { return; }
      if id in starting { return; }
      starting, launches := starting + {id}, true;
    }

    /** `launch` after its await; `spawns` is whether the spawn succeeds. */
    method LaunchDone(id: Id, spawns: bool)
      requires id in starting
      modifies this
      ensures View() == Step(old(View()), Event.LaunchDone(id, spawns))
    {
      starting := starting - {id};
      if disposed || !spawns { return; }
      sessions, booting := sessions[id := |spawned|], booting + {id};
      spawned := spawned + [Spawned(id, Running, Spawn, 0)];
    }

    method DetectBusy(n: nat, reading: Reading)
      modifies this
      ensures View() == Machine.DetectBusy(old(View()), n, reading)
    {
      if !Current(View(), n) { return; }
      if !reading.busyRow { return; }
      turnBusy := turnBusy + {spawned[n].id};
      if spawned[n].status == WaitingInput { SetStatus(n, Running, BySignal); }
    }

    method SetStatus(n: nat, status: Status, source: StatusSource)
      requires n < |spawned|
      modifies this`spawned
      ensures View() == WithStatus(old(View()), n, status, source)
    {
      spawned := spawned[n := spawned[n].(status := status, source := source)];
    }

    method CloseCard(id: Id)
      modifies this`openCards, this`notes
      ensures View() == Machine.CloseCard(old(View()), id)
    {
      if id in openCards {
        openCards, notes := openCards - {id}, notes + [Note(id, None)];
      }
    }

    method DetectCard(n: nat, reading: Reading)
      modifies this
      ensures View() == Machine.DetectCard(old(View()), n, reading)
    {
      if !Current(View(), n) { return; }
      var id := spawned[n].id;
      if !reading.cardFooter {
        CloseCard(id);
        return;
      }
      if reading.card.None? { return; }
      if id in openCards && openCards[id] == reading.card.value { return; }
      openCards, notes := openCards[id := reading.card.value], notes + [Note(id, reading.card)];
    }

    method MarkReady(n: nat, source: StatusSource)
      requires n < |spawned|
      modifies this
      ensures View() == Machine.MarkReady(old(View()), n, source)
    {
      var id := spawned[n].id;
      turnBusy, submittedAt, submitWatches := turnBusy - {id}, submittedAt - {id}, submitWatches - {id};
      SetStatus(n, WaitingInput, source);
      booting := booting - {id};
    }

    method SettleIfIdle(n: nat, reading: Reading, submitStale: bool, nowMs: int)
      modifies this
      ensures View() == Machine.SettleIfIdle(old(View()), n, reading, submitStale, nowMs)
    {
      hide Machine.MarkReady;
      if !Current(View(), n) || spawned[n].status != Running { return; }
      var id := spawned[n].id;
      if reading.busyRow { return; }
      if reading.cardFooter { return; }
      if id in turnBusy {
        MarkReady(n, BySignal);
      } else if id in booting && reading.idleFooter {
        MarkReady(n, PromptMarker);
      } else if submitStale || (id in submittedAt && nowMs - submittedAt[id] >= SUBMIT_STALE_MS) {
        MarkReady(n, QuietFallback);
      }
    }

    method SubmitWatchFires(id: Id, reading: Reading, nowMs: int)
      requires id in submitWatches
      modifies this
      ensures View() == Step(old(View()), WatchFires(id, reading, nowMs))
    {
      hide Machine.SettleIfIdle;
      var n := submitWatches[id];
      submitWatches := submitWatches - {id};
      if id !in turnBusy { SettleIfIdle(n, reading, true, nowMs); }
    }

    method Finish(n: nat, source: StatusSource)
      requires n < |spawned|
      modifies this
      ensures View() == Machine.Finish(old(View()), n, source)
    {
      var id := spawned[n].id;
      sessions, booting, turnBusy := sessions - {id}, booting - {id}, turnBusy - {id};
      submittedAt, submitWatches := submittedAt - {id}, submitWatches - {id};
      CloseCard(id);
      spawned := spawned[n := Spawned(id, Idle, source, spawned[n].finishes + 1)];
    }

    method OnExit(n: nat)
      modifies this
      ensures View() == Step(old(View()), Exit(n))
    {
      hide Machine.Finish;
      if !Current(View(), n) { return; }
      Finish(n, ProcessExit);
    }

    method PutOnHold(id: Id)
      modifies this
      ensures View() == Step(old(View()), Hold(id))
    {
      hide Machine.Finish;
      if id !in sessions || sessions[id] >= |spawned| { return; }
      Finish(sessions[id], Shutdown);
    }

    method MarkDisposed()
      requires Inv(View())
      modifies this`disposed
      ensures Inv(View()) && disposed
    {
      StepKeepsInv(View(), Dispose);
      hide Inv;
      disposed := true;
    }

    method HoldOne(id: Id)
      requires Inv(View()) && id in sessions
      modifies this
      ensures Inv(View()) && sessions.Keys == old(sessions).Keys - {id} && |spawned| == |old(spawned)|
      ensures disposed == old(disposed) && starting == old(starting)
    {
      StepKeepsInv(View(), Hold(id));
      HoldRemovesOne(View(), id);
      hide Inv, Step;
      PutOnHold(id);
    }

    /** `dispose`: no session is left; each was finished exactly once and its card is closed. */
    method DisposeAll()
      requires Inv(View())
      modifies this
      ensures Inv(View()) && disposed && sessions == map[]
      ensures |spawned| == |old(spawned)| && forall n :: 0 <= n < |spawned| ==> spawned[n].finishes == 1
      ensures openCards == map[] && starting == old(starting)
    {
      hide Inv, Step;
      MarkDisposed();
      var ids := sessions.Keys;
      while ids != {}
        invariant Inv(View()) && disposed && sessions.Keys == ids && |spawned| == |old(spawned)| && starting == old(starting)
        decreases |ids|
      {
        var id :| id in ids;
        HoldOne(id);
        ids := ids - {id};
      }
      NothingLiveMeansAllFinished(View());
    }
  }

  lemma {:induction false} HoldRemovesOne(r: Runner, id: Id)
    requires Inv(r) && id in r.sessions
    ensures var t := Step(r, Hold(id));
            t.sessions.Keys == r.sessions.Keys - {id} && t.disposed == r.disposed
            && |t.spawned| == |r.spawned| && t.starting == r.starting
  {
    hide CardsOk, SlotsOk;
  }

  lemma {:induction false} NothingLiveMeansAllFinished(r: Runner)
    requires Inv(r) && r.sessions.Keys == {}
    ensures r.sessions == map[] && r.cards == map[]
    ensures forall n :: 0 <= n < |r.spawned| ==> r.spawned[n].finishes == 1
  {
    hide CardsOk;
    assert r.cards.Keys == {};
  }
}
