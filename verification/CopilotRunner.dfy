/**
 * The life of Copilot sessions (src/copilot-pty-runner.ts:110-123, 125-203, 205-352, 354-382): starts, output, exits,
 * holds and restarts under one id, in any interleaving. Sessions are numbered by spawn; what is kept
 * per id belongs to the session that holds the id.
 */
module CopilotRunner {
  import opened Common

  const SUBMIT_STALE_MS := 2000

  type Id = nat
  type Card = nat

  datatype Status = Running | WaitingInput | Idle

  datatype StatusSource = Spawn | UserInput | BySignal | PromptMarker | QuietFallback | ProcessExit | Shutdown

  datatype Spawned = Spawned(id: Id, status: Status, source: StatusSource, finishes: nat)

  /** One `onPermissionChange` call: a card raised, or closed. */
  datatype Note = Note(id: Id, card: Option<Card>)

  /** What the rendered screen shows when it is read. */
  datatype Reading = Reading(busyRow: bool, cardFooter: bool, card: Option<Card>, idleFooter: bool)

  datatype Runner = Runner(
    disposed: bool, sessions: map<Id, nat>, starting: set<Id>,
    booting: set<Id>, turnBusy: set<Id>, submittedAt: map<Id, int>, watches: map<Id, nat>, cards: map<Id, Card>,
    spawned: seq<Spawned>, notes: seq<Note>)

  const EMPTY := Runner(false, map[], {}, {}, {}, map[], map[], map[], [], [])

  datatype Event =
    | Start(id: Id)
    | LaunchDone(id: Id, spawns: bool)
    | ScreenParsed(n: nat, reading: Reading)
    | QuietRead(n: nat, reading: Reading, nowMs: int)
    | WatchFires(id: Id, reading: Reading, nowMs: int)
    | SendInput(id: Id, nowMs: int)
    | Exit(n: nat)
    | Hold(id: Id)
    | Dispose

  // ── Operations ──────────────────────────────────────────────────────────────

  /** `sessions.get(session.id) === session`. */
  predicate Current(r: Runner, n: nat) {
    n < |r.spawned| && r.spawned[n].id in r.sessions && r.sessions[r.spawned[n].id] == n
  }

  function WithStatus(r: Runner, n: nat, status: Status, source: StatusSource): Runner
    requires n < |r.spawned|
  {
    r.(spawned := r.spawned[n := r.spawned[n].(status := status, source := source)])
  }

  /** `launch` after its await. */
  function Launch(r: Runner, id: Id): Runner {
    r.(sessions := r.sessions[id := |r.spawned|], booting := r.booting + {id}, starting := r.starting - {id},
       spawned := r.spawned + [Spawned(id, Running, Spawn, 0)])
  }

  function CloseCard(r: Runner, id: Id): Runner {
    if id !in r.cards then r else r.(cards := r.cards - {id}, notes := r.notes + [Note(id, None)])
  }

  function DetectBusy(r: Runner, n: nat, reading: Reading): Runner {
    if !Current(r, n) || !reading.busyRow then r
    else
      var t := r.(turnBusy := r.turnBusy + {r.spawned[n].id});
      if r.spawned[n].status == WaitingInput then WithStatus(t, n, Running, BySignal) else t
  }

  function DetectCard(r: Runner, n: nat, reading: Reading): Runner {
    if !Current(r, n) then r
    else
      var id := r.spawned[n].id;
      if !reading.cardFooter then CloseCard(r, id)
      else if reading.card.None? || (id in r.cards && r.cards[id] == reading.card.value) then r
      else r.(cards := r.cards[id := reading.card.value], notes := r.notes + [Note(id, reading.card)])
  }

  function MarkReady(r: Runner, n: nat, source: StatusSource): Runner
    requires n < |r.spawned|
  {
    var id := r.spawned[n].id;
    WithStatus(r, n, WaitingInput, source).(turnBusy := r.turnBusy - {id}, submittedAt := r.submittedAt - {id},
                                            watches := r.watches - {id}, booting := r.booting - {id})
  }

  function SettleIfIdle(r: Runner, n: nat, reading: Reading, submitStale: bool, nowMs: int): Runner {
    if !Current(r, n) || r.spawned[n].status != Running || reading.busyRow || reading.cardFooter then r
    else
      var id := r.spawned[n].id;
      if id in r.turnBusy then MarkReady(r, n, BySignal)
      else if id in r.booting && reading.idleFooter then MarkReady(r, n, PromptMarker)
      else if submitStale || (id in r.submittedAt && nowMs - r.submittedAt[id] >= SUBMIT_STALE_MS) then
        MarkReady(r, n, QuietFallback)
      else r
  }

  function Finish(r: Runner, n: nat, source: StatusSource): Runner
    requires n < |r.spawned|
  {
    var id := r.spawned[n].id;
    var t := r.(sessions := r.sessions - {id}, booting := r.booting - {id}, turnBusy := r.turnBusy - {id},
                submittedAt := r.submittedAt - {id}, watches := r.watches - {id});
    CloseCard(t, id).(spawned := r.spawned[n := Spawned(id, Idle, source, r.spawned[n].finishes + 1)])
  }

  predicate Enabled(r: Runner, e: Event) {
    match e
    case LaunchDone(id, _) => id in r.starting
    case WatchFires(id, _, _) => id in r.watches
    case _ => true
  }

  function Step(r: Runner, e: Event): Runner
    requires Enabled(r, e)
  {
    match e
    case Start(id) =>
      if r.disposed || id in r.sessions || id in r.starting then r else r.(starting := r.starting + {id})
    case LaunchDone(id, spawns) =>
      if r.disposed || !spawns then r.(starting := r.starting - {id}) else Launch(r, id)
    case ScreenParsed(n, reading) => DetectCard(DetectBusy(r, n, reading), n, reading)
    case QuietRead(n, reading, nowMs) => SettleIfIdle(r, n, reading, false, nowMs)
    case WatchFires(id, reading, nowMs) =>
      var t := r.(watches := r.watches - {id});
      if id in r.turnBusy then t else SettleIfIdle(t, r.watches[id], reading, true, nowMs)
    case SendInput(id, nowMs) =>
      if id !in r.sessions || r.sessions[id] >= |r.spawned| then r
      else
        var n := r.sessions[id];
        var t := if r.spawned[n].status == WaitingInput then WithStatus(r, n, Running, UserInput) else r;
        t.(submittedAt := r.submittedAt[id := nowMs], watches := r.watches[id := n])
    case Exit(n) => if !Current(r, n) then r else Finish(r, n, ProcessExit)
    case Hold(id) => if id !in r.sessions || r.sessions[id] >= |r.spawned| then r else Finish(r, r.sessions[id], Shutdown)
    case Dispose => r.(disposed := true)
  }

  // ── The invariant ───────────────────────────────────────────────────────────

  /** A session holds its id and was never finished, or was finished exactly once. */
  ghost predicate SpawnedOk(r: Runner) {
    && (forall id :: id in r.sessions ==> r.sessions[id] < |r.spawned| && r.spawned[r.sessions[id]].id == id)
    && (forall n :: 0 <= n < |r.spawned| ==>
          if Current(r, n) then r.spawned[n].finishes == 0 && r.spawned[n].status != Idle
          else r.spawned[n].finishes == 1 && r.spawned[n].status == Idle)
  }

  /** Nothing is kept for an id without a session, and a start in flight has none. */
  ghost predicate SlotsOk(r: Runner) {
    && r.starting !! r.sessions.Keys
    && r.booting <= r.sessions.Keys && r.turnBusy <= r.sessions.Keys && r.submittedAt.Keys <= r.sessions.Keys
    && r.cards.Keys <= r.sessions.Keys
    && (forall id :: id in r.watches ==> id in r.sessions && r.watches[id] == r.sessions[id])
  }

  /** The card `onPermissionChange` last told about for an id. */
  function LastTold(notes: seq<Note>, n: nat, id: Id): Option<Card>
    requires n <= |notes|
  {
    if n == 0 then None else if notes[n - 1].id == id then notes[n - 1].card else LastTold(notes, n - 1, id)
  }

  /** The open card is the one last told, and every call told something new. */
  ghost predicate CardsOk(r: Runner) {
    && (forall id: Id :: LastTold(r.notes, |r.notes|, id) == if id in r.cards then Some(r.cards[id]) else None)
    && (forall i :: 0 <= i < |r.notes| ==> r.notes[i].card != LastTold(r.notes, i, r.notes[i].id))
  }

  ghost predicate Inv(r: Runner) { SpawnedOk(r) && SlotsOk(r) && CardsOk(r) }

  lemma {:induction false} LastToldOfPrefix(notes: seq<Note>, m: Note, n: nat, id: Id)
    requires n <= |notes|
    ensures LastTold(notes + [m], n, id) == LastTold(notes, n, id)
  {
    if n > 0 { LastToldOfPrefix(notes, m, n - 1, id); }
  }

  /** Telling a changed card of one id. */
  lemma {:induction false} TellingKeeps(r: Runner, id: Id, card: Option<Card>, cards: map<Id, Card>)
    requires CardsOk(r)
    requires card != if id in r.cards then Some(r.cards[id]) else None
    requires cards == if card.Some? then r.cards[id := card.value] else r.cards - {id}
    ensures CardsOk(r.(cards := cards, notes := r.notes + [Note(id, card)]))
  {
    var notes := r.notes + [Note(id, card)];
    forall k: Id ensures LastTold(notes, |notes|, k) == if k in cards then Some(cards[k]) else None {
      LastToldOfPrefix(r.notes, Note(id, card), |r.notes|, k);
    }
    forall i | 0 <= i < |notes| ensures notes[i].card != LastTold(notes, i, notes[i].id) {
      LastToldOfPrefix(r.notes, Note(id, card), i, notes[i].id);
    }
  }

  lemma {:induction false} CardKeeps(r: Runner, n: nat, reading: Reading)
    requires Inv(r)
    ensures Inv(DetectCard(r, n, reading))
  {
    var t := DetectCard(r, n, reading);
    if Current(r, n) && t != r {
      var id := r.spawned[n].id;
      TellingKeeps(r, id, if reading.cardFooter then reading.card else None, t.cards);
      assert CardsOk(t);
      assert t == r.(cards := t.cards, notes := t.notes) && t.cards.Keys <= r.cards.Keys + {id};
      hide CardsOk, DetectCard;
      assert SlotsOk(t) by { hide SpawnedOk; }
      assert SpawnedOk(t) by {
        hide SlotsOk;
        assert forall k :: 0 <= k < |t.spawned| ==> (Current(t, k) <==> Current(r, k));
      }
    }
  }

  lemma {:induction false} StatusKeeps(r: Runner, n: nat, status: Status, source: StatusSource)
    requires Inv(r) && Current(r, n) && status != Idle
    ensures Inv(WithStatus(r, n, status, source))
  {
    hide CardsOk;
    var t := WithStatus(r, n, status, source);
    CardsDependOn(r, t);
    assert forall k :: 0 <= k < |t.spawned| ==> (Current(t, k) <==> Current(r, k));
  }

  lemma {:induction false} CardsDependOn(r: Runner, t: Runner)
    requires CardsOk(r) && t.cards == r.cards && t.notes == r.notes
    ensures CardsOk(t)
  {
  }

  lemma {:induction false} BusyKeeps(r: Runner, n: nat, reading: Reading)
    requires Inv(r)
    ensures Inv(DetectBusy(r, n, reading))
  {
    hide CardsOk;
    if Current(r, n) && reading.busyRow {
      var t := r.(turnBusy := r.turnBusy + {r.spawned[n].id});
      CardsDependOn(r, t);
      assert forall k :: 0 <= k < |t.spawned| ==> (Current(t, k) <==> Current(r, k));
      if r.spawned[n].status == WaitingInput { StatusKeeps(t, n, Running, BySignal); }
    }
  }

  lemma {:induction false} MarkReadyKeeps(r: Runner, n: nat, source: StatusSource)
    requires Inv(r) && Current(r, n)
    ensures Inv(MarkReady(r, n, source))
  {
    StatusKeeps(r, n, WaitingInput, source);
    hide CardsOk;
    var w, t := WithStatus(r, n, WaitingInput, source), MarkReady(r, n, source);
    CardsDependOn(w, t);
    assert forall k :: 0 <= k < |t.spawned| ==> (Current(t, k) <==> Current(w, k));
  }

  /** A session that ends leaves its slot, and its record says so. */
  lemma {:induction false} EndingKeepsSpawned(r: Runner, t: Runner, n: nat)
    requires SpawnedOk(r) && Current(r, n) && t.sessions == r.sessions - {r.spawned[n].id}
    requires |t.spawned| == |r.spawned| && forall k :: 0 <= k < |r.spawned| && k != n ==> t.spawned[k] == r.spawned[k]
    requires t.spawned[n].id == r.spawned[n].id && t.spawned[n].finishes == r.spawned[n].finishes + 1 && t.spawned[n].status == Idle
    ensures SpawnedOk(t)
  {
    assert forall k :: 0 <= k < |t.spawned| ==> (Current(t, k) <==> Current(r, k) && k != n);
  }

  lemma {:induction false} EndingKeepsSlots(r: Runner, t: Runner, id: Id)
    requires SlotsOk(r) && t.sessions == r.sessions - {id} && t.starting == r.starting
    requires t.booting == r.booting - {id} && t.turnBusy == r.turnBusy - {id} && t.submittedAt == r.submittedAt - {id}
    requires t.watches == r.watches - {id} && t.cards == r.cards - {id}
    ensures SlotsOk(t)
  {
  }

  lemma {:induction false} FinishKeepsSlots(r: Runner, n: nat, source: StatusSource)
    requires SpawnedOk(r) && SlotsOk(r) && Current(r, n)
    ensures SpawnedOk(Finish(r, n, source)) && SlotsOk(Finish(r, n, source))
  {
    hide SpawnedOk, SlotsOk;
    var t, id := Finish(r, n, source), r.spawned[n].id;
    assert t.cards == r.cards - {id};
    EndingKeepsSpawned(r, t, n);
    EndingKeepsSlots(r, t, id);
  }

  lemma {:induction false} FinishKeeps(r: Runner, n: nat, source: StatusSource)
    requires Inv(r) && Current(r, n)
    ensures Inv(Finish(r, n, source))
  {
    var id := r.spawned[n].id;
    FinishKeepsSlots(r, n, source);
    if id in r.cards { TellingKeeps(r, id, None, r.cards - {id}); }
    hide CardsOk, SpawnedOk, SlotsOk;
    CardsDependOn(CloseCard(r, id), Finish(r, n, source));
  }

  lemma {:induction false} LaunchKeeps(r: Runner, id: Id)
    requires Inv(r) && id in r.starting
    ensures Inv(Launch(r, id))
  {
    hide CardsOk;
    var t := Launch(r, id);
    CardsDependOn(r, t);
    assert forall k :: 0 <= k < |r.spawned| ==> (Current(t, k) <==> Current(r, k));
    assert Current(t, |r.spawned|);
  }

  lemma {:induction false} SendKeeps(r: Runner, id: Id, nowMs: int)
    requires Inv(r)
    ensures Inv(Step(r, SendInput(id, nowMs)))
  {
    if id in r.sessions {
      var n := r.sessions[id];
      assert Current(r, n);
      if r.spawned[n].status == WaitingInput {
        StatusKeeps(r, n, Running, UserInput);
        ArmKeeps(WithStatus(r, n, Running, UserInput), id, nowMs);
      } else {
        ArmKeeps(r, id, nowMs);
      }
      hide Inv;
    }
  }

  lemma {:induction false} ArmKeeps(r: Runner, id: Id, nowMs: int)
    requires Inv(r) && id in r.sessions
    ensures Inv(r.(submittedAt := r.submittedAt[id := nowMs], watches := r.watches[id := r.sessions[id]]))
  {
    hide CardsOk;
    var t := r.(submittedAt := r.submittedAt[id := nowMs], watches := r.watches[id := r.sessions[id]]);
    CardsDependOn(r, t);
    assert forall k :: 0 <= k < |t.spawned| ==> (Current(t, k) <==> Current(r, k));
  }

  lemma {:induction false} StepKeepsInv(r: Runner, e: Event)
    requires Inv(r) && Enabled(r, e)
    ensures Inv(Step(r, e))
  {
    match e
    case Start(id) => SameSessionsKeep(r, r.(starting := r.starting + {id}), id);
    case LaunchDone(id, spawns) =>
      if r.disposed || !spawns { SameSessionsKeep(r, r.(starting := r.starting - {id}), id); } else { LaunchKeeps(r, id); }
    case ScreenParsed(n, reading) =>
      BusyKeeps(r, n, reading);
      CardKeeps(DetectBusy(r, n, reading), n, reading);
    case QuietRead(n, reading, nowMs) =>
      if Current(r, n) { hide Inv, MarkReady; SettleKeeps(r, n, reading, false, nowMs); }
    case WatchFires(id, reading, nowMs) =>
      var t := r.(watches := r.watches - {id});
      SameSessionsKeep(r, t, id);
      SettleKeeps(t, r.watches[id], reading, true, nowMs);
    case SendInput(id, nowMs) => SendKeeps(r, id, nowMs);
    case Exit(n) => if Current(r, n) { FinishKeeps(r, n, ProcessExit); }
    case Hold(id) =>
      if id in r.sessions {
        assert Current(r, r.sessions[id]);
        FinishKeeps(r, r.sessions[id], Shutdown);
      }
    case Dispose => SameSessionsKeep(r, r.(disposed := true), 0);
  }

  lemma {:induction false} SettleKeeps(r: Runner, n: nat, reading: Reading, submitStale: bool, nowMs: int)
    requires Inv(r)
    ensures Inv(SettleIfIdle(r, n, reading, submitStale, nowMs))
  {
    if Current(r, n) {
      MarkReadyKeeps(r, n, BySignal);
      MarkReadyKeeps(r, n, PromptMarker);
      MarkReadyKeeps(r, n, QuietFallback);
    }
    hide Inv, MarkReady;
  }

  /** Only the starts in flight, the watches or the disposed flag change. */
  lemma {:induction false} SameSessionsKeep(r: Runner, t: Runner, id: Id)
    requires Inv(r)
    requires t == r.(disposed := t.disposed, starting := t.starting, watches := t.watches)
    requires t.starting <= r.starting + {id} && t.watches.Keys <= r.watches.Keys
    requires forall k :: k in t.watches ==> t.watches[k] == r.watches[k]
    ensures id !in r.sessions || t.starting <= r.starting ==> Inv(t)
  {
    hide CardsOk;
    CardsDependOn(r, t);
    assert forall k :: 0 <= k < |t.spawned| ==> (Current(t, k) <==> Current(r, k));
  }

  // ── Runs ────────────────────────────────────────────────────────────────────

  predicate EnabledRun(r: Runner, es: seq<Event>)
    decreases |es|
  {
    es == [] || (Enabled(r, es[0]) && EnabledRun(Step(r, es[0]), es[1..]))
  }

  function Run(r: Runner, es: seq<Event>): Runner
    requires EnabledRun(r, es)
    decreases |es|
  {
    if es == [] then r else Run(Step(r, es[0]), es[1..])
  }

  lemma {:induction false} RunKeepsInv(r: Runner, es: seq<Event>)
    requires Inv(r) && EnabledRun(r, es)
    ensures Inv(Run(r, es))
    decreases |es|
  {
    if es != [] {
      hide Inv, Step;
      StepKeepsInv(r, es[0]);
      RunKeepsInv(Step(r, es[0]), es[1..]);
    }
  }

  /** In every run each session spawned is still live under its id, or was finished exactly once and is idle for good. */
  lemma {:induction false} FinishedExactlyOnce(es: seq<Event>, n: nat)
    requires EnabledRun(EMPTY, es) && n < |Run(EMPTY, es).spawned|
    ensures var r := Run(EMPTY, es);
            if Current(r, n) then r.spawned[n].finishes == 0 && r.spawned[n].status != Idle
            else r.spawned[n].finishes == 1 && r.spawned[n].status == Idle
  {
    RunKeepsInv(EMPTY, es);
    hide Run, EnabledRun, CardsOk, SlotsOk;
  }

  /** The sessions of an id. */
  function SpawnsOf(spawned: seq<Spawned>, n: nat, id: Id): nat
    requires n <= |spawned|
  {
    if n == 0 then 0 else SpawnsOf(spawned, n - 1, id) + if spawned[n - 1].id == id then 1 else 0
  }

  function FinishesOf(spawned: seq<Spawned>, n: nat, id: Id): nat
    requires n <= |spawned|
  {
    if n == 0 then 0 else FinishesOf(spawned, n - 1, id) + if spawned[n - 1].id == id then spawned[n - 1].finishes else 0
  }

  lemma {:induction false} SpawnsAreCounted(r: Runner, n: nat, id: Id)
    requires SpawnedOk(r) && n <= |r.spawned|
    ensures SpawnsOf(r.spawned, n, id) == FinishesOf(r.spawned, n, id) + if id in r.sessions && r.sessions[id] < n then 1 else 0
  {
    if n > 0 { SpawnsAreCounted(r, n - 1, id); }
  }

  /** However starts, exits and holds interleave, an id is spawned once more only after its last session finished. */
  lemma {:induction false} SpawnsOnce(es: seq<Event>, id: Id)
    requires EnabledRun(EMPTY, es)
    ensures var r := Run(EMPTY, es);
            && SpawnsOf(r.spawned, |r.spawned|, id) == FinishesOf(r.spawned, |r.spawned|, id) + (if id in r.sessions then 1 else 0)
            && (id in r.starting ==> id !in r.sessions)
  {
    RunKeepsInv(EMPTY, es);
    hide Run, EnabledRun, CardsOk;
    SpawnsAreCounted(Run(EMPTY, es), |Run(EMPTY, es).spawned|, id);
  }

  /** Starts while one is in flight, or the session lives, change nothing: they are handed the same session. */
  lemma {:induction false} ConcurrentStartsJoin(r: Runner, id: Id)
    requires Inv(r) && !r.disposed && id !in r.sessions && id !in r.starting
    ensures var once := Step(r, Start(id));
            && Step(once, Start(id)) == once
            && Enabled(once, LaunchDone(id, true))
            && var launched := Step(once, LaunchDone(id, true));
               Step(launched, Start(id)) == launched && Current(launched, |r.spawned|)
  {
    hide CardsOk;
  }

  /** Every raised card is closed by the end of its session, every close follows a raise, and no call repeats the last. */
  lemma {:induction false} CardsAreClosed(es: seq<Event>, id: Id)
    requires EnabledRun(EMPTY, es)
    ensures var r := Run(EMPTY, es);
            && (id !in r.sessions ==> LastTold(r.notes, |r.notes|, id) == None)
            && (forall i :: 0 <= i < |r.notes| ==> r.notes[i].card != LastTold(r.notes, i, r.notes[i].id))
  {
    RunKeepsInv(EMPTY, es);
    hide Run, EnabledRun, SpawnedOk, LastTold;
  }

  /** After each parse of a live session's screen, the client was last told the card that is on it, or that there is none. */
  lemma {:induction false} ClientIsToldTheScreen(r: Runner, n: nat, reading: Reading)
    requires Inv(r) && Current(r, n) && (reading.cardFooter ==> reading.card.Some?)
    ensures var t := Step(r, ScreenParsed(n, reading));
            LastTold(t.notes, |t.notes|, r.spawned[n].id) == if reading.cardFooter then reading.card else None
  {
    BusyKeeps(r, n, reading);
    var u := DetectBusy(r, n, reading);
    assert Current(u, n) && u.spawned[n].id == r.spawned[n].id;
    hide DetectBusy, DetectCard, SpawnedOk, SlotsOk, LastTold;
    CardKeeps(u, n, reading);
    OpenCardIsOnScreen(u, n, reading);
    hide Current;
  }

  lemma {:induction false} OpenCardIsOnScreen(r: Runner, n: nat, reading: Reading)
    requires Current(r, n) && (reading.cardFooter ==> reading.card.Some?)
    ensures var t, id := DetectCard(r, n, reading), r.spawned[n].id;
            && (id in t.cards <==> reading.cardFooter)
            && (reading.cardFooter ==> Some(t.cards[id]) == reading.card)
  {
  }

  /** The session an event belongs to, if it is one of a process or a timer. */
  function SessionOf(r: Runner, e: Event): Option<nat> {
    match e
    case ScreenParsed(n, _) => Some(n)
    case QuietRead(n, _, _) => Some(n)
    case WatchFires(id, _, _) => if id in r.watches then Some(r.watches[id]) else None
    case Exit(n) => Some(n)
    case _ => None
  }

  /** A finished session's late exit, output, quiet check or watch changes nothing, so never its successor. */
  lemma {:induction false} FinishedSessionsAreInert(r: Runner, e: Event, n: nat)
    requires Inv(r) && Enabled(r, e) && SessionOf(r, e) == Some(n) && !Current(r, n)
    ensures !e.WatchFires? && Step(r, e) == r
  {
    hide CardsOk;
  }

  /** A restarted id begins clean: booting, no busy row seen, no card, no watch, no submit. */
  lemma {:induction false} RestartBeginsClean(r: Runner, id: Id)
    requires Inv(r) && !r.disposed && id in r.starting
    ensures var t := Step(r, LaunchDone(id, true));
            && Current(t, |r.spawned|) && id in t.booting
            && id !in t.turnBusy && id !in t.cards && id !in t.watches && id !in t.submittedAt
  {
    hide CardsOk;
  }
}
