/**
 * Binding fresh Codex and Cursor sessions to the conversations their agents create
 * (src/session-watchers.ts:391-513, 552-696). Each polled session looks at the candidate files of
 * the moment and takes one no other session is bound to.
 */
module Binder {
  import opened Common

  const DEADLINE_MS := 120000
  const RECENT_MS := 10000

  type SessionId = nat
  type ConversationId = nat

  /**
   * A file as a poll finds it. `matches`: the Codex first line names this project and a creation time
   * in range. `mentions`: the Cursor transcript mentions the session's uploads.
   */
  datatype Candidate = Candidate(conversation: ConversationId, mtimeMs: int, matches: bool, mentions: bool)

  /** A managed session: `bound`, prompts so far, and its poller if it still polls. */
  datatype Managed = Managed(bound: Option<ConversationId>, prompts: nat, poller: Option<Poller>)

  /**
   * `startedAtMs` is already less the five seconds of slack. `first`: the poll made at the start, before
   * there is an interval to clear.
   */
  datatype Poller = Poller(cursor: bool, deadline: int, seenPrompts: nat, startedAtMs: int, first: bool)

  type Store = map<SessionId, Managed>

  datatype Event =
    | StartFresh(id: SessionId, cursor: bool, now: int)
    | Prompted(id: SessionId)
    | Poll(id: SessionId, live: bool, roots: seq<seq<Candidate>>, now: int)
    | Removed(id: SessionId)

  // ── Choosing a file ─────────────────────────────────────────────────────────

  function BoundElsewhere(store: Store, id: SessionId): set<ConversationId> {
    set s | s in store && s != id && store[s].bound.Some? :: store[s].bound.value
  }

  predicate Usable(c: Candidate, cursor: bool, taken: set<ConversationId>, startedAtMs: int, now: int) {
    && c.conversation !in taken && now - c.mtimeMs < RECENT_MS
    && (if cursor then c.mtimeMs >= startedAtMs else c.matches)
  }

  /** Candidates are tried newest first; for Cursor, those mentioning the session's uploads before all others. */
  predicate Better(a: Candidate, b: Candidate, cursor: bool) {
    if cursor && a.mentions != b.mentions then a.mentions else a.mtimeMs > b.mtimeMs
  }

  /** The first of the best usable candidates among the first `n`. */
  function Choice(files: seq<Candidate>, n: nat, cursor: bool, taken: set<ConversationId>, startedAtMs: int, now: int)
    : Option<Candidate>
    requires n <= |files|
  {
    if n == 0 then None
    else
      var best, c := Choice(files, n - 1, cursor, taken, startedAtMs, now), files[n - 1];
      if Usable(c, cursor, taken, startedAtMs, now) && (best.None? || Better(c, best.value, cursor)) then Some(c) else best
  }

  lemma {:induction false} ChoiceIs(
      files: seq<Candidate>, n: nat, cursor: bool, taken: set<ConversationId>, startedAtMs: int, now: int)
    requires n <= |files|
    ensures var best := Choice(files, n, cursor, taken, startedAtMs, now);
            && (best.None? ==> forall i :: 0 <= i < n ==> !Usable(files[i], cursor, taken, startedAtMs, now))
            && (best.Some? ==>
                  && best.value in files[..n] && Usable(best.value, cursor, taken, startedAtMs, now)
                  && forall i :: 0 <= i < n && Usable(files[i], cursor, taken, startedAtMs, now)
                       ==> !Better(files[i], best.value, cursor))
  {
    if n > 0 {
      ChoiceIs(files, n - 1, cursor, taken, startedAtMs, now);
      assert files[..n] == files[..n - 1] + [files[n - 1]];
    }
  }

  /** Codex takes the best file of the first root that has a usable one. */
  function FromRoots(roots: seq<seq<Candidate>>, k: nat, taken: set<ConversationId>, startedAtMs: int, now: int): Option<Candidate>
    requires k <= |roots|
    decreases |roots| - k
  {
    if k == |roots| then None
    else
      var best := Choice(roots[k], |roots[k]|, false, taken, startedAtMs, now);
      if best.Some? then best else FromRoots(roots, k + 1, taken, startedAtMs, now)
  }

  function All(roots: seq<seq<Candidate>>, n: nat): (r: seq<Candidate>)
    requires n <= |roots|
    ensures forall c :: c in r <==> exists k :: 0 <= k < n && c in roots[k]
  {
    if n == 0 then [] else All(roots, n - 1) + roots[n - 1]
  }

  /** Cursor takes the best file of all its roots. */
  function ChooseFile(roots: seq<seq<Candidate>>, cursor: bool, taken: set<ConversationId>, startedAtMs: int, now: int)
    : Option<Candidate>
  {
    if cursor then Choice(All(roots, |roots|), |All(roots, |roots|)|, true, taken, startedAtMs, now)
    else FromRoots(roots, 0, taken, startedAtMs, now)
  }

  lemma {:induction false} FromRootsIs(roots: seq<seq<Candidate>>, k: nat, taken: set<ConversationId>, startedAtMs: int, now: int)
    requires k <= |roots|
    ensures var best := FromRoots(roots, k, taken, startedAtMs, now);
            if best.None? then forall i, c :: k <= i < |roots| && c in roots[i] ==> !Usable(c, false, taken, startedAtMs, now)
            else exists i :: k <= i < |roots| && best.value in roots[i] && Usable(best.value, false, taken, startedAtMs, now)
                   && (forall c :: c in roots[i] && Usable(c, false, taken, startedAtMs, now) ==> !Better(c, best.value, false))
                   && (forall j, c :: k <= j < i && c in roots[j] ==> !Usable(c, false, taken, startedAtMs, now))
    decreases |roots| - k
  {
    hide Usable, Better;
    if k < |roots| {
      ChoiceIs(roots[k], |roots[k]|, false, taken, startedAtMs, now);
      assert roots[k][..|roots[k]|] == roots[k];
      FromRootsIs(roots, k + 1, taken, startedAtMs, now);
      hide Choice;
    }
  }

  /** What is chosen is usable, and nothing is chosen only if nothing is. */
  lemma {:induction false} ChosenIs(roots: seq<seq<Candidate>>, cursor: bool, taken: set<ConversationId>, startedAtMs: int, now: int)
    ensures var best := ChooseFile(roots, cursor, taken, startedAtMs, now);
            && (best.None? <==> forall c :: c in All(roots, |roots|) ==> !Usable(c, cursor, taken, startedAtMs, now))
            && (best.Some? ==> best.value in All(roots, |roots|) && Usable(best.value, cursor, taken, startedAtMs, now))
  {
    hide Usable, Better;
    var files := All(roots, |roots|);
    if cursor {
      ChoiceIs(files, |files|, true, taken, startedAtMs, now);
      assert files[..|files|] == files;
    } else {
      FromRootsIs(roots, 0, taken, startedAtMs, now);
    }
    hide Choice;
  }

  // ── One poll ────────────────────────────────────────────────────────────────

  function StopPolling(store: Store, id: SessionId): Store
    requires id in store
  {
    store[id := store[id].(poller := None)]
  }

  /**
   * `cleanup` with nothing bound. The first poll has no interval to clear and one is started after it all
   * the same, for Codex within its deadline.
   */
  function GiveUp(store: Store, id: SessionId, p: Poller, now: int): Store
    requires id in store
  {
    if p.first && (p.cursor || now <= p.deadline) then store[id := store[id].(poller := Some(p.(first := false)))]
    else StopPolling(store, id)
  }

  /** `tryWire`. */
  function TryWire(store: Store, id: SessionId, live: bool, roots: seq<seq<Candidate>>, now: int): Store
    requires id in store && store[id].poller.Some?
  {
    var m, p := store[id], store[id].poller.value;
    if !live then GiveUp(store, id, p, now)
    else
      var prompted := m.prompts > p.seenPrompts;
      var q := if prompted then p.(seenPrompts := m.prompts, deadline := now + DEADLINE_MS) else p;
      var waiting := store[id := m.(poller := Some(q.(first := false)))];
      if p.cursor && m.prompts == 0 then waiting
      else if now > q.deadline then GiveUp(store, id, q, now)
      else
        var choice := ChooseFile(roots, p.cursor, BoundElsewhere(store, id), p.startedAtMs, now);
        if choice.None? then waiting
        else store[id := m.(bound := Some(choice.value.conversation), poller := None)]
  }

  predicate Enabled(store: Store, e: Event) {
    match e
    case StartFresh(id, _, _) => id !in store
    case Prompted(id) => id in store
    case Poll(id, _, _, _) => id in store && store[id].poller.Some?
    case Removed(id) => id in store
  }

  function Step(store: Store, e: Event): Store
    requires Enabled(store, e)
  {
    match e
    case StartFresh(id, cursor, now) => store[id := Managed(None, 0, Some(Poller(cursor, now + DEADLINE_MS, 0, now - 5000, true)))]
    case Prompted(id) => store[id := store[id].(prompts := store[id].prompts + 1)]
    case Poll(id, live, roots, now) => TryWire(store, id, live, roots, now)
    case Removed(id) => store - {id}
  }

  // ── The invariant ───────────────────────────────────────────────────────────

  /** No two sessions are bound to one conversation, and a bound session polls no more. */
  ghost predicate Inv(store: Store) {
    && (forall a, b :: a in store && b in store && a != b && store[a].bound.Some? ==> store[a].bound != store[b].bound)
    && (forall a :: a in store && store[a].bound.Some? ==> store[a].poller.None?)
  }

  lemma {:induction false} StepKeepsInv(store: Store, e: Event)
    requires Inv(store) && Enabled(store, e)
    ensures Inv(Step(store, e))
  {
    match e
    case Poll(id, live, roots, now) =>
      var p := store[id].poller.value;
      var taken := BoundElsewhere(store, id);
      ChosenIs(roots, p.cursor, taken, p.startedAtMs, now);
      forall s | s in store && s != id && store[s].bound.Some? ensures store[s].bound.value in taken {
      }
      hide ChooseFile;
    case _ =>
  }

  predicate EnabledRun(store: Store, es: seq<Event>)
    decreases |es|
  {
    es == [] || (Enabled(store, es[0]) && EnabledRun(Step(store, es[0]), es[1..]))
  }

  function Run(store: Store, es: seq<Event>): Store
    requires EnabledRun(store, es)
    decreases |es|
  {
    if es == [] then store else Run(Step(store, es[0]), es[1..])
  }

  lemma {:induction false} RunKeepsInv(store: Store, es: seq<Event>)
    requires Inv(store) && EnabledRun(store, es)
    ensures Inv(Run(store, es))
    decreases |es|
  {
    if es != [] {
      hide Inv, Step;
      StepKeepsInv(store, es[0]);
      RunKeepsInv(Step(store, es[0]), es[1..]);
    }
  }

  /** Polling fresh sessions in any order never binds two of them to one conversation. */
  lemma {:induction false} NeverTwoToOne(es: seq<Event>, a: SessionId, b: SessionId)
    requires EnabledRun(map[], es) && a != b && a in Run(map[], es) && b in Run(map[], es)
    ensures Run(map[], es)[a].bound.Some? ==> Run(map[], es)[a].bound != Run(map[], es)[b].bound
  {
    RunKeepsInv(map[], es);
    hide Run, EnabledRun;
  }

  /** A binding stands for as long as the session does, whatever is polled. */
  lemma {:induction false} BindingStands(store: Store, es: seq<Event>, id: SessionId)
    requires Inv(store) && EnabledRun(store, es) && id in store && store[id].bound.Some?
    requires forall i :: 0 <= i < |es| ==> es[i] != Removed(id)
    ensures id in Run(store, es) && Run(store, es)[id].bound == store[id].bound
    decreases |es|
  {
    if es != [] {
      StepKeepsInv(store, es[0]);
      var t := Step(store, es[0]);
      assert id in t && t[id].bound == store[id].bound by { hide ChooseFile; }
      hide Inv, Step, Enabled;
      BindingStands(t, es[1..], id);
    }
  }

  /** A poll binds exactly when the session lives in its deadline, has prompted if it is Cursor's, and a usable file is there. */
  lemma {:induction false} PollBindsIff(store: Store, id: SessionId, live: bool, roots: seq<seq<Candidate>>, now: int)
    requires Inv(store) && id in store && store[id].poller.Some?
    ensures var m, p, taken := store[id], store[id].poller.value, BoundElsewhere(store, id);
            var t := TryWire(store, id, live, roots, now);
            t[id].bound.Some? <==>
              && live && (p.cursor ==> m.prompts > 0) && (m.prompts > p.seenPrompts || now <= p.deadline)
              && exists c :: c in All(roots, |roots|) && Usable(c, p.cursor, taken, p.startedAtMs, now)
  {
    var p := store[id].poller.value;
    ChosenIs(roots, p.cursor, BoundElsewhere(store, id), p.startedAtMs, now);
    hide ChooseFile, Usable, All;
  }

  /** Cursor binds to a file no other session has, and to none worse than another usable one. */
  lemma {:induction false} CursorTakesTheBest(store: Store, id: SessionId, live: bool, roots: seq<seq<Candidate>>, now: int)
    requires Inv(store) && id in store && store[id].poller.Some? && store[id].poller.value.cursor
    requires TryWire(store, id, live, roots, now)[id].bound.Some?
    ensures var p, taken := store[id].poller.value, BoundElsewhere(store, id);
            var c := TryWire(store, id, live, roots, now)[id].bound.value;
            && c !in taken
            && exists best :: best in All(roots, |roots|) && best.conversation == c && Usable(best, true, taken, p.startedAtMs, now)
                 && forall d :: d in All(roots, |roots|) && Usable(d, true, taken, p.startedAtMs, now) ==> !Better(d, best, true)
  {
    var p, taken, files := store[id].poller.value, BoundElsewhere(store, id), All(roots, |roots|);
    ChoiceIs(files, |files|, true, taken, p.startedAtMs, now);
    assert files[..|files|] == files;
    hide Choice, Better, All;
  }

  /**
   * Exactly when a poll stops polling unbound: after the first one, when the session's process is gone or its
   * deadline passed without a new prompt, never for a living Cursor session before its first prompt. The first
   * poll stops only a Codex session past its deadline.
   */
  lemma {:induction false} ExpiryIff(store: Store, id: SessionId, live: bool, roots: seq<seq<Candidate>>, now: int)
    requires Inv(store) && id in store && store[id].poller.Some?
    ensures var m, p := store[id], store[id].poller.value;
            var t := TryWire(store, id, live, roots, now);
            t[id].poller.None? && t[id].bound.None? <==>
              && (!live || (now > p.deadline && m.prompts <= p.seenPrompts && !(p.cursor && m.prompts == 0)))
              && (p.first ==> !p.cursor && now > p.deadline)
  {
    hide ChooseFile;
  }

  // ── The poll loops ──────────────────────────────────────────────────────────

  class SessionWatchers {
    var store: Store

    constructor ()
      ensures store == map[]
    {
      store := map[];
    }

    /** Whether another session is bound to the conversation, by a scan of the managed ones. */
    method IsBoundElsewhere(id: SessionId, c: ConversationId) returns (bound: bool)
      ensures bound == (c in BoundElsewhere(store, id))
    {
      var rest := store.Keys;
      bound := false;
      while rest != {}
        invariant rest <= store.Keys && (forall s :: s in store && s !in rest && s != id ==> store[s].bound != Some(c))
        decreases |rest|
      {
        var s :| s in rest;
        rest := rest - {s};
        if s != id && store[s].bound == Some(c) { return true; }
      }
    }

    method TryWireOnce(id: SessionId, live: bool, roots: seq<seq<Candidate>>, now: int)
      requires id in store && store[id].poller.Some?
      modifies this
      ensures store == TryWire(old(store), id, live, roots, now)
    {
      var m, p := store[id], store[id].poller.value;
      if !live {
        GiveUpOn(id, p, now);
        return;
      }
      if m.prompts > p.seenPrompts { p := p.(seenPrompts := m.prompts, deadline := now + DEADLINE_MS); }
      if p.cursor && m.prompts == 0 {
        store := store[id := m.(poller := Some(p.(first := false)))];
        return;
      }
      if now > p.deadline {
        GiveUpOn(id, p, now);
        return;
      }
      var best := PickFile(id, p, roots, now);
      if best.None? {
        store := store[id := m.(poller := Some(p.(first := false)))];
      } else {
        store := store[id := m.(bound := Some(best.value.conversation), poller := None)];
      }
    }

    method GiveUpOn(id: SessionId, p: Poller, now: int)
      requires id in store
      modifies this
      ensures store == GiveUp(old(store), id, p, now)
    {
      if p.first {
        if p.cursor || now <= p.deadline {
          store := store[id := store[id].(poller := Some(p.(first := false)))];
          return;
        }
      }
      store := StopPolling(store, id);
    }

    method PickFile(id: SessionId, p: Poller, roots: seq<seq<Candidate>>, now: int) returns (best: Option<Candidate>)
      ensures best == ChooseFile(roots, p.cursor, BoundElsewhere(store, id), p.startedAtMs, now)
    {
      best := None;
      if p.cursor {
        best := BestOf(id, p, All(roots, |roots|), now);
        return;
      }
      var k := 0;
      while k < |roots|
        invariant k <= |roots| && best.None?
        invariant FromRoots(roots, 0, BoundElsewhere(store, id), p.startedAtMs, now)
                  == FromRoots(roots, k, BoundElsewhere(store, id), p.startedAtMs, now)
      {
        best := BestOf(id, p, roots[k], now);
        if best.Some? { return; }
        k := k + 1;
      }
    }

    /** The usable candidates of one listing, the best of them kept. */
    method BestOf(id: SessionId, p: Poller, files: seq<Candidate>, now: int) returns (best: Option<Candidate>)
      ensures best == Choice(files, |files|, p.cursor, BoundElsewhere(store, id), p.startedAtMs, now)
    {
      best := None;
      for i := 0 to |files|
        invariant best == Choice(files, i, p.cursor, BoundElsewhere(store, id), p.startedAtMs, now)
      {
        var c := files[i];
        var taken := IsBoundElsewhere(id, c.conversation);
        if taken { continue; }
        if now - c.mtimeMs >= RECENT_MS { continue; }
        if p.cursor && c.mtimeMs < p.startedAtMs { continue; }
        if !p.cursor && !c.matches { continue; }
        if best.None? || Better(c, best.value, p.cursor) { best := Some(c); }
      }
    }
  }
}
