/**
 * Live tails on files no PTY session writes (src/external-tails.ts:93-183, 215-235, 272-281): an LRU
 * that shares its watchers with the managed sessions. Tails keep insertion order, as a Map does.
 */
module ExternalTails {
  import opened Common

  const TAIL_MAX := 32
  const RECENCY_MS := 120000
  const IDLE_MS := 300000

  type Path = nat

  datatype Tail = Tail(path: Path, lastActivityAt: int)

  /** `managed`: paths of managed sessions. `watched`: paths the file watcher has open. `polled`: sub-agents to poll. */
  datatype State = State(tails: seq<Tail>, managed: set<Path>, watched: set<Path>, polled: set<Path>)

  const NO_TAILS := State([], {}, {}, {})

  predicate HasTail(tails: seq<Tail>, p: Path) { exists t :: t in tails && t.path == p }

  ghost predicate DistinctPaths(tails: seq<Tail>) {
    forall i, j :: 0 <= i < j < |tails| ==> tails[i].path != tails[j].path
  }

  function WithoutPath(tails: seq<Tail>, p: Path): (r: seq<Tail>)
    ensures forall t :: t in r <==> t in tails && t.path != p
    ensures |r| <= |tails| && (HasTail(tails, p) ==> |r| < |tails|)
  {
    if tails == [] then []
    else if tails[0].path == p then WithoutPath(tails[1..], p)
    else [tails[0]] + WithoutPath(tails[1..], p)
  }

  lemma {:induction false} WithoutKeepsDistinct(tails: seq<Tail>, p: Path)
    requires DistinctPaths(tails)
    ensures DistinctPaths(WithoutPath(tails, p))
  {
    if tails != [] {
      WithoutKeepsDistinct(tails[1..], p);
      var rest := WithoutPath(tails[1..], p);
      forall j | 0 <= j < |rest| ensures rest[j].path != tails[0].path {
        assert rest[j] in rest;
        var k :| 0 <= k < |tails[1..]| && tails[1..][k] == rest[j];
        assert tails[k + 1].path != tails[0].path;
      }
    }
  }

  /** Release the bookkeeping, keep the watcher. */
  function Release(s: State, p: Path): State { s.(tails := WithoutPath(s.tails, p)) }

  /** `detachExternalTail`. */
  function Detach(s: State, p: Path): State {
    if !HasTail(s.tails, p) then s else Release(s, p).(watched := s.watched - {p})
  }

  /** The first managed tail in order, else the least recently active one, the first of several. */
  function Victim(tails: seq<Tail>, managed: set<Path>, n: nat): Option<Tail>
    requires n <= |tails|
  {
    if n == 0 then None
    else
      var v, t := Victim(tails, managed, n - 1), tails[n - 1];
      if v.Some? && v.value.path in managed then v
      else if t.path in managed || v.None? || t.lastActivityAt < v.value.lastActivityAt then Some(t)
      else v
  }

  /** One round of `evictExternalTailsIfNeeded`. */
  function EvictOne(s: State): State {
    var v := Victim(s.tails, s.managed, |s.tails|);
    if v.None? then s
    else if v.value.path in s.managed then Release(s, v.value.path)
    else Detach(s, v.value.path)
  }

  /** `evictExternalTailsIfNeeded`; one round is enough, as there are never more tails than the cap. */
  function MakeRoom(s: State): State { if |s.tails| >= TAIL_MAX then EvictOne(s) else s }

  predicate Attaches(s: State, p: Path, isJsonl: bool, mtimeMs: Option<int>, now: int) {
    isJsonl && !HasTail(s.tails, p) && p !in s.managed && mtimeMs.Some? && now - mtimeMs.value <= RECENCY_MS
  }

  function Attach(s: State, p: Path, now: int): State {
    s.(tails := s.tails + [Tail(p, now)], watched := s.watched + {p})
  }

  function MaybeAttach(s: State, p: Path, isJsonl: bool, mtimeMs: Option<int>, now: int): State {
    if Attaches(s, p, isJsonl, mtimeMs, now) then Attach(MakeRoom(s), p, now) else s
  }

  /** The sweep over the first `n` of the tails `all` it began with. */
  function Sweep(s: State, all: seq<Tail>, n: nat, now: int): State
    requires n <= |all|
  {
    if n == 0 then s
    else
      var t, e := Sweep(s, all, n - 1, now), all[n - 1];
      if e.path in s.managed then Release(t, e.path)
      else if now - e.lastActivityAt > IDLE_MS then Detach(t, e.path)
      else t
  }

  function Touch(tails: seq<Tail>, p: Path, now: int): (r: seq<Tail>)
    ensures |r| == |tails| && forall i :: 0 <= i < |tails| ==> r[i].path == tails[i].path
  {
    seq(|tails|, i requires 0 <= i < |tails| => if tails[i].path == p then Tail(p, now) else tails[i])
  }

  /** `attachSubagentTail`: polled even when no tail was attached. */
  function AttachSubagent(s: State, p: Path, isJsonl: bool, mtimeMs: Option<int>, now: int): State {
    var t := MaybeAttach(s, p, isJsonl, mtimeMs, now);
    t.(polled := t.polled + {p})
  }

  /** `pollSubagentTails` at one path: what is finished, or has no tail any more, is let go. */
  function PollOne(s: State, p: Path, finished: bool): State {
    if p !in s.polled || (HasTail(s.tails, p) && !finished) then s else Detach(s, p).(polled := s.polled - {p})
  }

  datatype Event =
    | DirectoryEvent(p: Path, isJsonl: bool, mtimeMs: Option<int>, now: int)
    | Grown(p: Path, now: int)
    | IdleSweep(now: int)
    | SubagentListed(p: Path, isJsonl: bool, mtimeMs: Option<int>, now: int)
    | Polled(p: Path, finished: bool)
    | Deleted(p: Path)
    | Adopted(p: Path)
    | SessionGone(p: Path)

  function Step(s: State, e: Event): State {
    match e
    case DirectoryEvent(p, isJsonl, mtimeMs, now) => MaybeAttach(s, p, isJsonl, mtimeMs, now)
    case Grown(p, now) => s.(tails := Touch(s.tails, p, now))
    case IdleSweep(now) => Sweep(s, s.tails, |s.tails|, now)
    case SubagentListed(p, isJsonl, mtimeMs, now) => AttachSubagent(s, p, isJsonl, mtimeMs, now)
    case Polled(p, finished) => PollOne(s, p, finished)
    case Deleted(p) => Detach(s, p)
    case Adopted(p) => s.(managed := s.managed + {p}, watched := s.watched + {p})
    case SessionGone(p) => s.(managed := s.managed - {p}, watched := s.watched - {p})
  }

  // ── Which tail goes ─────────────────────────────────────────────────────────

  lemma {:induction false} VictimIs(tails: seq<Tail>, managed: set<Path>, n: nat)
    requires n <= |tails|
    ensures var v := Victim(tails, managed, n);
            && (v.None? <==> n == 0)
            && (v.Some? ==> v.value in tails)
            && (v.Some? && v.value.path !in managed ==>
                  forall i :: 0 <= i < n ==> tails[i].path !in managed && v.value.lastActivityAt <= tails[i].lastActivityAt)
  {
    if n > 0 { VictimIs(tails, managed, n - 1); }
  }

  ghost predicate Bounded(s: State) { DistinctPaths(s.tails) && |s.tails| <= TAIL_MAX }

  /** An eviction takes one tail. It closes no managed watcher, and closes one only for the least recently active tail. */
  lemma {:induction false} EvictingSparesManaged(s: State)
    requires Bounded(s) && s.tails != []
    ensures var t := EvictOne(s);
            && Bounded(t) && |t.tails| < |s.tails| && t.managed == s.managed
            && (forall u :: u in t.tails ==> u in s.tails)
            && (t.watched == s.watched
                || exists v :: v in s.tails && v.path !in s.managed && t.watched == s.watched - {v.path}
                     && forall u :: u in s.tails ==> v.lastActivityAt <= u.lastActivityAt)
  {
    VictimIs(s.tails, s.managed, |s.tails|);
    var v := Victim(s.tails, s.managed, |s.tails|).value;
    assert HasTail(s.tails, v.path);
    WithoutKeepsDistinct(s.tails, v.path);
  }

  /** Attaching stays within the cap, takes exactly the paths it should, and leaves managed watchers open. */
  lemma {:induction false} AttachingKeeps(s: State, p: Path, isJsonl: bool, mtimeMs: Option<int>, now: int)
    requires Bounded(s)
    ensures var t := MaybeAttach(s, p, isJsonl, mtimeMs, now);
            && Bounded(t) && t.managed == s.managed && s.watched * s.managed <= t.watched
            && (HasTail(t.tails, p) <==> HasTail(s.tails, p) || Attaches(s, p, isJsonl, mtimeMs, now))
            && (Attaches(s, p, isJsonl, mtimeMs, now) ==> p in t.watched)
  {
    if Attaches(s, p, isJsonl, mtimeMs, now) {
      var r := MakeRoom(s);
      if |s.tails| >= TAIL_MAX { EvictingSparesManaged(s); }
      hide EvictOne;
      forall i | 0 <= i < |r.tails| ensures r.tails[i].path != p {
        assert r.tails[i] in r.tails;
        assert r.tails[i] in s.tails;
      }
      assert Tail(p, now) in Attach(r, p, now).tails;
    }
  }

  /** A tail of the sweep's list still there after its first `n`: not yet reached, or neither adopted nor idle. */
  predicate Outlasts(s: State, u: Tail, n: nat, now: int)
    requires n <= |s.tails|
  {
    u in s.tails && (u in s.tails[n..] || (u.path !in s.managed && now - u.lastActivityAt <= IDLE_MS))
  }

  /** The path of an idle, unadopted tail among the first `n`. */
  predicate IdleAmong(s: State, p: Path, n: nat, now: int)
    requires n <= |s.tails|
  {
    p !in s.managed && exists i :: 0 <= i < n && s.tails[i].path == p && now - s.tails[i].lastActivityAt > IDLE_MS
  }

  /** The sweep leaves exactly the tails that are neither adopted nor idle, and closes exactly the idle ones' watchers. */
  lemma {:induction false} SweepIs(s: State, n: nat, now: int)
    requires Bounded(s) && n <= |s.tails|
    ensures var t := Sweep(s, s.tails, n, now);
            && Bounded(t) && t.managed == s.managed
            && (forall u :: u in t.tails <==> Outlasts(s, u, n, now))
            && (forall p :: p in t.watched <==> p in s.watched && !IdleAmong(s, p, n, now))
  {
    if n > 0 {
      SweepIs(s, n - 1, now);
      var t, e := Sweep(s, s.tails, n - 1, now), s.tails[n - 1];
      WithoutKeepsDistinct(t.tails, e.path);
      OneMoreSwept(s, n, now);
      assert e in t.tails;
      forall u | u in t.tails && u.path == e.path ensures u == e {
        SamePathSameTail(s.tails, u, e);
      }
      hide DistinctPaths, Outlasts, IdleAmong;
    }
  }

  /** What reaching one more tail changes. */
  lemma {:induction false} OneMoreSwept(s: State, n: nat, now: int)
    requires DistinctPaths(s.tails) && 0 < n <= |s.tails|
    ensures var e := s.tails[n - 1];
            && Outlasts(s, e, n - 1, now)
            && (forall u :: Outlasts(s, u, n - 1, now) ==> u in s.tails)
            && (forall u :: Outlasts(s, u, n, now) <==>
                  Outlasts(s, u, n - 1, now) && (u != e || (e.path !in s.managed && now - e.lastActivityAt <= IDLE_MS)))
            && (forall p :: IdleAmong(s, p, n, now) <==>
                  IdleAmong(s, p, n - 1, now) || (p == e.path && p !in s.managed && now - e.lastActivityAt > IDLE_MS))
  {
    var e := s.tails[n - 1];
    assert s.tails[n - 1..] == [e] + s.tails[n..];
    forall u | u in s.tails[n..] ensures u != e {
      var k :| 0 <= k < |s.tails[n..]| && s.tails[n..][k] == u;
      assert s.tails[n + k].path != s.tails[n - 1].path;
    }
  }

  lemma {:induction false} SamePathSameTail(tails: seq<Tail>, t: Tail, u: Tail)
    requires DistinctPaths(tails) && t in tails && u in tails && t.path == u.path
    ensures t == u
  {
    var i :| 0 <= i < |tails| && tails[i] == t;
    var j :| 0 <= j < |tails| && tails[j] == u;
  }

  // ── Runs ────────────────────────────────────────────────────────────────────

  lemma {:induction false} StepKeepsBound(s: State, e: Event)
    requires Bounded(s)
    ensures Bounded(Step(s, e))
  {
    match e
    case DirectoryEvent(p, isJsonl, mtimeMs, now) => AttachingKeeps(s, p, isJsonl, mtimeMs, now);
    case IdleSweep(now) => SweepIs(s, |s.tails|, now);
    case SubagentListed(p, isJsonl, mtimeMs, now) => AttachingKeeps(s, p, isJsonl, mtimeMs, now);
    case Polled(p, finished) => WithoutKeepsDistinct(s.tails, p);
    case Deleted(p) => WithoutKeepsDistinct(s.tails, p);
    case Grown(p, now) =>
    case Adopted(p) =>
    case SessionGone(p) =>
  }

  function Run(s: State, es: seq<Event>): State
    decreases |es|
  {
    if es == [] then s else Run(Step(s, es[0]), es[1..])
  }

  /** In every run there are at most 32 tails, one for a path. */
  lemma {:induction false} NeverPastTheCap(s: State, es: seq<Event>)
    requires Bounded(s)
    ensures Bounded(Run(s, es))
    decreases |es|
  {
    if es != [] {
      StepKeepsBound(s, es[0]);
      hide Bounded, Step;
      NeverPastTheCap(Step(s, es[0]), es[1..]);
    }
  }

  /** The poll of a finished sub-agent, or a deletion, detaches a managed path that still has a tail. */
  predicate ReleasesTailed(s: State, e: Event) {
    ((e.Polled? && e.finished && e.p in s.polled) || e.Deleted?) && e.p in s.managed && HasTail(s.tails, e.p)
  }

  /** Exactly when a step leaves every managed path watched: attaching with its eviction, the sweep, activity and adoption always do. */
  lemma {:induction false} StepUnwatchesManagedIff(s: State, e: Event)
    requires Bounded(s) && s.managed <= s.watched
    ensures Step(s, e).managed <= Step(s, e).watched <==> !ReleasesTailed(s, e)
  {
    match e
    case DirectoryEvent(p, isJsonl, mtimeMs, now) => AttachingKeeps(s, p, isJsonl, mtimeMs, now);
    case IdleSweep(now) =>
      SweepIs(s, |s.tails|, now);
      hide Sweep;
    case SubagentListed(p, isJsonl, mtimeMs, now) => AttachingKeeps(s, p, isJsonl, mtimeMs, now);
    case Polled(p, finished) => if p in s.managed { DetachClosesManagedIff(s, p); }
    case Deleted(p) => if p in s.managed { DetachClosesManagedIff(s, p); }
    case Grown(p, now) =>
    case Adopted(p) =>
    case SessionGone(p) =>
  }

  ghost predicate NeverReleasesTailed(s: State, es: seq<Event>)
    decreases |es|
  {
    es == [] || (!ReleasesTailed(s, es[0]) && NeverReleasesTailed(Step(s, es[0]), es[1..]))
  }

  /** In every run without such a release no managed path loses its watcher. */
  lemma {:induction false} ManagedStaysWatched(s: State, es: seq<Event>)
    requires Bounded(s) && s.managed <= s.watched && NeverReleasesTailed(s, es)
    ensures Run(s, es).managed <= Run(s, es).watched
    decreases |es|
  {
    if es != [] {
      StepKeepsBound(s, es[0]);
      StepUnwatchesManagedIff(s, es[0]);
      hide Bounded, Step, ReleasesTailed;
      ManagedStaysWatched(Step(s, es[0]), es[1..]);
    }
  }

  /** Exactly when a poll's release or a deletion closes a managed path's watcher: when the path still has a tail. */
  lemma {:induction false} DetachClosesManagedIff(s: State, p: Path)
    requires s.managed <= s.watched && p in s.managed
    ensures p !in Detach(s, p).watched <==> HasTail(s.tails, p)
    ensures Detach(s, p).managed <= Detach(s, p).watched <==> !HasTail(s.tails, p)
  {
  }

  /**
   * It can: an active sub-agent is listed and tailed, a session adopts its path, and the poll that finds it
   * finished detaches the tail; the path is managed and no longer watched.
   */
  lemma {:induction false} PollCanCloseManagedWatcher(p: Path, now: int)
    ensures var s := Run(NO_TAILS, [SubagentListed(p, true, Some(now), now), Adopted(p), Polled(p, true)]);
            p in s.managed && p !in s.watched
  {
    var s1 := Step(NO_TAILS, SubagentListed(p, true, Some(now), now));
    assert s1.tails == [Tail(p, now)] && Tail(p, now) in s1.tails;
    var s2 := Step(s1, Adopted(p));
    var s3 := Step(s2, Polled(p, true));
    assert HasTail(s2.tails, p);
    var es := [SubagentListed(p, true, Some(now), now), Adopted(p), Polled(p, true)];
    assert es[1..] == [Adopted(p), Polled(p, true)] && es[1..][1..] == [Polled(p, true)] && [Polled(p, true)][1..] == [];
    assert Run(s2, [Polled(p, true)]) == Run(s3, []) == s3;
    assert Run(s1, es[1..]) == s3;
  }

  // ── The manager ─────────────────────────────────────────────────────────────

  class ExternalTailManager {
    var tails: seq<Tail>
    var managed: set<Path>
    var watched: set<Path>
    var polledSubagents: set<Path>

    constructor ()
      ensures View() == NO_TAILS
    {
      tails, managed, watched, polledSubagents := [], {}, {}, {};
    }

    function View(): State
      reads this
    {
      State(tails, managed, watched, polledSubagents)
    }

    method DetachExternalTail(p: Path)
      modifies this`tails, this`watched
      ensures View() == Detach(old(View()), p)
    {
      if HasTail(tails, p) { tails, watched := WithoutPath(tails, p), watched - {p}; }
    }

    method EvictExternalTailsIfNeeded()
      requires Bounded(View())
      modifies this`tails, this`watched
      ensures View() == MakeRoom(old(View()))
    {
      hide DistinctPaths;
      while |tails| >= TAIL_MAX
        invariant View() == old(View()) || (View() == MakeRoom(old(View())) && |tails| < TAIL_MAX)
        decreases |tails|
      {
        EvictingSparesManaged(View());
        var victim := ScanForVictim();
        if victim.None? { return; }
        if victim.value.path in managed {
          tails := WithoutPath(tails, victim.value.path);
          return;
        }
        DetachExternalTail(victim.value.path);
      }
    }

    /** One scan of the tails: the first managed one, at which it stops, or else the least recently active. */
    method ScanForVictim() returns (victim: Option<Tail>)
      ensures victim == Victim(tails, managed, |tails|)
    {
      victim := None;
      for i := 0 to |tails|
        invariant victim == Victim(tails, managed, i) && (victim.Some? ==> victim.value.path !in managed)
      {
        if tails[i].path in managed {
          StaysManaged(tails, managed, i + 1, |tails|);
          return Some(tails[i]);
        }
        if victim.None? || tails[i].lastActivityAt < victim.value.lastActivityAt { victim := Some(tails[i]); }
      }
    }

    method MaybeAttachExternalTail(p: Path, isJsonl: bool, mtimeMs: Option<int>, now: int)
      requires Bounded(View())
      modifies this`tails, this`watched
      ensures View() == MaybeAttach(old(View()), p, isJsonl, mtimeMs, now)
    {
      hide MakeRoom;
      if !isJsonl { return; }
      if HasTail(tails, p) { return; }
      if p in managed { return; }
      if mtimeMs.None? { return; }
      if now - mtimeMs.value > RECENCY_MS { return; }
      EvictExternalTailsIfNeeded();
      tails, watched := tails + [Tail(p, now)], watched + {p};
    }

    method AttachSubagentTail(p: Path, isJsonl: bool, mtimeMs: Option<int>, now: int)
      requires Bounded(View())
      modifies this`tails, this`watched, this`polledSubagents
      ensures View() == AttachSubagent(old(View()), p, isJsonl, mtimeMs, now)
    {
      hide MaybeAttach;
      MaybeAttachExternalTail(p, isJsonl, mtimeMs, now);
      polledSubagents := polledSubagents + {p};
    }

    /** One path of `pollSubagentTails`. */
    method PollSubagentTail(p: Path, finished: bool)
      modifies this`tails, this`watched, this`polledSubagents
      ensures View() == PollOne(old(View()), p, finished)
    {
      hide HasTail, WithoutPath;
      if p !in polledSubagents { return; }
      if !HasTail(tails, p) || finished {
        polledSubagents := polledSubagents - {p};
        DetachExternalTail(p);
      }
    }

    method SweepIdleExternalTails(now: int)
      modifies this`tails, this`watched
      ensures View() == Sweep(old(View()), old(tails), |old(tails)|, now)
    {
      var all := tails;
      for i := 0 to |all|
        invariant View() == Sweep(old(View()), all, i, now)
      {
        if all[i].path in managed {
          tails := WithoutPath(tails, all[i].path);
          continue;
        }
        if now - all[i].lastActivityAt > IDLE_MS { DetachExternalTail(all[i].path); }
      }
    }
  }

  lemma {:induction false} StaysManaged(tails: seq<Tail>, managed: set<Path>, m: nat, n: nat)
    requires m <= n <= |tails| && Victim(tails, managed, m).Some? && Victim(tails, managed, m).value.path in managed
    ensures Victim(tails, managed, n) == Victim(tails, managed, m)
  {
    if m < n { StaysManaged(tails, managed, m, n - 1); }
  }
}
