/**
 * The per-file refresh coordinator (src/scanner-manager.ts): one active parse, at most one
 * shared follow-up, a read throttle, and re-arming when the scanner instance is swapped.
 *
 * The protocol is a step relation over calls and settlements of one file. Passes, queue
 * promises and requests are numbered; every event has its own stamp.
 */
module RefreshCoordinator {
  import opened Common

  const REFRESH_TTL_MS := 2000

  datatype Status = Running | Fulfilled(atMs: int) | Rejected

  /**
   * A promise returned by `scanner.refreshFile`. The scanner single-flights parses, so the
   * parse behind a pass can have started before the pass did.
   */
  datatype Pass = Pass(scanner: nat, owner: nat, startedAt: nat, parseStartedAt: nat, status: Status)

  /** `RefreshState`; `id` is its object identity. */
  datatype RefreshState = RefreshState(id: nat, scanner: nat, active: Option<nat>, completedAt: int, queued: Option<nat>)

  datatype Outcome = Refreshed | Joined | Skipped

  /** What a caller's promise follows: a pass, a queue promise, or nothing. */
  datatype Target = OnPass(pass: nat) | OnQueue(queue: nat) | NoParse

  datatype Request = Request(afterWrite: bool, calledAt: nat, target: Target, outcome: Outcome)

  /** `adopted[q]` is the pass queue promise `q` was settled with. */
  datatype State = State(
    clock: nat, states: nat, live: Option<RefreshState>, passes: seq<Pass>, adopted: seq<Option<nat>>, requests: seq<Request>)

  const INITIAL := State(0, 0, None, [], [], [])

  datatype Event =
    | Read(scanner: nat, nowMs: int)
    | AfterWrite(scanner: nat)
    | Settle(pass: nat, fulfilled: bool, nowMs: int)

  /** The start of the parse a scanner has in flight for the file. */
  function InFlight(passes: seq<Pass>, scanner: nat, n: nat): Option<nat>
    requires n <= |passes|
  {
    if n == 0 then None
    else if passes[n - 1].scanner == scanner && passes[n - 1].status.Running? then Some(passes[n - 1].parseStartedAt)
    else InFlight(passes, scanner, n - 1)
  }

  /** `startRefreshPass`: the scanner joins its own parse in flight, if any. */
  function StartPass(s: State): State
    requires s.live.Some?
  {
    var l := s.live.value;
    var parse := InFlight(s.passes, l.scanner, |s.passes|);
    var pass := Pass(l.scanner, l.id, s.clock, if parse.Some? then parse.value else s.clock, Running);
    s.(passes := s.passes + [pass], live := Some(l.(active := Some(|s.passes|))))
  }

  /** `queued.settle(startRefreshPass(...))`. */
  function SettleQueue(s: State, q: nat): State
    requires s.live.Some? && q < |s.adopted|
  {
    StartPass(s).(adopted := s.adopted[q := Some(|s.passes|)])
  }

  /** `refreshStateFor`: a swapped scanner gets a new state, which takes over an orphaned follow-up. */
  function StateFor(s: State, scanner: nat): State {
    if s.live.Some? && s.live.value.scanner == scanner then s
    else
      var swapped := s.(live := Some(RefreshState(s.states, scanner, None, 0, None)), states := s.states + 1);
      if s.live.Some? && s.live.value.queued.Some? && s.live.value.queued.value < |s.adopted|
      then SettleQueue(swapped, s.live.value.queued.value)
      else swapped
  }

  function Called(s: State, afterWrite: bool, target: Target, outcome: Outcome): State {
    s.(requests := s.requests + [Request(afterWrite, s.clock, target, outcome)])
  }

  function StepRead(s: State, scanner: nat, nowMs: int): State {
    var t := StateFor(s, scanner);
    var l := t.live.value;
    if l.active.Some? then Called(t, false, OnPass(l.active.value), Joined)
    else if l.completedAt > 0 && nowMs - l.completedAt < REFRESH_TTL_MS then Called(t, false, NoParse, Skipped)
    else Called(StartPass(t), false, OnPass(|t.passes|), Refreshed)
  }

  function StepWrite(s: State, scanner: nat): State {
    var t := StateFor(s, scanner);
    var l := t.live.value;
    if l.active.None? then Called(StartPass(t), true, OnPass(|t.passes|), Refreshed)
    else if l.queued.Some? then Called(t, true, OnQueue(l.queued.value), Joined)
    else
      var q := |t.adopted|;
      Called(t.(adopted := t.adopted + [None], live := Some(l.(queued := Some(q)))), true, OnQueue(q), Refreshed)
  }

  function WithStatus(s: State, pass: nat, status: Status): State
    requires pass < |s.passes|
  {
    s.(passes := s.passes[pass := s.passes[pass].(status := status)])
  }

  /** `finishRefreshPass`: a pass of a replaced state changes nothing. */
  function StepSettle(s: State, pass: nat, fulfilled: bool, nowMs: int): State
    requires pass < |s.passes|
  {
    var t := WithStatus(s, pass, if fulfilled then Fulfilled(nowMs) else Rejected);
    if t.live.None? || t.live.value.id != s.passes[pass].owner || t.live.value.active != Some(pass) then t
    else
      var l := t.live.value;
      var done := l.(active := None, completedAt := if fulfilled then nowMs else l.completedAt, queued := None);
      var u := t.(live := Some(done));
      if l.queued.Some? && l.queued.value < |t.adopted| then SettleQueue(u, l.queued.value) else u
  }

  predicate Enabled(s: State, e: Event) {
    e.Settle? ==> e.pass < |s.passes| && s.passes[e.pass].status.Running?
  }

  function Step(s: State, e: Event): State
    requires Enabled(s, e)
  {
    var t := s.(clock := s.clock + 1);
    match e
    case Read(scanner, nowMs) => StepRead(t, scanner, nowMs)
    case AfterWrite(scanner) => StepWrite(t, scanner)
    case Settle(pass, fulfilled, nowMs) => StepSettle(t, pass, fulfilled, nowMs)
  }

  // ── The coordinator invariant ───────────────────────────────────────────────

  /** Pass `p` is the live state's, and is running. */
  ghost predicate RunsFor(s: State, p: nat, l: RefreshState) {
    p < |s.passes| && s.passes[p].owner == l.id && s.passes[p].scanner == l.scanner && s.passes[p].status.Running?
  }

  /** The live state's own bookkeeping: one active pass, and a follow-up only while one is active. */
  ghost predicate LiveOk(s: State) {
    s.live.Some? ==>
      var l := s.live.value;
      && l.id < s.states
      && (l.active.Some? ==> RunsFor(s, l.active.value, l))
      && (l.queued.Some? ==> l.active.Some?)
      && (forall p :: 0 <= p < |s.passes| && s.passes[p].owner == l.id && s.passes[p].status.Running? ==> l.active == Some(p))
  }

  ghost predicate FulfilledAt(s: State, p: nat, scanner: nat, atMs: int) {
    p < |s.passes| && s.passes[p].scanner == scanner && s.passes[p].status == Fulfilled(atMs)
  }

  /** The read throttle's stamp is that of a pass by the live scanner that fulfilled then. */
  ghost predicate ThrottleOk(s: State) {
    s.live.Some? && s.live.value.completedAt > 0 ==>
      exists p: nat :: FulfilledAt(s, p, s.live.value.scanner, s.live.value.completedAt)
  }

  /** Every queue promise is the live state's follow-up, or has been handed to a started pass. */
  ghost predicate QueuesOk(s: State) {
    && (forall q :: 0 <= q < |s.adopted| ==> (s.adopted[q].None? <==> s.live.Some? && s.live.value.queued == Some(q)))
    && (forall q :: 0 <= q < |s.adopted| && s.adopted[q].Some? ==> s.adopted[q].value < |s.passes|)
    && (s.live.Some? && s.live.value.queued.Some? ==> s.live.value.queued.value < |s.adopted|)
  }

  ghost predicate PassesOk(s: State) {
    && (forall p :: 0 <= p < |s.passes| ==>
          s.passes[p].owner < s.states && s.passes[p].parseStartedAt <= s.passes[p].startedAt <= s.clock)
    && (forall p, q :: 0 <= p < q < |s.passes| && s.passes[p].status.Running? && s.passes[q].status.Running?
          ==> s.passes[p].owner != s.passes[q].owner)
  }

  /** The pass a request's promise settles with, once known. */
  function PassOf(s: State, r: Request): Option<nat> {
    match r.target
    case OnPass(p) => Some(p)
    case OnQueue(q) => if q < |s.adopted| then s.adopted[q] else None
    case NoParse => None
  }

  /** Nobody's promise is lost, and a write's pass starts at or after the call. */
  ghost predicate RequestOk(s: State, r: Request) {
    && r.calledAt <= s.clock
    && (r.target.OnQueue? ==> r.target.queue < |s.adopted|)
    && (r.target.NoParse? <==> r.outcome == Skipped)
    && (r.target.NoParse? ==> !r.afterWrite)
    && (PassOf(s, r).Some? ==>
          && PassOf(s, r).value < |s.passes|
          && (r.afterWrite ==> s.passes[PassOf(s, r).value].startedAt >= r.calledAt))
  }

  ghost predicate RequestsOk(s: State) {
    forall i :: 0 <= i < |s.requests| ==> RequestOk(s, s.requests[i])
  }

  ghost predicate Inv(s: State) {
    LiveOk(s) && ThrottleOk(s) && QueuesOk(s) && PassesOk(s) && RequestsOk(s)
  }

  lemma {:induction false} InFlightIsRunning(passes: seq<Pass>, scanner: nat, n: nat)
    requires n <= |passes|
    ensures InFlight(passes, scanner, n).Some? <==>
              exists p :: 0 <= p < n && passes[p].scanner == scanner && passes[p].status.Running?
    ensures InFlight(passes, scanner, n).Some? ==>
              exists p :: 0 <= p < n && passes[p].scanner == scanner && passes[p].status.Running?
                          && passes[p].parseStartedAt == InFlight(passes, scanner, n).value
  {
    if n > 0 { InFlightIsRunning(passes, scanner, n - 1); }
  }

  /** Adding passes, and settling only unsettled queue promises with them, keeps every earlier request in order. */
  lemma {:induction false} RequestsStayOk(s: State, t: State, q: nat)
    requires RequestsOk(s) && t.requests == s.requests && t.clock == s.clock
    requires |s.passes| <= |t.passes| && |s.adopted| <= |t.adopted|
    requires forall p :: 0 <= p < |s.passes| ==> t.passes[p].startedAt == s.passes[p].startedAt
    requires forall k :: 0 <= k < |s.adopted| && k != q ==> t.adopted[k] == s.adopted[k]
    requires q < |s.adopted| && t.adopted[q] != s.adopted[q] ==>
               t.adopted[q].Some? && t.adopted[q].value < |t.passes| && t.passes[t.adopted[q].value].startedAt >= s.clock
    ensures RequestsOk(t)
  {
    forall i | 0 <= i < |t.requests| ensures RequestOk(t, t.requests[i]) {
      assert RequestOk(s, s.requests[i]);
    }
  }

  lemma {:induction false} ThrottleStays(s: State, t: State)
    requires ThrottleOk(s)
    requires |s.passes| <= |t.passes|
    requires forall p :: 0 <= p < |s.passes| && !s.passes[p].status.Running? ==> t.passes[p] == s.passes[p]
    requires t.live.Some? && t.live.value.completedAt > 0 ==>
               s.live.Some? && t.live.value.scanner == s.live.value.scanner && t.live.value.completedAt == s.live.value.completedAt
    ensures ThrottleOk(t)
  {
    if t.live.Some? && t.live.value.completedAt > 0 {
      var p: nat :| FulfilledAt(s, p, s.live.value.scanner, s.live.value.completedAt);
      assert FulfilledAt(t, p, t.live.value.scanner, t.live.value.completedAt);
    }
  }

  lemma {:induction false} StartPassKeeps(s: State)
    requires Inv(s) && s.live.Some? && s.live.value.active.None?
    ensures Inv(StartPass(s))
  {
    hide ThrottleOk, RequestsOk;
    InFlightIsRunning(s.passes, s.live.value.scanner, |s.passes|);
    RequestsStayOk(s, StartPass(s), |s.adopted|);
    ThrottleStays(s, StartPass(s));
  }

  /** A state whose follow-up has been taken off it, about to be settled with a new pass. */
  ghost predicate Owes(s: State, q: nat) {
    && q < |s.adopted| && s.adopted[q].None?
    && s.live.Some? && s.live.value.active.None? && s.live.value.queued.None?
    && LiveOk(s) && ThrottleOk(s) && PassesOk(s) && RequestsOk(s)
    && (forall k :: 0 <= k < |s.adopted| && k != q ==> s.adopted[k].Some? && s.adopted[k].value < |s.passes|)
  }

  lemma {:induction false} SettleQueueKeeps(s: State, q: nat)
    requires Owes(s, q)
    ensures Inv(SettleQueue(s, q))
  {
    hide ThrottleOk, RequestsOk;
    InFlightIsRunning(s.passes, s.live.value.scanner, |s.passes|);
    RequestsStayOk(s, SettleQueue(s, q), q);
    ThrottleStays(s, SettleQueue(s, q));
  }

  lemma {:induction false} StateForKeeps(s: State, scanner: nat)
    requires Inv(s)
    ensures Inv(StateFor(s, scanner))
    ensures StateFor(s, scanner).live.Some? && StateFor(s, scanner).live.value.scanner == scanner
    ensures StateFor(s, scanner).clock == s.clock
  {
    hide RequestsOk;
    if !(s.live.Some? && s.live.value.scanner == scanner) {
      var swapped := s.(live := Some(RefreshState(s.states, scanner, None, 0, None)), states := s.states + 1);
      RequestsStayOk(s, swapped, |s.adopted|);
      if s.live.Some? && s.live.value.queued.Some? {
        SettleQueueKeeps(swapped, s.live.value.queued.value);
      }
    }
  }

  lemma {:induction false} CalledKeeps(s: State, afterWrite: bool, target: Target, outcome: Outcome)
    requires Inv(s)
    requires target.NoParse? <==> outcome == Skipped
    requires target.NoParse? ==> !afterWrite
    requires target.OnPass? ==> target.pass < |s.passes| && (afterWrite ==> s.passes[target.pass].startedAt >= s.clock)
    requires target.OnQueue? ==> target.queue < |s.adopted| && s.adopted[target.queue].None?
    ensures Inv(Called(s, afterWrite, target, outcome))
  {
    var t := Called(s, afterWrite, target, outcome);
    ThrottleStays(s, t);
    forall i | 0 <= i < |t.requests| ensures RequestOk(t, t.requests[i]) {
      if i < |s.requests| { assert RequestOk(s, s.requests[i]); }
    }
  }

  lemma {:induction false} NewQueueKeeps(s: State)
    requires Inv(s) && s.live.Some? && s.live.value.active.Some? && s.live.value.queued.None?
    ensures Inv(s.(adopted := s.adopted + [None], live := Some(s.live.value.(queued := Some(|s.adopted|)))))
  {
    hide ThrottleOk, RequestsOk;
    var t := s.(adopted := s.adopted + [None], live := Some(s.live.value.(queued := Some(|s.adopted|))));
    RequestsStayOk(s, t, |s.adopted|);
    ThrottleStays(s, t);
  }

  /** A pass that is not the live state's settles. */
  lemma {:induction false} SettlesElsewhere(s: State, pass: nat, status: Status)
    requires Inv(s) && pass < |s.passes| && s.passes[pass].status.Running? && !status.Running?
    requires s.live.Some? ==> s.live.value.id != s.passes[pass].owner
    ensures Inv(WithStatus(s, pass, status))
  {
    hide RequestsOk, ThrottleOk;
    var t := WithStatus(s, pass, status);
    RequestsStayOk(s, t, |s.adopted|);
    ThrottleStays(s, t);
  }

  /** The live state once its active pass has settled, its follow-up taken off it. */
  function Freed(s: State, pass: nat, fulfilled: bool, nowMs: int): State
    requires pass < |s.passes| && s.live.Some?
  {
    var l := s.live.value;
    WithStatus(s, pass, if fulfilled then Fulfilled(nowMs) else Rejected)
      .(live := Some(l.(active := None, completedAt := if fulfilled then nowMs else l.completedAt, queued := None)))
  }

  lemma {:induction false} SettlesHere(s: State, pass: nat, fulfilled: bool, nowMs: int)
    requires Inv(s) && pass < |s.passes| && s.live.Some? && s.live.value.active == Some(pass)
    ensures var u, q := Freed(s, pass, fulfilled, nowMs), s.live.value.queued;
            if q.None? then Inv(u) else Owes(u, q.value)
  {
    hide RequestsOk, ThrottleOk;
    var t := WithStatus(s, pass, if fulfilled then Fulfilled(nowMs) else Rejected);
    var u := Freed(s, pass, fulfilled, nowMs);
    RequestsStayOk(s, t, |s.adopted|);
    RequestsStayOk(t, u, |s.adopted|);
    ThrottleStays(s, t);
    ThrottleAfterSettle(t, u, pass, fulfilled, nowMs);
  }

  lemma {:induction false} SettleKeeps(s: State, pass: nat, fulfilled: bool, nowMs: int)
    requires Inv(s) && pass < |s.passes| && s.passes[pass].status.Running?
    ensures Inv(StepSettle(s, pass, fulfilled, nowMs))
  {
    var here := s.live.Some? && s.live.value.id == s.passes[pass].owner;
    assert here ==> s.live.value.active == Some(pass);
    assert here && s.live.value.queued.Some? ==> s.live.value.queued.value < |s.adopted|;
    hide Inv, Owes, SettleQueue;
    if here {
      SettlesHere(s, pass, fulfilled, nowMs);
      if s.live.value.queued.Some? { SettleQueueKeeps(Freed(s, pass, fulfilled, nowMs), s.live.value.queued.value); }
    } else {
      SettlesElsewhere(s, pass, if fulfilled then Fulfilled(nowMs) else Rejected);
    }
  }

  lemma {:induction false} ThrottleAfterSettle(t: State, u: State, pass: nat, fulfilled: bool, nowMs: int)
    requires ThrottleOk(t) && t.live.Some? && u.live.Some? && u.passes == t.passes && u.live.value.scanner == t.live.value.scanner
    requires fulfilled ==> FulfilledAt(t, pass, t.live.value.scanner, nowMs)
    requires u.live.value.completedAt == if fulfilled then nowMs else t.live.value.completedAt
    ensures ThrottleOk(u)
  {
    if fulfilled {
      assert FulfilledAt(u, pass, u.live.value.scanner, nowMs);
    } else {
      ThrottleStays(t, u);
    }
  }

  lemma {:induction false} TickKeeps(s: State)
    requires Inv(s)
    ensures Inv(s.(clock := s.clock + 1))
  {
    var t := s.(clock := s.clock + 1);
    ThrottleStays(s, t);
    forall i | 0 <= i < |t.requests| ensures RequestOk(t, t.requests[i]) {
      assert RequestOk(s, s.requests[i]);
    }
  }

  lemma {:induction false} ReadKeeps(s: State, scanner: nat, nowMs: int)
    requires Inv(s)
    ensures Inv(StepRead(s, scanner, nowMs))
  {
    StateForKeeps(s, scanner);
    var u := StateFor(s, scanner);
    hide RequestsOk, ThrottleOk, QueuesOk, StateFor, Called;
    if u.live.value.active.None? {
      StartPassKeeps(u);
      CalledKeeps(StartPass(u), false, OnPass(|u.passes|), Refreshed);
      CalledKeeps(u, false, NoParse, Skipped);
    } else {
      CalledKeeps(u, false, OnPass(u.live.value.active.value), Joined);
    }
  }

  lemma {:induction false} WriteKeeps(s: State, scanner: nat)
    requires Inv(s)
    ensures Inv(StepWrite(s, scanner))
  {
    StateForKeeps(s, scanner);
    var u := StateFor(s, scanner);
    hide RequestsOk, ThrottleOk, StateFor, Called;
    if u.live.value.active.None? {
      StartPassKeeps(u);
      CalledKeeps(StartPass(u), true, OnPass(|u.passes|), Refreshed);
    } else if u.live.value.queued.Some? {
      CalledKeeps(u, true, OnQueue(u.live.value.queued.value), Joined);
    } else {
      NewQueueKeeps(u);
      var v := u.(adopted := u.adopted + [None], live := Some(u.live.value.(queued := Some(|u.adopted|))));
      CalledKeeps(v, true, OnQueue(|u.adopted|), Refreshed);
    }
  }

  lemma {:induction false} StepKeepsInv(s: State, e: Event)
    requires Inv(s) && Enabled(s, e)
    ensures Inv(Step(s, e))
  {
    hide Inv, StepRead, StepWrite, StepSettle;
    TickKeeps(s);
    var t := s.(clock := s.clock + 1);
    match e
    case Settle(pass, fulfilled, nowMs) => SettleKeeps(t, pass, fulfilled, nowMs);
    case Read(scanner, nowMs) => ReadKeeps(t, scanner, nowMs);
    case AfterWrite(scanner) => WriteKeeps(t, scanner);
  }

  // ── Runs ────────────────────────────────────────────────────────────────────

  predicate EnabledRun(s: State, es: seq<Event>)
    decreases |es|
  {
    es == [] || (Enabled(s, es[0]) && EnabledRun(Step(s, es[0]), es[1..]))
  }

  function Run(s: State, es: seq<Event>): State
    requires EnabledRun(s, es)
    decreases |es|
  {
    if es == [] then s else Run(Step(s, es[0]), es[1..])
  }

  lemma {:induction false} RunKeepsInv(s: State, es: seq<Event>)
    requires Inv(s) && EnabledRun(s, es)
    ensures Inv(Run(s, es))
    decreases |es|
  {
    if es != [] {
      StepKeepsInv(s, es[0]);
      RunKeepsInv(Step(s, es[0]), es[1..]);
    }
  }

  /** In every run, whatever scanners callers use: no waiter is lost, and each live state has one active pass. */
  lemma {:induction false} NoWaiterIsLost(es: seq<Event>, i: nat)
    requires EnabledRun(INITIAL, es) && i < |Run(INITIAL, es).requests|
    ensures var s := Run(INITIAL, es);
            var r := s.requests[i];
            || (r.outcome == Skipped && !r.afterWrite)
            || (PassOf(s, r).Some? && PassOf(s, r).value < |s.passes|)
            || (s.live.Some? && s.live.value.queued.Some? && r.target == OnQueue(s.live.value.queued.value)
                && s.live.value.active.Some? && s.live.value.active.value < |s.passes|
                && s.passes[s.live.value.active.value].status.Running?)
  {
    RunKeepsInv(INITIAL, es);
  }

  /** In every run no state, live or replaced, ever has two passes running, and a follow-up waits only behind a running one. */
  lemma {:induction false} OneActivePassPerState(es: seq<Event>)
    requires EnabledRun(INITIAL, es)
    ensures var s := Run(INITIAL, es);
            && (forall p, q :: 0 <= p < q < |s.passes| && s.passes[p].status.Running? && s.passes[q].status.Running?
                  ==> s.passes[p].owner != s.passes[q].owner)
            && (s.live.Some? && s.live.value.queued.Some? ==>
                  s.live.value.active.Some? && RunsFor(s, s.live.value.active.value, s.live.value))
  {
    RunKeepsInv(INITIAL, es);
  }

  /** When the live state's pass settles, either way, every waiter follows a started pass and the follow-up slot is free. */
  lemma {:induction false} SettlingFreesEveryWaiter(s: State, fulfilled: bool, nowMs: int, i: nat)
    requires Inv(s) && s.live.Some? && s.live.value.active.Some? && i < |s.requests|
    ensures var t := Step(s, Settle(s.live.value.active.value, fulfilled, nowMs));
            && t.requests == s.requests && t.live.Some? && t.live.value.queued.None?
            && (t.live.value.active.Some? <==> s.live.value.queued.Some?)
            && (PassOf(t, s.requests[i]).Some? || s.requests[i].outcome == Skipped)
  {
    StepKeepsInv(s, Settle(s.live.value.active.value, fulfilled, nowMs));
    var t := Step(s, Settle(s.live.value.active.value, fulfilled, nowMs));
    hide LiveOk, ThrottleOk, PassesOk;
    assert RequestOk(t, t.requests[i]);
  }

  // ── The post-write guarantee ────────────────────────────────────────────────

  /** The scanner an event names; settlements name none. */
  function ScannerOf(e: Event): Option<nat> {
    match e
    case Read(scanner, _) => Some(scanner)
    case AfterWrite(scanner) => Some(scanner)
    case Settle(_, _, _) => None
  }

  /** The event does not go back to a scanner that was swapped out while one of its parses still runs. */
  ghost predicate NoReturn(s: State, e: Event) {
    var k := ScannerOf(e);
    k.Some? && !(s.live.Some? && s.live.value.scanner == k.value) ==>
      forall p :: 0 <= p < |s.passes| && s.passes[p].scanner == k.value ==> !s.passes[p].status.Running?
  }

  ghost predicate NoReturnRun(s: State, es: seq<Event>)
    requires EnabledRun(s, es)
    decreases |es|
  {
    es == [] || (NoReturn(s, es[0]) && NoReturnRun(Step(s, es[0]), es[1..]))
  }

  /** The live scanner's running parses belong to the live state, and every parse started with its pass. */
  ghost predicate FreshParses(s: State) {
    && (s.live.Some? ==>
          forall p :: 0 <= p < |s.passes| && s.passes[p].scanner == s.live.value.scanner && s.passes[p].status.Running?
            ==> s.passes[p].owner == s.live.value.id)
    && (forall p :: 0 <= p < |s.passes| ==> s.passes[p].parseStartedAt == s.passes[p].startedAt)
  }

  lemma {:induction false} StartPassFresh(s: State)
    requires FreshParses(s) && LiveOk(s) && s.live.Some? && s.live.value.active.None?
    ensures FreshParses(StartPass(s))
  {
    InFlightIsRunning(s.passes, s.live.value.scanner, |s.passes|);
  }

  lemma {:induction false} StepKeepsFresh(s: State, e: Event)
    requires Inv(s) && FreshParses(s) && Enabled(s, e) && NoReturn(s, e)
    ensures FreshParses(Step(s, e))
  {
    hide Inv, FreshParses, NoReturn, StepRead, StepWrite, StepSettle;
    TickKeeps(s);
    TickKeepsFresh(s, e);
    var t := s.(clock := s.clock + 1);
    match e
    case Settle(pass, fulfilled, nowMs) => SettleKeepsFresh(t, pass, fulfilled, nowMs);
    case Read(scanner, nowMs) => CallKeepsFresh(t, e, scanner);
    case AfterWrite(scanner) => CallKeepsFresh(t, e, scanner);
  }

  lemma {:induction false} TickKeepsFresh(s: State, e: Event)
    requires FreshParses(s) && NoReturn(s, e)
    ensures FreshParses(s.(clock := s.clock + 1)) && NoReturn(s.(clock := s.clock + 1), e)
  {
  }

  lemma {:induction false} CallKeepsFresh(t: State, e: Event, scanner: nat)
    requires Inv(t) && FreshParses(t) && ScannerOf(e) == Some(scanner) && NoReturn(t, e)
    ensures e.Read? ==> FreshParses(StepRead(t, scanner, e.nowMs))
    ensures e.AfterWrite? ==> FreshParses(StepWrite(t, scanner))
  {
    FreshAfterCall(t, scanner);
    hide Inv, StateFor, StartPass;
  }

  lemma {:induction false} SettleKeepsFresh(s: State, pass: nat, fulfilled: bool, nowMs: int)
    requires Inv(s) && FreshParses(s) && pass < |s.passes| && s.passes[pass].status.Running?
    ensures FreshParses(StepSettle(s, pass, fulfilled, nowMs))
  {
    hide RequestsOk, QueuesOk, ThrottleOk, PassesOk;
    var t := WithStatus(s, pass, if fulfilled then Fulfilled(nowMs) else Rejected);
    if s.live.Some? && s.live.value.id == s.passes[pass].owner && s.live.value.active == Some(pass) {
      var l := s.live.value;
      var u := t.(live := Some(l.(active := None, completedAt := if fulfilled then nowMs else l.completedAt, queued := None)));
      FreshAfterSettle(s, pass, u);
    }
  }

  /** Once the live state's one active pass has settled, its scanner runs nothing, so the follow-up parses afresh. */
  lemma {:induction false} FreshAfterSettle(s: State, pass: nat, v: State)
    requires LiveOk(s) && FreshParses(s) && pass < |s.passes| && s.live.Some? && v.live.Some?
    requires s.live.value.active == Some(pass)
    requires v.live.value.scanner == s.live.value.scanner && v.live.value.id == s.live.value.id
    requires |v.passes| == |s.passes| && !v.passes[pass].status.Running? && FreshParses(v)
    requires forall p :: 0 <= p < |s.passes| && p != pass ==> v.passes[p] == s.passes[p]
    ensures FreshParses(StartPass(v))
  {
    InFlightIsRunning(v.passes, v.live.value.scanner, |v.passes|);
  }

  lemma {:induction false} FreshAfterCall(t: State, scanner: nat)
    requires LiveOk(t) && PassesOk(t) && FreshParses(t)
    requires !(t.live.Some? && t.live.value.scanner == scanner) ==>
               forall p :: 0 <= p < |t.passes| && t.passes[p].scanner == scanner ==> !t.passes[p].status.Running?
    ensures var u := StateFor(t, scanner);
            u.live.Some? && FreshParses(u) && (u.live.value.active.None? ==> FreshParses(StartPass(u)))
  {
    InFlightIsRunning(t.passes, scanner, |t.passes|);
    var u := StateFor(t, scanner);
    if t.live.Some? && t.live.value.scanner == scanner {
      if t.live.value.active.None? { StartPassFresh(t); }
    } else {
      var swapped := t.(live := Some(RefreshState(t.states, scanner, None, 0, None)), states := t.states + 1);
      assert FreshParses(swapped);
    }
  }

  lemma {:induction false} RunKeepsFresh(s: State, es: seq<Event>)
    requires Inv(s) && FreshParses(s) && EnabledRun(s, es) && NoReturnRun(s, es)
    ensures Inv(Run(s, es)) && FreshParses(Run(s, es))
    decreases |es|
  {
    if es != [] {
      StepKeepsInv(s, es[0]);
      StepKeepsFresh(s, es[0]);
      RunKeepsFresh(Step(s, es[0]), es[1..]);
    }
  }

  /**
   * A fulfilled `refreshFileAfterWrite` is covered by a parse that started at or after the call,
   * even if a parse was running, that parse rejects, or the scanner is swapped while it waits.
   */
  lemma {:induction false} WriteIsCovered(es: seq<Event>, i: nat)
    requires EnabledRun(INITIAL, es) && NoReturnRun(INITIAL, es) && i < |Run(INITIAL, es).requests|
    ensures var s := Run(INITIAL, es);
            var r := s.requests[i];
            r.afterWrite && PassOf(s, r).Some? ==>
              && PassOf(s, r).value < |s.passes|
              && s.passes[PassOf(s, r).value].parseStartedAt >= r.calledAt
  {
    RunKeepsFresh(INITIAL, es);
  }

  // ── Exactly which write is covered ──────────────────────────────────────────

  /** The scanner runs no pass for the file, other than one this event settles. */
  ghost predicate RunsNothing(s: State, scanner: nat, e: Event) {
    forall p :: 0 <= p < |s.passes| && s.passes[p].scanner == scanner && s.passes[p].status.Running? ==> e.Settle? && e.pass == p
  }

  /** Every parse but the active pass's started before each call that waits for the follow-up. */
  ghost predicate WaitersAreLater(s: State) {
    s.live.Some? && s.live.value.queued.Some? ==>
      forall i, p :: 0 <= i < |s.requests| && s.requests[i].target == OnQueue(s.live.value.queued.value)
                     && 0 <= p < |s.passes| && s.live.value.active != Some(p)
        ==> s.passes[p].parseStartedAt < s.requests[i].calledAt
  }

  lemma {:induction false} TickKeepsLater(s: State)
    requires Inv(s) && WaitersAreLater(s)
    ensures WaitersAreLater(s.(clock := s.clock + 1))
    ensures forall p :: 0 <= p < |s.passes| ==> s.passes[p].parseStartedAt < s.clock + 1
  {
  }

  lemma {:induction false} WriteKeepsLater(s: State, scanner: nat)
    requires Inv(s) && WaitersAreLater(s) && (forall p :: 0 <= p < |s.passes| ==> s.passes[p].parseStartedAt < s.clock)
    ensures WaitersAreLater(StepWrite(s, scanner))
  {
    StateForKeeps(s, scanner);
    var u := StateFor(s, scanner);
    assert WaitersAreLater(u);
    assert forall p :: 0 <= p < |u.passes| && u.live.value.active != Some(p) ==> u.passes[p].parseStartedAt < u.clock;
    assert forall i :: 0 <= i < |u.requests| && u.requests[i].target.OnQueue? ==> u.requests[i].target.queue < |u.adopted| by {
      assert forall i :: 0 <= i < |u.requests| ==> RequestOk(u, u.requests[i]);
    }
    hide RequestsOk, ThrottleOk, PassesOk, QueuesOk, StateFor, StartPass;
  }

  lemma {:induction false} ReadKeepsLater(s: State, scanner: nat, nowMs: int)
    requires Inv(s) && WaitersAreLater(s)
    ensures WaitersAreLater(StepRead(s, scanner, nowMs))
  {
    StateForKeeps(s, scanner);
    var u := StateFor(s, scanner);
    assert WaitersAreLater(u);
    hide RequestsOk, ThrottleOk, PassesOk, QueuesOk, StateFor;
  }

  lemma {:induction false} SettleKeepsLater(s: State, pass: nat, fulfilled: bool, nowMs: int)
    requires Inv(s) && WaitersAreLater(s) && pass < |s.passes|
    ensures WaitersAreLater(StepSettle(s, pass, fulfilled, nowMs))
  {
    hide RequestsOk, ThrottleOk, PassesOk, InFlight;
    var t := WithStatus(s, pass, if fulfilled then Fulfilled(nowMs) else Rejected);
    assert WaitersAreLater(t);
    hide QueuesOk;
  }

  lemma {:induction false} StepKeepsLater(s: State, e: Event)
    requires Inv(s) && WaitersAreLater(s) && Enabled(s, e)
    ensures WaitersAreLater(Step(s, e))
  {
    hide Inv, WaitersAreLater, StepRead, StepWrite, StepSettle;
    TickKeeps(s);
    TickKeepsLater(s);
    var t := s.(clock := s.clock + 1);
    match e
    case AfterWrite(scanner) => WriteKeepsLater(t, scanner);
    case Read(scanner, nowMs) => ReadKeepsLater(t, scanner, nowMs);
    case Settle(pass, fulfilled, nowMs) => SettleKeepsLater(t, pass, fulfilled, nowMs);
  }

  lemma {:induction false} RunKeepsLater(s: State, es: seq<Event>)
    requires Inv(s) && WaitersAreLater(s) && EnabledRun(s, es)
    ensures Inv(Run(s, es)) && WaitersAreLater(Run(s, es))
    decreases |es|
  {
    if es != [] {
      hide Inv, WaitersAreLater, Step;
      StepKeepsInv(s, es[0]);
      StepKeepsLater(s, es[0]);
      RunKeepsLater(Step(s, es[0]), es[1..]);
    }
  }

  /** A pass started now covers a call that every parse its scanner still runs precedes, exactly if it runs none. */
  lemma {:induction false} PassCoversIff(u: State, calledAt: nat)
    requires u.live.Some? && calledAt <= u.clock
    requires forall p :: 0 <= p < |u.passes| && u.passes[p].scanner == u.live.value.scanner && u.passes[p].status.Running? ==>
               u.passes[p].parseStartedAt < calledAt
    ensures StartPass(u).passes[|u.passes|].parseStartedAt >= calledAt <==>
              (forall p :: 0 <= p < |u.passes| && u.passes[p].scanner == u.live.value.scanner ==> !u.passes[p].status.Running?)
  {
    InFlightIsRunning(u.passes, u.live.value.scanner, |u.passes|);
  }

  /** The step gives request `i` its pass: as a new request, or by handing its follow-up over. */
  ghost predicate GivesPass(s: State, t: State, i: nat) {
    && i < |t.requests| && t.requests[i].afterWrite && PassOf(t, t.requests[i]).Some?
    && (i < |s.requests| ==> PassOf(s, s.requests[i]).None?)
  }

  /** Where the pass of a request stands against its call, at the step that gives it. */
  ghost predicate CoveredIff(s: State, t: State, e: Event, i: nat)
    requires GivesPass(s, t, i)
  {
    var pass := PassOf(t, t.requests[i]).value;
    pass < |t.passes| &&
    (t.passes[pass].parseStartedAt >= t.requests[i].calledAt <==> RunsNothing(s, t.passes[pass].scanner, e))
  }

  lemma {:induction false} SwapCoversIff(s: State, e: Event, scanner: nat, i: nat)
    requires Inv(s) && WaitersAreLater(s) && !e.Settle? && i < |s.requests|
    requires GivesPass(s, StateFor(s, scanner), i)
    ensures CoveredIff(s, StateFor(s, scanner), e, i)
  {
    var swapped := s.(live := Some(RefreshState(s.states, scanner, None, 0, None)), states := s.states + 1);
    assert RequestOk(s, s.requests[i]);
    hide RequestsOk, ThrottleOk;
    PassCoversIff(swapped, s.requests[i].calledAt);
    hide InFlight;
  }

  lemma {:induction false} SettleCoversIff(s: State, e: Event, i: nat)
    requires Inv(s) && WaitersAreLater(s) && Enabled(s, e) && e.Settle? && i < |s.requests|
    requires GivesPass(s, StepSettle(s, e.pass, e.fulfilled, e.nowMs), i)
    ensures CoveredIff(s, StepSettle(s, e.pass, e.fulfilled, e.nowMs), e, i)
  {
    assert RequestOk(s, s.requests[i]);
    hide RequestsOk, ThrottleOk;
    var l := s.live.value;
    var t := WithStatus(s, e.pass, if e.fulfilled then Fulfilled(e.nowMs) else Rejected);
    var u := t.(live := Some(l.(active := None, completedAt := if e.fulfilled then e.nowMs else l.completedAt, queued := None)));
    if s.live.Some? && l.id == s.passes[e.pass].owner && l.active == Some(e.pass) && l.queued.Some? {
      assert forall p :: 0 <= p < |s.passes| ==>
        u.passes[p].scanner == s.passes[p].scanner && u.passes[p].parseStartedAt == s.passes[p].parseStartedAt
        && (u.passes[p].status.Running? <==> s.passes[p].status.Running? && p != e.pass);
      PassCoversIff(u, s.requests[i].calledAt);
      assert StepSettle(s, e.pass, e.fulfilled, e.nowMs) == SettleQueue(u, l.queued.value);
    }
    hide InFlight;
  }

  lemma {:induction false} ReadCoversIff(s: State, e: Event, i: nat)
    requires Inv(s) && WaitersAreLater(s) && e.Read?
    requires GivesPass(s, StepRead(s, e.scanner, e.nowMs), i)
    ensures CoveredIff(s, StepRead(s, e.scanner, e.nowMs), e, i)
  {
    StateForKeeps(s, e.scanner);
    var u := StateFor(s, e.scanner);
    assert i < |s.requests| && u.requests == s.requests && u.requests[i] == StepRead(s, e.scanner, e.nowMs).requests[i];
    assert RequestOk(u, u.requests[i]);
    hide Inv, WaitersAreLater, StateFor, CoveredIff, RunsNothing;
    assert GivesPass(s, u, i);
    SwapCoversIff(s, e, e.scanner, i);
    CoveredStays(s, u, StepRead(s, e.scanner, e.nowMs), e, i);
  }

  /** What a step gave request `i` is not undone by adding passes and requests. */
  lemma {:induction false} CoveredStays(s: State, u: State, t: State, e: Event, i: nat)
    requires GivesPass(s, u, i) && CoveredIff(s, u, e, i) && u.passes <= t.passes && u.requests <= t.requests
    requires u.adopted <= t.adopted
    ensures GivesPass(s, t, i) && CoveredIff(s, t, e, i)
  {
  }

  lemma {:induction false} WriteCoversIff(s: State, e: Event, i: nat)
    requires Inv(s) && WaitersAreLater(s) && e.AfterWrite?
    requires forall p :: 0 <= p < |s.passes| ==> s.passes[p].parseStartedAt < s.clock
    requires GivesPass(s, StepWrite(s, e.scanner), i)
    ensures CoveredIff(s, StepWrite(s, e.scanner), e, i)
  {
    StateForKeeps(s, e.scanner);
    var u, t := StateFor(s, e.scanner), StepWrite(s, e.scanner);
    assert u.requests == s.requests && u.clock == s.clock;
    assert u.live.value.active.None? ==> u.passes == s.passes;
    if i < |s.requests| {
      assert RequestOk(u, u.requests[i]);
      hide Inv, WaitersAreLater, StateFor, CoveredIff, RunsNothing;
      assert GivesPass(s, u, i);
      SwapCoversIff(s, e, e.scanner, i);
      CoveredStays(s, u, t, e, i);
    } else {
      hide Inv, WaitersAreLater, StateFor, InFlight;
      if u.live.value.active.None? { PassCoversIff(u, u.clock); }
    }
  }

  /**
   * Exactly which write is covered by a parse that started at or after its call, in any run: when its pass
   * starts, at the call or once its follow-up's turn comes, its scanner runs no other pass for the file.
   */
  lemma {:induction false} WriteIsCoveredIff(es: seq<Event>, e: Event, i: nat)
    requires EnabledRun(INITIAL, es) && Enabled(Run(INITIAL, es), e)
    requires GivesPass(Run(INITIAL, es), Step(Run(INITIAL, es), e), i)
    ensures CoveredIff(Run(INITIAL, es), Step(Run(INITIAL, es), e), e, i)
  {
    RunKeepsLater(INITIAL, es);
    hide Run, EnabledRun;
    StepCoversIff(Run(INITIAL, es), e, i);
  }

  lemma {:induction false} StepCoversIff(s: State, e: Event, i: nat)
    requires Inv(s) && WaitersAreLater(s) && Enabled(s, e) && GivesPass(s, Step(s, e), i)
    ensures CoveredIff(s, Step(s, e), e, i)
  {
    hide Inv, WaitersAreLater, GivesPass, CoveredIff, StepRead, StepWrite, StepSettle;
    TickKeeps(s);
    TickKeepsLater(s);
    var t := s.(clock := s.clock + 1);
    if e.Settle? { SettleCallsNone(t, e); }
    TickTellsNothing(s, t, Step(s, e), e, i);
    match e
    case Read(scanner, nowMs) => ReadCoversIff(t, e, i);
    case AfterWrite(scanner) => WriteCoversIff(t, e, i);
    case Settle(pass, fulfilled, nowMs) => SettleCoversIff(t, e, i);
  }

  lemma {:induction false} TickTellsNothing(s: State, t: State, v: State, e: Event, i: nat)
    requires t == s.(clock := t.clock) && GivesPass(s, v, i)
    ensures GivesPass(t, v, i) && (CoveredIff(t, v, e, i) ==> CoveredIff(s, v, e, i))
  {
  }

  lemma {:induction false} SettleCallsNone(s: State, e: Event)
    requires Enabled(s, e) && e.Settle?
    ensures var t := StepSettle(s, e.pass, e.fulfilled, e.nowMs);
            t.requests == s.requests && forall i: nat :: GivesPass(s, t, i) ==> i < |s.requests|
  {
  }

  /**
   * Without that assumption the guarantee fails: a parse runs on scanner 0, the file is asked for
   * on scanner 1, and a write then returns to scanner 0 and is handed the old parse.
   */
  lemma {:induction false} ReturningWriteGetsOldParse()
    ensures var s := Step(Step(Step(Step(INITIAL, AfterWrite(0)), Read(1, 0)), AfterWrite(0)), Settle(2, true, 1));
            && s.requests[2].afterWrite && s.requests[2].target == OnPass(2)
            && s.passes[2].status == Fulfilled(1)
            && s.passes[2].parseStartedAt < s.requests[2].calledAt
  {
    var s1 := Step(INITIAL, AfterWrite(0));
    assert s1.passes == [Pass(0, 0, 1, 1, Running)];
    var s2 := Step(s1, Read(1, 0));
    assert InFlight(s1.passes, 1, 1) == InFlight(s1.passes, 1, 0) == None;
    assert s2.passes == [Pass(0, 0, 1, 1, Running), Pass(1, 1, 2, 2, Running)];
    var s3 := Step(s2, AfterWrite(0));
    assert InFlight(s2.passes, 0, 2) == InFlight(s2.passes, 0, 1) == Some(1);
    assert s3.passes == s2.passes + [Pass(0, 2, 3, 1, Running)];
  }

  // ── Bursts and the read throttle ────────────────────────────────────────────

  function Writes(s: State, scanner: nat, k: nat): State {
    if k == 0 then s else Step(Writes(s, scanner, k - 1), AfterWrite(scanner))
  }

  /** One write during a pass only adds a request that follows the shared queue promise. */
  lemma {:induction false} WriteDuringPass(s: State, scanner: nat)
    requires Inv(s) && s.live.Some? && s.live.value.scanner == scanner && s.live.value.active.Some?
    ensures var t := Step(s, AfterWrite(scanner));
            && Inv(t) && t.passes == s.passes && t.live.Some? && t.live.value.queued.Some?
            && t.live.value.scanner == scanner && t.live.value.active == s.live.value.active && t.live.value.id == s.live.value.id
            && (s.live.value.queued.Some? ==> t.live.value.queued == s.live.value.queued)
            && |t.requests| == |s.requests| + 1 && t.requests[..|s.requests|] == s.requests
            && t.requests[|s.requests|].target == OnQueue(t.live.value.queued.value)
  {
    StepKeepsInv(s, AfterWrite(scanner));
    hide Inv;
  }

  /** Any number of writes during a pass share one queue promise and start nothing. */
  lemma {:induction false} BurstSharesOneQueue(s: State, scanner: nat, k: nat)
    requires Inv(s) && s.live.Some? && s.live.value.scanner == scanner && s.live.value.active.Some? && k > 0
    ensures var t := Writes(s, scanner, k);
            && Inv(t) && t.passes == s.passes && t.live.Some? && t.live.value.queued.Some?
            && t.live.value.scanner == scanner && t.live.value.active == s.live.value.active && t.live.value.id == s.live.value.id
            && |t.requests| == |s.requests| + k
            && forall i :: |s.requests| <= i < |t.requests| ==> t.requests[i].target == OnQueue(t.live.value.queued.value)
  {
    hide Inv, Step;
    var r := Writes(s, scanner, k - 1);
    if k > 1 { BurstSharesOneQueue(s, scanner, k - 1); }
    WriteDuringPass(r, scanner);
    var t := Writes(s, scanner, k);
    assert forall i :: |s.requests| <= i < |r.requests| ==> t.requests[i] == t.requests[..|r.requests|][i];
  }

  /** When the pass settles, fulfilled or not, the whole burst costs exactly one more pass, which all of them get. */
  lemma {:induction false} BurstCostsOnePass(s: State, scanner: nat, k: nat, fulfilled: bool, nowMs: int)
    requires Inv(s) && s.live.Some? && s.live.value.scanner == scanner && s.live.value.active.Some? && k > 0
    requires Enabled(Writes(s, scanner, k), Settle(s.live.value.active.value, fulfilled, nowMs))
    ensures var t := Step(Writes(s, scanner, k), Settle(s.live.value.active.value, fulfilled, nowMs));
            && |t.passes| == |s.passes| + 1
            && t.live.Some? && t.live.value.active == Some(|s.passes|) && t.live.value.queued.None?
            && |t.requests| == |s.requests| + k
            && forall i :: |s.requests| <= i < |t.requests| ==> PassOf(t, t.requests[i]) == Some(|s.passes|)
  {
    BurstSharesOneQueue(s, scanner, k);
  }

  /** A read is skipped only when a parse by the scanner it asked fulfilled less than the TTL ago. */
  lemma {:induction false} SkipIsJustified(es: seq<Event>, scanner: nat, nowMs: int)
    requires EnabledRun(INITIAL, es)
    ensures var s := Run(INITIAL, es);
            var t := Step(s, Read(scanner, nowMs));
            |t.requests| == |s.requests| + 1
            && (t.requests[|s.requests|].outcome == Skipped ==>
                  exists p: nat, atMs: int :: FulfilledAt(s, p, scanner, atMs) && nowMs - atMs < REFRESH_TTL_MS)
  {
    RunKeepsInv(INITIAL, es);
    hide LiveOk, QueuesOk, PassesOk, RequestsOk, Run;
  }

  function Reads(s: State, scanner: nat, times: seq<int>, n: nat): State
    requires n <= |times|
  {
    if n == 0 then s else Step(Reads(s, scanner, times, n - 1), Read(scanner, times[n - 1]))
  }

  /** Stacked reads within the TTL of a fulfilled pass start nothing, however many. */
  lemma {:induction false} ReadsWithinTtlStartNothing(s: State, scanner: nat, times: seq<int>, n: nat)
    requires n <= |times| && s.live.Some? && s.live.value.scanner == scanner && s.live.value.active.None?
    requires s.live.value.completedAt > 0 && forall k :: 0 <= k < n ==> times[k] - s.live.value.completedAt < REFRESH_TTL_MS
    ensures var t := Reads(s, scanner, times, n);
            && t.passes == s.passes && t.live == s.live && |t.requests| == |s.requests| + n
            && forall i :: |s.requests| <= i < |t.requests| ==> t.requests[i].outcome == Skipped
  {
    if n > 0 { ReadsWithinTtlStartNothing(s, scanner, times, n - 1); }
  }

  /** Any other read of an idle file starts a pass: past the TTL, or when nothing but rejections has been seen. */
  lemma {:induction false} OtherReadsParse(s: State, scanner: nat, nowMs: int)
    requires s.live.Some? && s.live.value.scanner == scanner && s.live.value.active.None?
    requires s.live.value.completedAt <= 0 || nowMs - s.live.value.completedAt >= REFRESH_TTL_MS
    ensures var t := Step(s, Read(scanner, nowMs));
            |t.passes| == |s.passes| + 1 && t.live.value.active == Some(|s.passes|)
            && t.requests == s.requests + [Request(false, s.clock + 1, OnPass(|s.passes|), Refreshed)]
  {
    hide InFlight;
  }

  /** A rejected pass leaves the throttle as it was. */
  lemma {:induction false} RejectionDoesNotThrottle(s: State, nowMs: int)
    requires Inv(s) && s.live.Some? && s.live.value.active.Some?
    ensures Step(s, Settle(s.live.value.active.value, false, nowMs)).live.value.completedAt == s.live.value.completedAt
    ensures Step(s, Settle(s.live.value.active.value, true, nowMs)).live.value.completedAt == nowMs
  {
    hide ThrottleOk, RequestsOk, QueuesOk, PassesOk, InFlight;
  }

  // ── The coordinator object ──────────────────────────────────────────────────

  /** The coordinator of one file; `settled`-style promises are the numbered passes and queue promises. */
  class FileRefresh {
    var clock: nat
    var states: nat
    var live: Option<RefreshState>
    var passes: seq<Pass>
    var adopted: seq<Option<nat>>
    var requests: seq<Request>

    constructor ()
      ensures View() == INITIAL
    {
      clock, states, live, passes, adopted, requests := 0, 0, None, [], [], [];
    }

    function View(): State
      reads this
    {
      State(clock, states, live, passes, adopted, requests)
    }

    method StartRefreshPass() returns (pass: nat)
      requires live.Some?
      modifies this`live, this`passes
      ensures View() == StartPass(old(View()))
      ensures pass == |old(passes)| && requests == old(requests) && clock == old(clock)
    {
      pass := |passes|;
      var parse := InFlight(passes, live.value.scanner, |passes|);
      var startedAt := clock;
      if parse.Some? { startedAt := parse.value; }
      passes := passes + [Pass(live.value.scanner, live.value.id, clock, startedAt, Running)];
      live := Some(live.value.(active := Some(pass)));
    }

    method RefreshStateFor(scanner: nat)
      modifies this`live, this`passes, this`states, this`adopted
      ensures View() == StateFor(old(View()), scanner)
      ensures live.Some? && live.value.scanner == scanner
    {
      if live.Some? && live.value.scanner == scanner { return; }
      var previous := live;
      live, states := Some(RefreshState(states, scanner, None, 0, None)), states + 1;
      if previous.Some? && previous.value.queued.Some? && previous.value.queued.value < |adopted| {
        var pass := StartRefreshPass();
        adopted := adopted[previous.value.queued.value := Some(pass)];
      }
    }

    method RefreshFileForRead(scanner: nat, nowMs: int) returns (target: Target, outcome: Outcome)
      modifies this
      ensures View() == Step(old(View()), Read(scanner, nowMs))
      ensures |requests| == |old(requests)| + 1 && requests[|old(requests)|] == Request(false, clock, target, outcome)
    {
      hide StartPass, StateFor;
      clock := clock + 1;
      RefreshStateFor(scanner);
      if live.value.active.Some? {
        target, outcome := OnPass(live.value.active.value), Joined;
      } else if live.value.completedAt > 0 && nowMs - live.value.completedAt < REFRESH_TTL_MS {
        target, outcome := NoParse, Skipped;
      } else {
        var pass := StartRefreshPass();
        target, outcome := OnPass(pass), Refreshed;
      }
      requests := requests + [Request(false, clock, target, outcome)];
    }

    method RefreshFileAfterWrite(scanner: nat) returns (target: Target, outcome: Outcome)
      modifies this
      ensures View() == Step(old(View()), AfterWrite(scanner))
      ensures |requests| == |old(requests)| + 1 && requests[|old(requests)|] == Request(true, clock, target, outcome)
    {
      clock := clock + 1;
      RefreshStateFor(scanner);
      if live.value.active.None? {
        var pass := StartRefreshPass();
        target, outcome := OnPass(pass), Refreshed;
      } else if live.value.queued.Some? {
        target, outcome := OnQueue(live.value.queued.value), Joined;
      } else {
        var queue := QueueRefreshPass();
        target, outcome := OnQueue(queue), Refreshed;
      }
      requests := requests + [Request(true, clock, target, outcome)];
    }

    method QueueRefreshPass() returns (queue: nat)
      requires live.Some?
      modifies this`live, this`adopted
      ensures queue == |old(adopted)| && adopted == old(adopted) + [None]
      ensures live == Some(old(live).value.(queued := Some(queue)))
    {
      queue := |adopted|;
      adopted := adopted + [None];
      live := Some(live.value.(queued := Some(queue)));
    }

    method FinishRefreshPass(pass: nat, fulfilled: bool, nowMs: int)
      requires Enabled(View(), Settle(pass, fulfilled, nowMs))
      modifies this
      ensures View() == Step(old(View()), Settle(pass, fulfilled, nowMs))
    {
      clock := clock + 1;
      var owner := passes[pass].owner;
      passes := passes[pass := passes[pass].(status := if fulfilled then Fulfilled(nowMs) else Rejected)];
      if live.None? || live.value.id != owner || live.value.active != Some(pass) { return; }
      live := Some(live.value.(active := None));
      if fulfilled { live := Some(live.value.(completedAt := nowMs)); }
      var queued := live.value.queued;
      live := Some(live.value.(queued := None));
      if queued.Some? && queued.value < |adopted| {
        var followUp := StartRefreshPass();
        adopted := adopted[queued.value := Some(followUp)];
      }
    }
  }
}
