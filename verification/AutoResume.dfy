/**
 * Boot auto-resume (src/session-registry-boot.ts:331-463, src/services/sessions/autoResumeOnBoot.ts):
 * history probes, the plan, and the resumes, never more than two of either in flight.
 *
 * Which task in flight settles next, how many settle during a wait, and when the server starts
 * closing are free choices; how a row's probe and resume turn out is given with the row.
 */
module AutoResume {

  const CONCURRENCY := 2
  const MAX_ATTEMPTS := 5

  /** `skip`: a reason other than a missing history keeps the row for manual resume. */
  datatype Row = Row(id: nat, skip: bool, history: bool, resumes: bool)

  ghost predicate DistinctIds(rows: seq<Row>) {
    forall i, j :: 0 <= i < j < |rows| ==> rows[i].id != rows[j].id
  }

  predicate Eligible(r: Row) { !r.skip && r.history }

  /** The eligible rows of the first `n`, in repository order. */
  function EligibleRows(rows: seq<Row>, n: nat): seq<Row>
    requires n <= |rows|
  {
    if n == 0 then []
    else EligibleRows(rows, n - 1) + if Eligible(rows[n - 1]) then [rows[n - 1]] else []
  }

  function Take(rows: seq<Row>, k: nat): seq<Row> { if |rows| <= k then rows else rows[..k] }

  /** How many of the first `n` resumes succeed. */
  function Successes(plan: seq<Row>, n: nat): nat
    requires n <= |plan|
  {
    if n == 0 then 0 else Successes(plan, n - 1) + if plan[n - 1].resumes then 1 else 0
  }

  // ── Probes ──────────────────────────────────────────────────────────────────

  predicate Known(r: Row, historyExists: map<nat, bool>) {
    r.id in historyExists && historyExists[r.id] == Eligible(r)
  }

  /** Of the first `n` rows, all but those in flight are known. */
  ghost predicate KnownBut(rows: seq<Row>, n: nat, inFlight: set<nat>, historyExists: map<nat, bool>)
    requires n <= |rows|
  {
    forall k :: 0 <= k < n && k !in inFlight ==> Known(rows[k], historyExists)
  }

  lemma {:induction false} Recording(rows: seq<Row>, n: nat, inFlight: set<nat>, historyExists: map<nat, bool>, i: nat)
    requires DistinctIds(rows) && n <= |rows| && KnownBut(rows, n, inFlight, historyExists) && i < |rows|
    ensures KnownBut(rows, n, inFlight - {i}, historyExists[rows[i].id := Eligible(rows[i])])
  {
    var after := historyExists[rows[i].id := Eligible(rows[i])];
    forall k | 0 <= k < n && k !in inFlight - {i} ensures Known(rows[k], after) {
      if k != i { assert Known(rows[k], historyExists) && rows[k].id != rows[i].id; }
    }
  }

  lemma {:induction false} Skipping(rows: seq<Row>, n: nat, inFlight: set<nat>, historyExists: map<nat, bool>)
    requires DistinctIds(rows) && n < |rows| && rows[n].skip && KnownBut(rows, n, inFlight, historyExists)
    requires n !in inFlight
    ensures KnownBut(rows, n + 1, inFlight, historyExists[rows[n].id := false])
  {
    Recording(rows, n, inFlight, historyExists, n);
    assert inFlight - {n} == inFlight;
  }

  lemma {:induction false} Probing(rows: seq<Row>, n: nat, inFlight: set<nat>, historyExists: map<nat, bool>)
    requires n < |rows| && KnownBut(rows, n, inFlight, historyExists)
    ensures KnownBut(rows, n + 1, inFlight + {n}, historyExists)
  {
  }

  lemma {:induction false} NoneInFlight(rows: seq<Row>, historyExists: map<nat, bool>)
    ensures KnownBut(rows, 0, {}, map[])
    ensures KnownBut(rows, |rows|, {}, historyExists) ==> forall k :: 0 <= k < |rows| ==> Known(rows[k], historyExists)
  {
  }

  /** One probe in flight settles. */
  method SettleProbe(rows: seq<Row>, n: nat, inFlight: set<nat>, historyExists: map<nat, bool>)
    returns (rest: set<nat>, known: map<nat, bool>)
    requires DistinctIds(rows) && n <= |rows| && KnownBut(rows, n, inFlight, historyExists)
    requires inFlight != {} && forall i :: i in inFlight ==> i < |rows| && !rows[i].skip
    ensures rest < inFlight && |rest| == |inFlight| - 1 && KnownBut(rows, n, rest, known)
  {
    var i :| i in inFlight;
    Recording(rows, n, inFlight, historyExists, i);
    rest, known := inFlight - {i}, historyExists[rows[i].id := rows[i].history];
  }

  /** The history of every row is known at the end, with one probe for each row worth one, two at most at a time. */
  method Preflight(rows: seq<Row>) returns (historyExists: map<nat, bool>, probed: seq<nat>, peak: nat)
    requires DistinctIds(rows)
    ensures forall k :: 0 <= k < |rows| ==> Known(rows[k], historyExists)
    ensures probed == WorthProbing(rows, |rows|)
    ensures peak <= CONCURRENCY
  {
    hide KnownBut, Known, DistinctIds;
    historyExists, probed, peak := map[], [], 0;
    var preflights: set<nat> := {};
    NoneInFlight(rows, historyExists);
    for i := 0 to |rows|
      invariant probed == WorthProbing(rows, i) && KnownBut(rows, i, preflights, historyExists)
      invariant |preflights| <= CONCURRENCY && peak <= CONCURRENCY
      invariant forall k :: k in preflights ==> k < i && !rows[k].skip
    {
      if rows[i].skip {
        Skipping(rows, i, preflights, historyExists);
        historyExists := historyExists[rows[i].id := false];
        continue;
      }
      while |preflights| >= CONCURRENCY
        invariant |preflights| <= CONCURRENCY && KnownBut(rows, i, preflights, historyExists)
        invariant forall k :: k in preflights ==> k < i && !rows[k].skip
        decreases |preflights|
      {
        preflights, historyExists := SettleProbe(rows, i, preflights, historyExists);
      }
      var wait: bool := *;
      while wait && preflights != {}
        invariant |preflights| < CONCURRENCY && KnownBut(rows, i, preflights, historyExists)
        invariant forall k :: k in preflights ==> k < i && !rows[k].skip
        decreases |preflights|
      {
        preflights, historyExists := SettleProbe(rows, i, preflights, historyExists);
        wait := *;
      }
      Probing(rows, i, preflights, historyExists);
      preflights, probed := preflights + {i}, probed + [i];
      if |preflights| > peak { peak := |preflights|; }
    }
    while preflights != {}
      invariant KnownBut(rows, |rows|, preflights, historyExists)
      invariant forall k :: k in preflights ==> k < |rows| && !rows[k].skip
      decreases |preflights|
    {
      preflights, historyExists := SettleProbe(rows, |rows|, preflights, historyExists);
    }
    NoneInFlight(rows, historyExists);
  }

  /** The rows not skipped for a cheaper reason, in order. */
  function WorthProbing(rows: seq<Row>, n: nat): seq<nat>
    requires n <= |rows|
  {
    if n == 0 then [] else WorthProbing(rows, n - 1) + if rows[n - 1].skip then [] else [n - 1]
  }

  method PlanAutoResume(rows: seq<Row>, historyExists: map<nat, bool>) returns (attempts: seq<Row>)
    requires forall k :: 0 <= k < |rows| ==> Known(rows[k], historyExists)
    ensures attempts == Take(EligibleRows(rows, |rows|), MAX_ATTEMPTS)
  {
    var eligible := [];
    for i := 0 to |rows|
      invariant eligible == EligibleRows(rows, i)
    {
      if !rows[i].skip && historyExists[rows[i].id] { eligible := eligible + [rows[i]]; }
    }
    attempts := Take(eligible, MAX_ATTEMPTS);
  }

  // ── Resumes ─────────────────────────────────────────────────────────────────

  /** Of the first `n` attempts, how many have settled well, and how many badly. */
  function SettledWell(plan: seq<Row>, n: nat, inFlight: set<nat>): nat
    requires n <= |plan|
  {
    if n == 0 then 0
    else SettledWell(plan, n - 1, inFlight) + if n - 1 !in inFlight && plan[n - 1].resumes then 1 else 0
  }

  function SettledBadly(plan: seq<Row>, n: nat, inFlight: set<nat>): nat
    requires n <= |plan|
  {
    if n == 0 then 0
    else SettledBadly(plan, n - 1, inFlight) + if n - 1 !in inFlight && !plan[n - 1].resumes then 1 else 0
  }

  lemma {:induction false} Settling(plan: seq<Row>, n: nat, inFlight: set<nat>, i: nat)
    requires n <= |plan| && i in inFlight && i < |plan|
    ensures SettledWell(plan, n, inFlight - {i}) == SettledWell(plan, n, inFlight) + if i < n && plan[i].resumes then 1 else 0
    ensures SettledBadly(plan, n, inFlight - {i}) == SettledBadly(plan, n, inFlight) + if i < n && !plan[i].resumes then 1 else 0
  {
    if n > 0 { Settling(plan, n - 1, inFlight, i); }
  }

  lemma {:induction false} Starting(plan: seq<Row>, n: nat, m: nat, inFlight: set<nat>)
    requires n <= m < |plan|
    ensures SettledWell(plan, n, inFlight + {m}) == SettledWell(plan, n, inFlight)
    ensures SettledBadly(plan, n, inFlight + {m}) == SettledBadly(plan, n, inFlight)
  {
    if n > 0 { Starting(plan, n - 1, m, inFlight); }
  }

  lemma {:induction false} AllSettled(plan: seq<Row>, n: nat)
    requires n <= |plan|
    ensures SettledWell(plan, n, {}) == Successes(plan, n)
    ensures SettledWell(plan, n, {}) + SettledBadly(plan, n, {}) == n
  {
    if n > 0 { AllSettled(plan, n - 1); }
  }

  /** One resume in flight settles. */
  method SettleOne(plan: seq<Row>, started: nat, inFlight: set<nat>, resumed: nat, failed: nat)
    returns (rest: set<nat>, resumed': nat, failed': nat)
    requires started <= |plan| && inFlight != {} && forall i :: i in inFlight ==> i < started
    requires resumed == SettledWell(plan, started, inFlight) && failed == SettledBadly(plan, started, inFlight)
    ensures rest < inFlight && |rest| == |inFlight| - 1
    ensures resumed' == SettledWell(plan, started, rest) && failed' == SettledBadly(plan, started, rest)
  {
    var i :| i in inFlight;
    Settling(plan, started, inFlight, i);
    rest := inFlight - {i};
    if plan[i].resumes {
      resumed', failed' := resumed + 1, failed;
    } else {
      resumed', failed' := resumed, failed + 1;
    }
  }

  /** Attempts start in plan order, each once, all of them unless the server closes; every started one is counted. */
  method ResumeAll(plan: seq<Row>) returns (log: seq<Row>, resumed: nat, failed: nat, peak: nat, closed: bool)
    ensures log <= plan && (!closed ==> log == plan)
    ensures resumed + failed == |log| && resumed == Successes(plan, |log|)
    ensures peak <= CONCURRENCY
  {
    log, resumed, failed, peak, closed := [], 0, 0, 0, false;
    var inFlight: set<nat> := {};
    var started := 0;
    while started < |plan| && !closed
      invariant started <= |plan| && log == plan[..started] && (!closed ==> |log| == started)
      invariant |inFlight| <= CONCURRENCY && peak <= CONCURRENCY && forall i :: i in inFlight ==> i < started
      invariant resumed == SettledWell(plan, started, inFlight) && failed == SettledBadly(plan, started, inFlight)
      decreases |plan| - started, !closed
    {
      while |inFlight| >= CONCURRENCY
        invariant |inFlight| <= CONCURRENCY && forall i :: i in inFlight ==> i < started
        invariant resumed == SettledWell(plan, started, inFlight) && failed == SettledBadly(plan, started, inFlight)
        decreases |inFlight|
      {
        inFlight, resumed, failed := SettleOne(plan, started, inFlight, resumed, failed);
      }
      if started > 0 {
        var wait: bool := *;
        while wait && inFlight != {}
          invariant |inFlight| < CONCURRENCY && forall i :: i in inFlight ==> i < started
          invariant resumed == SettledWell(plan, started, inFlight) && failed == SettledBadly(plan, started, inFlight)
          decreases |inFlight|
        {
          inFlight, resumed, failed := SettleOne(plan, started, inFlight, resumed, failed);
          wait := *;
        }
      }
      closed := *;
      if closed { break; }
      Starting(plan, started, started, inFlight);
      inFlight, log := inFlight + {started}, log + [plan[started]];
      started := started + 1;
      if |inFlight| > peak { peak := |inFlight|; }
    }
    while inFlight != {}
      invariant forall i :: i in inFlight ==> i < started
      invariant resumed == SettledWell(plan, started, inFlight) && failed == SettledBadly(plan, started, inFlight)
      decreases |inFlight|
    {
      inFlight, resumed, failed := SettleOne(plan, started, inFlight, resumed, failed);
    }
    AllSettled(plan, started);
  }

  /** The whole of boot recovery, over any rows and any interleaving. */
  method AutoResumePreviousSessions(rows: seq<Row>)
    returns (attempted: seq<Row>, resumed: nat, failed: nat, probesPeak: nat, resumesPeak: nat, closed: bool)
    requires DistinctIds(rows)
    ensures attempted <= Take(EligibleRows(rows, |rows|), MAX_ATTEMPTS)
    ensures !closed ==> attempted == Take(EligibleRows(rows, |rows|), MAX_ATTEMPTS)
    ensures resumed + failed == |attempted| <= MAX_ATTEMPTS
    ensures probesPeak <= CONCURRENCY && resumesPeak <= CONCURRENCY
  {
    var historyExists, probed, peak := Preflight(rows);
    var plan := PlanAutoResume(rows, historyExists);
    probesPeak := peak;
    attempted, resumed, failed, resumesPeak, closed := ResumeAll(plan);
  }

  /** No row is attempted twice, and a row that cannot resume takes no attempt from one that can. */
  lemma {:induction false} AttemptsAreDistinctAndEligible(rows: seq<Row>, n: nat)
    requires DistinctIds(rows) && n <= |rows|
    ensures DistinctIds(EligibleRows(rows, n))
    ensures forall r :: r in EligibleRows(rows, n) <==> r in rows[..n] && Eligible(r)
  {
    if n > 0 {
      AttemptsAreDistinctAndEligible(rows, n - 1);
      assert rows[..n] == rows[..n - 1] + [rows[n - 1]];
      var rest := EligibleRows(rows, n - 1);
      forall i | 0 <= i < |rest| ensures rest[i].id != rows[n - 1].id {
        assert rest[i] in rest;
        var k :| 0 <= k < n - 1 && rows[k] == rest[i];
      }
    }
  }
}
