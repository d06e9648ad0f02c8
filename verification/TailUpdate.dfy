/**
 * Appended lines applied to a conversation's row and tail (src/conversation-cache.ts:400-423, 463-471,
 * 1442-1567): how the lines are batched does not show. One file, explicit timestamps, no agent line.
 */
module TailUpdate {
  import opened Common

  type Message = nat

  /** A parsed line. `short` is `shortProjectName(cwd)`; `activity` is None for a timestamp that does not parse. */
  datatype Line =
    | Unparsable
    | Parsed(isMessage: bool, cwd: Option<string>, short: string, slug: Option<string>, activity: Option<int>, message: Message)

  datatype Project = Project(path: Option<string>, name: Option<string>, title: Option<string>)

  /** The row of `conversation_meta`, the columns these statements touch. */
  datatype Row = Row(count: nat, lastActivity: Option<int>, lastMessage: Option<Message>, project: Project, updatedAt: int)

  datatype Tail = Tail(messages: seq<Message>, updatedAt: int)

  /** `indexed`: the file index knows the file. */
  datatype Cache = Cache(tailSize: nat, indexed: bool, row: Option<Row>, tail: Option<Tail>, tailSeq: int)

  // ── What a batch amounts to ─────────────────────────────────────────────────

  datatype Batch = Batch(sawProject: bool, project: Project, count: nat, newest: Option<(int, Message)>, tail: seq<Message>)

  const NO_PROJECT := Project(None, None, None)
  const NOTHING := Batch(false, NO_PROJECT, 0, None, [])

  predicate Truthy(s: Option<string>) { s.Some? && s.value != "" }

  function OrElse<T>(a: Option<T>, b: Option<T>): Option<T> { if a.Some? then a else b }

  function Coalesce(p: Project, q: Project): Project {
    Project(OrElse(p.path, q.path), OrElse(p.name, q.name), OrElse(p.title, q.title))
  }

  predicate HasContext(l: Line) { l.Parsed? && (Truthy(l.cwd) || Truthy(l.slug)) }

  /** The project columns a line with context offers. */
  function ProjectOf(l: Line): Project
    requires l.Parsed?
  {
    var name := if Truthy(l.cwd) then Some(l.short) else None;
    Project(l.cwd, name, OrElse(l.slug, name))
  }

  predicate Recorded(l: Line) { l.Parsed? && l.isMessage && l.activity.Some? }

  /** The newest message so far, the earlier one on equal times. */
  function Newer(a: Option<(int, Message)>, b: Option<(int, Message)>): Option<(int, Message)> {
    if b.None? then a else if a.None? || b.value.0 > a.value.0 then b else a
  }

  function AddLine(b: Batch, l: Line): Batch {
    var c := if HasContext(l) then b.(sawProject := true, project := Coalesce(b.project, ProjectOf(l))) else b;
    if Recorded(l) then
      c.(count := b.count + 1, newest := Newer(b.newest, Some((l.activity.value, l.message))), tail := b.tail + [l.message])
    else c
  }

  function Summary(lines: seq<Line>, n: nat): Batch
    requires n <= |lines|
  {
    if n == 0 then NOTHING else AddLine(Summary(lines, n - 1), lines[n - 1])
  }

  function Joined(a: Batch, b: Batch): Batch {
    Batch(a.sawProject || b.sawProject, Coalesce(a.project, b.project), a.count + b.count, Newer(a.newest, b.newest), a.tail + b.tail)
  }

  lemma {:induction false} AddLineJoins(a: Batch, b: Batch, l: Line)
    ensures AddLine(Joined(a, b), l) == Joined(a, AddLine(b, l))
  {
    if Recorded(l) { assert a.tail + b.tail + [l.message] == a.tail + (b.tail + [l.message]); }
  }

  lemma {:induction false} SummaryOfPrefix(a: seq<Line>, b: seq<Line>, n: nat)
    requires n <= |a|
    ensures Summary(a + b, n) == Summary(a, n)
  {
    if n > 0 { SummaryOfPrefix(a, b, n - 1); }
  }

  /** Scanning two batches as one gives the two summaries joined. */
  lemma {:induction false} SummaryJoins(a: seq<Line>, b: seq<Line>, n: nat)
    requires n <= |b|
    ensures Summary(a + b, |a| + n) == Joined(Summary(a, |a|), Summary(b, n))
  {
    hide AddLine;
    if n == 0 {
      SummaryOfPrefix(a, b, |a|);
      assert Summary(a, |a|).tail + [] == Summary(a, |a|).tail;
    } else {
      SummaryJoins(a, b, n - 1);
      AddLineJoins(Summary(a, |a|), Summary(b, n - 1), b[n - 1]);
      assert (a + b)[|a| + n - 1] == b[n - 1];
    }
  }

  /** A summary counts the messages of its tail, and has a newest one if it has any. */
  ghost predicate Coherent(b: Batch) {
    b.count == |b.tail| && (b.newest.Some? <==> b.count > 0) && (!b.sawProject ==> b.project == NO_PROJECT)
  }

  lemma {:induction false} SummaryIsCoherent(lines: seq<Line>, n: nat)
    requires n <= |lines|
    ensures Coherent(Summary(lines, n))
  {
    if n > 0 { SummaryIsCoherent(lines, n - 1); }
  }

  /** The newest message is the first line to reach the greatest activity time of the batch. */
  lemma {:induction false} NewestIsFirstGreatest(lines: seq<Line>, n: nat)
    requires n <= |lines|
    ensures var s := Summary(lines, n);
            if s.newest.None? then forall j :: 0 <= j < n ==> !Recorded(lines[j])
            else exists i :: 0 <= i < n && Recorded(lines[i]) && s.newest.value == (lines[i].activity.value, lines[i].message)
                   && (forall j :: 0 <= j < n && Recorded(lines[j]) ==> lines[j].activity.value <= lines[i].activity.value)
                   && (forall j :: 0 <= j < i && Recorded(lines[j]) ==> lines[j].activity.value < lines[i].activity.value)
  {
    if n > 0 {
      NewestIsFirstGreatest(lines, n - 1);
      var before, s, l := Summary(lines, n - 1), Summary(lines, n), lines[n - 1];
      if s.newest.Some? && s.newest != before.newest {
        assert Recorded(l) && s.newest.value == (l.activity.value, l.message);
      }
    }
  }

  /** Each project column is that of the first line offering it. */
  lemma {:induction false} ColumnsAreFirstWins(lines: seq<Line>, n: nat)
    requires n <= |lines|
    ensures var p := Summary(lines, n).project;
            && (p.path.Some? ==> exists i :: 0 <= i < n && HasContext(lines[i]) && lines[i].cwd == p.path
                                   && forall j :: 0 <= j < i && HasContext(lines[j]) ==> lines[j].cwd.None?)
            && (p.path.None? ==> forall j :: 0 <= j < n && HasContext(lines[j]) ==> lines[j].cwd.None?)
            && (p.title.Some? ==> exists i :: 0 <= i < n && HasContext(lines[i]) && ProjectOf(lines[i]).title == p.title
                                    && forall j :: 0 <= j < i && HasContext(lines[j]) ==> ProjectOf(lines[j]).title.None?)
            && (p.title.None? ==> forall j :: 0 <= j < n && HasContext(lines[j]) ==> ProjectOf(lines[j]).title.None?)
  {
    if n > 0 { ColumnsAreFirstWins(lines, n - 1); }
  }

  // ── Applying a batch ────────────────────────────────────────────────────────

  /** `insertSkeleton`, which starts the count at 1 and ignores an existing row. */
  function EnsureRow(c: Cache): Cache {
    if c.indexed then c else c.(indexed := true, row := OrElse(c.row, Some(Row(1, None, None, NO_PROJECT, 0))))
  }

  /** `updateMetaBatch`: activity and last message only move forward. */
  function BumpRow(r: Row, b: Batch, stamp: int): Row {
    var floor := if r.lastActivity.Some? then r.lastActivity.value else -1;
    var t := r.(count := r.count + b.count, updatedAt := stamp);
    if b.newest.Some? && b.newest.value.0 > floor then
      t.(lastActivity := Some(b.newest.value.0), lastMessage := Some(b.newest.value.1))
    else t
  }

  /** `upsertTail`: a tail stamped at or after this write keeps its messages. */
  function PushTail(tail: Option<Tail>, added: seq<Message>, tailSize: nat, stamp: int): Option<Tail> {
    if tail.Some? && tail.value.updatedAt >= stamp then tail
    else Some(Tail(LastK(tailSize, (if tail.Some? then tail.value.messages else []) + added), stamp))
  }

  function ApplyTo(c: Cache, b: Batch): Cache {
    var d :=
      if b.sawProject && c.row.Some? then c.(row := Some(c.row.value.(project := Coalesce(c.row.value.project, b.project))))
      else c;
    if b.count == 0 then d
    else
      var stamp := d.tailSeq + 1;
      if d.row.None? then d.(tailSeq := stamp)
      else d.(tailSeq := stamp, row := Some(BumpRow(d.row.value, b, stamp)), tail := PushTail(d.tail, b.tail, d.tailSize, stamp))
  }

  function Apply(c: Cache, b: Batch): Cache {
    if !b.sawProject && b.count == 0 then c else ApplyTo(EnsureRow(c), b)
  }

  /** `updateFromLines`. */
  function Update(c: Cache, lines: seq<Line>): Cache { Apply(c, Summary(lines, |lines|)) }

  /** No stored tail is stamped past the counter. */
  ghost predicate StampsOk(c: Cache) { c.tail.Some? ==> c.tail.value.updatedAt <= c.tailSeq }

  /** Equal but for write stamps. */
  ghost predicate Same(c: Cache, d: Cache) {
    && c.tailSize == d.tailSize && c.indexed == d.indexed
    && (c.row.Some? <==> d.row.Some?)
    && (c.row.Some? ==> c.row.value.(updatedAt := 0) == d.row.value.(updatedAt := 0))
    && (c.tail.Some? <==> d.tail.Some?)
    && (c.tail.Some? ==> c.tail.value.messages == d.tail.value.messages)
  }

  lemma {:induction false} UpdateKeepsStamps(c: Cache, b: Batch)
    requires StampsOk(c)
    ensures StampsOk(Apply(c, b)) && Apply(c, b).tailSeq >= c.tailSeq
  {
  }

  /** Caches that look the same look the same after the same batch. */
  lemma {:induction false} SameStaysSame(c: Cache, d: Cache, b: Batch)
    requires Same(c, d) && StampsOk(c) && StampsOk(d)
    ensures Same(Apply(c, b), Apply(d, b))
  {
    hide LastK;
  }

  lemma {:induction false} TailsJoin(tail: Option<Tail>, a: seq<Message>, b: seq<Message>, tailSize: nat, stamp: int)
    requires tail.Some? ==> tail.value.updatedAt < stamp
    ensures PushTail(PushTail(tail, a, tailSize, stamp), b, tailSize, stamp + 1).value.messages
            == PushTail(tail, a + b, tailSize, stamp).value.messages
  {
    var m := if tail.Some? then tail.value.messages else [];
    LastKOfConcat(tailSize, m + a, b);
    assert m + a + b == m + (a + b);
  }

  lemma {:induction false} ColumnsJoin(p: Project, a: Batch, b: Batch)
    requires Coherent(a) && Coherent(b)
    ensures Coalesce(Coalesce(p, a.project), b.project) == Coalesce(p, Joined(a, b).project)
    ensures Coalesce(p, NO_PROJECT) == p
  {
  }

  /** The row after a batch, its stamp aside. */
  function RowAfter(r: Row, b: Batch): Row {
    BumpRow(r.(project := Coalesce(r.project, b.project)), b, 0)
  }

  lemma {:induction false} ApplyToRow(c: Cache, b: Batch)
    requires Coherent(b)
    ensures var d := ApplyTo(c, b);
            && d.indexed == c.indexed && d.tailSize == c.tailSize && (d.row.Some? <==> c.row.Some?)
            && (c.row.Some? ==> d.row.value.(updatedAt := 0) == RowAfter(c.row.value, b))
            && d.tailSeq == (if b.count == 0 then c.tailSeq else c.tailSeq + 1)
            && d.tail == (if b.count == 0 || c.row.None? then c.tail else PushTail(c.tail, b.tail, c.tailSize, c.tailSeq + 1))
  {
    if c.row.Some? { ColumnsJoin(c.row.value.project, b, b); }
    hide PushTail, Coalesce;
  }

  lemma {:induction false} RowsAfterJoin(r: Row, t: Row, a: Batch, b: Batch)
    requires Coherent(a) && Coherent(b) && t.(updatedAt := 0) == RowAfter(r, a)
    ensures RowAfter(t, b) == RowAfter(r, Joined(a, b))
  {
    ColumnsJoin(r.project, a, b);
    hide Coalesce;
  }

  lemma {:induction false} ApplyToJoins(c: Cache, a: Batch, b: Batch)
    requires StampsOk(c) && Coherent(a) && Coherent(b)
    ensures Same(ApplyTo(ApplyTo(c, a), b), ApplyTo(c, Joined(a, b)))
  {
    JoinedIsCoherent(a, b);
    var d := ApplyTo(c, a);
    ApplyToRow(c, a);
    ApplyToRow(d, b);
    ApplyToRow(c, Joined(a, b));
    if c.row.Some? {
      RowsAfterJoin(c.row.value, d.row.value, a, b);
      if a.count > 0 && b.count > 0 { TailsJoin(c.tail, a.tail, b.tail, c.tailSize, c.tailSeq + 1); }
      EmptyTailsJoin(a, b);
    }
    hide ApplyTo, RowAfter, PushTail, Coherent;
  }

  lemma {:induction false} JoinedIsCoherent(a: Batch, b: Batch)
    requires Coherent(a) && Coherent(b)
    ensures Coherent(Joined(a, b))
  {
  }

  lemma {:induction false} EmptyTailsJoin(a: Batch, b: Batch)
    requires Coherent(a) && Coherent(b)
    ensures a.count == 0 ==> Joined(a, b).tail == b.tail
    ensures b.count == 0 ==> Joined(a, b).tail == a.tail
    ensures Joined(a, b).count == a.count + b.count
  {
  }

  predicate Idle(b: Batch) { !b.sawProject && b.count == 0 }

  lemma {:induction false} IdleJoins(a: Batch, b: Batch)
    requires Coherent(a) && Coherent(b)
    ensures Idle(a) ==> Joined(a, b) == b
    ensures Idle(b) ==> Joined(a, b) == a
  {
    var j := Joined(a, b);
    if Idle(a) {
      assert a.tail == [] && a.newest.None? && a.project == NO_PROJECT;
      assert j.tail == b.tail && j.newest == b.newest && j.project == b.project;
    }
    if Idle(b) {
      assert b.tail == [] && b.newest.None? && b.project == NO_PROJECT;
      assert j.tail == a.tail && j.newest == a.newest && j.project == a.project;
    }
  }

  /** Two summaries applied one after the other look like their join applied at once. */
  lemma {:induction false} ApplyJoins(c: Cache, a: Batch, b: Batch)
    requires StampsOk(c) && Coherent(a) && Coherent(b)
    ensures Same(Apply(Apply(c, a), b), Apply(c, Joined(a, b)))
  {
    IdleJoins(a, b);
    if !Idle(a) && !Idle(b) {
      var e := EnsureRow(c);
      ApplyToJoins(e, a, b);
      ApplyToRow(e, a);
      hide ApplyTo, Same, Coherent;
      assert EnsureRow(ApplyTo(e, a)) == ApplyTo(e, a);
    } else {
      hide ApplyTo, Joined, Coherent;
    }
  }

  function Concat(batches: seq<seq<Line>>, n: nat): seq<Line>
    requires n <= |batches|
  {
    if n == 0 then [] else Concat(batches, n - 1) + batches[n - 1]
  }

  function UpdateAll(c: Cache, batches: seq<seq<Line>>, n: nat): Cache
    requires n <= |batches|
  {
    if n == 0 then c else Update(UpdateAll(c, batches, n - 1), batches[n - 1])
  }

  /** With no stored tail stamped past the counter, batches applied in turn look like one batch. */
  lemma {:induction false} StampedBatchesJoin(c: Cache, batches: seq<seq<Line>>, n: nat)
    requires n <= |batches| && StampsOk(c)
    ensures Same(UpdateAll(c, batches, n), Update(c, Concat(batches, n))) && StampsOk(UpdateAll(c, batches, n))
  {
    hide Apply, Summary, Coherent;
    if n == 0 {
      EmptyBatch(c);
    } else {
      StampedBatchesJoin(c, batches, n - 1);
      var lines, last := Concat(batches, n - 1), batches[n - 1];
      var d, e := UpdateAll(c, batches, n - 1), Update(c, lines);
      SummaryIsCoherent(lines, |lines|);
      SummaryIsCoherent(last, |last|);
      UpdateKeepsStamps(c, Summary(lines, |lines|));
      UpdateKeepsStamps(d, Summary(last, |last|));
      SameStaysSame(d, e, Summary(last, |last|));
      ApplyJoins(c, Summary(lines, |lines|), Summary(last, |last|));
      SummaryJoins(lines, last, |last|);
    }
  }

  lemma {:induction false} EmptyBatch(c: Cache)
    ensures Update(c, []) == c
  {
  }

  // ── When a stored stamp is past the counter ─────────────────────────────────

  /** A batch of messages reaches the tail exactly when no stored tail is stamped past the counter; the row takes it anyway. */
  lemma {:induction false} TailTakesBatchIff(c: Cache, b: Batch)
    requires Coherent(b) && b.count > 0 && c.indexed && c.row.Some?
    ensures var d := Apply(c, b);
            && d.row.value.count == c.row.value.count + b.count
            && ((d.tail.Some? && d.tail.value.updatedAt == d.tailSeq && d.tailSeq == c.tailSeq + 1
                 && d.tail.value.messages == LastK(c.tailSize, (if c.tail.Some? then c.tail.value.messages else []) + b.tail))
                <==> c.tail.None? || c.tail.value.updatedAt <= c.tailSeq
                     || (c.tail.value.updatedAt == c.tailSeq + 1
                         && c.tail.value.messages == LastK(c.tailSize, c.tail.value.messages + b.tail)))
  {
  }

  /** An indexed file whose row is gone gets none, and its tail is never written. */
  predicate Writes(c: Cache) { !c.indexed || c.row.Some? }

  /** How many batches with a message it takes for the counter to reach the stored stamp. */
  function Gap(c: Cache): int
    requires c.tail.Some?
  {
    c.tail.value.updatedAt - c.tailSeq
  }

  function Messages(lines: seq<Line>): seq<Message> { Summary(lines, |lines|).tail }

  /** How many of the first `n` batches hold a message. */
  function MessageBatches(batches: seq<seq<Line>>, n: nat): nat
    requires n <= |batches|
  {
    if n == 0 then 0 else MessageBatches(batches, n - 1) + if Messages(batches[n - 1]) == [] then 0 else 1
  }

  /** The messages of those batches but the first `gap` that hold any. */
  function Late(batches: seq<seq<Line>>, n: nat, gap: int): seq<Message>
    requires n <= |batches|
  {
    if n == 0 then []
    else Late(batches, n - 1, gap) + if MessageBatches(batches, n) > gap then Messages(batches[n - 1]) else []
  }

  lemma {:induction false} NoneLate(batches: seq<seq<Line>>, n: nat, gap: int)
    requires n <= |batches| && MessageBatches(batches, n) <= gap
    ensures Late(batches, n, gap) == []
  {
    if n > 0 { NoneLate(batches, n - 1, gap); }
  }

  /** What a batch does to the counter and the tail. */
  lemma {:induction false} ApplyToTail(c: Cache, b: Batch)
    requires Coherent(b)
    ensures var d := Apply(c, b);
            && d.tailSize == c.tailSize && (Writes(c) ==> Writes(d)) && (!Writes(c) ==> !Writes(d))
            && d.tailSeq == (if b.tail == [] then c.tailSeq else c.tailSeq + 1)
            && d.tail == (if b.tail == [] || !Writes(c) then c.tail else PushTail(c.tail, b.tail, c.tailSize, c.tailSeq + 1))
  {
    if !Idle(b) { ApplyToRow(EnsureRow(c), b); }
    hide PushTail, ApplyTo;
  }

  /** Where the batches have left a tail stamped past the counter: as it was until the gap is used up, and after that all but the batches in it. */
  ghost predicate TailAfter(c: Cache, d: Cache, count: nat, late: seq<Message>)
    requires c.tail.Some?
  {
    && d.tailSize == c.tailSize && Writes(d) && d.tailSeq == c.tailSeq + count
    && if count <= Gap(c) then d.tail == c.tail
       else d.tail.Some? && d.tail.value.updatedAt == d.tailSeq
            && d.tail.value.messages == LastK(c.tailSize, c.tail.value.messages + late)
  }

  lemma {:induction false} TailStep(c: Cache, d: Cache, b: Batch, count: nat, late: seq<Message>)
    requires c.tail.Some? && TailAfter(c, d, count, late) && Coherent(b) && (count <= Gap(c) ==> late == [])
    ensures var more := count + if b.tail == [] then 0 else 1;
            TailAfter(c, Apply(d, b), more, late + if more > Gap(c) then b.tail else [])
  {
    ApplyToTail(d, b);
    var m := c.tail.value.messages;
    LastKOfConcat(c.tailSize, m + late, b.tail);
    assert m + late + b.tail == m + (late + b.tail) && late + [] == late && m + [] == m;
    hide Apply, LastK;
  }

  lemma {:induction false} TailAtFirst(c: Cache)
    requires Writes(c) && c.tail.Some? && Gap(c) > 0
    ensures TailAfter(c, c, 0, [])
  {
  }

  lemma {:induction false} TailOfAll(c: Cache, batches: seq<seq<Line>>, n: nat)
    requires n <= |batches| && Writes(c) && c.tail.Some? && Gap(c) > 0
    ensures TailAfter(c, UpdateAll(c, batches, n), MessageBatches(batches, n), Late(batches, n, Gap(c)))
  {
    hide Apply, Summary, Coherent, TailAfter;
    if n == 0 {
      TailAtFirst(c);
    } else {
      TailOfAll(c, batches, n - 1);
      var last := batches[n - 1];
      SummaryIsCoherent(last, |last|);
      if MessageBatches(batches, n - 1) <= Gap(c) { NoneLate(batches, n - 1, Gap(c)); }
      TailStep(c, UpdateAll(c, batches, n - 1), Summary(last, |last|), MessageBatches(batches, n - 1), Late(batches, n - 1, Gap(c)));
    }
  }

  lemma {:induction false} TailKeptWithoutRow(c: Cache, batches: seq<seq<Line>>, n: nat)
    requires n <= |batches| && !Writes(c)
    ensures UpdateAll(c, batches, n).tail == c.tail && !Writes(UpdateAll(c, batches, n))
  {
    if n > 0 {
      hide Apply, Summary, Coherent;
      TailKeptWithoutRow(c, batches, n - 1);
      SummaryIsCoherent(batches[n - 1], |batches[n - 1]|);
      ApplyToTail(UpdateAll(c, batches, n - 1), Summary(batches[n - 1], |batches[n - 1]|));
    }
  }

  /** Equal but for the tail. */
  predicate SameBesidesTail(c: Cache, d: Cache) { c.(tail := None) == d.(tail := None) }

  /** The tail decides about nothing but itself. */
  lemma {:induction false} TailIsApart(c: Cache, d: Cache, b: Batch)
    requires SameBesidesTail(c, d)
    ensures SameBesidesTail(Apply(c, b), Apply(d, b))
  {
    hide PushTail, Coalesce;
  }

  lemma {:induction false} TailIsApartInAll(c: Cache, d: Cache, batches: seq<seq<Line>>, n: nat)
    requires n <= |batches| && SameBesidesTail(c, d)
    ensures SameBesidesTail(UpdateAll(c, batches, n), UpdateAll(d, batches, n))
  {
    if n > 0 {
      hide Apply, Summary, SameBesidesTail;
      TailIsApartInAll(c, d, batches, n - 1);
      TailIsApart(UpdateAll(c, batches, n - 1), UpdateAll(d, batches, n - 1), Summary(batches[n - 1], |batches[n - 1]|));
    }
  }

  /** Whatever the stamps, batching shows in the tail or nowhere. */
  lemma {:induction false} BatchingShowsInTailOnly(c: Cache, batches: seq<seq<Line>>, n: nat)
    requires n <= |batches|
    ensures var d, e := UpdateAll(c, batches, n), Update(c, Concat(batches, n));
            Same(d, e) <==> (d.tail.Some? <==> e.tail.Some?) && (d.tail.Some? ==> d.tail.value.messages == e.tail.value.messages)
  {
    var bare := c.(tail := None);
    StampedBatchesJoin(bare, batches, n);
    TailIsApartInAll(c, bare, batches, n);
    TailIsApart(c, bare, Summary(Concat(batches, n), |Concat(batches, n)|));
    hide UpdateAll, Apply, Summary, Concat;
  }

  lemma {:induction false} OneBatchKeepsTail(c: Cache, lines: seq<Line>)
    requires c.tail.Some? && (!Writes(c) || Gap(c) > 0)
    ensures Update(c, lines).tail == c.tail
  {
    SummaryIsCoherent(lines, |lines|);
    ApplyToTail(c, Summary(lines, |lines|));
    hide Apply, Summary, Coherent;
  }

  /**
   * However appended lines are cut into batches, the count, the project columns, the newest message and
   * the tail come out as if they had been one batch, replay line by line included: exactly when no stored
   * tail is stamped past the counter, or no more batches hold a message than it is past, or what the
   * further ones push into the tail leaves it as it is. (An indexed file without a row has its tail left alone.)
   */
  lemma {:induction false} BatchingDoesNotShowIff(c: Cache, batches: seq<seq<Line>>, n: nat)
    requires n <= |batches|
    ensures Same(UpdateAll(c, batches, n), Update(c, Concat(batches, n))) <==>
              || !Writes(c)
              || StampsOk(c)
              || MessageBatches(batches, n) <= Gap(c)
              || LastK(c.tailSize, c.tail.value.messages + Late(batches, n, Gap(c))) == c.tail.value.messages
  {
    BatchingShowsInTailOnly(c, batches, n);
    if StampsOk(c) {
      StampedBatchesJoin(c, batches, n);
    } else {
      OneBatchKeepsTail(c, Concat(batches, n));
      if Writes(c) { TailOfAll(c, batches, n); } else { TailKeptWithoutRow(c, batches, n); }
    }
    hide UpdateAll, Apply, Summary, Concat, Same, LastK, MessageBatches, Late;
  }

  /** With a stored stamp one past the counter the second of two batches reaches the tail, which one batch does not. */
  lemma {:induction false} BatchingShowsPastCounter()
    ensures var c := Cache(10, true, Some(Row(1, None, None, NO_PROJECT, 0)), Some(Tail([7], 6)), 5);
            var a := [Parsed(true, None, "", None, Some(100), 1)];
            var b := [Parsed(true, None, "", None, Some(200), 2)];
            && Update(Update(c, a), b).tail.value.messages == [7, 2]
            && Update(c, a + b).tail.value.messages == [7]
            && !Same(Update(Update(c, a), b), Update(c, a + b))
  {
    var c := Cache(10, true, Some(Row(1, None, None, NO_PROJECT, 0)), Some(Tail([7], 6)), 5);
    var a := [Parsed(true, None, "", None, Some(100), 1)];
    var b := [Parsed(true, None, "", None, Some(200), 2)];
    OneLine(a[0]);
    OneLine(b[0]);
    SummaryJoins(a, b, 1);
    assert a == [a[0]] && b == [b[0]];
    var d := Update(c, a);
    assert d.tail == c.tail && d.tailSeq == 6;
  }

  lemma {:induction false} OneLine(l: Line)
    ensures Summary([l], 1) == AddLine(NOTHING, l)
  {
    assert Summary([l], 0) == NOTHING;
  }

  // ── The cache object ────────────────────────────────────────────────────────

  class TailCache {
    const tailSize: nat
    var indexed: bool
    var row: Option<Row>
    var tail: Option<Tail>
    var tailSeq: int

    constructor (tailSize: nat, tailSeq: int)
      ensures View() == Cache(tailSize, false, None, None, tailSeq)
    {
      this.tailSize, indexed, row, tail, this.tailSeq := tailSize, false, None, None, tailSeq;
    }

    function View(): Cache
      reads this
    {
      Cache(tailSize, indexed, row, tail, tailSeq)
    }

    /** The loop over the lines of one watcher read, before the transaction. */
    method Classify(rawLines: seq<Line>) returns (b: Batch)
      ensures b == Summary(rawLines, |rawLines|)
    {
      var saw, project, count := false, NO_PROJECT, 0;
      var newest: Option<(int, Message)>, newTail: seq<Message> := None, [];
      for i := 0 to |rawLines|
        invariant Batch(saw, project, count, newest, newTail) == Summary(rawLines, i)
      {
        var line := rawLines[i];
        if line.Unparsable? { continue; }
        if !line.isMessage && !Truthy(line.cwd) && !Truthy(line.slug) { continue; }
        if Truthy(line.cwd) || Truthy(line.slug) {
          saw, project := true, Coalesce(project, ProjectOf(line));
        }
        if !line.isMessage { continue; }
        if line.activity.None? { continue; }
        count := count + 1;
        if newest.None? || line.activity.value > newest.value.0 { newest := Some((line.activity.value, line.message)); }
        newTail := newTail + [line.message];
      }
      b := Batch(saw, project, count, newest, newTail);
    }

    method UpdateFromLines(rawLines: seq<Line>)
      modifies this`indexed, this`row, this`tail, this`tailSeq
      ensures View() == Update(old(View()), rawLines)
    {
      hide Summary, LastK;
      var b := Classify(rawLines);
      if !b.sawProject && b.count == 0 { return; }
      if !indexed {
        if row.None? { row := Some(Row(1, None, None, NO_PROJECT, 0)); }
        indexed := true;
      }
      if b.sawProject && row.Some? {
        row := Some(row.value.(project := Coalesce(row.value.project, b.project)));
      }
      if b.count == 0 { return; }
      tailSeq := tailSeq + 1;
      if row.None? { return; }
      row := Some(BumpRow(row.value, b, tailSeq));
      tail := PushTail(tail, b.tail, tailSize, tailSeq);
    }
  }
}
