/**
 * The merged session list (src/session-store.ts:18-29, 57-68, 93-160): managed sessions first, then
 * the agent processes discovered outside that no managed session owns. Maps keep insertion order, so
 * they are sequences with distinct keys.
 */
module SessionList {
  import opened Common

  type Id = nat

  /** `processless`: rehydrated or shut down, so no process stands behind the row. `visible`: what the store's filter says of it. */
  datatype Managed = Managed(id: Id, bound: Option<Id>, resumedFrom: Option<Id>, processless: bool, visible: bool)

  datatype Discovered = Discovered(pid: nat, conversationId: Option<Id>)

  datatype Row = FromManaged(m: Managed) | FromDiscovered(d: Discovered, c: Id)

  function RowId(r: Row): Id {
    match r case FromManaged(m) => m.id case FromDiscovered(_, c) => c
  }

  /** The conversation a stub's row stands for. */
  function RowKey(m: Managed): Id { if m.bound.Some? then m.bound.value else m.id }

  /** A session with a process owns a conversation under any id it is known by. */
  predicate Owns(m: Managed, c: Id) {
    !m.processless && (m.id == c || m.bound == Some(c) || m.resumedFrom == Some(c))
  }

  predicate Owned(managed: seq<Managed>, c: Id) { exists m :: m in managed && Owns(m, c) }

  predicate HasDiscovered(discovered: seq<Discovered>, c: Id) { exists d :: d in discovered && d.conversationId == Some(c) }

  /** A visible managed session is listed unless it is a stub whose conversation runs outside. */
  predicate ListsManaged(m: Managed, discovered: seq<Discovered>) {
    m.visible && !(m.processless && HasDiscovered(discovered, RowKey(m)))
  }

  ghost predicate DistinctIds(managed: seq<Managed>) {
    forall i, j :: 0 <= i < j < |managed| ==> managed[i].id != managed[j].id
  }

  ghost predicate DistinctRows(rows: seq<Row>) {
    forall i, j :: 0 <= i < j < |rows| ==> RowId(rows[i]) != RowId(rows[j])
  }

  function ManagedRows(managed: seq<Managed>, discovered: seq<Discovered>, n: nat): seq<Row>
    requires n <= |managed|
  {
    if n == 0 then []
    else
      var rows := ManagedRows(managed, discovered, n - 1);
      if ListsManaged(managed[n - 1], discovered) then rows + [FromManaged(managed[n - 1])] else rows
  }

  predicate Shown(rows: seq<Row>, c: Id) { exists r :: r in rows && RowId(r) == c }

  /** The rows after the first `n` discovered processes; `visible` is the store's filter for a bare conversation. */
  function AllRows(managed: seq<Managed>, discovered: seq<Discovered>, visible: set<Id>, n: nat): seq<Row>
    requires n <= |discovered|
  {
    if n == 0 then ManagedRows(managed, discovered, |managed|)
    else
      var rows, d := AllRows(managed, discovered, visible, n - 1), discovered[n - 1];
      if d.conversationId.None? || d.conversationId.value !in visible
         || Shown(rows, d.conversationId.value) || Owned(managed, d.conversationId.value)
      then rows
      else rows + [FromDiscovered(d, d.conversationId.value)]
  }

  class SessionStore {
    var managed: seq<Managed>
    var discovered: seq<Discovered>

    ghost predicate Valid()
      reads this
    {
      DistinctIds(managed)
    }

    constructor ()
      ensures Valid() && managed == [] && discovered == []
    {
      managed, discovered := [], [];
    }

    /** `Map.set`: an id already there is replaced in its place, a new one goes to the end. */
    method AddManaged(session: Managed)
      requires Valid()
      modifies this`managed
      ensures Valid() && session in managed
      ensures forall m :: m in managed ==> m == session || (m in old(managed) && m.id != session.id)
      ensures forall m :: m in old(managed) && m.id != session.id ==> m in managed
    {
      var i := 0;
      while i < |managed|
        invariant i <= |managed| && managed == old(managed)
        invariant forall k :: 0 <= k < i ==> managed[k].id != session.id
      {
        if managed[i].id == session.id {
          managed := managed[i := session];
          assert session == managed[i];
          forall m | m in old(managed) && m.id != session.id ensures m in managed {
            var k :| 0 <= k < |old(managed)| && old(managed)[k] == m;
            assert managed[k] == m;
          }
          return;
        }
        i := i + 1;
      }
      managed := managed + [session];
    }

    method OwnsConversation(c: Id) returns (owns: bool)
      ensures owns == Owned(managed, c)
    {
      for i := 0 to |managed|
        invariant forall k :: 0 <= k < i ==> !Owns(managed[k], c)
      {
        var s := managed[i];
        if s.processless { continue; }
        if s.id == c || s.bound == Some(c) || s.resumedFrom == Some(c) {
          assert s in managed && Owns(s, c);
          return true;
        }
      }
      return false;
    }

    method List(visible: set<Id>) returns (results: seq<Row>)
      ensures results == AllRows(managed, discovered, visible, |discovered|)
    {
      results := [];
      var seenIds := {};
      for i := 0 to |managed|
        invariant results == ManagedRows(managed, discovered, i)
        invariant forall c :: c in seenIds <==> Shown(results, c)
      {
        var s := managed[i];
        if !s.visible { continue; }
        if s.processless && HasDiscovered(discovered, RowKey(s)) { continue; }
        ShownAfter(results, FromManaged(s));
        results, seenIds := results + [FromManaged(s)], seenIds + {s.id};
      }
      for j := 0 to |discovered|
        invariant results == AllRows(managed, discovered, visible, j)
        invariant forall c :: c in seenIds <==> Shown(results, c)
      {
        var d := discovered[j];
        if d.conversationId.None? { continue; }
        var c := d.conversationId.value;
        if c !in visible { continue; }
        var owned := OwnsConversation(c);
        if c in seenIds || owned { continue; }
        ShownAfter(results, FromDiscovered(d, c));
        results, seenIds := results + [FromDiscovered(d, c)], seenIds + {c};
      }
    }
  }

  lemma {:induction false} ShownAfter(rows: seq<Row>, r: Row)
    ensures forall c :: Shown(rows + [r], c) <==> Shown(rows, c) || c == RowId(r)
  {
    forall c ensures Shown(rows + [r], c) <==> Shown(rows, c) || c == RowId(r) {
      assert r in rows + [r];
    }
  }

  lemma {:induction false} ManagedRowsAre(managed: seq<Managed>, discovered: seq<Discovered>, n: nat)
    requires n <= |managed| && DistinctIds(managed)
    ensures var rows := ManagedRows(managed, discovered, n);
            && DistinctRows(rows)
            && (forall r :: r in rows ==> r.FromManaged? && r.m in managed[..n] && ListsManaged(r.m, discovered))
            && (forall m :: m in managed[..n] && ListsManaged(m, discovered) ==> FromManaged(m) in rows)
  {
    hide ListsManaged;
    if n > 0 {
      ManagedRowsAre(managed, discovered, n - 1);
      var rows := ManagedRows(managed, discovered, n - 1);
      assert managed[..n] == managed[..n - 1] + [managed[n - 1]];
      forall i | 0 <= i < |rows| ensures RowId(rows[i]) != managed[n - 1].id {
        assert rows[i] in rows;
        var k :| 0 <= k < n - 1 && managed[k] == rows[i].m;
      }
    }
  }

  /** No conversation is listed twice, however many sessions and processes are known under it. */
  lemma {:induction false} ListIsUnique(managed: seq<Managed>, discovered: seq<Discovered>, visible: set<Id>, n: nat)
    requires n <= |discovered| && DistinctIds(managed)
    ensures DistinctRows(AllRows(managed, discovered, visible, n))
  {
    hide Owned;
    if n == 0 {
      ManagedRowsAre(managed, discovered, |managed|);
    } else {
      ListIsUnique(managed, discovered, visible, n - 1);
    }
  }

  lemma {:induction false} RowsStay(managed: seq<Managed>, discovered: seq<Discovered>, visible: set<Id>, m: nat, n: nat)
    requires m <= n <= |discovered|
    ensures AllRows(managed, discovered, visible, m) <= AllRows(managed, discovered, visible, n)
  {
    hide Owned, Shown;
    if m < n { RowsStay(managed, discovered, visible, m, n - 1); }
  }

  /** Every visible outside process has its conversation listed, unless a managed session with a process owns it. */
  lemma {:induction false} OutsideIsListedOrOwned(managed: seq<Managed>, discovered: seq<Discovered>, visible: set<Id>, k: nat)
    requires k < |discovered| && discovered[k].conversationId.Some? && discovered[k].conversationId.value in visible
    ensures var c := discovered[k].conversationId.value;
            Shown(AllRows(managed, discovered, visible, |discovered|), c) || Owned(managed, c)
  {
    hide Owned;
    var c := discovered[k].conversationId.value;
    var upTo := AllRows(managed, discovered, visible, k + 1);
    RowsStay(managed, discovered, visible, k + 1, |discovered|);
    if !Owned(managed, c) {
      ShownAfter(AllRows(managed, discovered, visible, k), FromDiscovered(discovered[k], c));
      assert Shown(upTo, c);
      var r :| r in upTo && RowId(r) == c;
      assert r in AllRows(managed, discovered, visible, |discovered|);
    }
  }

  /** A listed outside process is never one of our own children. */
  lemma {:induction false} ListedOutsideIsNotOwned(
      managed: seq<Managed>, discovered: seq<Discovered>, visible: set<Id>, n: nat, r: Row)
    requires n <= |discovered| && DistinctIds(managed) && r in AllRows(managed, discovered, visible, n)
    ensures r.FromDiscovered? ==> r.d in discovered && r.d.conversationId == Some(r.c) && !Owned(managed, r.c)
    ensures r.FromManaged? ==> r.m in managed && ListsManaged(r.m, discovered)
  {
    hide Owned, Shown;
    if n == 0 {
      ManagedRowsAre(managed, discovered, |managed|);
    } else if r in AllRows(managed, discovered, visible, n - 1) {
      ListedOutsideIsNotOwned(managed, discovered, visible, n - 1, r);
    }
  }

  /**
   * A managed session is listed exactly if the filter shows it and it is no stub whose conversation is found
   * running outside. In a shown stub's place that conversation is listed or owned, if the filter shows the bare
   * conversation too, and if not, no outside process is listed under it.
   */
  lemma {:induction false} ManagedIsListedOrReplaced(
      managed: seq<Managed>, discovered: seq<Discovered>, visible: set<Id>, m: Managed)
    requires DistinctIds(managed) && m in managed
    ensures var rows := AllRows(managed, discovered, visible, |discovered|);
            var c := RowKey(m);
            && (FromManaged(m) in rows <==> m.visible && !(m.processless && HasDiscovered(discovered, c)))
            && (m.visible && FromManaged(m) !in rows && c in visible ==> Shown(rows, c) || Owned(managed, c))
            && (c !in visible ==> forall d :: FromDiscovered(d, c) !in rows)
  {
    hide Owned, Shown;
    ManagedRowsAre(managed, discovered, |managed|);
    RowsStay(managed, discovered, visible, 0, |discovered|);
    assert managed[..|managed|] == managed;
    ListedRowsAre(managed, discovered, visible, |discovered|);
    if m.visible && !ListsManaged(m, discovered) && RowKey(m) in visible {
      var d :| d in discovered && d.conversationId == Some(RowKey(m));
      var k :| 0 <= k < |discovered| && discovered[k] == d;
      OutsideIsListedOrOwned(managed, discovered, visible, k);
    }
  }

  lemma {:induction false} ListedRowsAre(managed: seq<Managed>, discovered: seq<Discovered>, visible: set<Id>, n: nat)
    requires n <= |discovered| && DistinctIds(managed)
    ensures forall r :: r in AllRows(managed, discovered, visible, n) ==>
              if r.FromManaged? then ListsManaged(r.m, discovered) else r.c in visible
  {
    hide Owned, Shown;
    if n == 0 { ManagedRowsAre(managed, discovered, |managed|); } else { ListedRowsAre(managed, discovered, visible, n - 1); }
  }
}
