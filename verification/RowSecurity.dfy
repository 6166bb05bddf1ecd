/** Row-level security: one predicate on the session's tenant, a filter on what
    is read, changed or deleted, and a block on what is inserted. */
module RowSecurity {
  import opened Common

  type Tenant = string
  type Data = string

  datatype Key = Key(table: string, id: string)
  datatype Row = Row(tenant: Tenant, data: Data)
  type Db = map<Key, Row>

  /** The tables that carry a security policy. */
  const PROTECTED: set<string> := {
    "user_roles", "projects", "environments", "requirements", "test_scripts", "test_script_versions",
    "jobs", "crawl_jobs", "crawl_pages", "test_cycles", "test_assignments", "test_results",
    "execution_evidence", "defects", "audit_logs", "business_domains"
  }

  /** A session without a tenant passes every row. */
  predicate TenantPredicate(context: Option<Tenant>, tenant: Tenant) {
    context == None || context == Some(tenant)
  }

  datatype Op =
    | Select(table: string, where: (Key, Row) -> bool)
    | Insert(key: Key, row: Row)
    | Update(table: string, where: (Key, Row) -> bool, change: (Key, Row) -> Data, newTenant: Option<Tenant>)
    | Delete(table: string, where: (Key, Row) -> bool)

  datatype Output = Rows(rows: Db) | Affected(count: nat) | DuplicateKey | Blocked

  predicate Raises(o: Output) {
    o.DuplicateKey? || o.Blocked?
  }

  predicate Passes(context: Option<Tenant>, table: string, tenant: Tenant) {
    table !in PROTECTED || TenantPredicate(context, tenant)
  }

  /** The rows a statement gets to touch: the filter first, then its own condition. */
  predicate Hits(context: Option<Tenant>, table: string, where: (Key, Row) -> bool, k: Key, r: Row) {
    k.table == table && Passes(context, table, r.tenant) && where(k, r)
  }

  function Hit(context: Option<Tenant>, db: Db, table: string, where: (Key, Row) -> bool): set<Key> {
    set k | k in db && Hits(context, table, where, k, db[k])
  }

  function Changed(op: Op, k: Key, r: Row): Row
    requires op.Update?
  {
    Row(if op.newTenant.Some? then op.newTenant.value else r.tenant, op.change(k, r))
  }

  function Perform(context: Option<Tenant>, db: Db, op: Op): (Db, Output) {
    match op
    case Select(table, where) =>
      (db, Rows(map k | k in Hit(context, db, table, where) :: db[k]))
    case Insert(key, row) =>
      if key in db then (db, DuplicateKey)
      else if !Passes(context, key.table, row.tenant) then (db, Blocked)
      else (db[key := row], Affected(1))
    case Update(table, where, change, newTenant) =>
      var hit := Hit(context, db, table, where);
      (map k | k in db :: if k in hit then Changed(op, k, db[k]) else db[k], Affected(|hit|))
    case Delete(table, where) =>
      var hit := Hit(context, db, table, where);
      (map k | k in db && k !in hit :: db[k], Affected(|hit|))
  }

  /** The statements of a session up to the first that raises. */
  function PerformAll(context: Option<Tenant>, db: Db, ops: seq<Op>): (Db, seq<Output>)
    decreases |ops|
  {
    if ops == [] then (db, [])
    else
      var (db', out) := Perform(context, db, ops[0]);
      if Raises(out) then (db', [out])
      else var (db'', outs) := PerformAll(context, db', ops[1..]); (db'', [out] + outs)
  }

  datatype Session = Session(context: Option<Tenant>, ops: seq<Op>)

  predicate Committed(outs: seq<Output>) {
    outs == [] || !Raises(outs[|outs| - 1])
  }

  /** Commit when every statement went through, else roll back. */
  function RunSession(db: Db, s: Session): (Db, seq<Output>) {
    var (db', outs) := PerformAll(s.context, db, s.ops);
    (if Committed(outs) then db' else db, outs)
  }

  /** What tenant `t`'s sessions were answered during a run. */
  function Observed(db: Db, run: seq<Session>, t: Tenant): seq<seq<Output>>
    decreases |run|
  {
    if run == [] then []
    else
      var (db', outs) := RunSession(db, run[0]);
      (if run[0].context == Some(t) then [outs] else []) + Observed(db', run[1..], t)
  }

  /** The run with every other session deleted. */
  function Purge(run: seq<Session>, t: Tenant): seq<Session> {
    if run == [] then []
    else (if run[0].context == Some(t) then [run[0]] else []) + Purge(run[1..], t)
  }

  // ---------------------------------------------------------------------
  // What statements and sessions do
  // ---------------------------------------------------------------------

  /** The tables that the migration puts a policy on. */
  lemma PolicyTables()
    ensures "user_roles" in PROTECTED && "projects" in PROTECTED && "environments" in PROTECTED
    ensures "requirements" in PROTECTED && "test_scripts" in PROTECTED && "test_script_versions" in PROTECTED
    ensures "jobs" in PROTECTED && "crawl_jobs" in PROTECTED && "crawl_pages" in PROTECTED
    ensures "test_cycles" in PROTECTED && "test_assignments" in PROTECTED && "test_results" in PROTECTED
    ensures "execution_evidence" in PROTECTED && "defects" in PROTECTED && "audit_logs" in PROTECTED
    ensures "business_domains" in PROTECTED
  {
  }

  /** A row is within reach of a statement: its table has no policy, or the
      session has no tenant, or the row is that tenant's. */
  predicate Reaches(context: Option<Tenant>, db: Db, k: Key)
    requires k in db
  {
    k.table !in PROTECTED || context == None || context == Some(db[k].tenant)
  }

  /** A query returns exactly the rows of its table within reach that it asks for. */
  lemma SelectReturns(context: Option<Tenant>, db: Db, table: string, where: (Key, Row) -> bool)
    ensures var (after, out) := Perform(context, db, Select(table, where));
      && after == db && out.Rows?
      && (forall k :: k in out.rows <==> k in db && k.table == table && Reaches(context, db, k) && where(k, db[k]))
      && (forall k :: k in out.rows ==> out.rows[k] == db[k])
  {
  }

  /** An insert adds its row, unless the key is taken or the row is for a tenant
      out of reach. */
  lemma InsertAdds(context: Option<Tenant>, db: Db, key: Key, row: Row)
    ensures var (after, out) := Perform(context, db, Insert(key, row));
      && (key in db ==> after == db && out == DuplicateKey)
      && (key !in db ==>
            var grown := db[key := row];
            if Reaches(context, grown, key) then after == grown && out == Affected(1) else after == db && out == Blocked)
  {
  }

  ghost predicate Chosen(context: Option<Tenant>, db: Db, table: string, where: (Key, Row) -> bool, k: Key) {
    k in db && k.table == table && Reaches(context, db, k) && where(k, db[k])
  }

  /** An update rewrites exactly the chosen rows. */
  lemma UpdateChanges(context: Option<Tenant>, db: Db, table: string, where: (Key, Row) -> bool,
                      change: (Key, Row) -> Data, newTenant: Option<Tenant>)
    ensures var (after, out) := Perform(context, db, Update(table, where, change, newTenant));
      && after.Keys == db.Keys
      && (forall k :: k in db && Chosen(context, db, table, where, k) ==>
            after[k] == Row(if newTenant.Some? then newTenant.value else db[k].tenant, change(k, db[k])))
      && (forall k :: k in db && !Chosen(context, db, table, where, k) ==> after[k] == db[k])
      && out == Affected(|set k | k in db && Chosen(context, db, table, where, k)|)
  {
    assert Hit(context, db, table, where) == set k | k in db && Chosen(context, db, table, where, k);
  }

  /** A delete removes exactly the chosen rows. */
  lemma DeleteRemoves(context: Option<Tenant>, db: Db, table: string, where: (Key, Row) -> bool)
    ensures var (after, out) := Perform(context, db, Delete(table, where));
      && (forall k :: k in after <==> k in db && !Chosen(context, db, table, where, k))
      && (forall k :: k in after ==> after[k] == db[k])
      && out == Affected(|set k | k in db && Chosen(context, db, table, where, k)|)
  {
    assert Hit(context, db, table, where) == set k | k in db && Chosen(context, db, table, where, k);
  }

  /** The states between the statements that a session runs. */
  ghost predicate Trace(context: Option<Tenant>, ops: seq<Op>, outs: seq<Output>, states: seq<Db>) {
    && |outs| <= |ops| && |states| == |outs| + 1
    && forall i :: 0 <= i < |outs| ==> Perform(context, states[i], ops[i]) == (states[i + 1], outs[i])
  }

  lemma {:induction false} StatementsInTurn(context: Option<Tenant>, db: Db, ops: seq<Op>) returns (states: seq<Db>)
    ensures var (after, outs) := PerformAll(context, db, ops);
      && Trace(context, ops, outs, states) && states[0] == db && states[|outs|] == after
      && (forall i :: 0 <= i < |outs| - 1 ==> !Raises(outs[i]))
      && (|outs| < |ops| ==> outs != [] && Raises(outs[|outs| - 1]))
    decreases |ops|
  {
    hide Perform;
    hide Raises;
    if ops == [] {
      states := [db];
    } else {
      var (next, out) := Perform(context, db, ops[0]);
      if Raises(out) {
        states := [db, next];
      } else {
        var rest := StatementsInTurn(context, next, ops[1..]);
        states := [db] + rest;
      }
    }
  }

  /** A session runs its statements in turn up to the first that raises; if one
      does, nothing of it remains, and otherwise all of it does. */
  lemma {:induction false} SessionIsAtomic(db: Db, s: Session) returns (states: seq<Db>)
    ensures var (after, outs) := RunSession(db, s);
      && Trace(s.context, s.ops, outs, states) && states[0] == db
      && (forall i :: 0 <= i < |outs| - 1 ==> !Raises(outs[i]))
      && (outs != [] && Raises(outs[|outs| - 1]) ==> after == db)
      && (outs == [] || !Raises(outs[|outs| - 1]) ==> |outs| == |s.ops| && after == states[|outs|])
  {
    hide Raises;
    states := StatementsInTurn(s.context, db, s.ops);
  }

  // ---------------------------------------------------------------------
  // Assumptions of the isolation theorem
  // ---------------------------------------------------------------------

  predicate TableOf(op: Op, table: string) {
    if op.Insert? then op.key.table == table else op.table == table
  }

  predicate OnProtected(op: Op) {
    exists table :: table in PROTECTED && TableOf(op, table)
  }

  /** An update moves no row to or from tenant `t`; what other tenants do with
      each other's rows is their affair. */
  predicate KeepsTenant(session: Tenant, op: Op, t: Tenant) {
    op.Update? ==> if session == t then op.newTenant in {None, Some(t)} else op.newTenant != Some(t)
  }

  ghost predicate OpScoped(session: Tenant, op: Op, t: Tenant, mine: set<Key>) {
    && KeepsTenant(session, op, t)
    && (session == t ==> OnProtected(op))
    && (op.Insert? ==> (op.key in mine <==> session == t))
  }

  ghost predicate SessionScoped(s: Session, t: Tenant, mine: set<Key>) {
    && s.context.Some?
    && forall j :: 0 <= j < |s.ops| ==> OpScoped(s.context.value, s.ops[j], t, mine)
  }

  /** Sessions are scoped to a tenant, none moves a row to or from `t`, `t` works
      on protected tables, and nobody else inserts a key that `t` inserts. */
  ghost predicate Scoped(run: seq<Session>, t: Tenant, mine: set<Key>) {
    forall i :: 0 <= i < |run| ==> SessionScoped(run[i], t, mine)
  }

  function View(db: Db, t: Tenant): Db {
    map k | k in db && k.table in PROTECTED && db[k].tenant == t :: db[k]
  }

  /** No key that `t` inserts is taken by a row `t` cannot see. */
  ghost predicate NoClash(db: Db, t: Tenant, mine: set<Key>) {
    forall k :: k in db && k in mine ==> k in View(db, t)
  }

  // ---------------------------------------------------------------------
  // Unwinding
  // ---------------------------------------------------------------------

  lemma OtherMissesView(db: Db, u: Tenant, op: Op, t: Tenant)
    requires u != t && (op.Update? || op.Delete?)
    ensures forall k :: k in View(db, t) ==> k !in Hit(Some(u), db, op.table, op.where)
  {
  }

  lemma {:induction false} OtherKeepsRows(db: Db, u: Tenant, op: Op, t: Tenant)
    requires u != t && (op.Update? || op.Delete?) && KeepsTenant(u, op, t)
    ensures var db' := Perform(Some(u), db, op).0;
      && (forall k :: k in db' ==> k in db && (db'[k].tenant == t ==> db[k].tenant == t))
      && (forall k :: k in db && k !in Hit(Some(u), db, op.table, op.where) ==> k in db' && db'[k] == db[k])
  {
    hide Hit;
  }

  lemma {:induction false} OtherLeavesView(db: Db, u: Tenant, op: Op, t: Tenant, mine: set<Key>)
    requires u != t && OpScoped(u, op, t, mine) && NoClash(db, t, mine)
    ensures var db' := Perform(Some(u), db, op).0; View(db', t) == View(db, t) && NoClash(db', t, mine)
  {
    var db' := Perform(Some(u), db, op).0;
    if op.Update? || op.Delete? {
      OtherMissesView(db, u, op, t);
      OtherKeepsRows(db, u, op, t);
    }
    hide Hit;
    assert View(db', t) == View(db, t);
  }

  /** What `t` can touch on a protected table is exactly what it can see. */
  lemma OwnHits(db: Db, op: Op, t: Tenant)
    requires OnProtected(op)
    ensures !op.Insert? ==> Hit(Some(t), db, op.table, op.where) == Hit(Some(t), View(db, t), op.table, op.where)
  {
  }

  /** `t`'s statement acts on its view as on a database of its own. */
  lemma OwnEffect(db: Db, op: Op, t: Tenant, mine: set<Key>)
    requires OpScoped(t, op, t, mine) && NoClash(db, t, mine)
    ensures var e := Perform(Some(t), db, op).0;
      View(e, t) == Perform(Some(t), View(db, t), op).0 && NoClash(e, t, mine)
  {
    OwnHits(db, op, t);
    var e := Perform(Some(t), db, op).0;
    if op.Insert? {
      assert op.key in db <==> op.key in View(db, t);
    }
    assert View(e, t) == Perform(Some(t), View(db, t), op).0;
  }

  /** On databases that look alike to `t`, its statement is answered alike and
      leaves them looking alike. */
  lemma OwnStep(db: Db, db': Db, op: Op, t: Tenant, mine: set<Key>)
    requires OpScoped(t, op, t, mine) && NoClash(db, t, mine) && NoClash(db', t, mine)
    requires View(db, t) == View(db', t)
    ensures var (e, out) := Perform(Some(t), db, op);
      var (e', out') := Perform(Some(t), db', op);
      out == out' && View(e, t) == View(e', t) && NoClash(e, t, mine) && NoClash(e', t, mine)
  {
    OwnHits(db, op, t);
    OwnHits(db', op, t);
    OwnEffect(db, op, t, mine);
    OwnEffect(db', op, t, mine);
    if op.Insert? {
      assert op.key in db <==> op.key in View(db, t);
      assert op.key in db' <==> op.key in View(db', t);
    } else {
      var hit := Hit(Some(t), db, op.table, op.where);
      assert hit == Hit(Some(t), db', op.table, op.where);
      assert forall k :: k in hit ==> db[k] == View(db, t)[k] && db'[k] == View(db', t)[k];
    }
  }

  lemma {:induction false} OtherOps(db: Db, u: Tenant, ops: seq<Op>, t: Tenant, mine: set<Key>)
    requires u != t && NoClash(db, t, mine)
    requires forall j :: 0 <= j < |ops| ==> OpScoped(u, ops[j], t, mine)
    ensures var db' := PerformAll(Some(u), db, ops).0; View(db', t) == View(db, t) && NoClash(db', t, mine)
    decreases |ops|
  {
    if ops != [] {
      OtherLeavesView(db, u, ops[0], t, mine);
      OtherOps(Perform(Some(u), db, ops[0]).0, u, ops[1..], t, mine);
    }
  }

  lemma {:induction false} OwnOps(db: Db, db': Db, ops: seq<Op>, t: Tenant, mine: set<Key>)
    requires NoClash(db, t, mine) && NoClash(db', t, mine) && View(db, t) == View(db', t)
    requires forall j :: 0 <= j < |ops| ==> OpScoped(t, ops[j], t, mine)
    ensures var (e, outs) := PerformAll(Some(t), db, ops);
      var (e', outs') := PerformAll(Some(t), db', ops);
      outs == outs' && View(e, t) == View(e', t) && NoClash(e, t, mine) && NoClash(e', t, mine)
    decreases |ops|
  {
    if ops != [] {
      OwnStep(db, db', ops[0], t, mine);
      OwnOps(Perform(Some(t), db, ops[0]).0, Perform(Some(t), db', ops[0]).0, ops[1..], t, mine);
    }
  }

  /** Isolation. Deleting every session of the other tenants from a run changes
      nothing in any answer tenant `t` gets. */
  lemma {:induction false} TenantsDoNotInterfere(db: Db, db': Db, run: seq<Session>, t: Tenant, mine: set<Key>)
    requires Scoped(run, t, mine)
    requires View(db, t) == View(db', t) && NoClash(db, t, mine) && NoClash(db', t, mine)
    ensures Observed(db, run, t) == Observed(db', Purge(run, t), t)
    decreases |run|
  {
    if run != [] {
      var s := run[0];
      assert SessionScoped(s, t, mine);
      var next := RunSession(db, s).0;
      var purged := Purge(run[1..], t);
      assert Scoped(run[1..], t, mine) by {
        assert forall i :: 0 <= i < |run[1..]| ==> run[1..][i] == run[i + 1];
      }
      if s.context == Some(t) {
        OwnOps(db, db', s.ops, t, mine);
        TenantsDoNotInterfere(next, RunSession(db', s).0, run[1..], t, mine);
        assert ([s] + purged)[1..] == purged;
      } else {
        OtherOps(db, s.context.value, s.ops, t, mine);
        TenantsDoNotInterfere(next, db', run[1..], t, mine);
        assert [] + purged == purged;
      }
    }
  }

  // ---------------------------------------------------------------------
  // Where the policies stop
  // ---------------------------------------------------------------------

  /** Nothing blocks an update that writes another tenant's id, so such an update
      leaves the other tenant's view alone exactly when it moves no row there. */
  lemma UpdateLeavesViewIff(db: Db, u: Tenant, op: Op, t: Tenant)
    requires u != t && op.Update? && op.table in PROTECTED
    ensures View(Perform(Some(u), db, op).0, t) == View(db, t)
       <==> (op.newTenant == Some(t) ==> Hit(Some(u), db, op.table, op.where) == {})
  {
    var db' := Perform(Some(u), db, op).0;
    var hit := Hit(Some(u), db, op.table, op.where);
    if op.newTenant == Some(t) && hit != {} {
      var k :| k in hit;
      assert k in View(db', t) && k !in View(db, t);
    } else {
      assert forall k :: k in View(db, t) ==> k !in hit;
      assert View(db', t) == View(db, t);
    }
  }

  lemma OneStatement(db: Db, context: Option<Tenant>, op: Op)
    ensures var (db', out) := Perform(context, db, op);
      RunSession(db, Session(context, [op])) == (if Raises(out) then db else db', [out])
  {
    var (db', out) := Perform(context, db, op);
    assert [op][1..] == [];
    assert PerformAll(context, db', [op][1..]) == (db', []);
    assert [out] + [] == [out];
  }

  /** A key taken by another tenant is noticed: the insert that would go through
      alone is refused, so isolation does need keys nobody else inserts. */
  lemma ClashingKeyInterferes(t: Tenant, u: Tenant, key: Key, data: Data)
    requires u != t && key.table in PROTECTED
    ensures var run := [Session(Some(u), [Insert(key, Row(u, data))]), Session(Some(t), [Insert(key, Row(t, data))])];
      Observed(map[], run, t) == [[DuplicateKey]] && Observed(map[], Purge(run, t), t) == [[Affected(1)]]
  {
    var theirs := Session(Some(u), [Insert(key, Row(u, data))]);
    var ours := Session(Some(t), [Insert(key, Row(t, data))]);
    var run := [theirs, ours];
    assert run[1..] == [ours] && [ours][1..] == [];
    assert Purge([ours], t) == [ours];
    assert Purge(run, t) == [ours];
    OneStatement(map[], Some(u), theirs.ops[0]);
    OneStatement(map[], Some(t), ours.ops[0]);
    OneStatement(map[key := Row(u, data)], Some(t), ours.ops[0]);
    assert Observed(map[key := Row(u, data)], [ours], t) == [[DuplicateKey]];
    assert Observed(map[], [ours], t) == [[Affected(1)]];
  }

  /** A session without a tenant is not isolated: it may insert for any tenant,
      and exactly such an insert shows up in that tenant's view. */
  lemma UnscopedInsertReaches(db: Db, key: Key, row: Row, t: Tenant)
    requires key.table in PROTECTED
    ensures View(Perform(None, db, Insert(key, row)).0, t) != View(db, t) <==> key !in db && row.tenant == t
    ensures forall u :: u != row.tenant ==> View(Perform(Some(u), db, Insert(key, row)).0, t) == View(db, t)
  {
    if key !in db && row.tenant == t {
      assert key in View(Perform(None, db, Insert(key, row)).0, t);
      assert key !in View(db, t);
    } else {
      assert View(Perform(None, db, Insert(key, row)).0, t) == View(db, t);
    }
  }

  // ---------------------------------------------------------------------
  // The database object
  // ---------------------------------------------------------------------

  ghost function Prepend(outs: seq<Output>, r: (Db, seq<Output>)): (Db, seq<Output>) {
    (r.0, outs + r.1)
  }

  lemma PrependTwice(a: seq<Output>, b: seq<Output>, r: (Db, seq<Output>))
    ensures Prepend(a, Prepend(b, r)) == Prepend(a + b, r)
    ensures Prepend([], r) == r
  {
    assert a + (b + r.1) == (a + b) + r.1;
    assert [] + r.1 == r.1;
  }

  lemma PrependNothing(db: Db, outs: seq<Output>)
    ensures Prepend(outs, (db, [])) == (db, outs)
  {
    assert outs + [] == outs;
  }

  lemma PerformAllFrom(context: Option<Tenant>, db: Db, ops: seq<Op>, i: nat)
    requires i < |ops|
    ensures var (db', out) := Perform(context, db, ops[i]);
      PerformAll(context, db, ops[i..])
        == if Raises(out) then (db', [out]) else Prepend([out], PerformAll(context, db', ops[i + 1..]))
  {
    assert ops[i..][1..] == ops[i + 1..];
  }

  class Database {
    var rows: Db

    constructor ()
      ensures rows == map[]
    {
      rows := map[];
    }

    /** Opens a session for the tenant, runs the statements, commits or rolls back. */
    method TenantSession(tenant: Tenant, ops: seq<Op>) returns (outs: seq<Output>)
      modifies this
      ensures (rows, outs) == RunSession(old(rows), Session(Some(tenant), ops))
    {
      var context := Some(tenant);
      var before := rows;
      outs := [];
      var raised := false;
      var i := 0;
      assert ops[0..] == ops;
      PrependTwice([], [], PerformAll(context, rows, ops));
      while i < |ops| && !raised
        invariant 0 <= i <= |ops|
        invariant raised <==> !Committed(outs)
        invariant raised ==> (rows, outs) == PerformAll(context, before, ops)
        invariant !raised ==>
                    Prepend(outs, PerformAll(context, rows, ops[i..])) == PerformAll(context, before, ops)
      {
        ghost var was, sofar := rows, outs;
        var (next, out) := Perform(context, rows, ops[i]);
        PerformAllFrom(context, was, ops, i);
        rows := next;
        outs := outs + [out];
        raised := Raises(out);
        i := i + 1;
        PrependTwice(sofar, [out], PerformAll(context, rows, ops[i..]));
      }
      PrependNothing(rows, outs);
      if raised {
        rows := before;
      }
    }
  }
}
