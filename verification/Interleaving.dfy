/** Tenant sessions that run at the same time, statement by statement.

    A statement sees the committed rows and the changes of its own session. It
    waits while it would touch a row that another open session has changed, so
    a run holds only the statements that went on. */
module Interleaving {
  import opened Common
  import opened RowSecurity

  /** The rows a session has changed and not committed; `None` is a deleted row. */
  type Changes = map<Key, Option<Row>>

  /** `failed` once a statement has raised: the session can only roll back. */
  datatype Transaction = Transaction(changes: Changes, failed: bool)

  datatype World = World(rows: Db, sessions: map<nat, Transaction>)

  datatype Step = Begin(id: nat) | Statement(id: nat, op: Op) | Commit(id: nat) | Rollback(id: nat)

  /** The tenant each session id is scoped to. */
  type Scope = nat -> Tenant

  function Merge(rows: Db, changes: Changes): Db {
    map k | k in rows.Keys + changes.Keys && (k in changes ==> changes[k].Some?) ::
      if k in changes then changes[k].value else rows[k]
  }

  /** The rows a statement writes, or would write. */
  function Touched(context: Option<Tenant>, seen: Db, op: Op): set<Key> {
    match op
    case Select(_, _) => {}
    case Insert(key, _) => {key}
    case Update(table, where, _, _) => Hit(context, seen, table, where)
    case Delete(table, where) => Hit(context, seen, table, where)
  }

  function Logged(changes: Changes, touched: set<Key>, after: Db): Changes {
    changes + map k | k in touched :: if k in after then Some(after[k]) else None
  }

  function Seen(w: World, id: nat): Db
    requires id in w.sessions
  {
    Merge(w.rows, w.sessions[id].changes)
  }

  ghost predicate Unlocked(w: World, id: nat, touched: set<Key>) {
    forall other :: other in w.sessions && other != id ==> touched !! w.sessions[other].changes.Keys
  }

  ghost predicate Enabled(scope: Scope, w: World, step: Step) {
    match step
    case Begin(id) => id !in w.sessions
    case Statement(id, op) =>
      id in w.sessions && !w.sessions[id].failed && Unlocked(w, id, Touched(Some(scope(id)), Seen(w, id), op))
    case Commit(id) => id in w.sessions && !w.sessions[id].failed
    case Rollback(id) => id in w.sessions
  }

  /** A statement that raises changes nothing; one that does not is logged. */
  function After(context: Option<Tenant>, rows: Db, s: Transaction, op: Op): Transaction {
    var seen := Merge(rows, s.changes);
    var (after, out) := Perform(context, seen, op);
    if Raises(out) then s.(failed := true)
    else s.(changes := Logged(s.changes, Touched(context, seen, op), after))
  }

  ghost function Apply(scope: Scope, w: World, step: Step): World
    requires Enabled(scope, w, step)
  {
    match step
    case Begin(id) => w.(sessions := w.sessions[id := Transaction(map[], false)])
    case Statement(id, op) => w.(sessions := w.sessions[id := After(Some(scope(id)), w.rows, w.sessions[id], op)])
    case Commit(id) => World(Seen(w, id), w.sessions - {id})
    case Rollback(id) => w.(sessions := w.sessions - {id})
  }

  ghost predicate Legal(scope: Scope, w: World, run: seq<Step>)
    decreases |run|
  {
    run == [] || (Enabled(scope, w, run[0]) && Legal(scope, Apply(scope, w, run[0]), run[1..]))
  }

  /** What tenant `t`'s statements were answered during a run. */
  ghost function Observed(scope: Scope, w: World, run: seq<Step>, t: Tenant): seq<Output>
    requires Legal(scope, w, run)
    decreases |run|
  {
    if run == [] then []
    else
      (if run[0].Statement? && scope(run[0].id) == t
       then [Perform(Some(t), Seen(w, run[0].id), run[0].op).1] else [])
      + Observed(scope, Apply(scope, w, run[0]), run[1..], t)
  }

  /** The run without the steps of other tenants' sessions. */
  function Purge(scope: Scope, run: seq<Step>, t: Tenant): seq<Step> {
    if run == [] then []
    else (if scope(run[0].id) == t then [run[0]] else []) + Purge(scope, run[1..], t)
  }

  ghost predicate Scoped(scope: Scope, run: seq<Step>, t: Tenant, mine: set<Key>) {
    forall i :: 0 <= i < |run| && run[i].Statement? ==> OpScoped(scope(run[i].id), run[i].op, t, mine)
  }

  // ---------------------------------------------------------------------
  // Invariant
  // ---------------------------------------------------------------------

  /** Uncommitted changes of `t` are to its own rows, or to new ones. */
  ghost predicate OwnChanges(rows: Db, changes: Changes, t: Tenant) {
    forall k :: k in changes ==>
      && k.table in PROTECTED
      && (k in rows ==> rows[k].tenant == t)
      && (changes[k].Some? ==> changes[k].value.tenant == t)
  }

  /** Uncommitted changes of another tenant neither touch nor make a row of `t`. */
  ghost predicate OtherChanges(rows: Db, changes: Changes, t: Tenant, mine: set<Key>) {
    forall k :: k in changes ==>
      && k !in View(rows, t)
      && k !in mine
      && (k.table in PROTECTED && changes[k].Some? ==> changes[k].value.tenant != t)
  }

  ghost predicate ChangesOk(scope: Scope, rows: Db, id: nat, changes: Changes, t: Tenant, mine: set<Key>) {
    if scope(id) == t then OwnChanges(rows, changes, t) else OtherChanges(rows, changes, t, mine)
  }

  ghost predicate Apart(w: World) {
    forall i, j :: i in w.sessions && j in w.sessions && i != j ==>
      w.sessions[i].changes.Keys !! w.sessions[j].changes.Keys
  }

  ghost predicate Inv(scope: Scope, w: World, t: Tenant, mine: set<Key>) {
    && NoClash(w.rows, t, mine)
    && Apart(w)
    && forall id :: id in w.sessions ==> ChangesOk(scope, w.rows, id, w.sessions[id].changes, t, mine)
  }

  lemma MergedView(rows: Db, changes: Changes, t: Tenant, mine: set<Key>)
    requires OwnChanges(rows, changes, t) && NoClash(rows, t, mine)
    ensures View(Merge(rows, changes), t) == Merge(View(rows, t), changes)
    ensures NoClash(Merge(rows, changes), t, mine)
  {
    assert forall k :: k in View(Merge(rows, changes), t) <==> k in Merge(View(rows, t), changes);
  }

  lemma MergedOther(rows: Db, changes: Changes, t: Tenant, mine: set<Key>)
    requires OtherChanges(rows, changes, t, mine) && NoClash(rows, t, mine)
    ensures View(Merge(rows, changes), t) == View(rows, t)
    ensures NoClash(Merge(rows, changes), t, mine)
  {
    assert forall k :: k in View(Merge(rows, changes), t) <==> k in View(rows, t);
  }

  lemma TouchedIsOwn(seen: Db, op: Op, t: Tenant, mine: set<Key>)
    requires OpScoped(t, op, t, mine) && !Raises(Perform(Some(t), seen, op).1)
    ensures var after := Perform(Some(t), seen, op).0;
      forall k :: k in Touched(Some(t), seen, op) ==>
        && k.table in PROTECTED
        && (k in seen ==> seen[k].tenant == t)
        && (k in after ==> after[k].tenant == t)
  {
  }

  /** A statement's own session keeps to its rows. */
  lemma OwnStatement(rows: Db, s: Transaction, op: Op, t: Tenant, mine: set<Key>)
    requires OwnChanges(rows, s.changes, t) && OpScoped(t, op, t, mine)
    ensures OwnChanges(rows, After(Some(t), rows, s, op).changes, t)
  {
    var seen := Merge(rows, s.changes);
    var (after, out) := Perform(Some(t), seen, op);
    if !Raises(out) {
      var touched := Touched(Some(t), seen, op);
      forall k | k in touched
        ensures k.table in PROTECTED && (k in rows ==> rows[k].tenant == t) && (k in after ==> after[k].tenant == t)
      {
      }
    }
  }

  lemma OtherStatement(rows: Db, s: Transaction, op: Op, u: Tenant, t: Tenant, mine: set<Key>)
    requires OtherChanges(rows, s.changes, t, mine) && NoClash(rows, t, mine)
    requires u != t && OpScoped(u, op, t, mine)
    ensures OtherChanges(rows, After(Some(u), rows, s, op).changes, t, mine)
  {
    var seen := Merge(rows, s.changes);
    var (after, out) := Perform(Some(u), seen, op);
    if !Raises(out) {
      var touched := Touched(Some(u), seen, op);
      forall k | k in touched
        ensures k !in View(rows, t) && k !in mine && (k.table in PROTECTED && k in after ==> after[k].tenant != t)
      {
      }
    }
  }

  lemma AfterTouches(context: Option<Tenant>, rows: Db, s: Transaction, op: Op)
    ensures After(context, rows, s, op).changes.Keys <= s.changes.Keys + Touched(context, Merge(rows, s.changes), op)
  {
  }

  /** Committing one session disturbs no other. */
  lemma CommitLeaves(scope: Scope, w: World, id: nat, other: nat, t: Tenant, mine: set<Key>)
    requires Inv(scope, w, t, mine) && id in w.sessions && other in w.sessions && other != id
    ensures ChangesOk(scope, Seen(w, id), other, w.sessions[other].changes, t, mine)
  {
    var changes := w.sessions[other].changes;
    assert changes.Keys !! w.sessions[id].changes.Keys;
    assert ChangesOk(scope, w.rows, other, changes, t, mine);
    forall k | k in changes
      ensures (k in Seen(w, id) <==> k in w.rows) && (k in w.rows ==> Seen(w, id)[k] == w.rows[k])
    {
      assert k !in w.sessions[id].changes;
    }
  }

  lemma NoChanges(scope: Scope, rows: Db, id: nat, t: Tenant, mine: set<Key>)
    ensures ChangesOk(scope, rows, id, map[], t, mine)
  {
  }

  lemma {:induction false} StepKeepsInv(scope: Scope, w: World, step: Step, t: Tenant, mine: set<Key>)
    requires Inv(scope, w, t, mine) && Enabled(scope, w, step)
    requires step.Statement? ==> OpScoped(scope(step.id), step.op, t, mine)
    ensures Inv(scope, Apply(scope, w, step), t, mine)
  {
    hide After;
    hide OwnChanges;
    hide OtherChanges;
    hide OpScoped;
    hide NoClash;
    hide Touched;
    hide Merge;
    if step.id in w.sessions {
      assert ChangesOk(scope, w.rows, step.id, w.sessions[step.id].changes, t, mine);
    }
    match step {
      case Begin(id) => NoChanges(scope, w.rows, id, t, mine);
      case Rollback(id) =>
      case Commit(id) =>
        if scope(id) == t {
          MergedView(w.rows, w.sessions[id].changes, t, mine);
        } else {
          MergedOther(w.rows, w.sessions[id].changes, t, mine);
        }
        forall other | other in w.sessions && other != id
          ensures ChangesOk(scope, Seen(w, id), other, w.sessions[other].changes, t, mine)
        {
          CommitLeaves(scope, w, id, other, t, mine);
        }
      case Statement(id, op) =>
        AfterTouches(Some(scope(id)), w.rows, w.sessions[id], op);
        if scope(id) == t {
          OwnStatement(w.rows, w.sessions[id], op, t, mine);
        } else {
          OtherStatement(w.rows, w.sessions[id], op, scope(id), t, mine);
        }
    }
  }

  // ---------------------------------------------------------------------
  // Unwinding
  // ---------------------------------------------------------------------

  /** The second world looks to `t` like the first and holds no other session. */
  ghost predicate Alike(scope: Scope, w: World, w': World, t: Tenant) {
    && View(w.rows, t) == View(w'.rows, t)
    && (forall id :: id in w'.sessions ==> scope(id) == t)
    && (forall id :: scope(id) == t ==> (id in w.sessions <==> id in w'.sessions))
    && (forall id :: id in w'.sessions ==> id in w.sessions && w.sessions[id] == w'.sessions[id])
  }

  lemma {:induction false} SameLog(seen: Db, seen': Db, s: Transaction, op: Op, t: Tenant, mine: set<Key>)
    requires OpScoped(t, op, t, mine)
    requires View(Perform(Some(t), seen, op).0, t) == View(Perform(Some(t), seen', op).0, t)
    requires Perform(Some(t), seen, op).1 == Perform(Some(t), seen', op).1
    requires Touched(Some(t), seen, op) == Touched(Some(t), seen', op)
    requires !Raises(Perform(Some(t), seen, op).1)
    ensures Logged(s.changes, Touched(Some(t), seen, op), Perform(Some(t), seen, op).0)
         == Logged(s.changes, Touched(Some(t), seen', op), Perform(Some(t), seen', op).0)
  {
    TouchedIsOwn(seen, op, t, mine);
    TouchedIsOwn(seen', op, t, mine);
    hide Touched;
    hide Perform;
    var after, after' := Perform(Some(t), seen, op).0, Perform(Some(t), seen', op).0;
    forall k | k in Touched(Some(t), seen, op)
      ensures (k in after <==> k in after') && (k in after ==> after[k] == after'[k])
    {
      assert k in after ==> k in View(after, t) && View(after, t)[k] == after[k];
      assert k in after' ==> k in View(after', t) && View(after', t)[k] == after'[k];
    }
  }

  /** `t`'s statement is answered alike, logs alike and touches the same rows. */
  lemma {:induction false} SameStatement(rows: Db, rows': Db, s: Transaction, op: Op, t: Tenant, mine: set<Key>)
    requires View(rows, t) == View(rows', t) && NoClash(rows, t, mine) && NoClash(rows', t, mine)
    requires OwnChanges(rows, s.changes, t) && OwnChanges(rows', s.changes, t) && OpScoped(t, op, t, mine)
    ensures Perform(Some(t), Merge(rows, s.changes), op).1 == Perform(Some(t), Merge(rows', s.changes), op).1
    ensures Touched(Some(t), Merge(rows, s.changes), op) == Touched(Some(t), Merge(rows', s.changes), op)
    ensures After(Some(t), rows, s, op) == After(Some(t), rows', s, op)
  {
    var seen, seen' := Merge(rows, s.changes), Merge(rows', s.changes);
    MergedView(rows, s.changes, t, mine);
    MergedView(rows', s.changes, t, mine);
    OwnStep(seen, seen', op, t, mine);
    OwnHits(seen, op, t);
    OwnHits(seen', op, t);
    hide Merge;
    assert Touched(Some(t), seen, op) == Touched(Some(t), seen', op);
    if !Raises(Perform(Some(t), seen, op).1) {
      SameLog(seen, seen', s, op, t, mine);
    }
  }

  lemma {:induction false} OwnStepAlike(scope: Scope, w: World, w': World, step: Step, t: Tenant, mine: set<Key>)
    requires Inv(scope, w, t, mine) && Inv(scope, w', t, mine) && Alike(scope, w, w', t)
    requires Enabled(scope, w, step) && scope(step.id) == t
    requires step.Statement? ==> OpScoped(t, step.op, t, mine)
    ensures Enabled(scope, w', step) && Alike(scope, Apply(scope, w, step), Apply(scope, w', step), t)
    ensures step.Statement? ==> Perform(Some(t), Seen(w, step.id), step.op).1 == Perform(Some(t), Seen(w', step.id), step.op).1
  {
    hide OpScoped;
    hide Touched;
    hide After;
    hide View;
    hide Merge;
    hide NoClash;
    hide OwnChanges;
    hide Perform;
    if step.id in w.sessions {
      assert ChangesOk(scope, w.rows, step.id, w.sessions[step.id].changes, t, mine);
      assert ChangesOk(scope, w'.rows, step.id, w'.sessions[step.id].changes, t, mine);
    }
    if step.Statement? {
      SameStatement(w.rows, w'.rows, w.sessions[step.id], step.op, t, mine);
    }
    if step.Commit? {
      MergedView(w.rows, w.sessions[step.id].changes, t, mine);
      MergedView(w'.rows, w.sessions[step.id].changes, t, mine);
    }
  }

  lemma {:induction false} OtherStepAlike(scope: Scope, w: World, w': World, step: Step, t: Tenant, mine: set<Key>)
    requires Inv(scope, w, t, mine) && Alike(scope, w, w', t)
    requires Enabled(scope, w, step) && scope(step.id) != t
    ensures Alike(scope, Apply(scope, w, step), w', t)
  {
    hide After;
    hide View;
    hide Merge;
    hide NoClash;
    hide Touched;
    if step.Commit? {
      assert ChangesOk(scope, w.rows, step.id, w.sessions[step.id].changes, t, mine);
      MergedOther(w.rows, w.sessions[step.id].changes, t, mine);
    }
  }

  lemma {:induction false} StepsDoNotInterfere(scope: Scope, w: World, w': World, run: seq<Step>, t: Tenant, mine: set<Key>)
    requires Legal(scope, w, run) && Scoped(scope, run, t, mine)
    requires Inv(scope, w, t, mine) && Inv(scope, w', t, mine) && Alike(scope, w, w', t)
    ensures Legal(scope, w', Purge(scope, run, t))
    ensures Observed(scope, w, run, t) == Observed(scope, w', Purge(scope, run, t), t)
    decreases |run|
  {
    hide Inv;
    hide Alike;
    hide Enabled;
    hide Apply;
    hide OpScoped;
    hide Perform;
    if run != [] {
      var step, rest, purged := run[0], run[1..], Purge(scope, run[1..], t);
      assert Scoped(scope, rest, t, mine) by {
        assert forall i :: 0 <= i < |rest| ==> rest[i] == run[i + 1];
      }
      StepKeepsInv(scope, w, step, t, mine);
      if scope(step.id) == t {
        OwnStepAlike(scope, w, w', step, t, mine);
        StepKeepsInv(scope, w', step, t, mine);
        StepsDoNotInterfere(scope, Apply(scope, w, step), Apply(scope, w', step), rest, t, mine);
        assert ([step] + purged)[1..] == purged;
      } else {
        OtherStepAlike(scope, w, w', step, t, mine);
        StepsDoNotInterfere(scope, Apply(scope, w, step), w', rest, t, mine);
        assert [] + purged == purged;
      }
    }
  }

  /** Isolation of sessions that interleave in any way. Without the steps of the
      other tenants' sessions the run is still possible, so none of its statements
      has to wait, and tenant `t` is answered exactly the same. */
  lemma InterleavedTenantsDoNotInterfere(scope: Scope, rows: Db, rows': Db, run: seq<Step>, t: Tenant, mine: set<Key>)
    requires Legal(scope, World(rows, map[]), run) && Scoped(scope, run, t, mine)
    requires View(rows, t) == View(rows', t) && NoClash(rows, t, mine) && NoClash(rows', t, mine)
    ensures Legal(scope, World(rows', map[]), Purge(scope, run, t))
    ensures Observed(scope, World(rows, map[]), run, t) == Observed(scope, World(rows', map[]), Purge(scope, run, t), t)
  {
    StepsDoNotInterfere(scope, World(rows, map[]), World(rows', map[]), run, t, mine);
  }

  /** A session whose statement has raised can only roll back, and then nothing of
      it remains; while it is open nobody else sees its changes. */
  lemma FailedRollsBack(scope: Scope, w: World, step: Step, id: nat)
    requires id in w.sessions && w.sessions[id].failed && Enabled(scope, w, step) && step.id == id
    ensures step == Rollback(id) && Apply(scope, w, step) == World(w.rows, w.sessions - {id})
  {
  }

  /** Sessions overlap freely: a step of an open session waits for nothing but
      another open session that has written a row it would write, and a new
      session can begin at any time. */
  lemma WaitsOnlyForWriters(scope: Scope, w: World, step: Step)
    ensures step.Begin? ==> (Enabled(scope, w, step) <==> step.id !in w.sessions)
    ensures step.Rollback? ==> (Enabled(scope, w, step) <==> step.id in w.sessions)
    ensures step.id in w.sessions && !w.sessions[step.id].failed && (step.Commit? || (step.Statement? && step.op.Select?)) ==>
              Enabled(scope, w, step)
    ensures step.Statement? && step.id in w.sessions && !w.sessions[step.id].failed && !Enabled(scope, w, step) ==>
              exists other, k :: other in w.sessions && other != step.id && k in w.sessions[other].changes
                                 && k in Touched(Some(scope(step.id)), Seen(w, step.id), step.op)
  {
    if step.Statement? && step.id in w.sessions && !w.sessions[step.id].failed && !Enabled(scope, w, step) {
      var touched := Touched(Some(scope(step.id)), Seen(w, step.id), step.op);
      var other :| other in w.sessions && other != step.id && !(touched !! w.sessions[other].changes.Keys);
      var k :| k in touched && k in w.sessions[other].changes.Keys;
    }
  }

  lemma {:induction false} FailedStays(scope: Scope, w: World, run: seq<Step>, id: nat, j: nat)
    requires Legal(scope, w, run) && id in w.sessions && w.sessions[id].failed
    requires j < |run| && run[j].id == id && forall i :: 0 <= i < j ==> run[i].id != id
    ensures run[j] == Rollback(id)
    decreases j
  {
    hide After;
    if j > 0 {
      assert run[0].id != id;
      FailedStays(scope, Apply(scope, w, run[0]), run[1..], id, j - 1);
    }
  }

  /** Once a statement has raised, the next step of its session in any run is to
      roll back, whatever the other sessions do in between. */
  lemma {:induction false} RaisedSessionRollsBack(scope: Scope, w: World, run: seq<Step>, j: nat)
    requires Legal(scope, w, run) && 0 < j < |run| && run[0].Statement?
    requires Perform(Some(scope(run[0].id)), Seen(w, run[0].id), run[0].op).1 in {DuplicateKey, Blocked}
    requires run[j].id == run[0].id && forall i :: 0 < i < j ==> run[i].id != run[0].id
    ensures run[j] == Rollback(run[0].id)
  {
    FailedStays(scope, Apply(scope, w, run[0]), run[1..], run[0].id, j - 1);
  }

  predicate SameAt(a: Db, b: Db, k: Key) {
    (k in a <==> k in b) && (k in a ==> a[k] == b[k])
  }

  /** Only a commit changes the rows that others see, and only by its own changes. */
  lemma OnlyCommitsChangeRows(scope: Scope, w: World, step: Step)
    requires Enabled(scope, w, step)
    ensures !step.Commit? ==> Apply(scope, w, step).rows == w.rows
    ensures step.Commit? ==>
              forall k :: if k in w.sessions[step.id].changes
                          then SameAt(Apply(scope, w, step).rows, Seen(w, step.id), k)
                          else SameAt(Apply(scope, w, step).rows, w.rows, k)
  {
  }

  // ---------------------------------------------------------------------
  // A session on its own
  // ---------------------------------------------------------------------

  ghost function Final(scope: Scope, w: World, run: seq<Step>): World
    requires Legal(scope, w, run)
    decreases |run|
  {
    if run == [] then w else Final(scope, Apply(scope, w, run[0]), run[1..])
  }

  /** The statements, and the end their answers lead to. */
  function Remaining(id: nat, ops: seq<Op>, outs: seq<Output>): seq<Step>
    requires |outs| <= |ops|
  {
    if outs == [] then [Commit(id)]
    else if Raises(outs[0]) then [Statement(id, ops[0]), Rollback(id)]
    else [Statement(id, ops[0])] + Remaining(id, ops[1..], outs[1..])
  }

  lemma {:induction false} AtMostOneAnswerEach(context: Option<Tenant>, rows: Db, ops: seq<Op>)
    ensures |PerformAll(context, rows, ops).1| <= |ops|
    decreases |ops|
  {
    if ops != [] {
      AtMostOneAnswerEach(context, Perform(context, rows, ops[0]).0, ops[1..]);
    }
  }

  lemma OnlyTouchedChange(context: Option<Tenant>, seen: Db, op: Op)
    ensures forall k :: k !in Touched(context, seen, op) ==> SameAt(Perform(context, seen, op).0, seen, k)
  {
  }

  /** What a session sees after its statement is what the statement made. */
  lemma {:induction false} SeesOwnChanges(context: Option<Tenant>, rows: Db, s: Transaction, op: Op)
    requires !Raises(Perform(context, Merge(rows, s.changes), op).1)
    ensures Merge(rows, After(context, rows, s, op).changes) == Perform(context, Merge(rows, s.changes), op).0
  {
    var seen := Merge(rows, s.changes);
    OnlyTouchedChange(context, seen, op);
    hide Perform;
    hide Touched;
    var after := Perform(context, seen, op).0;
    var now := Merge(rows, After(context, rows, s, op).changes);
    forall k
      ensures SameAt(now, after, k)
    {
      if k !in Touched(context, seen, op) {
        assert SameAt(after, seen, k);
      }
    }
    assert forall k :: k in now <==> k in after by {
      assert forall k :: SameAt(now, after, k);
    }
  }

  lemma {:induction false} EndAlone(scope: Scope, w: World, id: nat, end: Step)
    requires end == Commit(id) || end == Rollback(id)
    requires id in w.sessions && w.sessions.Keys == {id} && (end.Commit? ==> !w.sessions[id].failed)
    ensures Legal(scope, w, [end])
    ensures Final(scope, w, [end]) == World(if end.Commit? then Seen(w, id) else w.rows, map[])
    ensures Observed(scope, w, [end], scope(id)) == []
  {
    hide Merge;
    assert [end][1..] == [];
  }

  lemma {:induction false} RemainingAlone(scope: Scope, rows: Db, s: Transaction, id: nat, ops: seq<Op>)
    requires !s.failed
    ensures var context := Some(scope(id));
      var (after, outs) := PerformAll(context, Merge(rows, s.changes), ops);
      var w := World(rows, map[id := s]);
      && |outs| <= |ops|
      && Legal(scope, w, Remaining(id, ops, outs))
      && Final(scope, w, Remaining(id, ops, outs)) == World(if Committed(outs) then after else rows, map[])
      && Observed(scope, w, Remaining(id, ops, outs), scope(id)) == outs
    decreases |ops|
  {
    hide Perform;
    hide Touched;
    hide Merge;
    hide Logged;
    var context := Some(scope(id));
    var seen := Merge(rows, s.changes);
    AtMostOneAnswerEach(context, seen, ops);
    var w := World(rows, map[id := s]);
    if ops == [] {
      EndAlone(scope, w, id, Commit(id));
    } else {
      var (next, out) := Perform(context, seen, ops[0]);
      var s' := After(context, rows, s, ops[0]);
      var w' := World(rows, map[id := s']);
      assert Apply(scope, w, Statement(id, ops[0])) == w';
      if Raises(out) {
        var run := [Statement(id, ops[0]), Rollback(id)];
        assert run[1..] == [Rollback(id)];
        EndAlone(scope, w', id, Rollback(id));
        assert [out] + [] == [out];
      } else {
        SeesOwnChanges(context, rows, s, ops[0]);
        RemainingAlone(scope, rows, s', id, ops[1..]);
        var (after, outs) := PerformAll(context, next, ops[1..]);
        assert ([out] + outs)[1..] == outs;
        var rest := Remaining(id, ops[1..], outs);
        assert ([Statement(id, ops[0])] + rest)[1..] == rest;
      }
    }
  }

  /** A session that runs alone is answered, and leaves the rows, as the session
      does that runs from its first statement to its end without a pause. */
  lemma {:induction false} AloneAsWhole(scope: Scope, rows: Db, id: nat, ops: seq<Op>)
    ensures var (after, outs) := RunSession(rows, Session(Some(scope(id)), ops));
      && |outs| <= |ops|
      && var run := [Begin(id)] + Remaining(id, ops, outs);
      && Legal(scope, World(rows, map[]), run)
      && Final(scope, World(rows, map[]), run) == World(after, map[])
      && Observed(scope, World(rows, map[]), run, scope(id)) == outs
  {
    hide PerformAll;
    hide Touched;
    var s := Transaction(map[], false);
    RemainingAlone(scope, rows, s, id, ops);
    assert Merge(rows, map[]) == rows;
    var outs := PerformAll(Some(scope(id)), rows, ops).1;
    var rest := Remaining(id, ops, outs);
    assert ([Begin(id)] + rest)[1..] == rest;
    assert Apply(scope, World(rows, map[]), Begin(id)) == World(rows, map[id := s]);
    assert [] + outs == outs;
  }
}
