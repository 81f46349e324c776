/** The shared database as an object: a caller's own statements, and whatever others do in between. */
module Database {
  import opened Domain
  import opened BookingDb
  import opened BookingDbProofs

  // The step belongs to transaction `t`.
  predicate StepOf(step: DbStep, t: nat) {
    match step
    case Begin(u, _) => u == t
    case InsertBooking(u, _) => u == t
    case UpdateBooking(u) => u == t
    case InsertOutbox(u, _) => u == t
    case Commit(u) => u == t
    case Rollback(u) => u == t
    case _ => false
  }

  // Any number of steps of anyone but transaction `t`.
  ghost predicate Interleaves(db: Db, db': Db, t: nat) {
    exists steps :: Runs(db, steps, db') && NoneOf(steps, t)
  }

  ghost predicate NoneOf(steps: seq<DbStep>, t: nat) {
    forall i :: 0 <= i < |steps| ==> !StepOf(steps[i], t)
  }

  lemma StepLeavesTx(db: Db, step: DbStep, t: nat)
    requires Enabled(db, step) && !StepOf(step, t)
    ensures t in db.txs <==> t in Apply(db, step).txs
    ensures t in db.txs ==> Apply(db, step).txs[t] == db.txs[t]
  {
  }

  lemma {:induction false} RunsLeaveTx(db: Db, steps: seq<DbStep>, db': Db, t: nat)
    requires Runs(db, steps, db') && NoneOf(steps, t)
    ensures t in db.txs <==> t in db'.txs
    ensures t in db.txs ==> db'.txs[t] == db.txs[t]
    decreases |steps|
  {
    if steps != [] {
      StepLeavesTx(db, steps[0], t);
      RunsLeaveTx(Apply(db, steps[0]), steps[1..], db', t);
    }
  }

  // Whatever the others do, the invariant holds, nothing committed is undone and transaction `t` is untouched.
  lemma InterleavingIsSafe(db: Db, db': Db, t: nat)
    requires DbInv(db) && Interleaves(db, db', t)
    ensures DbInv(db') && Evolves(db, db')
    ensures t in db.txs <==> t in db'.txs
    ensures t in db.txs ==> db'.txs[t] == db.txs[t]
  {
    var steps :| Runs(db, steps, db') && NoneOf(steps, t);
    RunsKeep(db, steps, db');
    RunsLeaveTx(db, steps, db', t);
  }

  lemma OthersAreSafe(db: Db, db': Db, t: nat)
    requires Reachable(db) && Interleaves(db, db', t)
    ensures Reachable(db') && Evolves(db, db')
    ensures t in db.txs <==> t in db'.txs
    ensures t in db.txs ==> db'.txs[t] == db.txs[t]
  {
    var steps :| Runs(db, steps, db') && NoneOf(steps, t);
    RunsStayReachable(db, steps, db');
    ReachableInv(db);
    InterleavingIsSafe(db, db', t);
  }

  lemma AnyoneIsSafe(db: Db, steps: seq<DbStep>, db': Db)
    requires Reachable(db) && Runs(db, steps, db')
    ensures Reachable(db') && Evolves(db, db')
  {
    RunsStayReachable(db, steps, db');
    ReachableInv(db);
    RunsKeep(db, steps, db');
  }

  lemma ExecIsSafe(db: Db, step: DbStep)
    requires Reachable(db) && Enabled(db, step)
    ensures Reachable(Apply(db, step)) && Evolves(db, Apply(db, step))
  {
    NextIsReachable(db, step);
    ReachableInv(db);
    StepEvolves(db, step);
  }

  method AboveAll(ids: set<nat>) returns (n: nat)
    ensures Above(n, ids)
  {
    ghost var bound := SomethingIsAbove(ids);
    n :| Above(n, ids);
  }

  class Connection {
    var db: Db
    // The transactions that have committed, never to be numbered again, and how often the others had their turn.
    ghost var commits: set<nat>
    ghost var pauses: nat

    constructor ()
      ensures Valid() && db == EmptyDb() && commits == {} && pauses == 0
    {
      db := EmptyDb();
      commits, pauses := {}, 0;
      new;
      assert Runs(EmptyDb(), [], db);
    }

    // The database is one some run of the machine leads to.
    ghost predicate Valid()
      reads this
    {
      Reachable(db)
    }

    // One atomic step of the caller.
    method Exec(step: DbStep)
      requires Valid() && Enabled(db, step)
      modifies this
      ensures db == Apply(old(db), step)
      ensures Valid() && Evolves(old(db), db)
      ensures commits == (if step.Commit? then old(commits) + {step.t} else old(commits)) && pauses == old(pauses)
    {
      ExecIsSafe(db, step);
      db := Apply(db, step);
      commits := if step.Commit? then commits + {step.t} else commits;
    }

    // Anything the others can do while transaction `t` pauses.
    method Havoc(ghost t: nat)
      modifies this
      ensures Interleaves(old(db), db, t) && pauses == old(pauses)
      ensures t in commits <==> t in old(commits)
    {
      assert Runs(db, [], db) && NoneOf([], t);
    }

    // The caller is preempted: the others take any number of steps, none of them of transaction `t`.
    method Others(ghost t: nat)
      requires Valid()
      modifies this
      ensures Interleaves(old(db), db, t)
      ensures Valid() && Evolves(old(db), db)
      ensures t in old(db).txs <==> t in db.txs
      ensures t in old(db).txs ==> db.txs[t] == old(db).txs[t]
      ensures (t in commits <==> t in old(commits)) && pauses == old(pauses) + 1
    {
      Havoc(t);
      pauses := pauses + 1;
      OthersAreSafe(old(db), db, t);
    }

    method HavocAll()
      modifies this
      ensures exists steps :: Runs(old(db), steps, db)
    {
      assert Runs(db, [], db);
    }

    // The same for a caller without a transaction: anyone may take any steps.
    method Anyone()
      requires Valid()
      modifies this
      ensures exists steps :: Runs(old(db), steps, db)
      ensures Valid() && Evolves(old(db), db)
    {
      HavocAll();
      ghost var steps :| Runs(old(db), steps, db);
      AnyoneIsSafe(old(db), steps, db);
    }

    // `n` different slot identifiers, none of them stored.
    method NewSlotIds(n: nat) returns (ids: seq<Uuid>)
      ensures |ids| == n && forall i :: 0 <= i < n ==> ids[i] !in db.slots
      ensures forall i, j :: 0 <= i < j < n ==> ids[i] != ids[j]
    {
      var first := AboveAll(db.slots.Keys);
      ids := seq(n, i => first + i);
    }

    // gen_random_uuid() and uuid.New(): an identifier nothing stored, in flight or being asked for uses.
    method NewUuid() returns (id: Uuid)
      ensures BookingIdUnused(db, id) && RowIdUnused(db, id) && id !in db.slots
    {
      var inserted := set t | t in db.txs && db.txs[t].change.Some? :: db.txs[t].change.value.id;
      var targets := set t | t in db.txs && db.txs[t].op.CancelOp? :: db.txs[t].op.bookingId;
      var rows := set t | t in db.txs && db.txs[t].row.Some? :: db.txs[t].row.value.id;
      id := AboveAll(db.bookings.Keys + db.outbox.Keys + db.slots.Keys + inserted + targets + rows);
      assert forall t :: t in db.txs && db.txs[t].change.Some? ==> db.txs[t].change.value.id in inserted;
      assert forall t :: t in db.txs && db.txs[t].op.CancelOp? ==> db.txs[t].op.bookingId in targets;
      assert forall t :: t in db.txs && db.txs[t].row.Some? ==> db.txs[t].row.value.id in rows;
    }
  }
}
