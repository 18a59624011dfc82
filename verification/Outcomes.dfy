/** The committed outcome of the session's transactions, in terms of rows. */
module Outcomes {
  import opened Common
  import opened Schema
  import opened Cascade
  import opened Dao
  import opened Executor
  import opened Erasure
  import opened Session

  function Without(db: Table, p: Id): Table {
    map r | r in db && !About(r, p) :: db[r]
  }

  predicate HasMember(db: Table, p: Id) {
    exists r :: r in db && r.Member? && r.participant == p
  }

  /** The participant is in this meeting under another instance. */
  predicate Superseded(db: Table, p: Id, m: Id, i: Id) {
    exists r :: r in db && r.Member? && r.participant == p && r.meeting == m && r.instance != i
  }

  lemma ClosureSparesWorkers(db: Table, w: Where)
    ensures forall r :: r in Closure(db.Keys, Matching(db, w)) ==> !r.WorkerContainer?
  {
    var others := set r | r in db && !r.WorkerContainer?;
    ClosureIsLeast(db.Keys, Matching(db, w), others);
  }

  /** No session statement deletes a worker, so no delete is ever restricted. */
  lemma DeleteApplies(db: Table, w: Where)
    ensures DeleteRows(db, w) == Applied(db - Closure(db.Keys, Matching(db, w)), Affected(db, Matching(db, w)))
  {
    ClosureSparesWorkers(db, w);
    NotRestricted(db, Closure(db.Keys, Matching(db, w)));
  }

  lemma NotRestricted(db: Table, doomed: set<Row>)
    requires forall d :: d in doomed ==> !d.WorkerContainer?
    ensures !Restricted(db, doomed)
  {
  }

  lemma CopyIsStored(db: Table, rows: set<Row>, r: Row, copy: int)
    requires r in rows && r in db && 0 <= copy < db[r]
    ensures (r, copy) in StoredCopies(db, rows)
  {
  }

  lemma AffectedIffMatching(db: Table, w: Where)
    ensures Affected(db, Matching(db, w)) == 0 <==> Matching(db, w) == {}
  {
    var matched := Matching(db, w);
    if matched != {} {
      var r :| r in matched;
      CopyIsStored(db, matched, r, 0);
    }
  }

  lemma ClosureOfNothing(rows: set<Row>)
    ensures Closure(rows, {}) == {}
  {
  }

  lemma MemberDeletion(db: Table, w: Where, p: Id)
    requires Consistent(db) && OwnTransports(db.Keys)
    requires forall r :: r in Matching(db, w) ==> r.Member? && r.participant == p
    ensures db - Closure(db.Keys, Matching(db, w)) == if Matching(db, w) != {} then Without(db, p) else db
  {
    var matched := Matching(db, w);
    if matched == {} {
      ClosureOfNothing(db.Keys);
    } else {
      var member :| member in matched;
      OneMembership(db, p);
      assert matched == {member};
      MemberClosure(db.Keys, member);
    }
  }

  lemma OneMembership(db: Table, p: Id)
    requires Consistent(db)
    ensures forall r, s :: r in db && s in db && r.Member? && s.Member? && r.participant == p && s.participant == p ==>
              r == s
  {
  }

  /** Without a membership, nothing in the database is about the participant. */
  lemma NobodyWithoutMembership(db: Table, p: Id, r: Row)
    requires Consistent(db) && r in db && About(r, p)
    ensures HasMember(db, p)
  {
    if !r.Member? {
      var k := MemberKey(p);
      assert k in References(r);
      assert Provided(db.Keys, k);
      var s :| s in db && k in Provides(s);
    }
  }

  lemma SingleStatement(db: Table, s: Statement, link: Link)
    ensures Transact(db, [s], true, link).1.Success? ==>
              && Execute(db, s).Applied?
              && Transact(db, [s], true, link) == (Execute(db, s).db, Success(false))
    ensures Reliable(link) && Execute(db, s).Applied? ==>
              Transact(db, [s], true, link).1.Success?
    ensures RollsBack(link) && IsDuplicate(Execute(db, s)) ==>
              Transact(db, [s], true, link) == (db, Failure(MySqlError(DUPLICATE_KEY)))
    ensures Transact(db, [s], true, link).1 == Failure(MySqlError(DUPLICATE_KEY)) ==> IsDuplicate(Execute(db, s))
  {
    var e := Attempt(db, s, 0, link);
    if e.Applied? {
      assert RunFrom(db, [s], 0, false, true, link) == RunFrom(e.db, [s], 1, false, true, link);
    }
  }

  lemma SingleDeletion(db: Table, w: Where, link: Link)
    ensures var out := DeleteFrom(db, [Delete(w)], 0, 0, link);
            && DeleteRows(db, w).Applied?
            && (out.Success? ==> out.value == (DeleteRows(db, w).db, DeleteRows(db, w).affected))
            && (Reliable(link) ==> out.Success?)
  {
    DeleteApplies(db, w);
    var e := Attempt(db, Delete(w), 0, link);
    if e.Applied? {
      assert DeleteFrom(db, [Delete(w)], 0, 0, link) == DeleteFrom(e.db, [Delete(w)], 1, e.affected, link);
    }
  }

  // ----- Runs of insertions that must not collide -----

  predicate InsertsOnly(stmts: seq<Statement>, n: nat) {
    forall k :: n <= k < |stmts| ==> stmts[k].Insert?
  }

  predicate Inserts(stmts: seq<Statement>, n: nat, r: Row) {
    exists k :: n <= k < |stmts| && stmts[k] == Insert(r)
  }

  /** The rows of `stmts[n..]` were added, and nothing else happened. */
  ghost predicate Adds(db: Table, stmts: seq<Statement>, n: nat, after: Table)
    requires InsertsOnly(stmts, n)
  {
    && (forall r :: r in db ==> r in after && (!Inserts(stmts, n, r) ==> after[r] == db[r]))
    && (forall r :: r in after ==> r in db || Inserts(stmts, n, r))
    && (forall k :: n <= k < |stmts| ==> stmts[k].row in after)
  }

  /** The inserted rows share no key with a stored row. */
  ghost predicate NewKeys(db: Table, stmts: seq<Statement>, n: nat)
    requires InsertsOnly(stmts, n)
  {
    forall k, key :: n <= k < |stmts| && key in Provides(stmts[k].row) ==> !Provided(db.Keys, key)
  }

  /** Nor with one another. */
  ghost predicate DistinctKeys(stmts: seq<Statement>, n: nat)
    requires InsertsOnly(stmts, n)
  {
    forall k, l :: n <= k < l < |stmts| ==> Provides(stmts[k].row) !! Provides(stmts[l].row)
  }

  lemma InsertionStep(db: Table, stmts: seq<Statement>, n: nat, after: Table)
    requires n < |stmts| && InsertsOnly(stmts, n) && InsertRow(db, stmts[n].row).Applied?
    requires var next := InsertRow(db, stmts[n].row).db;
             Adds(next, stmts, n + 1, after) && NewKeys(next, stmts, n + 1) && DistinctKeys(stmts, n + 1)
    ensures Adds(db, stmts, n, after)
    ensures NewKeys(db, stmts, n)
    ensures DistinctKeys(stmts, n)
  {
    var row := stmts[n].row;
    var next := InsertRow(db, row).db;
    forall r | r in after ensures r in db || Inserts(stmts, n, r) {
      assert stmts[n] == Insert(row);
    }
    forall r | r in db && !Inserts(stmts, n, r) ensures after[r] == db[r] {
      assert r != row by {
        assert stmts[n] == Insert(row);
      }
    }
    forall k, key | n <= k < |stmts| && key in Provides(stmts[k].row) ensures !Provided(db.Keys, key) {
      if k > n {
        assert !Provided(next.Keys, key);
      }
    }
    forall l | n < l < |stmts| ensures Provides(row) !! Provides(stmts[l].row) {
      assert row in next;
      forall key | key in Provides(stmts[l].row) ensures key !in Provides(row) {
        assert !Provided(next.Keys, key);
      }
    }
  }

  /** A committed run of insertions without skipping: all rows were added, and none collided. */
  lemma {:induction false} InsertionRun(db: Table, stmts: seq<Statement>, n: nat, duplicate: bool, link: Link)
    requires n <= |stmts| && InsertsOnly(stmts, n)
    requires RunFrom(db, stmts, n, duplicate, true, link).Success?
    ensures Adds(db, stmts, n, RunFrom(db, stmts, n, duplicate, true, link).value.0)
    ensures NewKeys(db, stmts, n) && DistinctKeys(stmts, n)
    decreases |stmts| - n
  {
    if n < |stmts| {
      RunStep(db, stmts, n, duplicate, true, link);
      var next := InsertRow(db, stmts[n].row).db;
      InsertionRun(next, stmts, n + 1, duplicate, link);
      InsertionStep(db, stmts, n, RunFrom(next, stmts, n + 1, duplicate, true, link).value.0);
    }
  }
}
