/** How the executor fails: which error a transaction answers, what `delete` commits, and that `put` inserts
    and `delete` deletes. */
module Failures {
  import opened Common
  import opened Schema
  import opened Dao
  import opened Executor

  // ----- Transactions -----

  /** The first `i` statements were applied, or skipped as duplicates where that is allowed. */
  ghost predicate Reaches(states: seq<Table>, db: Table, stmts: seq<Statement>, i: nat, rollback: bool, link: Link) {
    && |states| == i + 1 && i <= |stmts| && states[0] == db
    && forall j :: 0 <= j < i ==> Passes(states[j], stmts[j], j, rollback, link, states[j + 1])
  }

  ghost predicate Passes(before: Table, s: Statement, j: nat, rollback: bool, link: Link, after: Table) {
    Follows(before, s, j, link, after) && (rollback ==> Attempt(before, s, j, link).Applied?)
  }

  /** The answer to the statement ends the transaction: the error is the server's code or the driver's
      message, unless the rollback fails too. */
  ghost predicate StopsAt(db: Table, s: Statement, i: nat, rollback: bool, link: Link, e: DbError) {
    var answer := Attempt(db, s, i, link);
    && answer.Rejected? && (rollback || answer.error != Server(DUPLICATE_KEY))
    && match (answer.error, link.rollbackError)
       case (Server(code), None) => e == MySqlError(code)
       case (Server(_), Some(reason)) => e == RollbackError(reason)
       case (Client(reason), None) => e == GenericError(reason)
       case (Client(_), Some(reason)) => e == GenericError(reason)
  }

  ghost predicate FailsCommit(link: Link, e: DbError) {
    match link.commitError
    case None => false
    case Some(Server(code)) => e == MySqlError(code)
    case Some(Client(reason)) => e == GenericError(reason)
  }

  /** The three ways a transaction fails: it has no connection, one of its statements stops it, or it gets
      through and cannot commit. */
  ghost predicate FailsWith(db: Table, stmts: seq<Statement>, rollback: bool, link: Link, e: DbError) {
    if !link.connected then e == Panicked
    else
      || (exists states, i: nat ::
            i < |stmts| && Reaches(states, db, stmts, i, rollback, link)
            && StopsAt(states[i], stmts[i], i, rollback, link, e))
      || (FailsCommit(link, e) && exists states :: Reaches(states, db, stmts, |stmts|, rollback, link))
  }

  /** Running on from where the first statements lead. */
  lemma {:induction false} RunReached(states: seq<Table>, db: Table, stmts: seq<Statement>, i: nat, rollback: bool,
                                      link: Link)
    returns (duplicate: bool)
    requires link.connected && Reaches(states, db, stmts, i, rollback, link)
    ensures RunFrom(db, stmts, 0, false, rollback, link) == RunFrom(states[i], stmts, i, duplicate, rollback, link)
  {
    if i == 0 {
      duplicate := false;
    } else {
      duplicate := RunReached(states[..i], db, stmts, i - 1, rollback, link);
      assert Passes(states[i - 1], stmts[i - 1], i - 1, rollback, link, states[i]);
      var e := Attempt(states[i - 1], stmts[i - 1], i - 1, link);
      duplicate := duplicate || IsDuplicate(e);
    }
  }

  lemma ReachesMore(states: seq<Table>, db: Table, stmts: seq<Statement>, i: nat, rollback: bool, link: Link,
                    next: Table)
    requires i < |stmts| && Reaches(states, db, stmts, i, rollback, link)
    requires Passes(states[i], stmts[i], i, rollback, link, next)
    ensures Reaches(states + [next], db, stmts, i + 1, rollback, link)
  {
    hide Passes;
  }

  lemma {:induction false} WhereItFails(states: seq<Table>, db: Table, stmts: seq<Statement>, i: nat, duplicate: bool,
                                        rollback: bool, link: Link, e: DbError)
    requires link.connected && Reaches(states, db, stmts, i, rollback, link)
    requires RunFrom(states[i], stmts, i, duplicate, rollback, link) == Failure(e)
    ensures FailsWith(db, stmts, rollback, link, e)
    decreases |stmts| - i
  {
    if i < |stmts| {
      var answer := Attempt(states[i], stmts[i], i, link);
      if answer.Applied? || (IsDuplicate(answer) && !rollback) {
        var next := if answer.Applied? then answer.db else states[i];
        ReachesMore(states, db, stmts, i, rollback, link, next);
        hide Reaches, FailsWith;
        WhereItFails(states + [next], db, stmts, i + 1, duplicate || IsDuplicate(answer), rollback, link, e);
      } else {
        assert StopsAt(states[i], stmts[i], i, rollback, link, e);
      }
    }
  }

  /** A transaction fails with an error if and only if it is the error of one of these three ways. */
  lemma TransactionFailure(db: Table, stmts: seq<Statement>, rollback: bool, link: Link, e: DbError)
    ensures Transact(db, stmts, rollback, link).1 == Failure(e) <==> FailsWith(db, stmts, rollback, link, e)
  {
    if link.connected {
      if RunFrom(db, stmts, 0, false, rollback, link) == Failure(e) {
        WhereItFails([db], db, stmts, 0, false, rollback, link, e);
      }
      if FailsWith(db, stmts, rollback, link, e) {
        FailuresHappen(db, stmts, rollback, link, e);
      }
    }
  }

  lemma FailuresHappen(db: Table, stmts: seq<Statement>, rollback: bool, link: Link, e: DbError)
    requires link.connected && FailsWith(db, stmts, rollback, link, e)
    ensures RunFrom(db, stmts, 0, false, rollback, link) == Failure(e)
  {
    if states, i: nat :| i < |stmts| && Reaches(states, db, stmts, i, rollback, link)
                         && StopsAt(states[i], stmts[i], i, rollback, link, e) {
      var _ := RunReached(states, db, stmts, i, rollback, link);
    } else {
      var states :| Reaches(states, db, stmts, |stmts|, rollback, link);
      var _ := RunReached(states, db, stmts, |stmts|, rollback, link);
    }
  }

  /** Only a missing connection makes a transaction panic. */
  lemma PanicsWithoutConnection(db: Table, stmts: seq<Statement>, rollback: bool, link: Link)
    ensures Transact(db, stmts, rollback, link).1 == Failure(Panicked) <==> !link.connected
  {
    TransactionFailure(db, stmts, rollback, link, Panicked);
  }

  // ----- Deletions -----

  /** All statements were applied one after the other, and `affected` is what the last one reported. */
  ghost predicate Deletes(states: seq<Table>, db: Table, stmts: seq<Statement>, i: nat, link: Link, affected: nat) {
    && |states| == i + 1 && i <= |stmts| && states[0] == db
    && (forall j :: 0 <= j < i ==> DeletesNext(states[j], stmts[j], j, link, states[j + 1]))
    && (if i == 0 then affected == 0
        else
          var last := Attempt(states[i - 1], stmts[i - 1], i - 1, link);
          last.Applied? && affected == last.affected)
  }

  ghost predicate DeletesNext(before: Table, s: Statement, j: nat, link: Link, after: Table) {
    var e := Attempt(before, s, j, link); e.Applied? && e.db == after
  }

  lemma {:induction false} DeletionsReached(states: seq<Table>, db: Table, stmts: seq<Statement>, i: nat, link: Link,
                                            affected: nat)
    requires link.connected && Deletes(states, db, stmts, i, link, affected)
    ensures DeleteFrom(db, stmts, 0, 0, link) == DeleteFrom(states[i], stmts, i, affected, link)
  {
    if i > 0 {
      assert DeletesNext(states[i - 1], stmts[i - 1], i - 1, link, states[i]);
      if i == 1 {
        DeletionsReached(states[..i], db, stmts, i - 1, link, 0);
      } else {
        assert DeletesNext(states[i - 2], stmts[i - 2], i - 2, link, states[i - 1]);
        DeletionsReached(states[..i], db, stmts, i - 1, link,
                         Attempt(states[i - 2], stmts[i - 2], i - 2, link).affected);
      }
    }
  }

  /** Where running the deletions leads: through all of them, or to one that is refused. */
  lemma {:induction false} DeletionsRun(states: seq<Table>, db: Table, stmts: seq<Statement>, i: nat, link: Link,
                                        affected: nat)
    returns (all: seq<Table>, k: nat, n: nat)
    requires link.connected && Deletes(states, db, stmts, i, link, affected)
    ensures Deletes(all, db, stmts, k, link, n)
    ensures k < |stmts| ==> Attempt(all[k], stmts[k], k, link).Rejected?
    decreases |stmts| - i
  {
    if i == |stmts| || Attempt(states[i], stmts[i], i, link).Rejected? {
      all, k, n := states, i, affected;
    } else {
      var e := Attempt(states[i], stmts[i], i, link);
      hide Deletes, Attempt;
      DeletesMore(states, db, stmts, i, link, affected);
      all, k, n := DeletionsRun(states + [e.db], db, stmts, i + 1, link, e.affected);
    }
  }

  lemma DeletesMore(states: seq<Table>, db: Table, stmts: seq<Statement>, i: nat, link: Link, affected: nat)
    requires i < |stmts| && Deletes(states, db, stmts, i, link, affected)
    requires Attempt(states[i], stmts[i], i, link).Applied?
    ensures var e := Attempt(states[i], stmts[i], i, link);
            Deletes(states + [e.db], db, stmts, i + 1, link, e.affected)
  {
    assert DeletesNext(states[i], stmts[i], i, link, Attempt(states[i], stmts[i], i, link).db);
    hide DeletesNext;
  }

  /** `delete` commits if and only if every statement in turn is applied, and then it reports what the last
      one affected. It panics without a connection or at a refused statement, and else only the commit fails. */
  lemma DeletionMeaning(db: Table, stmts: seq<Statement>, link: Link)
    ensures forall after, affected: nat :: DeleteFrom(db, stmts, 0, 0, link) == Success((after, affected)) <==>
              && link.connected && link.commitError.None?
              && exists states :: Deletes(states, db, stmts, |stmts|, link, affected) && states[|stmts|] == after
    ensures DeleteFrom(db, stmts, 0, 0, link) == Failure(Panicked) <==>
            !link.connected
            || exists states, i: nat, affected: nat :: i < |stmts| && Deletes(states, db, stmts, i, link, affected)
                                                  && Attempt(states[i], stmts[i], i, link).Rejected?
    ensures forall e :: e != Panicked && DeleteFrom(db, stmts, 0, 0, link) == Failure(e) ==> FailsCommit(link, e)
  {
    if link.connected {
      var all, k, n := DeletionsRun([db], db, stmts, 0, link, 0);
      DeletionsReached(all, db, stmts, k, link, n);
      forall states, affected: nat | Deletes(states, db, stmts, |stmts|, link, affected)
        ensures DeleteFrom(db, stmts, 0, 0, link) == DeleteFrom(states[|stmts|], stmts, |stmts|, affected, link)
      {
        DeletionsReached(states, db, stmts, |stmts|, link, affected);
      }
      forall states, i: nat, affected: nat
        | i < |stmts| && Deletes(states, db, stmts, i, link, affected)
          && Attempt(states[i], stmts[i], i, link).Rejected?
        ensures DeleteFrom(db, stmts, 0, 0, link) == Failure(Panicked)
      {
        DeletionsReached(states, db, stmts, i, link, affected);
      }
    }
  }

  // ----- What the entry points build -----

  /** Entity `i` is the first one that refuses. */
  predicate RefusedAt(entities: seq<Dao>, e: BuildError, i: nat) {
    && i < |entities| && BuildStatement(entities[i]) == Failure(e)
    && forall j :: 0 <= j < i ==> BuildStatement(entities[j]).Success?
  }

  lemma RefusedLater(entities: seq<Dao>, e: BuildError, i: nat)
    requires entities != [] && BuildStatement(entities[0]).Success?
    ensures RefusedAt(entities[1..], e, i) <==> RefusedAt(entities, e, i + 1)
  {
    hide BuildStatement;
    var rest := entities[1..];
    assert forall j :: 0 < j < |entities| ==> entities[j] == rest[j - 1];
    assert forall j :: 0 <= j < |rest| ==> rest[j] == entities[j + 1];
  }

  /** Building fails with the error of the first entity that refuses. */
  lemma {:induction false} FirstRefusal(entities: seq<Dao>, e: BuildError)
    ensures BuildAll(entities) == Failure(e) <==> exists i: nat :: RefusedAt(entities, e, i)
  {
    hide BuildStatement;
    if entities != [] {
      FirstRefusal(entities[1..], e);
      if BuildStatement(entities[0]).Failure? {
        assert RefusedAt(entities, BuildStatement(entities[0]).error, 0);
      } else {
        hide RefusedAt;
        if i: nat :| RefusedAt(entities[1..], e, i) {
          RefusedLater(entities, e, i);
          assert RefusedAt(entities, e, i + 1);
        }
        if i: nat :| RefusedAt(entities, e, i) {
          NotTheFirst(entities, e, i);
          RefusedLater(entities, e, i - 1);
        }
      }
    }
  }

  lemma NotTheFirst(entities: seq<Dao>, e: BuildError, i: nat)
    requires RefusedAt(entities, e, i) && BuildStatement(entities[0]).Success?
    ensures i > 0
  {
  }

  /** Then nothing is run: a refusal is answered with its reason, and a missing field panics. */
  lemma RefusalsAreAnswered(db: Table, entities: seq<Dao>, rollback: bool, link: Link)
    ensures forall reason :: BuildAll(entities) == Failure(Refused(reason)) ==>
              Mutated(db, entities, rollback, link) == (db, Failure(GenericError(reason)))
    ensures BuildAll(entities) == Failure(Panics) ==> Mutated(db, entities, rollback, link) == (db, Failure(Panicked))
  {
    hide BuildAll, Transact;
  }

  /** `put` builds the insertion of every entity, whatever its own mutation, and inserts nothing else. */
  lemma PutInserts(entities: seq<Dao>, stmts: seq<Statement>)
    ensures BuildAll(Insertings(entities)) == Success(stmts) <==>
            |stmts| == |entities|
            && forall i :: 0 <= i < |entities| ==>
                 InsertStatement(entities[i]) == Success(stmts[i]) && stmts[i].Insert?
  {
    BuildAllIsPointwise(Insertings(entities), stmts);
    hide BuildAll;
    forall i | 0 <= i < |entities| ensures BuildStatement(Insertings(entities)[i]) == InsertStatement(entities[i]) {
      InsertionIgnoresMutation(entities[i]);
    }
  }

  lemma InsertionIgnoresMutation(d: Dao)
    ensures BuildStatement(Inserting(d)) == InsertStatement(d)
    ensures InsertStatement(d).Success? ==> InsertStatement(d).value.Insert?
  {
  }

  /** `delete` builds the deletion of every entity. */
  lemma DeleteDeletes(entities: seq<Dao>, stmts: seq<Statement>)
    ensures BuildAll(Deletings(entities)) == Success(stmts) <==>
            |stmts| == |entities|
            && forall i :: 0 <= i < |entities| ==>
                 DeleteStatement(entities[i]) == Success(stmts[i]) && stmts[i].Delete?
  {
    BuildAllIsPointwise(Deletings(entities), stmts);
    hide BuildAll;
    forall i | 0 <= i < |entities| ensures BuildStatement(Deletings(entities)[i]) == DeleteStatement(entities[i]) {
      DeletionIgnoresMutation(entities[i]);
    }
  }

  lemma DeletionIgnoresMutation(d: Dao)
    ensures BuildStatement(Deleting(d)) == DeleteStatement(d)
    ensures DeleteStatement(d).Success? ==> DeleteStatement(d).value.Delete?
  {
  }
}
