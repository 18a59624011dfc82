/** Statements, transactions and the three executor entry points of `src/db/mod.rs`. */
module Executor {
  import opened Common
  import opened Schema
  import opened Cascade
  import opened Dao

  const DUPLICATE_KEY := 1062
  const ROW_IS_REFERENCED := 1451
  const NO_REFERENCED_ROW := 1452

  datatype DriverError = Server(code: nat) | Client(reason: string)

  datatype Effect = Applied(db: Table, affected: nat) | Rejected(error: DriverError)

  predicate Conflicts(db: Table, row: Row) {
    exists r, k :: r in db && k in Provides(row) && k in Provides(r)
  }

  predicate Dangles(db: Table, row: Row) {
    exists k :: k in References(row) && forall r :: r in db ==> k !in Provides(r)
  }

  function Copies(db: Table, r: Row): nat {
    if r in db then db[r] else 0
  }

  /** A row that is both a duplicate and dangling is reported as a duplicate. */
  function InsertRow(db: Table, row: Row): Effect {
    if Conflicts(db, row) then Rejected(Server(DUPLICATE_KEY))
    else if Dangles(db, row) then Rejected(Server(NO_REFERENCED_ROW))
    else Applied(db[row := Copies(db, row) + 1], 1)
  }

  function Matching(db: Table, w: Where): set<Row> {
    set r | r in db && Selects(w, r)
  }

  function StoredCopies(db: Table, rows: set<Row>): set<(Row, int)> {
    set r: Row, copy: int | r in rows && r in db && 0 <= copy < db[r] :: (r, copy)
  }

  /** Rows that a cascade removed do not count as affected. */
  function Affected(db: Table, matched: set<Row>): nat {
    |StoredCopies(db, matched)|
  }

  predicate Restricted(db: Table, doomed: set<Row>) {
    exists r, d, k :: r in db && r !in doomed && d in doomed && k in RestrictRefs(r) && k in Provides(d)
  }

  function DeleteRows(db: Table, w: Where): Effect {
    var matched := Matching(db, w);
    var doomed := Closure(db.Keys, matched);
    if Restricted(db, doomed) then Rejected(Server(ROW_IS_REFERENCED))
    else Applied(db - doomed, Affected(db, matched))
  }

  function Execute(db: Table, s: Statement): Effect {
    match s
    case Insert(row) => InsertRow(db, row)
    case Delete(w) => DeleteRows(db, w)
  }

  lemma InsertKeepsConstraints(db: Table, row: Row)
    requires Consistent(db) && InsertRow(db, row).Applied?
    ensures Consistent(InsertRow(db, row).db)
  {
    var after := InsertRow(db, row).db;
    assert after.Keys == db.Keys + {row};
    forall r, k | r in after && k in References(r) ensures Provided(after.Keys, k) {
      if r in db {
        assert Provided(db.Keys, k);
      }
    }
    assert Provides(row) != {} ==> exists k :: k in Provides(row);
  }

  lemma DeleteKeepsConstraints(db: Table, w: Where)
    requires Consistent(db) && DeleteRows(db, w).Applied?
    ensures Consistent(DeleteRows(db, w).db)
  {
    var matched := Matching(db, w);
    var doomed := Closure(db.Keys, matched);
    var after := DeleteRows(db, w).db;
    ClosureGrows(db.Keys, matched);
    RemovalKeepsReferences(db.Keys, doomed);
    assert after.Keys == db.Keys - doomed;
    forall r, k | r in after && k in References(r) ensures Provided(after.Keys, k) {
      if k !in CascadeRefs(r) {
        assert Provided(db.Keys, k);
        var s :| s in db && k in Provides(s);
      }
    }
  }

  /** Every statement preserves all primary, unique and foreign keys. */
  lemma StatementKeepsConstraints(db: Table, s: Statement)
    requires Consistent(db) && Execute(db, s).Applied?
    ensures Consistent(Execute(db, s).db)
  {
    match s
    case Insert(row) => InsertKeepsConstraints(db, row);
    case Delete(w) => DeleteKeepsConstraints(db, w);
  }

  /** An error that does not come from the statement: a lost connection, a lock timeout, ... */
  type Interruption = e: DriverError | e != Server(DUPLICATE_KEY) witness Client("")

  /** What the connection does during one transaction: the pool may give none, or it may refuse one
      statement with an error of its own, fail to roll back, or fail to commit. */
  datatype Link = Link(connected: bool, interrupt: Option<(nat, Interruption)>, rollbackError: Option<string>,
                       commitError: Option<Interruption>)

  const HEALTHY := Link(true, None, None, None)

  /** Every statement is answered by the database, and a commit succeeds. */
  predicate Reliable(link: Link) {
    link.connected && link.interrupt.None? && link.commitError.None?
  }

  /** Every statement is answered by the database, and a rollback succeeds. */
  predicate RollsBack(link: Link) {
    link.connected && link.interrupt.None? && link.rollbackError.None?
  }

  /** The answer to statement number `i` of a transaction. */
  function Attempt(db: Table, s: Statement, i: nat, link: Link): Effect {
    if link.interrupt.Some? && link.interrupt.value.0 == i then Rejected(link.interrupt.value.1)
    else Execute(db, s)
  }

  predicate IsDuplicate(e: Effect) {
    e.Rejected? && e.error == Server(DUPLICATE_KEY)
  }

  datatype DbError =
    | MySqlError(code: nat)
    | GenericError(reason: string)
    | RollbackError(reason: string)
    | Panicked

  function AfterRollback(e: DriverError, link: Link): DbError {
    match e
    case Server(code) =>
      if link.rollbackError.Some? then RollbackError(link.rollbackError.value) else MySqlError(code)
    case Client(reason) =>
      if link.rollbackError.Some? then GenericError(link.rollbackError.value) else GenericError(reason)
  }

  function CommitFailure(e: DriverError): DbError {
    match e
    case Server(code) => MySqlError(code)
    case Client(reason) => GenericError(reason)
  }

  function BuildFailure(e: BuildError): DbError {
    if e.Refused? then GenericError(e.reason) else Panicked
  }

  function BuildAll(entities: seq<Dao>): Result<seq<Statement>, BuildError> {
    if entities == [] then Success([])
    else
      match BuildStatement(entities[0])
      case Failure(e) => Failure(e)
      case Success(s) =>
        match BuildAll(entities[1..])
        case Failure(e) => Failure(e)
        case Success(rest) => Success([s] + rest)
  }

  /** The table and the duplicate flag a transaction would commit, running `stmts[i..]` on `db`. Without a
      connection it panics. */
  function RunFrom(db: Table, stmts: seq<Statement>, i: nat, duplicate: bool, rollback: bool, link: Link)
    : Result<(Table, bool), DbError>
    requires i <= |stmts|
    decreases |stmts| - i
  {
    if !link.connected then Failure(Panicked)
    else if i == |stmts| then
      if link.commitError.Some? then Failure(CommitFailure(link.commitError.value))
      else Success((db, duplicate))
    else
      var e := Attempt(db, stmts[i], i, link);
      if e.Applied? then RunFrom(e.db, stmts, i + 1, duplicate, rollback, link)
      else if IsDuplicate(e) && !rollback then RunFrom(db, stmts, i + 1, true, rollback, link)
      else Failure(AfterRollback(e.error, link))
  }

  function Transact(db: Table, stmts: seq<Statement>, rollback: bool, link: Link)
    : (Table, Result<bool, DbError>)
  {
    match RunFrom(db, stmts, 0, false, rollback, link)
    case Success(done) => (done.0, Success(done.1))
    case Failure(e) => (db, Failure(e))
  }

  /** One table per statement boundary, from the table before to the committed one: every statement
      was applied, or was a duplicate and left the table as it was. */
  ghost predicate IsHistory(states: seq<Table>, stmts: seq<Statement>, link: Link) {
    && |states| == |stmts| + 1
    && forall i :: 0 <= i < |stmts| ==> Follows(states[i], stmts[i], i, link, states[i + 1])
  }

  ghost predicate Follows(before: Table, s: Statement, i: nat, link: Link, after: Table) {
    var e := Attempt(before, s, i, link);
    if e.Applied? then after == e.db else IsDuplicate(e) && after == before
  }

  /** One of the statements from number `from` on was skipped. */
  ghost predicate Skips(states: seq<Table>, stmts: seq<Statement>, link: Link, from: nat)
    requires |states| == |stmts| + 1
  {
    exists i :: from <= i < |stmts| && IsDuplicate(Attempt(states[i], stmts[i], i, link))
  }

  ghost predicate Explains(states: seq<Table>, db: Table, stmts: seq<Statement>, rollback: bool, link: Link,
                           after: Table, duplicate: bool)
  {
    && IsHistory(states, stmts, link)
    && states[0] == db && states[|stmts|] == after
    && duplicate == Skips(states, stmts, link, 0)
    && (rollback ==> !duplicate)
    && link.connected && link.commitError.None?
  }

  lemma SkipsFrom(states: seq<Table>, stmts: seq<Statement>, link: Link, i: nat)
    requires |states| == |stmts| + 1 && i < |stmts|
    ensures Skips(states, stmts, link, i) ==
            (IsDuplicate(Attempt(states[i], stmts[i], i, link)) || Skips(states, stmts, link, i + 1))
  {
    hide IsDuplicate, Attempt;
  }

  lemma HistoryStep(states: seq<Table>, stmts: seq<Statement>, i: nat, duplicate: bool, rollback: bool, link: Link)
    requires i < |stmts| && |states| == |stmts| + 1 && link.connected
    requires Follows(states[i], stmts[i], i, link, states[i + 1])
    requires rollback ==> !IsDuplicate(Attempt(states[i], stmts[i], i, link))
    ensures RunFrom(states[i], stmts, i, duplicate, rollback, link) ==
            RunFrom(states[i + 1], stmts, i + 1,
                    duplicate || IsDuplicate(Attempt(states[i], stmts[i], i, link)), rollback, link)
  {
    hide Attempt;
  }

  lemma {:induction false} RunFromHistory(states: seq<Table>, stmts: seq<Statement>, i: nat, duplicate: bool,
                                          rollback: bool, link: Link)
    requires i <= |stmts| && IsHistory(states, stmts, link)
    requires rollback ==> !Skips(states, stmts, link, i)
    requires link.connected && link.commitError.None?
    ensures RunFrom(states[i], stmts, i, duplicate, rollback, link) ==
            Success((states[|stmts|], duplicate || Skips(states, stmts, link, i)))
    decreases |stmts| - i
  {
    if i < |stmts| {
      assert Follows(states[i], stmts[i], i, link, states[i + 1]);
      hide RunFrom, Skips, Attempt, Follows, IsDuplicate, IsHistory;
      SkipsFrom(states, stmts, link, i);
      HistoryStep(states, stmts, i, duplicate, rollback, link);
      RunFromHistory(states, stmts, i + 1, duplicate || IsDuplicate(Attempt(states[i], stmts[i], i, link)), rollback,
                     link);
    }
  }

  lemma ExtendHistory(states: seq<Table>, stmts: seq<Statement>, i: nat, link: Link, next: Table)
    requires i < |stmts| && IsHistory(states, stmts[..i], link)
    requires Follows(states[i], stmts[i], i, link, next)
    ensures IsHistory(states + [next], stmts[..i + 1], link)
    ensures Skips(states + [next], stmts[..i + 1], link, 0) ==
            (Skips(states, stmts[..i], link, 0) || IsDuplicate(Attempt(states[i], stmts[i], i, link)))
  {
    var more, before, upTo := states + [next], stmts[..i], stmts[..i + 1];
    assert forall j :: 0 <= j <= i ==> more[j] == states[j];
    assert forall j :: 0 <= j < i ==> upTo[j] == before[j];
  }

  lemma {:induction false} HistoryOfRun(states: seq<Table>, stmts: seq<Statement>, i: nat, duplicate: bool,
                                        rollback: bool, link: Link) returns (all: seq<Table>)
    requires i <= |stmts| && |states| == i + 1
    requires IsHistory(states, stmts[..i], link)
    requires duplicate == Skips(states, stmts[..i], link, 0)
    requires rollback ==> !duplicate
    requires RunFrom(states[i], stmts, i, duplicate, rollback, link).Success?
    ensures var out := RunFrom(states[i], stmts, i, duplicate, rollback, link).value;
            |all| == |stmts| + 1 && Explains(all, states[0], stmts, rollback, link, out.0, out.1)
    decreases |stmts| - i
  {
    if i == |stmts| {
      assert stmts[..i] == stmts;
      all := states;
    } else {
      var e := Attempt(states[i], stmts[i], i, link);
      var next := if e.Applied? then e.db else states[i];
      ExtendHistory(states, stmts, i, link, next);
      hide IsHistory, Skips, Attempt;
      assert (states + [next])[i + 1] == next && (states + [next])[0] == states[0];
      all := HistoryOfRun(states + [next], stmts, i + 1, duplicate || IsDuplicate(e), rollback, link);
    }
  }

  /** A transaction is all or nothing. It commits exactly the outcome of running its statements in
      order with the duplicates skipped, and its flag tells whether one was skipped. */
  lemma TransactionMeaning(db: Table, stmts: seq<Statement>, rollback: bool, link: Link)
    ensures Transact(db, stmts, rollback, link).1.Failure? ==> Transact(db, stmts, rollback, link).0 == db
    ensures forall after, flag :: Transact(db, stmts, rollback, link) == (after, Success(flag)) <==>
              exists states :: Explains(states, db, stmts, rollback, link, after, flag)
  {
    var out := Transact(db, stmts, rollback, link);
    if out.1.Success? {
      var states := HistoryOfRun([db], stmts, 0, false, rollback, link);
      assert Explains(states, db, stmts, rollback, link, out.0, out.1.value);
    }
    forall after, flag, states | Explains(states, db, stmts, rollback, link, after, flag)
      ensures out == (after, Success(flag))
    {
      RunFromHistory(states, stmts, 0, false, rollback, link);
    }
  }

  lemma AttemptKeepsConstraints(db: Table, s: Statement, i: nat, link: Link)
    requires Consistent(db)
    ensures var e := Attempt(db, s, i, link); Consistent(if e.Applied? then e.db else db)
  {
    if Attempt(db, s, i, link).Applied? {
      StatementKeepsConstraints(db, s);
    }
  }

  /** One step of a run that commits. */
  lemma RunStep(db: Table, stmts: seq<Statement>, i: nat, duplicate: bool, rollback: bool, link: Link)
    requires i < |stmts| && RunFrom(db, stmts, i, duplicate, rollback, link).Success?
    ensures var e := Attempt(db, stmts[i], i, link);
            RunFrom(db, stmts, i, duplicate, rollback, link) ==
            RunFrom(if e.Applied? then e.db else db, stmts, i + 1, duplicate || e.Rejected?, rollback, link)
  {
  }

  lemma {:induction false} RunKeepsConstraints(db: Table, stmts: seq<Statement>, i: nat, duplicate: bool,
                                               rollback: bool, link: Link)
    requires i <= |stmts| && Consistent(db) && RunFrom(db, stmts, i, duplicate, rollback, link).Success?
    ensures Consistent(RunFrom(db, stmts, i, duplicate, rollback, link).value.0)
    decreases |stmts| - i
  {
    if i < |stmts| {
      var e := Attempt(db, stmts[i], i, link);
      AttemptKeepsConstraints(db, stmts[i], i, link);
      RunStep(db, stmts, i, duplicate, rollback, link);
      RunKeepsConstraints(if e.Applied? then e.db else db, stmts, i + 1, duplicate || e.Rejected?, rollback, link);
    }
  }

  /** Hence every transaction preserves the schema's constraints, also when it skips duplicates. */
  lemma TransactionKeepsConstraints(db: Table, stmts: seq<Statement>, rollback: bool, link: Link)
    requires Consistent(db)
    ensures Consistent(Transact(db, stmts, rollback, link).0)
  {
    if RunFrom(db, stmts, 0, false, rollback, link).Success? {
      RunKeepsConstraints(db, stmts, 0, false, rollback, link);
    }
  }

  function Mutated(db: Table, entities: seq<Dao>, rollback: bool, link: Link): (Table, Result<bool, DbError>) {
    match BuildAll(entities)
    case Failure(e) => (db, Failure(BuildFailure(e)))
    case Success(stmts) => Transact(db, stmts, rollback, link)
  }

  function Inserting(d: Dao): Dao {
    d.(mutation := Insertion)
  }

  function Deleting(d: Dao): Dao {
    d.(mutation := Deletion)
  }

  /** The table and affected rows that `delete` commits: any refused statement panics, as does a missing
      connection, and only the last statement's affected rows are reported. */
  function DeleteFrom(db: Table, stmts: seq<Statement>, i: nat, affected: nat, link: Link)
    : Result<(Table, nat), DbError>
    requires i <= |stmts|
    decreases |stmts| - i
  {
    if !link.connected then Failure(Panicked)
    else if i == |stmts| then
      if link.commitError.Some? then Failure(CommitFailure(link.commitError.value))
      else Success((db, affected))
    else
      var e := Attempt(db, stmts[i], i, link);
      if e.Applied? then DeleteFrom(e.db, stmts, i + 1, e.affected, link) else Failure(Panicked)
  }

  function Deleted(db: Table, entities: seq<Dao>, link: Link): (Table, Result<nat, DbError>) {
    match BuildAll(Deletings(entities))
    case Failure(e) => (db, Failure(BuildFailure(e)))
    case Success(stmts) =>
      match DeleteFrom(db, stmts, 0, 0, link)
      case Success(done) => (done.0, Success(done.1))
      case Failure(e) => (db, Failure(e))
  }

  function Insertings(entities: seq<Dao>): (all: seq<Dao>)
    ensures |all| == |entities|
  {
    seq(|entities|, i requires 0 <= i < |entities| => Inserting(entities[i]))
  }

  function Deletings(entities: seq<Dao>): (all: seq<Dao>)
    ensures |all| == |entities|
  {
    seq(|entities|, i requires 0 <= i < |entities| => Deleting(entities[i]))
  }

  lemma {:induction false} BuildAllSnoc(entities: seq<Dao>, d: Dao)
    ensures BuildAll(entities + [d]) ==
            match BuildAll(entities)
            case Failure(e) => Failure(e)
            case Success(all) =>
              match BuildStatement(d)
              case Failure(e) => Failure(e)
              case Success(s) => Success(all + [s])
  {
    if entities == [] {
      assert entities + [d] == [d] && [d][1..] == [];
      assert BuildAll([d][1..]) == Success([]);
      assert forall s: Statement :: [s] + [] == [] + [s];
    } else {
      BuildAllSnoc(entities[1..], d);
      assert (entities + [d])[1..] == entities[1..] + [d];
      if BuildAll(entities).Success? && BuildStatement(d).Success? {
        var first, rest, last := BuildStatement(entities[0]).value,
            BuildAll(entities[1..]).value, BuildStatement(d).value;
        assert [first] + rest + [last] == [first] + (rest + [last]);
      }
    }
  }

  /** `BuildAll` builds every entity, in order. */
  lemma {:induction false} BuildAllIsPointwise(entities: seq<Dao>, stmts: seq<Statement>)
    ensures BuildAll(entities) == Success(stmts) <==>
            |stmts| == |entities|
            && forall i :: 0 <= i < |entities| ==> BuildStatement(entities[i]) == Success(stmts[i])
  {
    if entities != [] && stmts != [] {
      BuildAllIsPointwise(entities[1..], stmts[1..]);
      assert entities == [entities[0]] + entities[1..] && stmts == [stmts[0]] + stmts[1..];
    }
  }

  lemma {:induction false} BuildAllPrefixFails(entities: seq<Dao>, i: nat)
    requires i <= |entities| && BuildAll(entities[..i]).Failure?
    ensures BuildAll(entities) == BuildAll(entities[..i])
    decreases |entities| - i
  {
    if i == |entities| {
      assert entities[..i] == entities;
    } else {
      BuildAllSnoc(entities[..i], entities[i]);
      assert entities[..i + 1] == entities[..i] + [entities[i]];
      BuildAllPrefixFails(entities, i + 1);
    }
  }

  /** The connection pool and the database behind it. */
  class Pool {
    var table: Table

    constructor ()
      ensures table == map[]
    {
      table := map[];
    }
  }

  datatype MySqlContext = MySqlContext(pool: Pool, rollbackOnDuplicate: bool)

  method BuildQueries(entities: seq<Dao>) returns (queries: Result<seq<Statement>, BuildError>)
    ensures queries == BuildAll(entities)
  {
    var built: seq<Statement> := [];
    for n := 0 to |entities|
      invariant BuildAll(entities[..n]) == Success(built)
    {
      BuildAllSnoc(entities[..n], entities[n]);
      assert entities[..n + 1] == entities[..n] + [entities[n]];
      match BuildStatement(entities[n]) {
        case Success(s) => built := built + [s];
        case Failure(e) =>
          BuildAllPrefixFails(entities, n + 1);
          return Failure(e);
      }
    }
    assert entities[..|entities|] == entities;
    queries := Success(built);
  }

  method Mutate(entities: seq<Dao>, context: MySqlContext, link: Link) returns (r: Result<bool, DbError>)
    modifies context.pool
    ensures (context.pool.table, r) ==
            Mutated(old(context.pool.table), entities, context.rollbackOnDuplicate, link)
  {
    var queries := BuildQueries(entities);
    if queries.Failure? {
      return Failure(BuildFailure(queries.error));
    }
    var stmts := queries.value;
    if !link.connected {
      return Failure(Panicked);
    }
    var transaction := context.pool.table;
    var duplicateInsertion := false;
    for i := 0 to |stmts|
      invariant context.pool.table == old(context.pool.table)
      invariant RunFrom(old(context.pool.table), stmts, 0, false, context.rollbackOnDuplicate, link) ==
                RunFrom(transaction, stmts, i, duplicateInsertion, context.rollbackOnDuplicate, link)
    {
      var e := Attempt(transaction, stmts[i], i, link);
      if e.Applied? {
        transaction := e.db;
      } else {
        if e.error == Server(DUPLICATE_KEY) {
          duplicateInsertion := true;
          if !context.rollbackOnDuplicate {
            continue;
          }
        }
        return Failure(AfterRollback(e.error, link));
      }
    }
    if link.commitError.Some? {
      return Failure(CommitFailure(link.commitError.value));
    }
    context.pool.table := transaction;
    r := Success(duplicateInsertion);
  }

  /** `put` is `mutate` on the inserts of its entities, without rollback and without the flag. */
  method Put(entities: seq<Dao>, context: MySqlContext, link: Link) returns (r: Result<(), DbError>)
    modifies context.pool
    ensures var (after, outcome) := Mutated(old(context.pool.table), Insertings(entities), false, link);
            && context.pool.table == after
            && r == match outcome case Success(_) => Success(()) case Failure(e) => Failure(e)
  {
    var queries := BuildQueries(Insertings(entities));
    if queries.Failure? {
      return Failure(BuildFailure(queries.error));
    }
    var stmts := queries.value;
    if !link.connected {
      return Failure(Panicked);
    }
    var transaction := context.pool.table;
    ghost var skipped := false;
    for i := 0 to |stmts|
      invariant context.pool.table == old(context.pool.table)
      invariant RunFrom(old(context.pool.table), stmts, 0, false, false, link) ==
                RunFrom(transaction, stmts, i, skipped, false, link)
    {
      var e := Attempt(transaction, stmts[i], i, link);
      if e.Applied? {
        transaction := e.db;
      } else {
        if e.error == Server(DUPLICATE_KEY) {
          skipped := true;
          continue;
        }
        return Failure(AfterRollback(e.error, link));
      }
    }
    if link.commitError.Some? {
      return Failure(CommitFailure(link.commitError.value));
    }
    context.pool.table := transaction;
    r := Success(());
  }

  method DeleteEntities(entities: seq<Dao>, context: MySqlContext, link: Link) returns (r: Result<nat, DbError>)
    modifies context.pool
    ensures (context.pool.table, r) == Deleted(old(context.pool.table), entities, link)
  {
    var queries := BuildQueries(Deletings(entities));
    if queries.Failure? {
      return Failure(BuildFailure(queries.error));
    }
    var stmts := queries.value;
    if !link.connected {
      return Failure(Panicked);
    }
    var transaction := context.pool.table;
    var affected := 0;
    for i := 0 to |stmts|
      invariant context.pool.table == old(context.pool.table)
      invariant DeleteFrom(old(context.pool.table), stmts, 0, 0, link) ==
                DeleteFrom(transaction, stmts, i, affected, link)
    {
      var e := Attempt(transaction, stmts[i], i, link);
      if e.Rejected? {
        return Failure(Panicked);
      }
      transaction := e.db;
      affected := e.affected;
    }
    if link.commitError.Some? {
      return Failure(CommitFailure(link.commitError.value));
    }
    context.pool.table := transaction;
    r := Success(affected);
  }
}
