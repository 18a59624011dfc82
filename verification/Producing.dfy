/** Creating and closing producers. */
module Producing {
  import opened Common
  import opened Schema
  import opened Cascade
  import opened Dao
  import opened Executor
  import opened Erasure
  import opened Session
  import opened Outcomes
  import opened Invariants
  import opened Joining

  predicate ProducerStored(w: World, q: ProducerRequest, a: ProducerAnswers) {
    && ProducersOfKind(w.mem.producers, q.meeting, q.participant, q.kind) == {}
    && ProducerObstacle(w.mem, q, a).None?
    && Transact(w.db, [Insert(ProducerRow(q, a.produced.value))], true, a.link).1.Success?
  }

  function AfterProduce(s: System, q: ProducerRequest, a: ProducerAnswers): System {
    System(ProducerCreated(s.world, q, a), s.issued, s.minted + Ids(a.produced))
  }

  /** A transport is presented with the participant, meeting and instance it was made for. */
  ghost predicate PresentsOwn(issued: map<Id, Grant>, t: Id, p: Id, m: Id, i: Id) {
    t in issued ==> issued[t] == Grant(p, m, i)
  }

  /** A reference to a stored transport row. */
  lemma TransportIsStored(db: Table, row: Row, k: Key)
    requires InsertRow(db, row).Applied? && k in References(row)
    ensures Provided(db.Keys, k)
  {
  }

  /** Fencing: a producer row is accepted only on a transport that is still stored, and such a
      transport's instance is the one the participant is a member with. */
  lemma StoredTransportIsCurrent(db: Table, issued: map<Id, Grant>, row: Row, p: Id, m: Id, i: Id)
    requires Granted(db, issued) && (row.Producer? || row.Consumer?) && InsertRow(db, row).Applied?
    requires PresentsOwn(issued, row.transport, p, m, i)
    ensures row.transport in issued && Member(m, p, i) in db
    ensures forall r :: r in db && r.ProducerTransport? && row.Producer? && r.transport == row.transport ==>
              r.participant == p
    ensures forall r :: r in db && r.ConsumerTransport? && row.Consumer? && r.transport == row.transport ==>
              r.participant == p
  {
    var k := if row.Producer? then ProducerTransportKey(row.transport) else ConsumerTransportKey(row.transport);
    TransportIsStored(db, row, k);
    var s :| s in db && k in Provides(s);
  }

  lemma ProducerRowKeepsAgreement(s: System, q: ProducerRequest, x: Id, recording: Option<(Id, Id)>)
    requires Inv(s) && PresentsOwn(s.issued, q.transport, q.participant, q.meeting, q.instance) && x !in s.minted
    requires InsertRow(s.world.db, ProducerRow(q, x)).Applied?
    ensures TablesAgree(InsertRow(s.world.db, ProducerRow(q, x)).db,
                        AddProducer(s.world.mem, q, x, recording), s.issued)
  {
    var db, row := s.world.db, ProducerRow(q, x);
    var after := InsertRow(db, row).db;
    var left := AddProducer(s.world.mem, q, x, recording);
    InsertKeepsConstraints(db, row);
    StoredTransportIsCurrent(db, s.issued, row, q.participant, q.meeting, q.instance);
    NewProducerAgrees(db, s.world.mem.producers, q, x);
    assert forall m :: ShardOf(left, m) == ShardOf(s.world.mem, m);
    ConsumersRetained(db, left, after);
  }

  lemma NewProducerAgrees(db: Table, producers: map<Id, ProducerEntry>, q: ProducerRequest, x: Id)
    requires ProducersAgree(db, producers) && x !in producers && InsertRow(db, ProducerRow(q, x)).Applied?
    requires Member(q.meeting, q.participant, q.instance) in db
    ensures ProducersAgree(InsertRow(db, ProducerRow(q, x)).db,
                           producers[x := ProducerEntry(q.meeting, q.participant, q.kind, q.instance)])
  {
  }

  lemma ProducerKeepsMemory(s: System, q: ProducerRequest, x: Id, recording: Option<(Id, Id)>)
    requires Inv(s) && x !in s.minted
    ensures MemoryAgrees(AddProducer(s.world.mem, q, x, recording))
  {
  }

  lemma ProduceKeepsInv(s: System, q: ProducerRequest, a: ProducerAnswers)
    requires Inv(s) && PresentsOwn(s.issued, q.transport, q.participant, q.meeting, q.instance)
    requires a.produced.Some? ==> a.produced.value !in s.minted
    ensures Inv(AfterProduce(s, q, a))
  {
    if ProducerStored(s.world, q, a) {
      var x := a.produced.value;
      SingleStatement(s.world.db, Insert(ProducerRow(q, x)), a.link);
      ProducerRowKeepsAgreement(s, q, x, Recorded(a.recording));
      ProducerKeepsMemory(s, q, x, Recorded(a.recording));
    }
  }

  /** A create that names a transport of a superseded instance changes neither memory nor tables. */
  lemma SupersededTransportIsFenced(s: System, q: ProducerRequest, a: ProducerAnswers)
    requires Inv(s) && PresentsOwn(s.issued, q.transport, q.participant, q.meeting, q.instance)
    requires Member(q.meeting, q.participant, q.instance) !in s.world.db
    ensures ProducerCreated(s.world, q, a) == s.world
  {
    if ProducerStored(s.world, q, a) {
      var x := a.produced.value;
      SingleStatement(s.world.db, Insert(ProducerRow(q, x)), a.link);
      StoredTransportIsCurrent(s.world.db, s.issued, ProducerRow(q, x), q.participant, q.meeting, q.instance);
    }
  }

  /** When nothing else stands in the way and the connection is healthy, a create commits exactly when
      the transport is still stored for the participant. */
  lemma CreateCommitsIff(s: System, q: ProducerRequest, a: ProducerAnswers)
    requires Inv(s) && PresentsOwn(s.issued, q.transport, q.participant, q.meeting, q.instance)
    requires ProducersOfKind(s.world.mem.producers, q.meeting, q.participant, q.kind) == {}
    requires ProducerObstacle(s.world.mem, q, a).None? && a.link == HEALTHY
    ensures ProducerStored(s.world, q, a) <==> ProducerTransport(q.participant, q.transport) in s.world.db
  {
    var db, row := s.world.db, ProducerRow(q, a.produced.value);
    SingleStatement(db, Insert(row), HEALTHY);
    if InsertRow(db, row).Applied? {
      AcceptedTransportIsStored(s, q, row);
    }
    if ProducerTransport(q.participant, q.transport) in db {
      HasConsistent(s);
      StoredTransportAccepts(db, row);
    }
    hide Inv, InsertRow, Transact, ProducerObstacle;
  }

  lemma HasConsistent(s: System)
    requires Inv(s)
    ensures Consistent(s.world.db) && Granted(s.world.db, s.issued)
  {
  }

  lemma AcceptedTransportIsStored(s: System, q: ProducerRequest, row: Row)
    requires Inv(s) && PresentsOwn(s.issued, q.transport, q.participant, q.meeting, q.instance)
    requires row.Producer? && row.transport == q.transport && InsertRow(s.world.db, row).Applied?
    ensures ProducerTransport(q.participant, q.transport) in s.world.db
  {
    var k := ProducerTransportKey(q.transport);
    HasConsistent(s);
    TransportIsStored(s.world.db, row, k);
    hide Inv, InsertRow, Consistent;
    var r :| r in s.world.db && k in Provides(r);
    assert r == ProducerTransport(r.participant, q.transport);
  }

  lemma StoredTransportAccepts(db: Table, row: Row)
    requires Consistent(db) && row.Producer? && ProducerTransport(row.participant, row.transport) in db
    ensures InsertRow(db, row).Applied?
  {
    var t := ProducerTransport(row.participant, row.transport);
    assert MemberKey(row.participant) in References(t);
    assert Provided(db.Keys, MemberKey(row.participant));
    assert ProducerTransportKey(row.transport) in Provides(t);
  }

  // ----- Closing -----

  function WithoutProducers(db: Table, p: Id, ids: set<Id>): Table {
    map r | r in db && !(r.Producer? && r.participant == p && r.producer in ids) :: db[r]
  }

  lemma ProducerDeletion(db: Table, p: Id, x: Id)
    ensures DeleteRows(db, ProducerById(p, x)).Applied?
    ensures DeleteRows(db, ProducerById(p, x)).db == WithoutProducers(db, p, {x})
  {
    DeleteApplies(db, ProducerById(p, x));
    LeafClosure(db.Keys, Matching(db, ProducerById(p, x)));
    hide Closure, DeleteRows, Affected;
  }

  lemma RemovedInTurn(db: Table, p: Id, ids: seq<Id>, n: nat)
    requires n < |ids|
    ensures WithoutProducers(WithoutProducers(db, p, {ids[n]}), p, Elements(ids[n + 1..]))
            == WithoutProducers(db, p, Elements(ids[n..]))
  {
  }

  lemma DeletionStep(db: Table, stmts: seq<Statement>, p: Id, x: Id, n: nat, affected: nat, link: Link)
    returns (next: nat)
    requires n < |stmts| && stmts[n] == Delete(ProducerById(p, x))
    requires DeleteFrom(db, stmts, n, affected, link).Success?
    ensures DeleteFrom(db, stmts, n, affected, link) ==
            DeleteFrom(WithoutProducers(db, p, {x}), stmts, n + 1, next, link)
  {
    ProducerDeletion(db, p, x);
    next := Attempt(db, stmts[n], n, link).affected;
  }

  lemma {:induction false} ProducerDeletionsEffect(db: Table, stmts: seq<Statement>, p: Id, ids: seq<Id>, n: nat,
                                                   affected: nat, link: Link)
    requires n <= |ids| && stmts == ProducerDeletions(p, ids)
    requires DeleteFrom(db, stmts, n, affected, link).Success?
    ensures DeleteFrom(db, stmts, n, affected, link).value.0 == WithoutProducers(db, p, Elements(ids[n..]))
    decreases |ids| - n
  {
    if n < |ids| {
      var next := DeletionStep(db, stmts, p, ids[n], n, affected, link);
      ProducerDeletionsEffect(WithoutProducers(db, p, {ids[n]}), stmts, p, ids, n + 1, next, link);
      RemovedInTurn(db, p, ids, n);
    }
  }

  /** The named producers, as far as they are in memory, belong to the named participant. */
  ghost predicate OwnProducers(mem: Memory, p: Id, ids: seq<Id>) {
    forall x :: x in ids && x in mem.producers ==> mem.producers[x].participant == p
  }

  lemma ClosedProducersAgree(db: Table, producers: map<Id, ProducerEntry>, p: Id, ids: set<Id>)
    requires ProducersAgree(db, producers)
    requires forall x :: x in ids && x in producers ==> producers[x].participant == p
    ensures ProducersAgree(WithoutProducers(db, p, ids), producers - ids)
  {
  }

  lemma ProducersGoneKeepsConstraints(db: Table, p: Id, ids: set<Id>)
    requires Consistent(db)
    ensures Consistent(WithoutProducers(db, p, ids))
  {
    var after := WithoutProducers(db, p, ids);
    forall r, k | r in after && k in References(r) ensures Provided(after.Keys, k) {
      assert Provided(db.Keys, k);
      var s :| s in db && k in Provides(s);
      assert s in after;
    }
  }

  lemma CloseProducersKeepsTables(db: Table, mem: Memory, issued: map<Id, Grant>, p: Id, ids: set<Id>)
    requires TablesAgree(db, mem, issued)
    requires forall x :: x in ids && x in mem.producers ==> mem.producers[x].participant == p
    ensures TablesAgree(WithoutProducers(db, p, ids), DropProducers(mem, ids), issued)
  {
    var after, left := WithoutProducers(db, p, ids), DropProducers(mem, ids);
    ClosedProducersAgree(db, mem.producers, p, ids);
    ProducersGoneKeepsConstraints(db, p, ids);
    OwnTransportsRetained(db, after);
    assert forall m :: ShardOf(left, m) == ShardOf(mem, m);
    ConsumersRetained(db, left, after);
  }

  function AfterCloseProducers(s: System, p: Id, ids: seq<Id>, link: Link): System {
    s.(world := ProducersClosed(s.world, p, ids, link))
  }

  lemma CloseProducersKeepsInv(s: System, p: Id, ids: seq<Id>, link: Link)
    requires Inv(s) && OwnProducers(s.world.mem, p, ids)
    ensures Inv(AfterCloseProducers(s, p, ids, link))
  {
    var db, mem := s.world.db, s.world.mem;
    if DeleteFrom(db, ProducerDeletions(p, ids), 0, 0, link).Success? {
      ProducerDeletionsEffect(db, ProducerDeletions(p, ids), p, ids, 0, 0, link);
      assert ids[0..] == ids;
      CloseProducersKeepsTables(db, mem, s.issued, p, Elements(ids));
      MemoryAgreesAfterDrop(mem, DropProducers(mem, Elements(ids)));
    }
  }
}
