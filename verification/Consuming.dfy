/** Creating and closing consumers. */
module Consuming {
  import opened Common
  import opened Schema
  import opened Cascade
  import opened Dao
  import opened Executor
  import opened Erasure
  import opened Session
  import opened Outcomes
  import opened Invariants
  import opened Joining
  import opened Producing

  // ----- What a request adds -----

  /** The pairs of target and kind of a request are distinct, being keys of its maps, and so are the
      consumers that mediasoup makes for it. */
  ghost predicate DistinctTargets(q: ConsumerRequest, a: ConsumerAnswers) {
    && |q.targets| == |a.consumed|
    && (forall k, l :: 0 <= k < l < |q.targets| ==>
          (q.targets[k].participant, q.targets[k].kind) != (q.targets[l].participant, q.targets[l].kind))
    && (forall k, l :: 0 <= k < l < |a.consumed| && a.consumed[k].Some? ==> a.consumed[k] != a.consumed[l])
  }

  ghost predicate Makes(shard: ConsumerMap, q: ConsumerRequest, a: ConsumerAnswers, k: nat)
    requires k < |q.targets| == |a.consumed|
  {
    Subscriptions(shard, q, q.targets[k]) == {} && a.consumed[k].Some?
  }

  /** Target `k` is answered with its new consumer, which is in the batch, or with its only old one. */
  ghost predicate Answered(shard: ConsumerMap, q: ConsumerRequest, a: ConsumerAnswers, k: nat, done: Batch)
    requires k < |q.targets| == |a.consumed|
  {
    var t := q.targets[k];
    && (t.participant, t.kind) in done.reply
    && var c := done.reply[(t.participant, t.kind)];
       if Makes(shard, q, a, k) then
         a.consumed[k] == Some(c) && c in done.added && done.added[c] == EntryFor(q, t)
         && Insert(RowFor(q, t, c)) in done.rows
       else Subscriptions(shard, q, t) == {c}
  }

  /** The batch holds what targets `0..n` need and nothing else. */
  ghost predicate Assembled(shard: ConsumerMap, q: ConsumerRequest, a: ConsumerAnswers, n: nat, done: Batch)
    requires n <= |q.targets| == |a.consumed|
  {
    && (forall k :: 0 <= k < n ==> Answered(shard, q, a, k, done))
    && (forall c :: c in done.added ==>
          exists k :: 0 <= k < n && Makes(shard, q, a, k) && a.consumed[k] == Some(c))
    && (forall s :: s in done.rows ==>
          exists k :: 0 <= k < n && Makes(shard, q, a, k) && s == Insert(RowFor(q, q.targets[k], a.consumed[k].value)))
    && (forall key :: key in done.reply ==>
          exists k :: 0 <= k < n && key == (q.targets[k].participant, q.targets[k].kind))
  }

  lemma TheOnlyMember(ids: set<Id>, id: Id)
    requires |ids| == 1 && id in ids
    ensures ids == {id}
  {
    assert |ids - {id}| == 0;
  }

  /** The batch after one more target. */
  ghost function NextBatch(shard: ConsumerMap, q: ConsumerRequest, a: ConsumerAnswers, n: nat, done: Batch): Batch
    requires n < |q.targets| == |a.consumed|
    requires |Subscriptions(shard, q, q.targets[n])| == 1 || Makes(shard, q, a, n)
  {
    var t := q.targets[n];
    var existing := Subscriptions(shard, q, t);
    if |existing| == 1 then done.(reply := done.reply[(t.participant, t.kind) := TheOnly(existing)])
    else
      var c := a.consumed[n].value;
      Batch(done.added[c := EntryFor(q, t)], done.rows + [Insert(RowFor(q, t, c))],
            done.reply[(t.participant, t.kind) := c])
  }

  lemma AssembledStep(shard: ConsumerMap, q: ConsumerRequest, a: ConsumerAnswers, n: nat, done: Batch)
    requires DistinctTargets(q, a) && n < |q.targets| && Assembled(shard, q, a, n, done)
    requires |Subscriptions(shard, q, q.targets[n])| == 1 || Makes(shard, q, a, n)
    ensures Assembled(shard, q, a, n + 1, NextBatch(shard, q, a, n, done))
  {
    var next := NextBatch(shard, q, a, n, done);
    var existing := Subscriptions(shard, q, q.targets[n]);
    if |existing| == 1 {
      TheOnlyMember(existing, TheOnly(existing));
    }
    forall k | 0 <= k < n + 1 ensures Answered(shard, q, a, k, next) {
      if k < n {
        assert Answered(shard, q, a, k, done);
      }
    }
    forall c | c in next.added ensures exists k :: 0 <= k < n + 1 && Makes(shard, q, a, k) && a.consumed[k] == Some(c) {
      if c in done.added {
        var k :| 0 <= k < n && Makes(shard, q, a, k) && a.consumed[k] == Some(c);
      } else {
        assert Makes(shard, q, a, n) && a.consumed[n] == Some(c);
      }
    }
    forall s | s in next.rows
      ensures exists k :: 0 <= k < n + 1 && Makes(shard, q, a, k)
                && s == Insert(RowFor(q, q.targets[k], a.consumed[k].value))
    {
      if s in done.rows {
        var k :| 0 <= k < n && Makes(shard, q, a, k) && s == Insert(RowFor(q, q.targets[k], a.consumed[k].value));
      } else {
        assert Makes(shard, q, a, n) && s == Insert(RowFor(q, q.targets[n], a.consumed[n].value));
      }
    }
  }

  lemma {:induction false} SubscribeAssembles(shard: ConsumerMap, q: ConsumerRequest, a: ConsumerAnswers, n: nat,
      done: Batch)
    requires DistinctTargets(q, a) && n <= |q.targets| && Assembled(shard, q, a, n, done)
    requires Subscribe(shard, q, a, n, done).Success?
    ensures Assembled(shard, q, a, |q.targets|, Subscribe(shard, q, a, n, done).value)
    decreases |q.targets| - n
  {
    if n < |q.targets| {
      AssembledStep(shard, q, a, n, done);
      SubscribeAssembles(shard, q, a, n + 1, NextBatch(shard, q, a, n, done));
    }
  }

  // ----- What the transaction commits -----

  predicate InsertsConsumers(stmts: seq<Statement>) {
    forall s :: s in stmts ==> s.Insert? && s.row.Consumer?
  }

  ghost predicate AddsConsumers(db: Table, stmts: seq<Statement>, after: Table) {
    && (forall r :: r in db ==> r in after && (!r.Consumer? ==> after[r] == db[r]))
    && (forall r :: r in after ==> r in db || (r.Consumer? && Insert(r) in stmts))
  }

  // ----- Creating -----

  /** mediasoup only consumes producers it made; a living one is the target's, in this meeting. */
  ghost predicate ConsumesTargets(s: System, q: ConsumerRequest, a: ConsumerAnswers) {
    forall k :: 0 <= k < |q.targets| == |a.consumed| && a.consumed[k].Some? ==>
      var t := q.targets[k];
      && a.consumed[k].value !in s.minted
      && t.producer in s.minted
      && (t.producer in s.world.mem.producers ==>
            s.world.mem.producers[t.producer].participant == t.participant
            && s.world.mem.producers[t.producer].meeting == q.meeting)
  }

  ghost predicate HonestConsume(s: System, q: ConsumerRequest, a: ConsumerAnswers) {
    && DistinctTargets(q, a) && ConsumesTargets(s, q, a)
    && PresentsOwn(s.issued, q.transport, q.participant, q.meeting, q.instance)
  }

  lemma HonestCounts(s: System, q: ConsumerRequest, a: ConsumerAnswers)
    requires HonestConsume(s, q, a)
    ensures |q.targets| == |a.consumed|
  {
  }

  function Consumed(a: ConsumerAnswers): set<Id> {
    set k | 0 <= k < |a.consumed| && a.consumed[k].Some? :: a.consumed[k].value
  }

  ghost function AfterConsume(s: System, q: ConsumerRequest, a: ConsumerAnswers): System
    requires |q.targets| == |a.consumed|
  {
    System(ConsumersCreated(s.world, q, a).0, s.issued, s.minted + Consumed(a))
  }

  lemma BatchOf(mem: Memory, q: ConsumerRequest, a: ConsumerAnswers)
    requires DistinctTargets(q, a) && Subscribed(mem, q, a).Success?
    ensures Assembled(ShardOf(mem, q.meeting), q, a, |q.targets|, Subscribed(mem, q, a).value)
    ensures InsertsConsumers(Subscribed(mem, q, a).value.rows)
  {
    SubscribeAssembles(ShardOf(mem, q.meeting), q, a, 0, Batch(map[], [], map[]));
  }

  /** Every consumer of the batch was made for one of the targets. */
  ghost predicate MadeFor(shard: ConsumerMap, q: ConsumerRequest, a: ConsumerAnswers, added: ConsumerMap)
    requires |q.targets| == |a.consumed|
  {
    forall c :: c in added ==>
      exists k :: 0 <= k < |q.targets| && Makes(shard, q, a, k) && a.consumed[k] == Some(c)
                  && added[c] == EntryFor(q, q.targets[k])
  }

  lemma BatchIsMadeFor(shard: ConsumerMap, q: ConsumerRequest, a: ConsumerAnswers, batch: Batch)
    requires DistinctTargets(q, a) && Assembled(shard, q, a, |q.targets|, batch)
    ensures MadeFor(shard, q, a, batch.added)
  {
    forall c | c in batch.added
      ensures exists k :: 0 <= k < |q.targets| && Makes(shard, q, a, k) && a.consumed[k] == Some(c)
                          && batch.added[c] == EntryFor(q, q.targets[k])
    {
      var k :| 0 <= k < |q.targets| && Makes(shard, q, a, k) && a.consumed[k] == Some(c);
      assert Answered(shard, q, a, k, batch);
    }
  }

  lemma NoSubscription(shard: ConsumerMap, q: ConsumerRequest, t: Target, c: Id)
    requires Subscriptions(shard, q, t) == {} && c in shard
    ensures !SameSubscription(shard[c], EntryFor(q, t))
  {
    assert c in Subscriptions(shard, q, t) <==> SameSubscription(shard[c], EntryFor(q, t));
  }

  ghost predicate Single(shard: ConsumerMap) {
    forall c, d :: c in shard && d in shard && SameSubscription(shard[c], shard[d]) ==> c == d
  }

  lemma BatchIsSingle(shard: ConsumerMap, q: ConsumerRequest, a: ConsumerAnswers, added: ConsumerMap)
    requires DistinctTargets(q, a) && MadeFor(shard, q, a, added)
    requires Single(shard)
    ensures Single(shard + added)
  {
    var all := shard + added;
    forall c, d | c in added && d in all && SameSubscription(all[c], all[d]) ensures c == d {
      var k :| 0 <= k < |q.targets| && Makes(shard, q, a, k) && a.consumed[k] == Some(c)
               && added[c] == EntryFor(q, q.targets[k]);
      if d in shard {
        NoSubscription(shard, q, q.targets[k], d);
      }
      var l :| 0 <= l < |q.targets| && Makes(shard, q, a, l) && a.consumed[l] == Some(d)
               && added[d] == EntryFor(q, q.targets[l]);
      assert k == l;
    }
  }

  lemma BatchIsFedByTarget(s: System, q: ConsumerRequest, a: ConsumerAnswers, added: ConsumerMap)
    requires FedByTarget(s.world.mem) && ConsumesTargets(s, q, a) && |q.targets| == |a.consumed|
    requires MadeFor(ShardOf(s.world.mem, q.meeting), q, a, added)
    ensures FedByTarget(AddConsumers(s.world.mem, q.meeting, added))
  {
  }

  lemma BatchKeepsMemory(s: System, q: ConsumerRequest, a: ConsumerAnswers, added: ConsumerMap)
    requires MemoryAgrees(s.world.mem) && DistinctTargets(q, a) && ConsumesTargets(s, q, a)
    requires MadeFor(ShardOf(s.world.mem, q.meeting), q, a, added)
    ensures MemoryAgrees(AddConsumers(s.world.mem, q.meeting, added))
  {
    BatchIsSingle(ShardOf(s.world.mem, q.meeting), q, a, added);
    BatchIsFedByTarget(s, q, a, added);
  }

  /** A consumer row was accepted, so the transport it names is still stored. */
  lemma AcceptedConsumerIsCurrent(db: Table, issued: map<Id, Grant>, q: ConsumerRequest, row: Row, after: Table)
    requires Granted(db, issued) && PresentsOwn(issued, q.transport, q.participant, q.meeting, q.instance)
    requires row in after && row.Consumer? && row.transport == q.transport
    requires ForeignKeys(after.Keys) && forall r :: r in after && !r.Consumer? ==> r in db
    ensures Member(q.meeting, q.participant, q.instance) in db
    ensures forall r :: r in db && r.ConsumerTransport? && r.transport == q.transport ==> r.participant == q.participant
  {
    var k := ConsumerTransportKey(q.transport);
    assert k in References(row);
    assert Provided(after.Keys, k);
    var t :| t in after && k in Provides(t);
    assert t in db;
  }

  ghost predicate RowsOfBatch(db: Table, q: ConsumerRequest, added: ConsumerMap, after: Table) {
    forall r :: r in after && r !in db ==>
      && r.Consumer? && r.meeting == q.meeting && r.participant == q.participant && r.transport == q.transport
      && r.consumer in added && added[r.consumer].target == r.target && added[r.consumer].kind == r.kind
  }

  /** Every new row is a consumer of the batch. */
  lemma NewRowsAreInBatch(db: Table, shard: ConsumerMap, q: ConsumerRequest, a: ConsumerAnswers, batch: Batch,
                          after: Table)
    requires DistinctTargets(q, a) && Assembled(shard, q, a, |q.targets|, batch) && AddsConsumers(db, batch.rows, after)
    ensures RowsOfBatch(db, q, batch.added, after)
  {
    forall r | r in after && r !in db
      ensures r.Consumer? && r.meeting == q.meeting && r.participant == q.participant && r.transport == q.transport
      ensures r.consumer in batch.added
              && batch.added[r.consumer].target == r.target && batch.added[r.consumer].kind == r.kind
    {
      var k :| 0 <= k < |q.targets| && Makes(shard, q, a, k)
        && Insert(r) == Insert(RowFor(q, q.targets[k], a.consumed[k].value));
      assert Answered(shard, q, a, k, batch);
    }
  }

  /** The batch's consumers are new and belong to the requesting instance. */
  ghost predicate Fresh(minted: set<Id>, q: ConsumerRequest, added: ConsumerMap) {
    forall c :: c in added ==>
      c !in minted && added[c].meeting == q.meeting && added[c].participant == q.participant
      && added[c].instance == q.instance
  }

  lemma BatchIsFresh(s: System, q: ConsumerRequest, a: ConsumerAnswers, added: ConsumerMap)
    requires ConsumesTargets(s, q, a) && |q.targets| == |a.consumed|
    requires MadeFor(ShardOf(s.world.mem, q.meeting), q, a, added)
    ensures Fresh(s.minted, q, added)
  {
  }

  lemma BatchKeepsConsumers(db: Table, mem: Memory, minted: set<Id>, q: ConsumerRequest, added: ConsumerMap,
                            after: Table)
    requires ConsumersBacked(db, mem) && ConsumersOwned(db, mem) && Fresh(minted, q, added)
    requires forall j, c :: 0 <= j < |mem.shards| && c in mem.shards[j] ==> c in minted
    requires forall r :: r in db && r.Member? ==> r in after
    requires RowsOfBatch(db, q, added, after)
    requires added != map[] ==> Member(q.meeting, q.participant, q.instance) in db
    ensures ConsumersBacked(after, AddConsumers(mem, q.meeting, added))
    ensures ConsumersOwned(after, AddConsumers(mem, q.meeting, added))
  {
    var left := AddConsumers(mem, q.meeting, added);
    forall r | r in after && r.Consumer?
      ensures r.consumer in ShardOf(left, r.meeting)
      ensures var e := ShardOf(left, r.meeting)[r.consumer];
              && e.participant == r.participant && e.target == r.target && e.kind == r.kind && e.meeting == r.meeting
              && Member(e.meeting, e.participant, e.instance) in after
    {
      if r in db {
        assert r.consumer in mem.shards[ShardIndex(mem.hash, |mem.shards|, r.meeting)];
      }
    }
  }

  lemma AcceptedBatchIsCurrent(db: Table, issued: map<Id, Grant>, shard: ConsumerMap, q: ConsumerRequest,
                               a: ConsumerAnswers,
                               batch: Batch, after: Table)
    requires Granted(db, issued) && PresentsOwn(issued, q.transport, q.participant, q.meeting, q.instance)
    requires DistinctTargets(q, a) && Assembled(shard, q, a, |q.targets|, batch)
    requires ForeignKeys(after.Keys) && AddsConsumers(db, batch.rows, after)
    requires forall r :: Insert(r) in batch.rows ==> r in after
    ensures batch.added != map[] ==> Member(q.meeting, q.participant, q.instance) in db
  {
    if batch.added != map[] {
      var c :| c in batch.added;
      var k :| 0 <= k < |q.targets| && Makes(shard, q, a, k) && a.consumed[k] == Some(c);
      assert Answered(shard, q, a, k, batch);
      AcceptedConsumerIsCurrent(db, issued, q, RowFor(q, q.targets[k], c), after);
    }
  }

  lemma AcceptedRowsAreOnOwnTransport(db: Table, issued: map<Id, Grant>, q: ConsumerRequest, added: ConsumerMap,
                                      after: Table)
    requires Granted(db, issued) && PresentsOwn(issued, q.transport, q.participant, q.meeting, q.instance)
    requires OwnTransports(db.Keys) && ForeignKeys(after.Keys)
    requires RowsOfBatch(db, q, added, after)
    ensures OwnTransports(after.Keys)
  {
  }

  lemma ConsumeKeepsTables(s: System, q: ConsumerRequest, a: ConsumerAnswers, batch: Batch, after: Table)
    requires TablesAgree(s.world.db, s.world.mem, s.issued) && MintedIds(s) && HonestConsume(s, q, a)
    requires Assembled(ShardOf(s.world.mem, q.meeting), q, a, |q.targets|, batch)
    requires Consistent(after) && AddsConsumers(s.world.db, batch.rows, after)
    requires forall r :: Insert(r) in batch.rows ==> r in after
    ensures TablesAgree(after, AddConsumers(s.world.mem, q.meeting, batch.added), s.issued)
  {
    var db, mem, shard := s.world.db, s.world.mem, ShardOf(s.world.mem, q.meeting);
    BatchIsMadeFor(shard, q, a, batch);
    BatchIsFresh(s, q, a, batch.added);
    NewRowsAreInBatch(db, shard, q, a, batch, after);
    AcceptedBatchIsCurrent(db, s.issued, shard, q, a, batch, after);
    BatchKeepsConsumers(db, mem, s.minted, q, batch.added, after);
    BatchKeepsTheRest(db, mem.producers, s.issued, q, batch.added, after);
  }

  lemma BatchKeepsTheRest(db: Table, producers: map<Id, ProducerEntry>, issued: map<Id, Grant>, q: ConsumerRequest,
                          added: ConsumerMap, after: Table)
    requires ProducersAgree(db, producers) && Granted(db, issued) && OwnTransports(db.Keys)
    requires PresentsOwn(issued, q.transport, q.participant, q.meeting, q.instance)
    requires ForeignKeys(after.Keys) && RowsOfBatch(db, q, added, after)
    requires forall r :: r in db ==> r in after && (!r.Consumer? ==> after[r] == db[r])
    ensures ProducersAgree(after, producers) && Granted(after, issued) && OwnTransports(after.Keys)
  {
    AcceptedRowsAreOnOwnTransport(db, issued, q, added, after);
    AgreementRetained(db, producers, issued, after);
  }

  lemma CommittedBatch(db: Table, stmts: seq<Statement>, link: Link)
    requires Consistent(db) && InsertsConsumers(stmts) && Transact(db, stmts, true, link).1.Success?
    ensures var after := Transact(db, stmts, true, link).0;
            Consistent(after) && AddsConsumers(db, stmts, after) && forall r :: Insert(r) in stmts ==> r in after
  {
    TransactionKeepsConstraints(db, stmts, true, link);
    InsertionRun(db, stmts, 0, false, link);
  }

  lemma BatchIsMinted(s: System, q: ConsumerRequest, a: ConsumerAnswers, added: ConsumerMap, after: Table)
    requires MintedIds(s) && ConsumesTargets(s, q, a) && |q.targets| == |a.consumed|
    requires MadeFor(ShardOf(s.world.mem, q.meeting), q, a, added)
    ensures MintedIds(System(World(after, AddConsumers(s.world.mem, q.meeting, added)),
                             s.issued, s.minted + Consumed(a)))
  {
  }

  lemma ConsumeKeepsInv(s: System, q: ConsumerRequest, a: ConsumerAnswers)
    requires Inv(s) && HonestConsume(s, q, a)
    ensures Inv(AfterConsume(s, q, a))
  {
    var mem := s.world.mem;
    if ConsumersCreated(s.world, q, a).1.Success? {
      var batch := Subscribed(mem, q, a).value;
      var after := Transact(s.world.db, batch.rows, true, a.link).0;
      BatchOf(mem, q, a);
      BatchIsMadeFor(ShardOf(mem, q.meeting), q, a, batch);
      CommittedBatch(s.world.db, batch.rows, a.link);
      ConsumeKeepsTables(s, q, a, batch, after);
      BatchKeepsMemory(s, q, a, batch.added);
      BatchIsMinted(s, q, a, batch.added, after);
    }
  }

  lemma RowsNeedConsumers(shard: ConsumerMap, q: ConsumerRequest, a: ConsumerAnswers, batch: Batch, row: Statement)
    requires DistinctTargets(q, a) && Assembled(shard, q, a, |q.targets|, batch) && row in batch.rows
    ensures batch.added != map[]
  {
    var k :| 0 <= k < |q.targets| && Makes(shard, q, a, k)
      && row == Insert(RowFor(q, q.targets[k], a.consumed[k].value));
    assert Answered(shard, q, a, k, batch);
  }

  /** Fencing on the consuming side: a create on a transport of a superseded instance changes nothing. */
  lemma SupersededConsumerTransportIsFenced(s: System, q: ConsumerRequest, a: ConsumerAnswers)
    requires Inv(s) && HonestConsume(s, q, a)
    requires Member(q.meeting, q.participant, q.instance) !in s.world.db
    ensures ConsumersCreated(s.world, q, a).0 == s.world
  {
    var mem, shard := s.world.mem, ShardOf(s.world.mem, q.meeting);
    if ConsumersCreated(s.world, q, a).1.Success? {
      var batch := Subscribed(mem, q, a).value;
      BatchOf(mem, q, a);
      CommittedBatch(s.world.db, batch.rows, a.link);
      AcceptedBatchIsCurrent(s.world.db, s.issued, shard, q, a, batch,
                             Transact(s.world.db, batch.rows, true, a.link).0);
      if batch.rows != [] {
        RowsNeedConsumers(shard, q, a, batch, batch.rows[0]);
      }
      AddingNothing(mem, q.meeting);
    }
  }

  // ----- Repeating -----

  /** The "More than one existing consumer" branch is unreachable: the only ways to fail before the
      transaction are an unknown transport and a target that mediasoup refuses. */
  lemma OnlyRefusalsFail(mem: Memory, q: ConsumerRequest, a: ConsumerAnswers)
    requires SingleSubscriptions(mem) && |q.targets| == |a.consumed|
    ensures forall t :: |Subscriptions(ShardOf(mem, q.meeting), q, t)| <= 1
    ensures Subscribed(mem, q, a).Failure? <==>
            q.transport !in mem.transports
            || exists k :: 0 <= k < |q.targets| && Refused(ShardOf(mem, q.meeting), q, a, k)
  {
    var shard := ShardOf(mem, q.meeting);
    forall t ensures |Subscriptions(shard, q, t)| <= 1 {
      AtMostOne(mem, q, t);
    }
    SubscribeFailsOnRefusal(shard, q, a, 0, Batch(map[], [], map[]));
  }

  predicate Refused(shard: ConsumerMap, q: ConsumerRequest, a: ConsumerAnswers, k: nat)
    requires k < |q.targets| == |a.consumed|
  {
    Subscriptions(shard, q, q.targets[k]) == {} && a.consumed[k].None?
  }

  lemma AtMostOne(mem: Memory, q: ConsumerRequest, t: Target)
    requires SingleSubscriptions(mem)
    ensures |Subscriptions(ShardOf(mem, q.meeting), q, t)| <= 1
  {
    var found := Subscriptions(ShardOf(mem, q.meeting), q, t);
    if found != {} {
      var c :| c in found;
      assert SameSubscription(mem.shards[ShardIndex(mem.hash, |mem.shards|, q.meeting)][c], EntryFor(q, t));
      assert found == {c};
    }
  }

  lemma {:induction false} SubscribeFailsOnRefusal(shard: ConsumerMap, q: ConsumerRequest, a: ConsumerAnswers, n: nat,
      done: Batch)
    requires n <= |q.targets| == |a.consumed|
    requires forall t :: |Subscriptions(shard, q, t)| <= 1
    ensures Subscribe(shard, q, a, n, done).Failure? <==> exists k :: n <= k < |q.targets| && Refused(shard, q, a, k)
    decreases |q.targets| - n
  {
    if n < |q.targets| {
      var existing := Subscriptions(shard, q, q.targets[n]);
      assert existing == {} || |existing| == 1;
      if Refused(shard, q, a, n) {
        assert Subscribe(shard, q, a, n, done).Failure?;
      } else {
        SubscribeFailsOnRefusal(shard, q, a, n + 1, NextBatch(shard, q, a, n, done));
      }
    }
  }

  ghost predicate SettledTarget(shard: ConsumerMap, q: ConsumerRequest, t: Target, reply: map<(Id, string), Id>) {
    (t.participant, t.kind) in reply && Subscriptions(shard, q, t) == {reply[(t.participant, t.kind)]}
  }

  /** Every target has exactly one consumer, the one in the reply. */
  ghost predicate Settled(shard: ConsumerMap, q: ConsumerRequest, reply: map<(Id, string), Id>) {
    && (forall k :: 0 <= k < |q.targets| ==> SettledTarget(shard, q, q.targets[k], reply))
    && (forall key :: key in reply ==>
          exists k :: 0 <= k < |q.targets| && key == (q.targets[k].participant, q.targets[k].kind))
  }

  lemma SubscribeReuses(shard: ConsumerMap, q: ConsumerRequest, a: ConsumerAnswers, n: nat, done: Batch, c: Id)
    requires n < |q.targets| == |a.consumed| && Subscriptions(shard, q, q.targets[n]) == {c}
    ensures var t := q.targets[n];
            Subscribe(shard, q, a, n, done) ==
            Subscribe(shard, q, a, n + 1, done.(reply := done.reply[(t.participant, t.kind) := c]))
  {
  }

  /** `part` answers the first `n` targets as `reply` does. */
  ghost predicate Part(q: ConsumerRequest, n: nat, part: map<(Id, string), Id>, reply: map<(Id, string), Id>)
    requires n <= |q.targets|
  {
    && (forall key :: key in part ==> key in reply && part[key] == reply[key])
    && (forall k :: 0 <= k < n ==> (q.targets[k].participant, q.targets[k].kind) in part)
  }

  lemma PartStep(shard: ConsumerMap, q: ConsumerRequest, n: nat, part: map<(Id, string), Id>,
                 reply: map<(Id, string), Id>)
    requires n < |q.targets| && Part(q, n, part, reply) && SettledTarget(shard, q, q.targets[n], reply)
    ensures var key := (q.targets[n].participant, q.targets[n].kind);
            Part(q, n + 1, part[key := reply[key]], reply)
  {
  }

  lemma WholePart(shard: ConsumerMap, q: ConsumerRequest, part: map<(Id, string), Id>, reply: map<(Id, string), Id>)
    requires Settled(shard, q, reply) && Part(q, |q.targets|, part, reply)
    ensures part == reply
  {
  }

  lemma {:induction false} SettledSubscribe(shard: ConsumerMap, q: ConsumerRequest, a: ConsumerAnswers, n: nat,
                                            part: map<(Id, string), Id>, reply: map<(Id, string), Id>)
    requires n <= |q.targets| == |a.consumed| && Settled(shard, q, reply) && Part(q, n, part, reply)
    ensures Subscribe(shard, q, a, n, Batch(map[], [], part)) == Success(Batch(map[], [], reply))
    decreases |q.targets| - n
  {
    if n == |q.targets| {
      WholePart(shard, q, part, reply);
    } else {
      var key := (q.targets[n].participant, q.targets[n].kind);
      assert SettledTarget(shard, q, q.targets[n], reply);
      PartStep(shard, q, n, part, reply);
      SubscribeReuses(shard, q, a, n, Batch(map[], [], part), reply[key]);
      SettledSubscribe(shard, q, a, n + 1, part[key := reply[key]], reply);
    }
  }

  lemma TargetSettles(shard: ConsumerMap, q: ConsumerRequest, a: ConsumerAnswers, batch: Batch, k: nat)
    requires k < |q.targets| == |a.consumed| && Answered(shard, q, a, k, batch)
    requires forall c :: c in shard ==> c !in batch.added
    requires Single(shard + batch.added)
    ensures SettledTarget(shard + batch.added, q, q.targets[k], batch.reply)
  {
  }

  lemma BatchSettles(shard: ConsumerMap, q: ConsumerRequest, a: ConsumerAnswers, batch: Batch)
    requires DistinctTargets(q, a) && Assembled(shard, q, a, |q.targets|, batch)
    requires forall c :: c in shard ==> c !in batch.added
    requires Single(shard)
    ensures Settled(shard + batch.added, q, batch.reply)
  {
    BatchIsMadeFor(shard, q, a, batch);
    BatchIsSingle(shard, q, a, batch.added);
    forall k | 0 <= k < |q.targets| ensures SettledTarget(shard + batch.added, q, q.targets[k], batch.reply) {
      TargetSettles(shard, q, a, batch, k);
    }
  }

  lemma BatchMissesShard(s: System, q: ConsumerRequest, a: ConsumerAnswers, added: ConsumerMap)
    requires MintedIds(s) && ConsumesTargets(s, q, a) && |q.targets| == |a.consumed|
    requires MadeFor(ShardOf(s.world.mem, q.meeting), q, a, added)
    ensures forall c :: c in ShardOf(s.world.mem, q.meeting) ==> c !in added
  {
  }

  lemma ShardIsSingle(mem: Memory, m: Id)
    requires SingleSubscriptions(mem)
    ensures Single(ShardOf(mem, m))
  {
  }

  lemma AddingNothing(mem: Memory, m: Id)
    ensures AddConsumers(mem, m, map[]) == mem
  {
    assert ShardOf(mem, m) + map[] == ShardOf(mem, m);
  }

  /** Nothing is left to add once a batch has been added. */
  lemma SubscribedAgain(s: System, q: ConsumerRequest, a: ConsumerAnswers, again: ConsumerAnswers, batch: Batch)
    requires SingleSubscriptions(s.world.mem) && MintedIds(s) && DistinctTargets(q, a) && ConsumesTargets(s, q, a)
    requires |again.consumed| == |q.targets| && Subscribed(s.world.mem, q, a) == Success(batch)
    ensures Subscribed(AddConsumers(s.world.mem, q.meeting, batch.added), q, again) ==
            Success(Batch(map[], [], batch.reply))
  {
    var mem, shard := s.world.mem, ShardOf(s.world.mem, q.meeting);
    BatchOf(mem, q, a);
    BatchIsMadeFor(shard, q, a, batch);
    BatchMissesShard(s, q, a, batch.added);
    ShardIsSingle(mem, q.meeting);
    BatchSettles(shard, q, a, batch);
    SettledSubscribe(shard + batch.added, q, again, 0, map[], batch.reply);
  }

  /** Repeating a successful create returns the same consumers and changes nothing; a failed create
      changes nothing either. */
  lemma RepeatedConsumeIsNoOp(s: System, q: ConsumerRequest, a: ConsumerAnswers, again: ConsumerAnswers)
    requires Inv(s) && HonestConsume(s, q, a)
             && |again.consumed| == |q.targets| && again.link.connected && again.link.commitError.None?
    ensures var (after, reply) := ConsumersCreated(s.world, q, a);
            if reply.Success? then ConsumersCreated(after, q, again) == (after, reply) else after == s.world
  {
    if ConsumersCreated(s.world, q, a).1.Success? {
      var batch := Subscribed(s.world.mem, q, a).value;
      SubscribedAgain(s, q, a, again, batch);
      AddingNothing(AddConsumers(s.world.mem, q.meeting, batch.added), q.meeting);
    }
  }

  // ----- Closing -----

  function WithoutConsumers(db: Table, ids: set<Id>): Table {
    map r | r in db && !(r.Consumer? && r.consumer in ids) :: db[r]
  }

  lemma ConsumerDeletion(db: Table, c: Id)
    ensures DeleteRows(db, ConsumerById(c)).Applied?
    ensures DeleteRows(db, ConsumerById(c)).db == WithoutConsumers(db, {c})
  {
    DeleteApplies(db, ConsumerById(c));
    LeafClosure(db.Keys, Matching(db, ConsumerById(c)));
    hide Closure, DeleteRows, Affected;
    ConsumersSelected(db, c);
    hide Matching, WithoutConsumers;
  }

  lemma ConsumersSelected(db: Table, c: Id)
    ensures db - Matching(db, ConsumerById(c)) == WithoutConsumers(db, {c})
  {
  }

  lemma ConsumersRemovedInTurn(db: Table, ids: seq<Id>, n: nat)
    requires n < |ids|
    ensures WithoutConsumers(WithoutConsumers(db, {ids[n]}), Elements(ids[n + 1..])) ==
            WithoutConsumers(db, Elements(ids[n..]))
  {
  }

  lemma {:induction false} ConsumerDeletionsEffect(db: Table, ids: seq<Id>, n: nat, duplicate: bool, link: Link)
    requires n <= |ids| && RunFrom(db, ConsumerDeletions(ids), n, duplicate, true, link).Success?
    ensures RunFrom(db, ConsumerDeletions(ids), n, duplicate, true, link).value.0 ==
            WithoutConsumers(db, Elements(ids[n..]))
    decreases |ids| - n
  {
    if n < |ids| {
      ConsumerDeletion(db, ids[n]);
      RunStep(db, ConsumerDeletions(ids), n, duplicate, true, link);
      ConsumerDeletionsEffect(WithoutConsumers(db, {ids[n]}), ids, n + 1, duplicate, link);
      ConsumersRemovedInTurn(db, ids, n);
    }
  }

  lemma ConsumersGoneKeepsConstraints(db: Table, ids: set<Id>)
    requires Consistent(db)
    ensures Consistent(WithoutConsumers(db, ids))
  {
    var after := WithoutConsumers(db, ids);
    forall r, k | r in after && k in References(r) ensures Provided(after.Keys, k) {
      assert Provided(db.Keys, k);
      var s :| s in db && k in Provides(s);
      assert s in after;
    }
  }

  lemma CloseConsumersKeepsTables(db: Table, mem: Memory, issued: map<Id, Grant>, m: Id, ids: set<Id>)
    requires TablesAgree(db, mem, issued)
    ensures TablesAgree(WithoutConsumers(db, ids), DropConsumers(mem, m, ids), issued)
  {
    var after, left := WithoutConsumers(db, ids), DropConsumers(mem, m, ids);
    ConsumersGoneKeepsConstraints(db, ids);
    AgreementRetained(db, mem.producers, issued, after);
    OwnTransportsRetained(db, after);
    forall r | r in after && r.Consumer? ensures r.consumer in ShardOf(left, r.meeting) {
      assert r.consumer in ShardOf(mem, r.meeting);
    }
  }

  function AfterCloseConsumers(s: System, m: Id, ids: seq<Id>, link: Link): System {
    s.(world := ConsumersClosed(s.world, m, ids, link))
  }

  lemma CloseConsumersKeepsInv(s: System, m: Id, ids: seq<Id>, link: Link)
    requires Inv(s)
    ensures Inv(AfterCloseConsumers(s, m, ids, link))
  {
    var db, mem := s.world.db, s.world.mem;
    if Transact(db, ConsumerDeletions(ids), true, link).1.Success? {
      ConsumerDeletionsEffect(db, ids, 0, false, link);
      assert ids[0..] == ids;
      CloseConsumersKeepsTables(db, mem, s.issued, m, Elements(ids));
      MemoryAgreesAfterDrop(mem, DropConsumers(mem, m, Elements(ids)));
    }
  }
}
