/** The media server: its in-memory maps and the operations that keep them in step with the database.
    The maps behind their locks are fields here; one operation is one step. */
module Sfu {
  import opened Common
  import opened Schema
  import opened Dao
  import opened Executor
  import opened Session
  import opened Consuming
  import opened Provisioning

  /** The elements of a hash map's key set in the arbitrary order of its traversal. */
  method Listed(ids: set<Id>) returns (list: seq<Id>)
    ensures Elements(list) == ids
  {
    list := [];
    var rest := ids;
    while rest != {}
      invariant rest <= ids && Elements(list) == ids - rest
      decreases rest
    {
      var id :| id in rest;
      ElementsSnoc(list, id);
      list := list + [id];
      rest := rest - {id};
    }
  }

  lemma ElementsSnoc(list: seq<Id>, id: Id)
    ensures Elements(list + [id]) == Elements(list) + {id}
  {
  }

  lemma OneMore(ids: seq<Id>, n: nat)
    requires n < |ids|
    ensures Elements(ids[..n + 1]) == Elements(ids[..n]) + {ids[n]}
  {
  }

  lemma All(ids: seq<Id>)
    ensures ids[..|ids|] == ids
  {
  }

  class MediaServer {
    const hash: Id -> nat
    const workers: set<Id>
    var routersMap: map<Id, int>
    var transportMap: map<Id, TransportEntry>
    var producerMap: map<Id, ProducerEntry>
    var consumerShards: Shards
    var plainTransportMap: map<Id, Id>
    var plainTransportConsumerMap: map<Id, Id>

    function Mem(): Memory
      reads this
    {
      Memory(hash, workers, routersMap, transportMap, producerMap, consumerShards, plainTransportMap,
             plainTransportConsumerMap)
    }

    function Now(pool: Pool): World
      reads this, pool
    {
      World(pool.table, Mem())
    }

    constructor (hash: Id -> nat, workers: set<Id>, shardCount: nat)
      requires shardCount > 0
      ensures Mem() == Memory(hash, workers, map[], map[], map[], seq(shardCount, _ => map[]), map[], map[])
    {
      this.hash, this.workers := hash, workers;
      routersMap, transportMap, producerMap := map[], map[], map[];
      var shards: seq<ConsumerMap> := seq(shardCount, _ => map[]);
      consumerShards := shards;
      plainTransportMap, plainTransportConsumerMap := map[], map[];
    }

    // ----- Removing from memory -----

    method CloseAllConsumersInMemory(ids: seq<Id>, meeting: Id)
      modifies this`consumerShards
      ensures Mem() == DropConsumers(old(Mem()), meeting, Elements(ids))
    {
      var index := ShardIndex(hash, |consumerShards|, meeting);
      var shards := consumerShards;
      var shard := shards[index];
      for n := 0 to |ids|
        invariant consumerShards == shards && shard == shards[index] - Elements(ids[..n])
      {
        OneMore(ids, n);
        shard := shard - {ids[n]};
      }
      All(ids);
      consumerShards := shards[index := shard];
    }

    /** Each removed producer is reported with the first of the given participants; without any, the
        first removal panics. `removed` tells whether the participants' elements, if they are to go,
        could be taken out of the recording pipeline. */
    method CloseAllProducersInMemory(participants: seq<Id>, ids: seq<Id>, remove: bool, removed: bool)
      returns (r: Reply<seq<(Id, Id, string)>>)
      modifies this`producerMap, this`plainTransportMap, this`plainTransportConsumerMap
      ensures if participants == [] && AnyKnown(ids, old(producerMap)) then
                && r == Failure(Unwound)
                && exists x :: x in ids && x in old(producerMap)
                               && Mem() == old(Mem()).(producers := old(producerMap) - {x})
              else
                && Mem() == DropProducers(old(Mem()), Elements(ids))
                && (r.Failure? <==> remove && !removed) && (r.Failure? ==> r.error == Failed)
      ensures r.Success? ==> forall d :: d in r.value <==> Reports(old(producerMap), participants, ids, d)
    {
      var details := [];
      var was, known, plain, consumers := producerMap, producerMap, plainTransportMap, plainTransportConsumerMap;
      for n := 0 to |ids|
        invariant Mem() == old(Mem())
        invariant known == was - Elements(ids[..n])
        invariant plain == plainTransportMap - Elements(ids[..n]) * was.Keys
        invariant consumers == plainTransportConsumerMap - Elements(ids[..n]) * was.Keys
        invariant forall d :: d in details <==> Reports(was, participants, ids[..n], d)
        invariant participants == [] ==> known == was && !AnyKnown(ids[..n], was)
      {
        OneMore(ids, n);
        var id := ids[n];
        if id in known {
          if participants == [] {
            producerMap := known - {id};
            return Failure(Unwound);
          }
          details := details + [(id, participants[0], known[id].kind)];
          known := known - {id};
          plain := plain - {id};
          consumers := consumers - {id};
        }
      }
      All(ids);
      producerMap, plainTransportMap, plainTransportConsumerMap := known, plain, consumers;
      r := if remove && !removed then Failure(Failed) else Success(details);
    }

    // ----- Joining and rejoining -----

    /** Evict the participant's other instances and register this one; the answer is `new_user`. */
    method RemoveAndAddParticipantToMeeting(pool: Pool, p: Id, m: Id, i: Id, producing: Option<Id>,
                                            consuming: Option<Id>, link: Link)
      returns (r: Reply<bool>)
      modifies pool
      ensures (pool.table, r) == Register(old(pool.table), p, m, i, producing, consuming, link)
    {
      var entities := [ParticipantMeetingDao(CustomQuery1, m, Some(p), Some(i)),
                       ParticipantMeetingDao(Insertion, m, Some(p), Some(i))];
      var routers := [];
      if producing.Some? {
        routers := routers + [ParticipantProducerRouterDao(Insertion, p, producing)];
      }
      if consuming.Some? {
        routers := routers + [ParticipantConsumerRouterDao(Insertion, p, consuming)];
      }
      entities := entities + routers;
      MembershipBuilds(p, m, i, producing, consuming, entities);
      var written := Mutate(entities, MySqlContext(pool, false), link);
      match written {
        case Success(duplicate) => r := Success(!duplicate);
        case Failure(e) => r := Failure(ProblemOf(e));
      }
    }

    method CreateTransport(pool: Pool, side: Side, router: Id, p: Id, m: Id, oldProducer: Option<Id>,
                           oldConsumer: Option<Id>, created: Option<Id>, link: Link)
      returns (r: Reply<Id>)
      modifies this`transportMap, pool
      ensures Now(pool) ==
              AddTransport(old(Now(pool)), side, router, p, m, Ids(oldProducer) + Ids(oldConsumer), created, link)
      ensures AddTransportReply(old(Now(pool)), side, router, p, m, created, link, r)
    {
      if router !in routersMap {
        return Failure(Unwound);
      }
      if created.None? {
        return Failure(Failed);
      }
      var t := created.value;
      var dao := if side.Producing? then ParticipantProducerTransportDao(Insertion, p, Some(t))
                 else ParticipantConsumerTransportDao(Insertion, p, Some(t));
      DaoBuilds(dao, Insert(TransportRow(side, p, t)));
      var written := Mutate([dao], MySqlContext(pool, true), link);
      if written.Success? {
        var transports := transportMap;
        if oldProducer.Some? {
          transports := transports - {oldProducer.value};
        }
        if oldConsumer.Some? {
          transports := transports - {oldConsumer.value};
        }
        transportMap := transports[t := TransportEntry(m, p, side)];
        assert transports == old(transportMap) - (Ids(oldProducer) + Ids(oldConsumer));
        return Success(t);
      }
      if written.error == MySqlError(DUPLICATE_KEY) {
        var existing := TransportsOf(Mem(), p, m, side);
        if existing != {} {
          var found :| found in existing;
          return Success(found);
        }
      }
      r := Failure(ProblemOf(written.error));
    }

    /** Close what other instances left in memory, unless the recording pipeline refuses. */
    method CloseOthers(p: Id, m: Id, i: Id, removed: bool) returns (ok: bool)
      modifies this`producerMap, this`plainTransportMap, this`plainTransportConsumerMap, this`consumerShards
      ensures Mem() == OthersClosed(old(Mem()), p, m, i, removed)
      ensures ok == !Obstructed(old(Mem()), p, m, i, removed)
    {
      var oldConsumers := Listed(ConsumersExcludingInstance(ShardOf(Mem(), m), p, m, i));
      CloseAllConsumersInMemory(oldConsumers, m);
      var stale := ProducersExcludingInstance(producerMap, p, m, i);
      var oldProducers := Listed(stale);
      var dependents := Listed(ConsumersFedBy(ShardOf(Mem(), m), stale));
      if stale != {} {
        var closed := CloseAllProducersInMemory([p], oldProducers, true, removed);
        if closed.Failure? {
          return false;
        }
      } else {
        NothingToDrop(Mem(), stale);
      }
      CloseAllConsumersInMemory(dependents, m);
      ok := true;
    }

    method RecreateTransportHelper(pool: Pool, side: Side, q: JoinRequest, a: JoinAnswers) returns (r: Reply<Id>)
      modifies this, pool
      ensures Now(pool) == Joined(old(Now(pool)), side, q, a)
      ensures JoinReply(old(Now(pool)), side, q, a, r)
    {
      hide RunFrom, OthersClosed, Obstructed, TransportInserted, AddTransportReply, AddTransport;
      ghost var was := pool.table;
      var registered := RemoveAndAddParticipantToMeeting(
        pool, q.participant, q.meeting, q.instance,
        if side.Producing? then Some(q.router) else None,
        if side.Consuming? then Some(q.router) else None, a.membership);
      if registered.Failure? {
        return Failure(registered.error);
      }
      var oldProducer, oldConsumer := None, None;
      if registered.value {
        oldProducer, oldConsumer := q.oldProducerTransport, q.oldConsumerTransport;
      }
      assert Ids(oldProducer) + Ids(oldConsumer) == Forgotten(was, side, q, a.membership);
      var closed := CloseOthers(q.participant, q.meeting, q.instance, a.removed);
      if !closed {
        return Failure(Failed);
      }
      r := CreateTransport(pool, side, q.router, q.participant, q.meeting,
                           oldProducer, oldConsumer, a.created, a.transport);
    }

    // ----- Producers -----

    method CreateProducer(pool: Pool, q: ProducerRequest, a: ProducerAnswers) returns (r: Reply<Id>)
      modifies this`producerMap, this`plainTransportMap, this`plainTransportConsumerMap, pool
      ensures Now(pool) == ProducerCreated(old(Now(pool)), q, a)
      ensures ProducerReply(old(Now(pool)), q, a, r)
    {
      var existing := ProducersOfKind(producerMap, q.meeting, q.participant, q.kind);
      if existing != {} {
        var found :| found in existing;
        return Success(found);
      }
      if q.transport !in transportMap {
        return Failure(Unwound);
      }
      if ParseKind(q.kind).None? || a.produced.None? {
        return Failure(Failed);
      }
      var plain: Option<Id>, consumer: Option<Id> := None, None;
      if q.record {
        if q.router !in routersMap {
          return Failure(Unwound);
        }
        if a.recording.plain.None? {
          return Failure(Failed);
        }
        if !a.recording.folder || !a.recording.started || !a.recording.connected {
          return Failure(Failed);
        }
        if a.recording.consumer.None? {
          return Failure(Failed);
        }
        if !a.recording.resumed {
          return Failure(Failed);
        }
        plain, consumer := a.recording.plain, a.recording.consumer;
      }
      if q.router !in routersMap {
        return Failure(Unwound);
      }
      for n := 0 to |q.consumerRouters|
        invariant Now(pool) == old(Now(pool))
        invariant PipeObstacle(Mem(), q.consumerRouters, a.piped, 0) ==
                  PipeObstacle(Mem(), q.consumerRouters, a.piped, n)
      {
        if q.consumerRouters[n] !in routersMap {
          return Failure(Unwound);
        }
        if !a.piped(n) {
          return Failure(Failed);
        }
      }
      var x := a.produced.value;
      var dao := ParticipantProducersDao(Insertion, Some(q.participant), Some(1), Some(q.kind),
                                         Some(x), Some(q.meeting), Some(q.transport));
      DaoBuilds(dao, Insert(ProducerRow(q, x)));
      var written := Mutate([dao], MySqlContext(pool, true), a.link);
      if written.Failure? {
        return Failure(ProblemOf(written.error));
      }
      producerMap := producerMap[x := ProducerEntry(q.meeting, q.participant, q.kind, q.instance)];
      if q.record {
        plainTransportMap := plainTransportMap[x := plain.value];
        plainTransportConsumerMap := plainTransportConsumerMap[x := consumer.value];
      }
      r := Success(x);
    }

    /** A screen share alone stays in the recording pipeline. */
    method CloseProducer(pool: Pool, p: Id, m: Id, ids: seq<Id>, kinds: seq<string>, link: Link, removed: bool)
      returns (r: Reply<seq<(Id, Id, string)>>)
      modifies this`producerMap, this`plainTransportMap, this`plainTransportConsumerMap, pool
      ensures Now(pool) == ProducersClosed(old(Now(pool)), p, ids, link)
      ensures match DeleteFrom(old(pool.table), ProducerDeletions(p, ids), 0, 0, link)
              case Failure(e) => r == Failure(ProblemOf(e))
              case Success(_) => if removed || kinds == ["screenshare"] then r.Success? else r == Failure(Failed)
      ensures r.Success? ==> forall d :: d in r.value <==> Reports(old(producerMap), [p], ids, d)
    {
      var entities: seq<Dao> := [];
      for n := 0 to |ids|
        invariant Now(pool) == old(Now(pool)) && |entities| == n
        invariant forall k :: 0 <= k < n ==> entities[k] == ProducerDao(p, m, ids[k])
      {
        entities := entities + [ProducerDao(p, m, ids[n])];
      }
      ProducerDeletionsBuild(p, m, ids, entities);
      var deleted := DeleteEntities(entities, MySqlContext(pool, true), link);
      match deleted {
        case Failure(e) => return Failure(ProblemOf(e));
        case Success(_) =>
      }
      r := CloseAllProducersInMemory([p], ids, !(|kinds| == 1 && kinds[0] == "screenshare"), removed);
    }

    // ----- Consumers -----

    method CreateConsumer(pool: Pool, q: ConsumerRequest, a: ConsumerAnswers) returns (r: Reply<map<(Id, string), Id>>)
      requires |q.targets| == |a.consumed|
      modifies this`consumerShards, pool
      ensures (Now(pool), r) == ConsumersCreated(old(Now(pool)), q, a)
    {
      if q.transport !in transportMap {
        return Failure(Unwound);
      }
      var shard := ShardOf(Mem(), q.meeting);
      var added: ConsumerMap, reply: map<(Id, string), Id>, entities: seq<Dao> := map[], map[], [];
      ghost var rows: seq<Statement> := [];
      for n := 0 to |q.targets|
        invariant Now(pool) == old(Now(pool))
        invariant BuildAll(entities) == Success(rows)
        invariant Subscribe(shard, q, a, 0, Batch(map[], [], map[])) ==
                  Subscribe(shard, q, a, n, Batch(added, rows, reply))
      {
        var t := q.targets[n];
        var existing := Subscriptions(shard, q, t);
        if |existing| == 1 {
          var found :| found in existing;
          TheOnlyMember(existing, found);
          reply := reply[(t.participant, t.kind) := found];
          continue;
        }
        if |existing| > 1 || a.consumed[n].None? {
          return Failure(Failed);
        }
        var c := a.consumed[n].value;
        BuildAllSnoc(entities, ConsumerDao(q, t, c));
        added, entities := added[c := EntryFor(q, t)], entities + [ConsumerDao(q, t, c)];
        rows := rows + [Insert(RowFor(q, t, c))];
        reply := reply[(t.participant, t.kind) := c];
      }
      var written := Mutate(entities, MySqlContext(pool, true), a.link);
      if written.Failure? {
        return Failure(ProblemOf(written.error));
      }
      var index := ShardIndex(hash, |consumerShards|, q.meeting);
      consumerShards := consumerShards[index := consumerShards[index] + added];
      r := Success(reply);
    }

    method CloseConsumer(pool: Pool, m: Id, ids: seq<Id>, link: Link) returns (r: Reply<()>)
      modifies this`consumerShards, pool
      ensures Now(pool) == ConsumersClosed(old(Now(pool)), m, ids, link)
      ensures r == match Transact(old(pool.table), ConsumerDeletions(ids), true, link).1
                   case Success(_) => Success(())
                   case Failure(e) => Failure(ProblemOf(e))
    {
      var entities: seq<Dao> := [];
      for n := 0 to |ids|
        invariant Now(pool) == old(Now(pool)) && |entities| == n
        invariant forall k :: 0 <= k < n ==> entities[k] == ConsumerDeletionDao(m, ids[k])
      {
        entities := entities + [ConsumerDeletionDao(m, ids[n])];
      }
      ConsumerDeletionsBuild(m, ids, entities);
      var written := Mutate(entities, MySqlContext(pool, true), link);
      if written.Failure? {
        return Failure(ProblemOf(written.error));
      }
      CloseAllConsumersInMemory(ids, m);
      r := Success(());
    }

    // ----- Leaving and ending -----

    method LeaveMeeting(pool: Pool, q: LeaveRequest, link: Link, removed: bool) returns (r: Reply<bool>)
      modifies this, pool
      ensures (Now(pool), r) == Left(old(Now(pool)), q, link, removed)
    {
      var entities := [ParticipantMeetingDao(Deletion, q.meeting, Some(q.participant), Some(q.instance))];
      LeaveBuilds(q, entities);
      var deleted := DeleteEntities(entities, MySqlContext(pool, true), link);
      match deleted {
        case Failure(e) => return Failure(ProblemOf(e));
        case Success(affected) =>
          if affected <= 0 {
            return Success(false);
          }
      }
      var closed := ForgetInstanceInMemory(q, removed);
      r := if closed then Success(true) else Failure(Failed);
    }

    method ForgetInstanceInMemory(q: LeaveRequest, removed: bool) returns (ok: bool)
      modifies this
      ensures ok == (removed || LeaverStale(old(Mem()), q) == {})
      ensures Mem() == if ok then ForgetInstance(old(Mem()), q) else ForgetUntilRefused(old(Mem()), q)
    {
      var named := (if q.producerTransport.Some? then [q.producerTransport.value] else [])
                   + (if q.consumerTransport.Some? then [q.consumerTransport.value] else []);
      assert Elements(named) == Ids(q.producerTransport) + Ids(q.consumerTransport);
      RemoveTransports(named);
      var oldConsumers := Listed(ConsumersForInstance(ShardOf(Mem(), q.meeting), q.participant, q.meeting, q.instance));
      CloseAllConsumersInMemory(oldConsumers, q.meeting);
      var stale := ProducersForInstance(producerMap, q.participant, q.meeting, q.instance);
      var oldProducers := Listed(stale);
      if stale != {} {
        var closed := CloseAllProducersInMemory([q.participant], oldProducers, true, removed);
        if closed.Failure? {
          return false;
        }
      } else {
        NothingToDrop(Mem(), stale);
      }
      var dependents := Listed(ConsumersFedBy(ShardOf(Mem(), q.meeting), stale));
      CloseAllConsumersInMemory(dependents, q.meeting);
      ok := true;
    }

    method RemoveTransports(ids: seq<Id>)
      modifies this`transportMap
      ensures Mem() == old(Mem()).(transports := old(transportMap) - Elements(ids))
    {
      var transports := transportMap;
      for n := 0 to |ids|
        invariant Mem() == old(Mem()) && transports == transportMap - Elements(ids[..n])
      {
        OneMore(ids, n);
        transports := transports - {ids[n]};
      }
      All(ids);
      transportMap := transports;
    }

    method RemoveRouters(ids: seq<Id>)
      modifies this`routersMap
      ensures Mem() == old(Mem()).(routers := old(routersMap) - Elements(ids))
    {
      var routers := routersMap;
      for n := 0 to |ids|
        invariant Mem() == old(Mem()) && routers == routersMap - Elements(ids[..n])
      {
        OneMore(ids, n);
        routers := routers - {ids[n]};
      }
      All(ids);
      routersMap := routers;
    }

    method EndMeeting(pool: Pool, m: Id, routers: seq<Id>, transports: seq<Id>, participants: seq<Id>, link: Link)
      returns (r: Reply<()>)
      modifies this, pool
      ensures Ends(old(Now(pool)), EndRequest(m, Elements(routers), Elements(transports)),
                   participants, link, Now(pool), r)
    {
      var entities := [MeetingStatusDao(Deletion, m, None)];
      BuildAllIsPointwise(entities, [Delete(MeetingStatusOf(m))]);
      var written := Mutate(entities, MySqlContext(pool, true), link);
      if written.Failure? {
        return Failure(ProblemOf(written.error));
      }
      r := ForgetMeetingInMemory(m, routers, transports, participants);
    }

    method ForgetMeetingInMemory(m: Id, routers: seq<Id>, transports: seq<Id>, participants: seq<Id>)
      returns (r: Reply<()>)
      modifies this
      ensures var q, stale := EndRequest(m, Elements(routers), Elements(transports)),
                    ProducersOfMeeting(old(producerMap), m);
              if participants == [] && stale != {} then
                r == Failure(Unwound) && exists x :: x in stale && Mem() == EndUnwound(old(Mem()), q, x)
              else
                r == Success(()) && Mem() == ForgetMeeting(old(Mem()), q)
    {
      RemoveRouters(routers);
      RemoveTransports(transports);
      var oldConsumers := Listed(ConsumersOfMeeting(ShardOf(Mem(), m), m));
      CloseAllConsumersInMemory(oldConsumers, m);
      var stale := ProducersOfMeeting(producerMap, m);
      var oldProducers := Listed(stale);
      r := Success(());
      if stale != {} {
        ghost var quiet := Mem();
        var known :| known in stale;
        assert known in oldProducers && known in producerMap;
        var closed := CloseAllProducersInMemory(participants, oldProducers, false, true);
        if closed.Failure? {
          ghost var x :| x in oldProducers && x in quiet.producers
            && Mem() == quiet.(producers := quiet.producers - {x});
          assert x in stale;
          assert Mem() == EndUnwound(old(Mem()), EndRequest(m, Elements(routers), Elements(transports)), x);
          r := Failure(closed.error);
        }
      } else {
        NothingToDrop(Mem(), stale);
      }
    }

    // ----- Meetings and their routers -----

    method CreateMeetingAndRoutersOnWorkers(pool: Pool, q: CreateRequest, a: RouterAnswers) returns (r: Reply<Creation>)
      modifies this`routersMap, pool
      ensures (Now(pool), r) == MeetingCreated(old(Now(pool)), q, a)
    {
      var workerEntities, routerEntities: seq<Dao>, made: map<Id, int> := [], [], map[];
      ghost var ps: seq<Placement> := [];
      for i := 0 to |q.shares|
        invariant Now(pool) == old(Now(pool)) && Collected(ps, workerEntities, routerEntities, made)
        invariant PlaceShares(workers, q, a.made, 0, 0, []) == PlaceShares(workers, q, a.made, i, 0, ps)
      {
        if q.shares[i].worker !in workers {
          return Failure(Unwound);
        }
        for j := 0 to |q.shares[i].wanted|
          invariant Now(pool) == old(Now(pool)) && Collected(ps, workerEntities, routerEntities, made)
          invariant PlaceShares(workers, q, a.made, 0, 0, []) == PlaceShares(workers, q, a.made, i, j, ps)
        {
          var router := a.made(i, j);
          if router.None? {
            return Failure(Failed);
          }
          var placement := PlacementFor(q, i, j, router.value);
          CollectedOneMore(ps, workerEntities, routerEntities, made, placement);
          workerEntities, routerEntities := workerEntities + [WorkerDao(placement)],
            routerEntities + [RouterDao(placement)];
          made := Remember(made, placement);
          ps := ps + [placement];
        }
      }
      CollectedAll(ps, workerEntities, routerEntities, made);
      var entities := [MeetingStatusDao(Insertion, q.meeting, Some(true))] + (workerEntities + routerEntities);
      var written := Mutate(entities, MySqlContext(pool, true), a.link);
      match written {
        case Success(_) =>
          routersMap := routersMap + made;
          r := Success(Created);
        case Failure(e) =>
          r := if e == MySqlError(DUPLICATE_KEY) then Success(AlreadyExists) else Failure(ProblemOf(e));
      }
    }

    method BatchCreateRouterOnWorker(pool: Pool, plans: seq<MeetingPlan>, a: RouterAnswers) returns (r: Reply<()>)
      modifies this`routersMap, pool
      ensures (Now(pool), r) == MeetingsReplaced(old(Now(pool)), plans, a)
    {
      var statusEntities: seq<Dao> := [];
      var workerEntities, routerEntities: seq<Dao>, made: map<Id, int> := [], [], map[];
      ghost var ps: seq<Placement> := [];
      for i := 0 to |plans|
        invariant Now(pool) == old(Now(pool)) && Collected(ps, workerEntities, routerEntities, made)
        invariant statusEntities == StatusDaos(plans[..i])
        invariant PlacePlans(workers, plans, a.made, 0, 0, []) == PlacePlans(workers, plans, a.made, i, 0, ps)
      {
        StatusesOneMore(plans, i);
        statusEntities := statusEntities + [MeetingStatusDao(Deletion, plans[i].meeting, None)]
                          + [MeetingStatusDao(Insertion, plans[i].meeting, Some(true))];
        for j := 0 to |plans[i].routers|
          invariant Now(pool) == old(Now(pool)) && Collected(ps, workerEntities, routerEntities, made)
          invariant PlacePlans(workers, plans, a.made, 0, 0, []) == PlacePlans(workers, plans, a.made, i, j, ps)
        {
          if plans[i].routers[j].0 !in workers {
            return Failure(Unwound);
          }
          var router := a.made(i, j);
          if router.None? {
            return Failure(Failed);
          }
          var placement := PlannedFor(plans[i], j, router.value);
          CollectedOneMore(ps, workerEntities, routerEntities, made, placement);
          workerEntities, routerEntities := workerEntities + [WorkerDao(placement)],
            routerEntities + [RouterDao(placement)];
          made := Remember(made, placement);
          ps := ps + [placement];
        }
      }
      CollectedAll(ps, workerEntities, routerEntities, made);
      assert plans[..|plans|] == plans;
      var entities := statusEntities + (workerEntities + routerEntities);
      var written := Mutate(entities, MySqlContext(pool, true), a.link);
      match written {
        case Success(_) =>
          routersMap := routersMap + made;
          r := Success(());
        case Failure(e) =>
          r := Failure(ProblemOf(e));
      }
    }
  }

  function Remember(made: map<Id, int>, p: Placement): map<Id, int> {
    if p.capacities.whole.Some? then made[p.router := p.capacities.whole.value]
    else if p.capacities.producing.Some? then made[p.router := p.capacities.producing.value]
    else if p.capacities.consuming.Some? then made[p.router := p.capacities.consuming.value]
    else made
  }

  /** What the loops over workers and routers have collected for the placements so far. */
  ghost predicate Collected(ps: seq<Placement>, workerEntities: seq<Dao>, routerEntities: seq<Dao>,
                            made: map<Id, int>) {
    && |workerEntities| == |routerEntities| == |ps|
    && (forall n :: 0 <= n < |ps| ==> workerEntities[n] == WorkerDao(ps[n]) && routerEntities[n] == RouterDao(ps[n]))
    && made == RoutersOf(ps)
  }

  lemma CollectedOneMore(ps: seq<Placement>, workerEntities: seq<Dao>, routerEntities: seq<Dao>, made: map<Id, int>,
                         p: Placement)
    requires Collected(ps, workerEntities, routerEntities, made)
    ensures Collected(ps + [p], workerEntities + [WorkerDao(p)], routerEntities + [RouterDao(p)], Remember(made, p))
  {
  }

  lemma CollectedAll(ps: seq<Placement>, workerEntities: seq<Dao>, routerEntities: seq<Dao>, made: map<Id, int>)
    requires Collected(ps, workerEntities, routerEntities, made)
    ensures workerEntities + routerEntities == RouterDaos(ps)
  {
  }

  lemma StatusesOneMore(plans: seq<MeetingPlan>, i: nat)
    requires i < |plans|
    ensures StatusDaos(plans[..i + 1]) ==
            StatusDaos(plans[..i]) + [MeetingStatusDao(Deletion, plans[i].meeting, None)]
            + [MeetingStatusDao(Insertion, plans[i].meeting, Some(true))]
  {
  }

  lemma DaoBuilds(dao: Dao, s: Statement)
    requires BuildStatement(dao) == Success(s)
    ensures BuildAll([dao]) == Success([s])
  {
    BuildAllIsPointwise([dao], [s]);
  }

  lemma MembershipBuilds(p: Id, m: Id, i: Id, producing: Option<Id>, consuming: Option<Id>, entities: seq<Dao>)
    requires entities == [ParticipantMeetingDao(CustomQuery1, m, Some(p), Some(i)),
                          ParticipantMeetingDao(Insertion, m, Some(p), Some(i))]
                         + (if producing.Some? then [ParticipantProducerRouterDao(Insertion, p, producing)] else [])
                         + (if consuming.Some? then [ParticipantConsumerRouterDao(Insertion, p, consuming)] else [])
    ensures BuildAll(entities) == Success(MembershipStatements(p, m, i, producing, consuming))
  {
    BuildAllIsPointwise(entities, MembershipStatements(p, m, i, producing, consuming));
  }

  lemma LeaveBuilds(q: LeaveRequest, entities: seq<Dao>)
    requires entities == [ParticipantMeetingDao(Deletion, q.meeting, Some(q.participant), Some(q.instance))]
    ensures BuildAll(Deletings(entities)) == Success([Delete(MemberInstance(q.meeting, q.participant, q.instance))])
  {
    BuildAllIsPointwise(Deletings(entities), [Delete(MemberInstance(q.meeting, q.participant, q.instance))]);
  }

  lemma ConsumerDeletionsBuild(m: Id, ids: seq<Id>, entities: seq<Dao>)
    requires |entities| == |ids| && forall k :: 0 <= k < |ids| ==> entities[k] == ConsumerDeletionDao(m, ids[k])
    ensures BuildAll(entities) == Success(ConsumerDeletions(ids))
  {
    BuildAllIsPointwise(entities, ConsumerDeletions(ids));
  }

  lemma ProducerDeletionsBuild(p: Id, m: Id, ids: seq<Id>, entities: seq<Dao>)
    requires |entities| == |ids| && forall k :: 0 <= k < |ids| ==> entities[k] == ProducerDao(p, m, ids[k])
    ensures BuildAll(Deletings(entities)) == Success(ProducerDeletions(p, ids))
  {
    BuildAllIsPointwise(Deletings(entities), ProducerDeletions(p, ids));
  }

  function ConsumerDao(q: ConsumerRequest, t: Target, c: Id): Dao {
    ParticipantConsumersDao(Insertion, Some(q.participant), Some(1), Some(t.participant), Some(t.kind), Some(c),
                            Some(q.meeting), Some(q.transport))
  }

  function ConsumerDeletionDao(m: Id, c: Id): Dao {
    ParticipantConsumersDao(Deletion, None, None, None, None, Some(c), Some(m), None)
  }

  function ProducerDao(p: Id, m: Id, x: Id): Dao {
    ParticipantProducersDao(Deletion, Some(p), None, None, Some(x), Some(m), None)
  }

  lemma NothingToDrop(mem: Memory, ids: set<Id>)
    requires ids == {}
    ensures DropProducers(mem, ids) == mem
  {
  }

  /** The detail describes one of the listed producers that were in memory. */
  predicate Reports(producers: map<Id, ProducerEntry>, participants: seq<Id>, ids: seq<Id>, d: (Id, Id, string)) {
    d.0 in ids && d.0 in producers && participants != [] && d.1 == participants[0] && d.2 == producers[d.0].kind
  }

  predicate AnyKnown(ids: seq<Id>, producers: map<Id, ProducerEntry>) {
    exists id :: id in ids && id in producers
  }
}
