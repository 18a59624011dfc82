/** What creating and closing consumers, leaving and ending a meeting are told, and what they leave behind. */
module Outgoing {
  import opened Common
  import opened Schema
  import opened Dao
  import opened Executor
  import opened Erasure
  import opened Session
  import opened Outcomes
  import opened Invariants
  import opened Joining
  import opened Producing
  import opened Consuming
  import opened Leaving
  import Failures

  // ----- Creating consumers -----

  /** A consumer of the requesting instance for this target. */
  predicate Consumes(e: ConsumerEntry, q: ConsumerRequest, t: Target) {
    && e.participant == q.participant && e.meeting == q.meeting && e.instance == q.instance
    && e.target == t.participant && e.kind == t.kind
  }

  predicate HasConsumer(shard: ConsumerMap, q: ConsumerRequest, t: Target) {
    exists c :: c in shard && Consumes(shard[c], q, t)
  }

  /** The answer for target `k` is in the shard afterwards: the consumer that was there before, if there was
      one, and otherwise the one made for the target, with its producer and its row. */
  ghost predicate Delivers(was: ConsumerMap, now: ConsumerMap, q: ConsumerRequest, a: ConsumerAnswers, k: nat, c: Id,
                           after: Table)
    requires k < |q.targets| == |a.consumed|
  {
    var t := q.targets[k];
    && c in now && Consumes(now[c], q, t)
    && if HasConsumer(was, q, t) then c in was && now[c] == was[c]
       else
         && c !in was && a.consumed[k] == Some(c) && now[c].producer == t.producer
         && Consumer(q.participant, 1, t.participant, t.kind, c, q.meeting, q.transport) in after
  }

  /** A successful create answers every pair of target and kind, and no other, with its consumer. */
  lemma ConsumersAreAnswered(s: System, q: ConsumerRequest, a: ConsumerAnswers)
    requires Inv(s) && HonestConsume(s, q, a) && ConsumersCreated(s.world, q, a).1.Success?
    ensures var (after, reply) := (ConsumersCreated(s.world, q, a).0, ConsumersCreated(s.world, q, a).1.value);
            && reply.Keys == (set k | 0 <= k < |q.targets| :: (q.targets[k].participant, q.targets[k].kind))
            && forall k :: 0 <= k < |q.targets| ==>
                 Delivers(ShardOf(s.world.mem, q.meeting), ShardOf(after.mem, q.meeting), q, a, k,
                          reply[(q.targets[k].participant, q.targets[k].kind)], after.db)
  {
    HonestCounts(s, q, a);
    hide Inv, HonestConsume, Assembled, Delivers, InsertsConsumers, AddsConsumers, Subscribed;
    var mem, batch := s.world.mem, ConsumedBatch(s.world, q, a);
    HonestBatch(s, q, a);
    ReplyKeys(ShardOf(mem, q.meeting), q, a, batch);
    forall k | 0 <= k < |q.targets|
      ensures Delivers(ShardOf(mem, q.meeting), ShardOf(mem, q.meeting) + batch.added, q, a, k,
                       batch.reply[(q.targets[k].participant, q.targets[k].kind)],
                       ConsumersCreated(s.world, q, a).0.db)
    {
      TargetIsDelivered(ShardOf(mem, q.meeting), q, a, k, batch, ConsumersCreated(s.world, q, a).0.db);
    }
  }

  ghost function ConsumedBatch(w: World, q: ConsumerRequest, a: ConsumerAnswers): Batch
    requires |q.targets| == |a.consumed| && ConsumersCreated(w, q, a).1.Success?
  {
    Subscribed(w.mem, q, a).value
  }

  lemma HonestBatch(s: System, q: ConsumerRequest, a: ConsumerAnswers)
    requires Inv(s) && HonestConsume(s, q, a) && ConsumersCreated(s.world, q, a).1.Success?
    ensures var (mem, batch, after) := (s.world.mem, ConsumedBatch(s.world, q, a), ConsumersCreated(s.world, q, a).0);
            && Assembled(ShardOf(mem, q.meeting), q, a, |q.targets|, batch)
            && (forall c :: c in ShardOf(mem, q.meeting) ==> c !in batch.added)
            && AddsConsumers(s.world.db, batch.rows, after.db)
            && (forall r :: Insert(r) in batch.rows ==> r in after.db)
            && after.mem == AddConsumers(mem, q.meeting, batch.added)
            && ConsumersCreated(s.world, q, a).1 == Success(batch.reply)
  {
    var mem, batch := s.world.mem, ConsumedBatch(s.world, q, a);
    BatchOf(mem, q, a);
    BatchIsMadeFor(ShardOf(mem, q.meeting), q, a, batch);
    BatchMissesShard(s, q, a, batch.added);
    CommittedBatch(s.world.db, batch.rows, a.link);
    hide Inv, Assembled, MadeFor, Transact, Subscribe, InsertsConsumers, AddsConsumers;
  }

  lemma ReplyKeys(shard: ConsumerMap, q: ConsumerRequest, a: ConsumerAnswers, batch: Batch)
    requires |q.targets| == |a.consumed| && Assembled(shard, q, a, |q.targets|, batch)
    ensures batch.reply.Keys == set k | 0 <= k < |q.targets| :: (q.targets[k].participant, q.targets[k].kind)
  {
    forall k | 0 <= k < |q.targets| ensures (q.targets[k].participant, q.targets[k].kind) in batch.reply {
      assert Answered(shard, q, a, k, batch);
    }
  }

  lemma TargetIsDelivered(shard: ConsumerMap, q: ConsumerRequest, a: ConsumerAnswers, k: nat, batch: Batch,
                          after: Table)
    requires k < |q.targets| == |a.consumed| && Assembled(shard, q, a, |q.targets|, batch)
    requires forall c :: c in shard ==> c !in batch.added
    requires forall r :: Insert(r) in batch.rows ==> r in after
    ensures var t := q.targets[k];
            && (t.participant, t.kind) in batch.reply
            && Delivers(shard, shard + batch.added, q, a, k, batch.reply[(t.participant, t.kind)], after)
  {
    var t := q.targets[k];
    assert Answered(shard, q, a, k, batch);
    SubscriptionsAre(shard, q, t);
    hide Assembled, Subscriptions;
    if Makes(shard, q, a, k) {
      assert forall d :: d in shard ==> d !in Subscriptions(shard, q, t);
    } else {
      var c := batch.reply[(t.participant, t.kind)];
      assert c in Subscriptions(shard, q, t);
    }
  }

  lemma SubscriptionsAre(shard: ConsumerMap, q: ConsumerRequest, t: Target)
    ensures forall c :: c in Subscriptions(shard, q, t) <==> c in shard && Consumes(shard[c], q, t)
  {
  }

  /** A create changes nothing else: it adds what it answers to the shard of the meeting, with their rows; a
      failed one changes nothing at all. */
  lemma NothingElseConsumed(s: System, q: ConsumerRequest, a: ConsumerAnswers)
    requires Inv(s) && HonestConsume(s, q, a)
    ensures var (mem, after) := (s.world.mem, ConsumersCreated(s.world, q, a).0);
            var reply := ConsumersCreated(s.world, q, a).1;
            var was, now := ShardOf(mem, q.meeting), ShardOf(after.mem, q.meeting);
            if reply.Failure? then after == s.world
            else
              && after.mem == mem.(shards := mem.shards[ShardIndex(mem.hash, |mem.shards|, q.meeting) := now])
              && (forall c :: c in was ==> c in now && now[c] == was[c])
              && (forall c :: c in now && c !in was ==> c in reply.value.Values)
              && (forall r :: r in s.world.db ==> r in after.db && (!r.Consumer? ==> after.db[r] == s.world.db[r]))
              && (forall r :: r in after.db && r !in s.world.db ==> r.Consumer? && r.consumer in reply.value.Values)
  {
    if ConsumersCreated(s.world, q, a).1.Success? {
      hide Inv, Assembled, AddsConsumers, InsertsConsumers, Subscribed;
      var mem, batch := s.world.mem, ConsumedBatch(s.world, q, a);
      HonestBatch(s, q, a);
      AddedAreAnswered(s.world.db, ShardOf(mem, q.meeting), q, a, batch, ConsumersCreated(s.world, q, a).0.db);
    }
  }

  lemma AddedAreAnswered(db: Table, shard: ConsumerMap, q: ConsumerRequest, a: ConsumerAnswers, batch: Batch,
                         after: Table)
    requires |q.targets| == |a.consumed| && Assembled(shard, q, a, |q.targets|, batch)
    requires AddsConsumers(db, batch.rows, after)
    ensures forall c :: c in batch.added ==> c in batch.reply.Values
    ensures forall r :: r in db ==> r in after && (!r.Consumer? ==> after[r] == db[r])
    ensures forall r :: r in after && r !in db ==> r.Consumer? && r.consumer in batch.reply.Values
  {
    forall k | 0 <= k < |q.targets| && Makes(shard, q, a, k) ensures a.consumed[k].value in batch.reply.Values {
      assert Answered(shard, q, a, k, batch);
      assert (q.targets[k].participant, q.targets[k].kind) in batch.reply;
    }
  }

  /** A create panics exactly on an unknown transport, or without a connection once every target is served. */
  lemma ConsumePanicsIff(w: World, q: ConsumerRequest, a: ConsumerAnswers)
    requires SingleSubscriptions(w.mem) && |q.targets| == |a.consumed|
    ensures ConsumersCreated(w, q, a).1 == Failure(Unwound) <==>
            || q.transport !in w.mem.transports
            || (!a.link.connected
                && forall k :: 0 <= k < |q.targets| ==>
                     a.consumed[k].Some? || HasConsumer(ShardOf(w.mem, q.meeting), q, q.targets[k]))
  {
    var shard := ShardOf(w.mem, q.meeting);
    OnlyRefusalsFail(w.mem, q, a);
    RefusalIsFailed(shard, q, a, 0, Batch(map[], [], map[]));
    forall k | 0 <= k < |q.targets|
      ensures Consuming.Refused(shard, q, a, k) <==>
              a.consumed[k].None? && !HasConsumer(shard, q, q.targets[k])
    {
      SubscriptionsAre(shard, q, q.targets[k]);
    }
    if Subscribed(w.mem, q, a).Success? {
      Failures.PanicsWithoutConnection(w.db, Subscribed(w.mem, q, a).value.rows, true, a.link);
    }
    hide Subscribe, Transact, Consuming.Refused, SingleSubscriptions;
  }

  lemma {:induction false} RefusalIsFailed(shard: ConsumerMap, q: ConsumerRequest, a: ConsumerAnswers, n: nat,
                                           done: Batch)
    requires n <= |q.targets| == |a.consumed|
    ensures Subscribe(shard, q, a, n, done).Failure? ==> Subscribe(shard, q, a, n, done) == Failure(Failed)
    decreases |q.targets| - n
  {
    if n < |q.targets| && (|Subscriptions(shard, q, q.targets[n])| == 1 || Makes(shard, q, a, n)) {
      RefusalIsFailed(shard, q, a, n + 1, NextBatch(shard, q, a, n, done));
    }
  }

  // ----- Closing consumers -----

  /** A close that gets through removes exactly the named consumers, from the table and from the shard of the
      meeting; any other close changes nothing. */
  lemma CloseDropsExactly(w: World, m: Id, ids: seq<Id>, link: Link)
    ensures var (mem, after) := (w.mem, ConsumersClosed(w, m, ids, link));
            if Transact(w.db, ConsumerDeletions(ids), true, link).1.Success? then
              && after.db == (map r | r in w.db && !(r.Consumer? && r.consumer in ids) :: w.db[r])
              && after.mem == mem.(shards := mem.shards[ShardIndex(mem.hash, |mem.shards|, m) :=
                                     map c | c in ShardOf(mem, m) && c !in ids :: ShardOf(mem, m)[c]])
            else after == w
  {
    if Transact(w.db, ConsumerDeletions(ids), true, link).1.Success? {
      ConsumerDeletionsEffect(w.db, ids, 0, false, link);
      assert ids[0..] == ids;
      assert ShardOf(w.mem, m) - Elements(ids) == map c | c in ShardOf(w.mem, m) && c !in ids :: ShardOf(w.mem, m)[c];
    }
    hide RunFrom;
  }

  // ----- Leaving -----

  /** A leave panics exactly without a connection, or when its one statement is refused. */
  lemma LeavePanicsIff(w: World, q: LeaveRequest, link: Link, removed: bool)
    ensures Left(w, q, link, removed).1 == Failure(Unwound) <==>
            !link.connected || (link.interrupt.Some? && link.interrupt.value.0 == 0)
  {
    var deletion := Delete(MemberInstance(q.meeting, q.participant, q.instance));
    DeleteApplies(w.db, deletion.where);
    if link.connected {
      var e := Attempt(w.db, deletion, 0, link);
      if e.Applied? {
        assert DeleteFrom(w.db, [deletion], 0, 0, link) == DeleteFrom(e.db, [deletion], 1, e.affected, link);
      }
    }
    hide DeleteRows, LeaverStale;
  }

  /** Only a producer of the leaving instance can make the recording pipeline stop a leave. */
  lemma LeaveIsRefusedIff(mem: Memory, q: LeaveRequest, removed: bool)
    ensures LeaveObstructed(mem, q, removed) <==>
            !removed && exists x :: x in mem.producers && mem.producers[x].participant == q.participant
                                    && mem.producers[x].meeting == q.meeting && mem.producers[x].instance == q.instance
  {
    assert forall x :: x in LeaverStale(mem, q) <==>
      x in mem.producers && mem.producers[x].participant == q.participant
      && mem.producers[x].meeting == q.meeting && mem.producers[x].instance == q.instance;
  }

  /** When the recording pipeline refuses a leave, the leaver's rows, the transports it names, its producers
      with their plain transports and its own consumers are gone, and nothing else is. */
  lemma RefusedLeaveErases(s: System, q: LeaveRequest, link: Link)
    requires Inv(s) && Member(q.meeting, q.participant, q.instance) in s.world.db && Reliable(link)
    requires exists x :: x in s.world.mem.producers && s.world.mem.producers[x].participant == q.participant
    ensures var (mem, after) := (s.world.mem, Left(s.world, q, link, false).0);
            && Left(s.world, q, link, false).1 == Failure(Failed)
            && after.db == Without(s.world.db, q.participant)
            && after.mem == mem.(
                 transports := mem.transports - (Ids(q.producerTransport) + Ids(q.consumerTransport)),
                 producers := OthersProducers(mem.producers, q.participant),
                 plainTransports := OnlyFor(mem.plainTransports, OthersProducers(mem.producers, q.participant).Keys),
                 plainConsumers := OnlyFor(mem.plainConsumers, OthersProducers(mem.producers, q.participant).Keys),
                 shards := after.mem.shards)
            && Shrinks(mem, after.mem)
            && forall j, c :: 0 <= j < |mem.shards| && c in mem.shards[j] ==>
                 (c in after.mem.shards[j] <==> mem.shards[j][c].participant != q.participant)
  {
    hide Inv, Left, ForgetUntilRefused, Without, OthersProducers, OnlyFor, Consistent, OwnTransports, LeaverStale;
    AgreeIsConsistent(s);
    LeaverIsStale(s, q);
    LeaveOutcome(s.world, q, link, false);
    DeletionHappens(s, q, link, false);
    RefusedLeaver(s, q);
    RefusedLeaveReply(s.world, q, link);
  }

  lemma LeaverIsStale(s: System, q: LeaveRequest)
    requires Inv(s) && Member(q.meeting, q.participant, q.instance) in s.world.db
    requires exists x :: x in s.world.mem.producers && s.world.mem.producers[x].participant == q.participant
    ensures LeaverStale(s.world.mem, q) != {} && LeaveObstructed(s.world.mem, q, false)
  {
    LeaverProducers(s.world.db, s.world.mem.producers, q);
    hide Inv;
  }

  lemma RefusedLeaveReply(w: World, q: LeaveRequest, link: Link)
    requires Consistent(w.db) && Reliable(link) && LeaveObstructed(w.mem, q, false)
    requires Left(w, q, link, false).0 == World(Without(w.db, q.participant), ForgetUntilRefused(w.mem, q))
    requires Left(w, q, link, false).1.Failure?
    ensures Left(w, q, link, false).1 == Failure(Failed)
  {
    hide ForgetUntilRefused, Without, LeaverStale, LeaveObstructed, Consistent;
    LeavePanicsIff(w, q, link, false);
    var reply := Left(w, q, link, false).1;
    assert reply.error == Failed || reply.error == Unwound;
  }

  lemma RefusedLeaver(s: System, q: LeaveRequest)
    requires Inv(s) && Member(q.meeting, q.participant, q.instance) in s.world.db
    ensures var (mem, left) := (s.world.mem, ForgetUntilRefused(s.world.mem, q));
            && left == mem.(
                 transports := mem.transports - (Ids(q.producerTransport) + Ids(q.consumerTransport)),
                 producers := OthersProducers(mem.producers, q.participant),
                 plainTransports := OnlyFor(mem.plainTransports, OthersProducers(mem.producers, q.participant).Keys),
                 plainConsumers := OnlyFor(mem.plainConsumers, OthersProducers(mem.producers, q.participant).Keys),
                 shards := left.shards)
            && Shrinks(mem, left)
            && forall j, c :: 0 <= j < |mem.shards| && c in mem.shards[j] ==>
                 (c in left.shards[j] <==> mem.shards[j][c].participant != q.participant)
  {
    RefusedConsumers(s.world.db, s.world.mem, q);
    LeaverRegistry(s.world.db, s.world.mem, q);
    hide TablesAgree, MemoryAgrees, ProducersForInstance, ConsumersForInstance, ConsumersFedBy, OnlyFor,
         OthersProducers, Shrinks;
  }

  // ----- Ending -----

  /** An end that gets through answers Ok, unless it lists no participant and meets a producer: then it
      panics with that producer alone gone, together with the meeting's consumers, its rows, and the routers
      and transports that the request names. One that does not get through changes nothing. */
  lemma EndAnswers(w: World, q: EndRequest, participants: seq<Id>, link: Link, after: World, reply: Reply<()>)
    requires Consistent(w.db) && OwnTransports(w.db.Keys) && Ends(w, q, participants, link, after, reply)
    ensures Reliable(link) ==>
              (reply == Success(()) <==>
                 participants != [] || forall x :: x in w.mem.producers ==> w.mem.producers[x].meeting != q.meeting)
    ensures reply == Failure(Failed) ==> after == w
    ensures reply == Failure(Unwound) <==>
              || !link.connected
              || (after.db == WithoutMeeting(w.db, q.meeting) && participants == []
                  && exists x :: x in w.mem.producers && w.mem.producers[x].meeting == q.meeting
                                 && UnwindsAt(w.mem, q, x, after.mem))
  {
    hide Transact, Consistent, OwnTransports, WithoutMeeting, EndUnwound, ForgetMeeting, UnwindsAt;
    var deletion := Delete(MeetingStatusOf(q.meeting));
    MeetingDeletion(w.db, q.meeting);
    SingleStatement(w.db, deletion, link);
    EndedTable(w.db, q, link);
    Failures.PanicsWithoutConnection(w.db, [deletion], true, link);
    forall x ensures UnwindsAt(w.mem, q, x, EndUnwound(w.mem, q, x)) {
      EndUnwindsAt(w.mem, q, x);
    }
    forall x | x in w.mem.producers ensures !UnwindsAt(w.mem, q, x, w.mem) {
      SomethingUnwinds(w.mem, q, x);
    }
    var stale := ProducersOfMeeting(w.mem.producers, q.meeting);
    assert forall x :: x in stale <==> x in w.mem.producers && w.mem.producers[x].meeting == q.meeting;
  }

  lemma EndUnwindsAt(mem: Memory, q: EndRequest, x: Id)
    ensures UnwindsAt(mem, q, x, EndUnwound(mem, q, x))
  {
    var left, k := EndUnwound(mem, q, x), ShardIndex(mem.hash, |mem.shards|, q.meeting);
    assert left.shards == mem.shards[k := mem.shards[k] - ConsumersOfMeeting(mem.shards[k], q.meeting)];
  }

  lemma SomethingUnwinds(mem: Memory, q: EndRequest, x: Id)
    requires x in mem.producers
    ensures !UnwindsAt(mem, q, x, mem)
  {
    assert x !in mem.producers - {x};
  }

  /** Memory after the panic: of the producers and plain transports only producer `x` is gone. */
  ghost predicate UnwindsAt(mem: Memory, q: EndRequest, x: Id, left: Memory) {
    && left == mem.(routers := mem.routers - q.routers, transports := mem.transports - q.transports,
                    producers := mem.producers - {x}, shards := left.shards)
    && |left.shards| == |mem.shards|
    && forall j :: 0 <= j < |mem.shards| ==>
         left.shards[j] == if j != ShardIndex(mem.hash, |mem.shards|, q.meeting) then mem.shards[j]
                           else map c | c in mem.shards[j] && mem.shards[j][c].meeting != q.meeting :: mem.shards[j][c]
  }
}
