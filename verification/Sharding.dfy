/** The sharded consumer store answers like one flat map, for every hash function and shard count. */
module Sharding {
  import opened Common
  import opened Dao
  import opened Executor
  import opened Session
  import opened Invariants
  import opened Consuming
  import opened Leaving
  import opened Provisioning
  import opened Runs

  /** What the session does to the store: `create_consumer` adds consumers of one meeting, the close
      operations drop consumers of one meeting. */
  datatype StoreOp = Add(meeting: Id, batch: ConsumerMap) | Drop(meeting: Id, ids: set<Id>)

  function OnShards(mem: Memory, op: StoreOp): Memory {
    match op
    case Add(m, batch) => AddConsumers(mem, m, batch)
    case Drop(m, ids) => DropConsumers(mem, m, ids)
  }

  function OnFlat(flat: ConsumerMap, op: StoreOp): ConsumerMap {
    match op
    case Add(_, batch) => flat + batch
    case Drop(_, ids) => flat - ids
  }

  /** Added consumers are new and of the named meeting, dropped ones are of the named meeting. */
  predicate Legal(flat: ConsumerMap, op: StoreOp) {
    match op
    case Add(m, batch) => forall c :: c in batch ==> c !in flat && batch[c].meeting == m
    case Drop(m, ids) => forall c :: c in ids && c in flat ==> flat[c].meeting == m
  }

  function HomeShard(mem: Memory, e: ConsumerEntry): nat {
    ShardIndex(mem.hash, |mem.shards|, e.meeting)
  }

  /** The shards hold the flat map's consumers, each in the shard of its meeting only. */
  ghost predicate Refines(mem: Memory, flat: ConsumerMap) {
    && (forall j, c :: 0 <= j < |mem.shards| && c in mem.shards[j] ==>
          c in flat && mem.shards[j][c] == flat[c] && HomeShard(mem, flat[c]) == j)
    && (forall c :: c in flat ==> c in mem.shards[HomeShard(mem, flat[c])])
  }

  lemma AddedIsHome(mem: Memory, flat: ConsumerMap, m: Id, batch: ConsumerMap, c: Id)
    requires Refines(mem, flat) && Legal(flat, Add(m, batch)) && c in flat + batch
    ensures var next := AddConsumers(mem, m, batch); c in next.shards[HomeShard(next, (flat + batch)[c])]
  {
    var k := ShardIndex(mem.hash, |mem.shards|, m);
    var next := AddConsumers(mem, m, batch);
    assert next.shards == mem.shards[k := mem.shards[k] + batch];
    if c in batch {
      assert HomeShard(next, (flat + batch)[c]) == k;
    } else {
      assert c in mem.shards[HomeShard(mem, flat[c])];
    }
  }

  lemma AddRefines(mem: Memory, flat: ConsumerMap, m: Id, batch: ConsumerMap)
    requires Refines(mem, flat) && Legal(flat, Add(m, batch))
    ensures Refines(AddConsumers(mem, m, batch), flat + batch)
  {
    var next, after := AddConsumers(mem, m, batch), flat + batch;
    forall c | c in after ensures c in next.shards[HomeShard(next, after[c])] {
      AddedIsHome(mem, flat, m, batch, c);
    }
    forall j, c | 0 <= j < |next.shards| && c in next.shards[j]
      ensures c in after && next.shards[j][c] == after[c] && HomeShard(next, after[c]) == j
    {
      HomeOfAdded(mem, flat, m, batch, j, c);
    }
  }

  lemma HomeOfAdded(mem: Memory, flat: ConsumerMap, m: Id, batch: ConsumerMap, j: nat, c: Id)
    requires Refines(mem, flat) && Legal(flat, Add(m, batch))
    requires j < |mem.shards| && c in AddConsumers(mem, m, batch).shards[j]
    ensures var next, after := AddConsumers(mem, m, batch), flat + batch;
            c in after && next.shards[j][c] == after[c] && HomeShard(next, after[c]) == j
  {
    var k := ShardIndex(mem.hash, |mem.shards|, m);
    var next := AddConsumers(mem, m, batch);
    if c in batch {
      assert batch[c].meeting == m && c !in flat;
      assert j == k && next.shards[j][c] == batch[c];
    } else {
      assert c in mem.shards[j] && next.shards[j][c] == mem.shards[j][c];
      assert HomeShard(mem, flat[c]) == j;
    }
  }

  lemma DropRefines(mem: Memory, flat: ConsumerMap, m: Id, ids: set<Id>)
    requires Refines(mem, flat) && Legal(flat, Drop(m, ids))
    ensures Refines(DropConsumers(mem, m, ids), flat - ids)
  {
    var k := ShardIndex(mem.hash, |mem.shards|, m);
    var next := DropConsumers(mem, m, ids);
    assert next.shards == mem.shards[k := mem.shards[k] - ids];
    forall c | c in flat - ids ensures c in next.shards[HomeShard(next, flat[c])] {
      assert c in mem.shards[HomeShard(mem, flat[c])];
    }
    forall j, c | 0 <= j < |next.shards| && c in next.shards[j]
      ensures c in flat - ids && next.shards[j][c] == flat[c] && HomeShard(next, flat[c]) == j
    {
      assert c in mem.shards[j] && mem.shards[j][c] == flat[c] && HomeShard(mem, flat[c]) == j;
      if c in ids {
        assert false;
      }
    }
  }

  lemma OpRefines(mem: Memory, flat: ConsumerMap, op: StoreOp)
    requires Refines(mem, flat) && Legal(flat, op)
    ensures Refines(OnShards(mem, op), OnFlat(flat, op))
  {
    match op
    case Add(m, batch) => AddRefines(mem, flat, m, batch);
    case Drop(m, ids) => DropRefines(mem, flat, m, ids);
  }

  // ----- Runs of operations -----

  function ShardedRun(mem: Memory, ops: seq<StoreOp>): Memory {
    if ops == [] then mem else OnShards(ShardedRun(mem, ops[..|ops| - 1]), ops[|ops| - 1])
  }

  function FlatRun(flat: ConsumerMap, ops: seq<StoreOp>): ConsumerMap {
    if ops == [] then flat else OnFlat(FlatRun(flat, ops[..|ops| - 1]), ops[|ops| - 1])
  }

  ghost predicate LegalRun(flat: ConsumerMap, ops: seq<StoreOp>) {
    forall n :: 0 <= n < |ops| ==> Legal(FlatRun(flat, ops[..n]), ops[n])
  }

  lemma {:induction false} RunRefines(mem: Memory, flat: ConsumerMap, ops: seq<StoreOp>)
    requires Refines(mem, flat) && LegalRun(flat, ops)
    ensures Refines(ShardedRun(mem, ops), FlatRun(flat, ops))
  {
    if ops != [] {
      var before := ops[..|ops| - 1];
      forall n | 0 <= n < |before| ensures Legal(FlatRun(flat, before[..n]), before[n]) {
        assert before[..n] == ops[..n];
      }
      RunRefines(mem, flat, before);
      OpRefines(ShardedRun(mem, before), FlatRun(flat, before), ops[|ops| - 1]);
    }
  }

  // ----- Answers -----

  lemma SameInShard(mem: Memory, flat: ConsumerMap, m: Id, c: Id)
    requires Refines(mem, flat)
    ensures c in flat && flat[c].meeting == m ==> c in ShardOf(mem, m)
    ensures c in ShardOf(mem, m) ==> c in flat && ShardOf(mem, m)[c] == flat[c]
  {
  }

  /** Every query that filters by the meeting gets the flat map's answer from the meeting's shard. */
  lemma QueriesAgree(mem: Memory, flat: ConsumerMap, p: Id, m: Id, i: Id)
    requires Refines(mem, flat)
    ensures ConsumersForInstance(ShardOf(mem, m), p, m, i) == ConsumersForInstance(flat, p, m, i)
    ensures ConsumersExcludingInstance(ShardOf(mem, m), p, m, i) == ConsumersExcludingInstance(flat, p, m, i)
    ensures ConsumersOfMeeting(ShardOf(mem, m), m) == ConsumersOfMeeting(flat, m)
  {
    forall c
      ensures c in flat && flat[c].meeting == m ==> c in ShardOf(mem, m)
      ensures c in ShardOf(mem, m) ==> c in flat && ShardOf(mem, m)[c] == flat[c]
    {
      SameInShard(mem, flat, m, c);
    }
  }

  /** So does the query by producers, when nothing outside the meeting consumes them. */
  lemma FedByAgrees(mem: Memory, flat: ConsumerMap, m: Id, producers: set<Id>)
    requires Refines(mem, flat)
    requires forall c :: c in flat && flat[c].producer in producers ==> flat[c].meeting == m
    ensures ConsumersFedBy(ShardOf(mem, m), producers) == ConsumersFedBy(flat, producers)
  {
  }

  lemma SubscriptionsAgree(mem: Memory, flat: ConsumerMap, q: ConsumerRequest, t: Target)
    requires Refines(mem, flat)
    ensures Subscriptions(ShardOf(mem, q.meeting), q, t) == Subscriptions(flat, q, t)
  {
  }

  lemma {:induction false} SubscribeAgrees(mem: Memory, flat: ConsumerMap, q: ConsumerRequest, a: ConsumerAnswers,
      n: nat, done: Batch)
    requires Refines(mem, flat) && n <= |q.targets| == |a.consumed|
    ensures Subscribe(ShardOf(mem, q.meeting), q, a, n, done) == Subscribe(flat, q, a, n, done)
    decreases |q.targets| - n
  {
    if n < |q.targets| {
      var t := q.targets[n];
      var existing := Subscriptions(flat, q, t);
      SubscriptionsAgree(mem, flat, q, t);
      if |existing| == 1 {
        SubscribeAgrees(mem, flat, q, a, n + 1,
                        done.(reply := done.reply[(t.participant, t.kind) := TheOnly(existing)]));
      } else if |existing| == 0 && a.consumed[n].Some? {
        var c := a.consumed[n].value;
        SubscribeAgrees(mem, flat, q, a, n + 1,
                        Batch(done.added[c := EntryFor(q, t)], done.rows + [Insert(RowFor(q, t, c))],
                              done.reply[(t.participant, t.kind) := c]));
      }
    }
  }

  /** After any run of legal operations from an empty store, creating consumers decides on the same
      batch and reply, and all meeting-filtered queries give the same answer, whatever the hash and
      however many shards there are. */
  lemma StoreIsOneFlatMap(mem: Memory, ops: seq<StoreOp>, q: ConsumerRequest, a: ConsumerAnswers, p: Id, m: Id, i: Id)
    requires forall j :: 0 <= j < |mem.shards| ==> mem.shards[j] == map[]
    requires LegalRun(map[], ops) && |q.targets| == |a.consumed|
    ensures var now, flat := ShardedRun(mem, ops), FlatRun(map[], ops);
            && Refines(now, flat)
            && Subscribe(ShardOf(now, q.meeting), q, a, 0, Batch(map[], [], map[]))
               == Subscribe(flat, q, a, 0, Batch(map[], [], map[]))
            && ConsumersForInstance(ShardOf(now, m), p, m, i) == ConsumersForInstance(flat, p, m, i)
            && ConsumersExcludingInstance(ShardOf(now, m), p, m, i) == ConsumersExcludingInstance(flat, p, m, i)
            && ConsumersOfMeeting(ShardOf(now, m), m) == ConsumersOfMeeting(flat, m)
  {
    var now, flat := ShardedRun(mem, ops), FlatRun(map[], ops);
    RunRefines(mem, map[], ops);
    SubscribeAgrees(now, flat, q, a, 0, Batch(map[], [], map[]));
    QueriesAgree(now, flat, p, m, i);
  }

  // ----- The store in the runs of the session -----

  /** Closing consumers through the shard of `m`. One that the shard keeps for another meeting, whose
      hash collides, goes as well; honest requests name none. */
  function CloseOps(shard: ConsumerMap, m: Id, ids: seq<Id>): seq<StoreOp> {
    seq(|ids|, n requires 0 <= n < |ids| =>
      if ids[n] in shard then Drop(shard[ids[n]].meeting, {ids[n]}) else Drop(m, {}))
  }

  /** The operations on the store that one step of the session performs. */
  ghost function Ops(s: System, e: Event): seq<StoreOp>
    requires Admissible(s, e)
  {
    var w := s.world;
    match e
    case Join(side, q, a) =>
      if RegisterFor(w.db, side, q, a.membership).1.Failure? then [] else RejoinOps(w.mem, q, a.removed)
    case Consume(q, a) =>
      if ConsumersCreated(w, q, a).1.Success? then [Add(q.meeting, Subscribed(w.mem, q, a).value.added)] else []
    case CloseConsumers(m, ids, link) =>
      if Transact(w.db, ConsumerDeletions(ids), true, link).1.Success? then CloseOps(ShardOf(w.mem, m), m, ids) else []
    case Leave(q, link, removed) => if Left(w, q, link, removed).0 == w then [] else LeaveOps(w.mem, q, removed)
    case End(q, link) =>
      if Transact(w.db, [Delete(MeetingStatusOf(q.meeting))], true, link).1.Failure? then []
      else [Drop(q.meeting, ConsumersOfMeeting(ShardOf(w.mem, q.meeting), q.meeting))]
    case _ => []
  }

  /** Drop some consumers of a meeting, then those of the rest that some producers feed. */
  function DropTwice(mem: Memory, m: Id, own: set<Id>, stale: set<Id>, refused: bool): seq<StoreOp> {
    [Drop(m, own)] + if refused then [] else [Drop(m, ConsumersFedBy(ShardOf(mem, m) - own, stale))]
  }

  function RejoinOps(mem: Memory, q: JoinRequest, removed: bool): seq<StoreOp> {
    var p, m, i := q.participant, q.meeting, q.instance;
    DropTwice(mem, m, ConsumersExcludingInstance(ShardOf(mem, m), p, m, i),
              ProducersExcludingInstance(mem.producers, p, m, i), Obstructed(mem, p, m, i, removed))
  }

  function LeaveOps(mem: Memory, q: LeaveRequest, removed: bool): seq<StoreOp> {
    DropTwice(mem, q.meeting, ConsumersForInstance(ShardOf(mem, q.meeting), q.participant, q.meeting, q.instance),
              LeaverStale(mem, q), LeaveObstructed(mem, q, removed))
  }

  /** Two memories keep the same consumers in the same shards. */
  ghost predicate SameStore(a: Memory, b: Memory) {
    a.hash == b.hash && a.shards == b.shards
  }

  lemma {:induction false} SameRuns(a: Memory, b: Memory, ops: seq<StoreOp>)
    requires SameStore(a, b)
    ensures SameStore(ShardedRun(a, ops), ShardedRun(b, ops))
  {
    if ops != [] {
      SameRuns(a, b, ops[..|ops| - 1]);
    }
  }

  lemma {:induction false} RunsAppend(mem: Memory, flat: ConsumerMap, ops: seq<StoreOp>, more: seq<StoreOp>)
    ensures ShardedRun(mem, ops + more) == ShardedRun(ShardedRun(mem, ops), more)
    ensures FlatRun(flat, ops + more) == FlatRun(FlatRun(flat, ops), more)
  {
    hide OnShards, OnFlat;
    if more == [] {
      assert ops + more == ops;
    } else {
      RunsAppend(mem, flat, ops, more[..|more| - 1]);
      assert (ops + more)[..|ops + more| - 1] == ops + more[..|more| - 1];
    }
  }

  lemma LegalAppend(flat: ConsumerMap, ops: seq<StoreOp>, more: seq<StoreOp>)
    requires LegalRun(flat, ops) && LegalRun(FlatRun(flat, ops), more)
    ensures LegalRun(flat, ops + more)
  {
    hide Legal, FlatRun;
    forall n | 0 <= n < |ops + more| ensures Legal(FlatRun(flat, (ops + more)[..n]), (ops + more)[n]) {
      if n < |ops| {
        assert (ops + more)[..n] == ops[..n] && (ops + more)[n] == ops[n];
      } else {
        var k := n - |ops|;
        assert (ops + more)[..n] == ops + more[..k] && (ops + more)[n] == more[k];
        FlatAppend(flat, ops, more[..k]);
      }
    }
  }

  lemma FlatAppend(flat: ConsumerMap, ops: seq<StoreOp>, more: seq<StoreOp>)
    ensures FlatRun(flat, ops + more) == FlatRun(FlatRun(flat, ops), more)
  {
    hide *;
    RunsAppend(Memory((_: Id) => 0, {}, map[], map[], map[], [map[]], map[], map[]), flat, ops, more);
  }

  lemma OneOp(mem: Memory, flat: ConsumerMap, op: StoreOp)
    ensures ShardedRun(mem, [op]) == OnShards(mem, op) && FlatRun(flat, [op]) == OnFlat(flat, op)
    ensures LegalRun(flat, [op]) <==> Legal(flat, op)
  {
    assert [op][..0] == [];
    assert ShardedRun(mem, []) == mem && FlatRun(flat, []) == flat;
    if LegalRun(flat, [op]) {
      assert Legal(FlatRun(flat, [op][..0]), [op][0]);
    }
  }

  lemma TwoDrops(mem: Memory, flat: ConsumerMap, m: Id, own: set<Id>, stale: set<Id>, refused: bool)
    requires Refines(mem, flat)
    requires forall c :: c in own && c in flat ==> flat[c].meeting == m
    requires forall c :: c in flat && flat[c].producer in stale ==> flat[c].meeting == m
    ensures var ops, once := DropTwice(mem, m, own, stale, refused), DropConsumers(mem, m, own);
            && LegalRun(flat, ops)
            && ShardedRun(mem, ops) ==
               if refused then once else DropConsumers(once, m, ConsumersFedBy(ShardOf(once, m), stale))
  {
    var first := Drop(m, own);
    var fed := ConsumersFedBy(ShardOf(mem, m) - own, stale);
    OneOp(mem, flat, first);
    if refused {
      assert DropTwice(mem, m, own, stale, refused) == [first];
    } else {
      DropRefines(mem, flat, m, own);
      assert ShardOf(DropConsumers(mem, m, own), m) == ShardOf(mem, m) - own;
      assert Legal(flat - own, Drop(m, fed));
      OneOp(DropConsumers(mem, m, own), flat - own, Drop(m, fed));
      RunsAppend(mem, flat, [first], [Drop(m, fed)]);
      LegalAppend(flat, [first], [Drop(m, fed)]);
    }
  }

  lemma JoinOps(s: System, flat: ConsumerMap, side: Side, q: JoinRequest, a: JoinAnswers)
    requires Inv(s) && Refines(s.world.mem, flat) && RegisterFor(s.world.db, side, q, a.membership).1.Success?
    ensures LegalRun(flat, RejoinOps(s.world.mem, q, a.removed))
    ensures SameStore(Joined(s.world, side, q, a).mem, ShardedRun(s.world.mem, RejoinOps(s.world.mem, q, a.removed)))
  {
    var mem, p, m, i := s.world.mem, q.participant, q.meeting, q.instance;
    var own, stale := ConsumersExcludingInstance(ShardOf(mem, m), p, m, i),
                      ProducersExcludingInstance(mem.producers, p, m, i);
    FedInMeeting(mem, flat, m, stale);
    OwnInMeeting(mem, flat, m, own);
    TwoDrops(mem, flat, m, own, stale, Obstructed(mem, p, m, i, a.removed));
    RejoinStore(s.world, side, q, a);
    hide Inv, Refines, LegalRun, ShardedRun, Joined, RegisterFor, DropTwice;
  }

  lemma OwnInMeeting(mem: Memory, flat: ConsumerMap, m: Id, own: set<Id>)
    requires Refines(mem, flat) && forall c :: c in own ==> c in ShardOf(mem, m) && ShardOf(mem, m)[c].meeting == m
    ensures forall c :: c in own && c in flat ==> flat[c].meeting == m
  {
  }

  lemma RejoinStore(w: World, side: Side, q: JoinRequest, a: JoinAnswers)
    requires RegisterFor(w.db, side, q, a.membership).1.Success?
    ensures SameStore(Joined(w, side, q, a).mem, OthersClosed(w.mem, q.participant, q.meeting, q.instance, a.removed))
  {
    hide RegisterFor, OthersClosed, TransportInserted, Obstructed;
  }

  /** Living producers of a meeting feed consumers of the meeting only. */
  lemma FedInMeeting(mem: Memory, flat: ConsumerMap, m: Id, producers: set<Id>)
    requires FedByTarget(mem) && Refines(mem, flat)
    requires forall x :: x in producers ==> x in mem.producers && mem.producers[x].meeting == m
    ensures forall c :: c in flat && flat[c].producer in producers ==> flat[c].meeting == m
  {
    forall c | c in flat && flat[c].producer in producers ensures flat[c].meeting == m {
      assert c in mem.shards[HomeShard(mem, flat[c])];
    }
  }

  lemma LeaveStoreOps(s: System, flat: ConsumerMap, q: LeaveRequest, link: Link, removed: bool)
    requires Inv(s) && Refines(s.world.mem, flat) && Left(s.world, q, link, removed).0 != s.world
    ensures LegalRun(flat, LeaveOps(s.world.mem, q, removed))
    ensures SameStore(Left(s.world, q, link, removed).0.mem, ShardedRun(s.world.mem, LeaveOps(s.world.mem, q, removed)))
  {
    var mem, m := s.world.mem, q.meeting;
    var own := ConsumersForInstance(ShardOf(mem, m), q.participant, m, q.instance);
    LeaveOutcome(s.world, q, link, removed);
    FedInMeeting(mem, flat, m, LeaverStale(mem, q));
    TwoDrops(mem, flat, m, own, LeaverStale(mem, q), LeaveObstructed(mem, q, removed));
  }

  lemma EndOps(s: System, flat: ConsumerMap, q: EndRequest, link: Link)
    requires Inv(s) && Refines(s.world.mem, flat)
    requires Transact(s.world.db, [Delete(MeetingStatusOf(q.meeting))], true, link).1.Success?
    ensures var op := Drop(q.meeting, ConsumersOfMeeting(ShardOf(s.world.mem, q.meeting), q.meeting));
            LegalRun(flat, [op]) && SameStore(Ended(s.world, q, link).mem, ShardedRun(s.world.mem, [op]))
  {
    OneOp(s.world.mem, flat, Drop(q.meeting, ConsumersOfMeeting(ShardOf(s.world.mem, q.meeting), q.meeting)));
  }

  lemma ConsumeOps(s: System, flat: ConsumerMap, q: ConsumerRequest, a: ConsumerAnswers)
    requires Inv(s) && Refines(s.world.mem, flat) && HonestConsume(s, q, a)
             && ConsumersCreated(s.world, q, a).1.Success?
    ensures var op := Add(q.meeting, Subscribed(s.world.mem, q, a).value.added);
            LegalRun(flat, [op]) && SameStore(AfterConsume(s, q, a).world.mem, ShardedRun(s.world.mem, [op]))
  {
    var mem := s.world.mem;
    var batch := Subscribed(mem, q, a).value;
    BatchOf(mem, q, a);
    BatchIsMadeFor(ShardOf(mem, q.meeting), q, a, batch);
    BatchIsFresh(s, q, a, batch.added);
    forall c | c in flat ensures c in s.minted {
      assert c in mem.shards[HomeShard(mem, flat[c])];
    }
    OneOp(mem, flat, Add(q.meeting, batch.added));
  }

  lemma {:induction false} CloseOpsRun(mem: Memory, flat: ConsumerMap, m: Id, ids: seq<Id>)
    requires Refines(mem, flat)
    ensures LegalRun(flat, CloseOps(ShardOf(mem, m), m, ids))
    ensures ShardedRun(mem, CloseOps(ShardOf(mem, m), m, ids)) == DropConsumers(mem, m, Elements(ids))
  {
    var shard, ops := ShardOf(mem, m), CloseOps(ShardOf(mem, m), m, ids);
    if ids == [] {
      assert Elements(ids) == {} && shard - {} == shard;
      assert mem.shards[ShardIndex(mem.hash, |mem.shards|, m) := shard] == mem.shards;
    } else {
      var n := |ids| - 1;
      var before, done := CloseOps(shard, m, ids[..n]), DropConsumers(mem, m, Elements(ids[..n]));
      CloseOpsRun(mem, flat, m, ids[..n]);
      RunRefines(mem, flat, before);
      OneMoreClosed(mem, flat, FlatRun(flat, before), m, ids, n);
      OneOp(done, FlatRun(flat, before), ops[n]);
      RunsAppend(mem, flat, before, [ops[n]]);
      LegalAppend(flat, before, [ops[n]]);
      assert ops == before + [ops[n]];
    }
  }

  /** What the shard of `m` keeps for another meeting is at home there too. */
  lemma AtHomeThere(mem: Memory, flat: ConsumerMap, m: Id, c: Id)
    requires Refines(mem, flat) && c in ShardOf(mem, m)
    ensures c in flat && flat[c] == ShardOf(mem, m)[c]
    ensures ShardIndex(mem.hash, |mem.shards|, flat[c].meeting) == ShardIndex(mem.hash, |mem.shards|, m)
  {
    assert HomeShard(mem, flat[c]) == ShardIndex(mem.hash, |mem.shards|, m);
  }

  lemma LegalNext(mem: Memory, flat: ConsumerMap, now: ConsumerMap, m: Id, ids: seq<Id>, n: nat)
    requires n < |ids| && Refines(mem, flat) && Refines(DropConsumers(mem, m, Elements(ids[..n])), now)
    ensures Legal(now, CloseOps(ShardOf(mem, m), m, ids)[n])
    ensures ids[n] in ShardOf(mem, m) ==>
              ShardIndex(mem.hash, |mem.shards|, ShardOf(mem, m)[ids[n]].meeting) ==
              ShardIndex(mem.hash, |mem.shards|, m)
  {
    var c, done := ids[n], DropConsumers(mem, m, Elements(ids[..n]));
    if c in ShardOf(mem, m) {
      AtHomeThere(mem, flat, m, c);
      if c in now {
        DropShrinks(mem, m, Elements(ids[..n]));
        assert c in done.shards[HomeShard(done, now[c])];
        assert c in mem.shards[HomeShard(done, now[c])];
      }
    }
  }

  lemma DropShrinks(mem: Memory, m: Id, ids: set<Id>)
    ensures Shrinks(mem, DropConsumers(mem, m, ids))
  {
  }

  lemma OneMoreClosed(mem: Memory, flat: ConsumerMap, now: ConsumerMap, m: Id, ids: seq<Id>, n: nat)
    requires n == |ids| - 1 && Refines(mem, flat) && Refines(DropConsumers(mem, m, Elements(ids[..n])), now)
    ensures var op, done := CloseOps(ShardOf(mem, m), m, ids)[n], DropConsumers(mem, m, Elements(ids[..n]));
            Legal(now, op) && OnShards(done, op) == DropConsumers(mem, m, Elements(ids))
  {
    var shard, done := ShardOf(mem, m), DropConsumers(mem, m, Elements(ids[..n]));
    assert Elements(ids) == Elements(ids[..n]) + {ids[n]};
    LegalNext(mem, flat, now, m, ids, n);
    hide Refines;
    if ids[n] in shard {
      assert shard - Elements(ids[..n]) - {ids[n]} == shard - Elements(ids);
    } else {
      assert shard - Elements(ids[..n]) - {} == shard - Elements(ids);
    }
  }

  lemma NoOps(mem: Memory, flat: ConsumerMap)
    ensures LegalRun(flat, []) && SameStore(mem, ShardedRun(mem, []))
  {
  }

  lemma ConsumersClosedOps(w: World, flat: ConsumerMap, m: Id, ids: seq<Id>, link: Link)
    requires Refines(w.mem, flat)
    ensures LegalRun(flat, CloseOps(ShardOf(w.mem, m), m, ids))
    ensures Transact(w.db, ConsumerDeletions(ids), true, link).1.Success? ==>
              SameStore(ConsumersClosed(w, m, ids, link).mem, ShardedRun(w.mem, CloseOps(ShardOf(w.mem, m), m, ids)))
    ensures Transact(w.db, ConsumerDeletions(ids), true, link).1.Failure? ==> ConsumersClosed(w, m, ids, link) == w
  {
    CloseOpsRun(w.mem, flat, m, ids);
    hide Transact, LegalRun, ShardedRun, Refines, CloseOps;
  }

  lemma FailedJoin(w: World, side: Side, q: JoinRequest, a: JoinAnswers)
    ensures RegisterFor(w.db, side, q, a.membership).1.Failure? ==> Joined(w, side, q, a) == w
  {
    hide RegisterFor, AddTransport;
  }

  lemma FailedEnd(w: World, q: EndRequest, link: Link)
    ensures Transact(w.db, [Delete(MeetingStatusOf(q.meeting))], true, link).1.Failure? ==> Ended(w, q, link) == w
  {
    hide Transact;
  }

  lemma FailedConsume(w: World, q: ConsumerRequest, a: ConsumerAnswers)
    requires |q.targets| == |a.consumed|
    ensures ConsumersCreated(w, q, a).1.Failure? ==> ConsumersCreated(w, q, a).0 == w
  {
    hide Transact, Subscribed;
  }

  /** Creating meetings and producers, closing producers, and whatever fails early leaves the store alone. */
  lemma OthersKeepTheStore(s: System, e: Event)
    requires Admissible(s, e)
    ensures e.Create? || e.Replace? || e.Produce? || e.CloseProducers? ==> SameStore(s.world.mem, Step(s, e).world.mem)
    ensures e.Join? && RegisterFor(s.world.db, e.side, e.join, e.joined.membership).1.Failure? ==>
              SameStore(s.world.mem, Step(s, e).world.mem)
    ensures e.Consume? && ConsumersCreated(s.world, e.consume, e.consumed).1.Failure? ==>
              SameStore(s.world.mem, Step(s, e).world.mem)
    ensures e.End? && Transact(s.world.db, [Delete(MeetingStatusOf(e.end.meeting))], true, e.link).1.Failure? ==>
              SameStore(s.world.mem, Step(s, e).world.mem)
  {
    hide RegisterFor, Transact, ConsumersCreated, Left, Ended, Joined, ConsumersClosed, MeetingCreated,
         MeetingsReplaced, ProducerCreated, ProducersClosed, HonestConsume, DistinctMeetings, NobodyIn;
    match e
    case Create(q, a) => CreationOnlyRouters(s.world, q, a);
    case Replace(plans, a) => ReplacementOnlyRouters(s.world, plans, a);
    case Produce(q, a) => ProduceKeepsStore(s.world, q, a);
    case CloseProducers(p, ids, link) => CloseKeepsStore(s.world, p, ids, link);
    case Join(side, q, a) => FailedJoin(s.world, side, q, a);
    case Consume(q, a) =>
      HonestCounts(s, q, a);
      FailedConsume(s.world, q, a);
    case End(q, link) => FailedEnd(s.world, q, link);
    case _ =>
  }

  lemma ProduceKeepsStore(w: World, q: ProducerRequest, a: ProducerAnswers)
    ensures SameStore(w.mem, ProducerCreated(w, q, a).mem)
  {
    hide ProducerObstacle, Transact;
  }

  lemma CloseKeepsStore(w: World, p: Id, ids: seq<Id>, link: Link)
    ensures SameStore(w.mem, ProducersClosed(w, p, ids, link).mem)
  {
    hide DeleteFrom;
  }

  lemma OpsAreLegal(s: System, e: Event, flat: ConsumerMap)
    requires Inv(s) && Admissible(s, e) && Refines(s.world.mem, flat)
    ensures LegalRun(flat, Ops(s, e))
    ensures SameStore(Step(s, e).world.mem, ShardedRun(s.world.mem, Ops(s, e)))
  {
    NoOps(s.world.mem, flat);
    OthersKeepTheStore(s, e);
    hide Inv, Refines, LegalRun, ShardedRun, RegisterFor, Transact, ConsumersCreated, Left, Ended, Joined,
         ConsumersClosed, AfterCreation, AfterReplacement, MeetingCreated, MeetingsReplaced, HonestConsume,
         RejoinOps, LeaveOps, CloseOps, SameStore;
    match e
    case Join(side, q, a) =>
      if RegisterFor(s.world.db, side, q, a.membership).1.Success? {
        JoinOps(s, flat, side, q, a);
      }
    case Consume(q, a) =>
      if ConsumersCreated(s.world, q, a).1.Success? {
        ConsumeOps(s, flat, q, a);
      }
    case CloseConsumers(m, ids, link) => ConsumersClosedOps(s.world, flat, m, ids, link);
    case Leave(q, link, removed) =>
      if Left(s.world, q, link, removed).0 != s.world {
        LeaveStoreOps(s, flat, q, link, removed);
      }
    case End(q, link) =>
      if Transact(s.world.db, [Delete(MeetingStatusOf(q.meeting))], true, link).1.Success? {
        EndOps(s, flat, q, link);
      }
    case _ =>
  }

  /** The store operations of the first `n` steps. */
  ghost function RunOps(states: seq<System>, events: seq<Event>, n: nat): seq<StoreOp>
    requires IsRun(states, events) && n < |states|
  {
    if n == 0 then [] else RunOps(states, events, n - 1) + Ops(states[n - 1], events[n - 1])
  }

  lemma {:induction false} RunFollowsOps(states: seq<System>, events: seq<Event>, n: nat)
    requires IsRun(states, events) && n < |states|
    ensures LegalRun(map[], RunOps(states, events, n))
    ensures SameStore(states[n].world.mem, ShardedRun(states[0].world.mem, RunOps(states, events, n)))
    ensures Refines(states[n].world.mem, FlatRun(map[], RunOps(states, events, n)))
  {
    hide Step, Admissible, Inv, Ops, Refines, LegalRun, ShardedRun, FlatRun;
    var first := states[0].world.mem;
    if n == 0 {
      StartIsEmpty(states[0]);
    } else {
      var s, e := states[n - 1], events[n - 1];
      var ops, more := RunOps(states, events, n - 1), Ops(s, e);
      RunFollowsOps(states, events, n - 1);
      RunKeepsInv(states, events, n - 1);
      OpsAreLegal(s, e, FlatRun(map[], ops));
      RunsAppend(first, map[], ops, more);
      LegalAppend(map[], ops, more);
      SameRuns(s.world.mem, ShardedRun(first, ops), more);
    }
    StartIsEmpty(states[0]);
    RunRefines(first, map[], RunOps(states, events, n));
    SameRefinement(ShardedRun(first, RunOps(states, events, n)), states[n].world.mem,
                   FlatRun(map[], RunOps(states, events, n)));
  }

  lemma StartIsEmpty(s: System)
    requires Start(s)
    ensures Refines(s.world.mem, map[]) && LegalRun(map[], [])
    ensures ShardedRun(s.world.mem, []) == s.world.mem
  {
  }

  lemma SameRefinement(a: Memory, b: Memory, flat: ConsumerMap)
    requires SameStore(a, b) && Refines(a, flat)
    ensures Refines(b, flat)
  {
  }

  /** In every run of the session the shards follow one flat map to which the same store operations are
      applied, all of them legal: no consumer is in two shards, creation decides on the same batch and
      reply, and every query answers as on the flat map, also the query by producers of the meeting. */
  lemma SessionRunsRefineFlat(states: seq<System>, events: seq<Event>, n: nat, q: ConsumerRequest, a: ConsumerAnswers,
                              p: Id, m: Id, i: Id, producers: set<Id>)
    requires IsRun(states, events) && n < |states| && |q.targets| == |a.consumed|
    requires producers <= ProducersOfMeeting(states[n].world.mem.producers, m)
    ensures var now, flat := states[n].world.mem, FlatRun(map[], RunOps(states, events, n));
            && LegalRun(map[], RunOps(states, events, n)) && Refines(now, flat)
            && Subscribe(ShardOf(now, q.meeting), q, a, 0, Batch(map[], [], map[]))
               == Subscribe(flat, q, a, 0, Batch(map[], [], map[]))
            && ConsumersForInstance(ShardOf(now, m), p, m, i) == ConsumersForInstance(flat, p, m, i)
            && ConsumersExcludingInstance(ShardOf(now, m), p, m, i) == ConsumersExcludingInstance(flat, p, m, i)
            && ConsumersOfMeeting(ShardOf(now, m), m) == ConsumersOfMeeting(flat, m)
            && ConsumersFedBy(ShardOf(now, m), producers) == ConsumersFedBy(flat, producers)
  {
    var now, flat := states[n].world.mem, FlatRun(map[], RunOps(states, events, n));
    RunKeepsInv(states, events, n);
    RunFollowsOps(states, events, n);
    SubscribeAgrees(now, flat, q, a, 0, Batch(map[], [], map[]));
    QueriesAgree(now, flat, p, m, i);
    FedInMeeting(now, flat, m, producers);
    FedByAgrees(now, flat, m, producers);
  }

  /** A close that names consumers of its own meeting only is one deletion from the flat map. */
  lemma HonestCloseIsOneDrop(mem: Memory, flat: ConsumerMap, m: Id, ids: seq<Id>)
    requires Refines(mem, flat) && forall c :: c in ids && c in flat ==> flat[c].meeting == m
    ensures FlatRun(flat, CloseOps(ShardOf(mem, m), m, ids)) == flat - Elements(ids)
  {
    var ops := CloseOps(ShardOf(mem, m), m, ids);
    CloseOpsRun(mem, flat, m, ids);
    RunRefines(mem, flat, ops);
    DropRefines(mem, flat, m, Elements(ids));
    OneFlatMap(DropConsumers(mem, m, Elements(ids)), FlatRun(flat, ops), flat - Elements(ids));
  }

  lemma OneFlatMap(mem: Memory, a: ConsumerMap, b: ConsumerMap)
    requires Refines(mem, a) && Refines(mem, b)
    ensures a == b
  {
    forall c | c in a || c in b ensures c in a && c in b && a[c] == b[c] {
      var e := if c in a then a[c] else b[c];
      assert c in mem.shards[HomeShard(mem, e)];
    }
  }
}
