/** What ties the tables to the in-memory maps in every reachable state. */
module Invariants {
  import opened Common
  import opened Schema
  import opened Erasure
  import opened Session

  /** For whom, and under which instance, a transport was made. */
  datatype Grant = Grant(participant: Id, meeting: Id, instance: Id)

  /** The system with its history: the grants of all transports ever returned by a join, and every
      identifier that mediasoup ever made. */
  datatype System = System(world: World, issued: map<Id, Grant>, minted: set<Id>)

  /** `participant_producers` and `producer_map` hold the same producers, once each, and each one's
      instance is the one its participant is a member with. */
  ghost predicate ProducersAgree(db: Table, producers: map<Id, ProducerEntry>) {
    && (forall r :: r in db && r.Producer? ==>
          && r.producer in producers
          && var e := producers[r.producer];
             && r == Producer(e.participant, 1, e.kind, r.producer, e.meeting, r.transport)
             && db[r] == 1
             && Member(e.meeting, e.participant, e.instance) in db)
    && (forall x :: x in producers ==> exists r :: r in db && r.Producer? && r.producer == x)
    && (forall r, s :: r in db && s in db && r.Producer? && s.Producer? && r.producer == s.producer ==> r == s)
  }

  /** Every stored transport was granted to the instance its participant is a member with. */
  ghost predicate Granted(db: Table, issued: map<Id, Grant>) {
    forall r :: r in db && (r.ProducerTransport? || r.ConsumerTransport?) ==>
      && r.transport in issued
      && var g := issued[r.transport];
         g.participant == r.participant && Member(g.meeting, g.participant, g.instance) in db
  }

  /** Every consumer is kept in the shard of its meeting. */
  ghost predicate Placed(mem: Memory) {
    forall j, c :: 0 <= j < |mem.shards| && c in mem.shards[j] ==>
      ShardIndex(mem.hash, |mem.shards|, mem.shards[j][c].meeting) == j
  }

  /** At most one consumer per participant, target, kind, meeting and instance. */
  ghost predicate SingleSubscriptions(mem: Memory) {
    forall j, c, d ::
      0 <= j < |mem.shards| && c in mem.shards[j] && d in mem.shards[j]
      && SameSubscription(mem.shards[j][c], mem.shards[j][d]) ==>
        c == d
  }

  /** A consumer's producer, while it lives, is its target's in the same meeting. */
  ghost predicate FedByTarget(mem: Memory) {
    forall j, c :: 0 <= j < |mem.shards| && c in mem.shards[j] && mem.shards[j][c].producer in mem.producers ==>
      var e := mem.producers[mem.shards[j][c].producer];
      e.participant == mem.shards[j][c].target && e.meeting == mem.shards[j][c].meeting
  }

  /** Every row of `participant_consumers` is a consumer in memory, made under the instance its
      participant is a member with. */
  ghost predicate ConsumersBacked(db: Table, mem: Memory) {
    forall r :: r in db && r.Consumer? ==>
      && r.consumer in ShardOf(mem, r.meeting)
      && var e := ShardOf(mem, r.meeting)[r.consumer];
         && e.participant == r.participant && e.target == r.target && e.kind == r.kind && e.meeting == r.meeting
         && Member(e.meeting, e.participant, e.instance) in db
  }

  /** Every consumer in memory belongs to a current member, under its current instance. */
  ghost predicate ConsumersOwned(db: Table, mem: Memory) {
    forall j, c :: 0 <= j < |mem.shards| && c in mem.shards[j] ==>
      var e := mem.shards[j][c]; Member(e.meeting, e.participant, e.instance) in db
  }

  /** Plain transports exist only for producers in memory. */
  ghost predicate PlainTracked(mem: Memory) {
    mem.plainTransports.Keys == mem.plainConsumers.Keys <= mem.producers.Keys
  }

  ghost predicate MintedIds(s: System) {
    var mem := s.world.mem;
    && mem.transports.Keys <= s.issued.Keys <= s.minted
    && mem.producers.Keys <= s.minted
    && forall j, c :: 0 <= j < |mem.shards| && c in mem.shards[j] ==>
         c in s.minted && mem.shards[j][c].producer in s.minted
  }

  ghost predicate TablesAgree(db: Table, mem: Memory, issued: map<Id, Grant>) {
    && Consistent(db)
    && OwnTransports(db.Keys)
    && Granted(db, issued)
    && ProducersAgree(db, mem.producers)
    && ConsumersBacked(db, mem)
    && ConsumersOwned(db, mem)
  }

  ghost predicate MemoryAgrees(mem: Memory) {
    Placed(mem) && SingleSubscriptions(mem) && FedByTarget(mem) && PlainTracked(mem)
  }

  ghost predicate Inv(s: System) {
    TablesAgree(s.world.db, s.world.mem, s.issued) && MemoryAgrees(s.world.mem) && MintedIds(s)
  }

  // ----- Removing everything about some participants -----

  /** `after` is `db` with some rows removed: of the memberships, transports and producers exactly
      those of the participants in `gone`, and every consumer that one of them owns or feeds. */
  ghost predicate Erases(db: Table, after: Table, gone: set<Id>) {
    && (forall r :: r in after ==> r in db && after[r] == db[r])
    && (forall r :: r in db && (r.Member? || r.Producer? || r.ProducerTransport? || r.ConsumerTransport?) ==>
          (r in after <==> r.participant !in gone))
    && (forall r :: r in after && r.Consumer? ==> r.participant !in gone && r.target !in gone)
  }

  ghost predicate Keeps(producers: map<Id, ProducerEntry>, after: map<Id, ProducerEntry>, gone: set<Id>) {
    && (forall x :: x in after ==> x in producers && after[x] == producers[x])
    && (forall x :: x in producers ==> (x in after <==> producers[x].participant !in gone))
  }

  lemma ProducersAgreeAfterErasure(db: Table, producers: map<Id, ProducerEntry>, after: Table,
                                   left: map<Id, ProducerEntry>, gone: set<Id>)
    requires ProducersAgree(db, producers) && Erases(db, after, gone) && Keeps(producers, left, gone)
    ensures ProducersAgree(after, left)
  {
  }

  lemma GrantedAfterErasure(db: Table, issued: map<Id, Grant>, after: Table, gone: set<Id>)
    requires Granted(db, issued) && Erases(db, after, gone)
    ensures Granted(after, issued)
  {
  }

  /** The consumers removed from memory are about a participant that is gone, and no consumer of
      such a participant stays. */
  ghost predicate DropsAbout(mem: Memory, left: Memory, gone: set<Id>) {
    && Shrinks(mem, left)
    && (forall j, c :: 0 <= j < |mem.shards| && c in mem.shards[j] && c !in left.shards[j] ==>
          mem.shards[j][c].participant in gone || mem.shards[j][c].target in gone)
    && (forall j, c :: 0 <= j < |mem.shards| && c in left.shards[j] ==> left.shards[j][c].participant !in gone)
  }

  ghost predicate Shrinks(mem: Memory, left: Memory) {
    && left.hash == mem.hash && |left.shards| == |mem.shards|
    && (forall j, c :: 0 <= j < |mem.shards| && c in left.shards[j] ==>
          c in mem.shards[j] && left.shards[j][c] == mem.shards[j][c])
  }

  lemma ConsumersAfterErasure(db: Table, mem: Memory, after: Table, left: Memory, gone: set<Id>)
    requires ConsumersBacked(db, mem) && ConsumersOwned(db, mem)
    requires Erases(db, after, gone) && DropsAbout(mem, left, gone)
    ensures ConsumersBacked(after, left) && ConsumersOwned(after, left)
  {
  }

  /** Fewer consumers and fewer producers keep what memory promises about itself. */
  lemma MemoryAgreesAfterDrop(mem: Memory, left: Memory)
    requires MemoryAgrees(mem) && PlainTracked(left)
    requires Shrinks(mem, left)
    requires forall x :: x in left.producers ==> x in mem.producers && left.producers[x] == mem.producers[x]
    ensures MemoryAgrees(left)
  {
  }

  lemma ErasureKeepsTables(db: Table, mem: Memory, issued: map<Id, Grant>, after: Table, left: Memory, gone: set<Id>)
    requires TablesAgree(db, mem, issued) && Consistent(after)
    requires Erases(db, after, gone) && Keeps(mem.producers, left.producers, gone) && DropsAbout(mem, left, gone)
    ensures TablesAgree(after, left, issued)
  {
    ProducersAgreeAfterErasure(db, mem.producers, after, left.producers, gone);
    GrantedAfterErasure(db, issued, after, gone);
    ConsumersAfterErasure(db, mem, after, left, gone);
    OwnTransportsRetained(db, after);
  }

  // ----- Changing rows that are not about producers -----

  predicate SessionRow(r: Row) {
    r.Producer? || r.ProducerTransport? || r.ConsumerTransport?
  }

  /** Memberships stay, and the producer and transport rows do not change. */
  ghost predicate Retains(db: Table, after: Table) {
    && (forall r :: r in db && r.Member? ==> r in after)
    && (forall r :: r in db && SessionRow(r) ==> r in after && after[r] == db[r])
    && (forall r :: r in after && SessionRow(r) ==> r in db)
  }

  lemma ProducersRetained(db: Table, producers: map<Id, ProducerEntry>, after: Table)
    requires ProducersAgree(db, producers)
    requires forall r :: r in db && r.Member? ==> r in after
    requires forall r :: r in db && r.Producer? ==> r in after && after[r] == db[r]
    requires forall r :: r in after && r.Producer? ==> r in db
    ensures ProducersAgree(after, producers)
  {
  }

  lemma AgreementRetained(db: Table, producers: map<Id, ProducerEntry>, issued: map<Id, Grant>, after: Table)
    requires ProducersAgree(db, producers) && Granted(db, issued) && Retains(db, after)
    ensures ProducersAgree(after, producers) && Granted(after, issued)
  {
    ProducersRetained(db, producers, after);
  }

  lemma ConsumersRetained(db: Table, mem: Memory, after: Table)
    requires ConsumersBacked(db, mem) && ConsumersOwned(db, mem)
    requires forall r :: r in db && r.Member? ==> r in after
    requires forall r :: r in after && r.Consumer? ==> r in db
    ensures ConsumersBacked(after, mem) && ConsumersOwned(after, mem)
  {
  }

  lemma OwnTransportsRetained(db: Table, after: Table)
    requires OwnTransports(db.Keys)
    requires forall r :: r in after && (SessionRow(r) || r.Consumer?) ==> r in db
    ensures OwnTransports(after.Keys)
  {
  }
}
