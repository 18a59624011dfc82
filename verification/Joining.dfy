/** A join or rejoin keeps tables and memory in step, whatever fails on the way. */
module Joining {
  import opened Common
  import opened Schema
  import opened Dao
  import opened Executor
  import opened Erasure
  import opened Session
  import opened Outcomes
  import opened Membership
  import opened Invariants

  function Gone(db: Table, p: Id, m: Id, i: Id): set<Id> {
    if Superseded(db, p, m, i) then {p} else {}
  }

  /** A producer's participant is a member of its meeting under its instance. */
  lemma ProducerIsMembers(db: Table, producers: map<Id, ProducerEntry>, x: Id)
    requires ProducersAgree(db, producers) && x in producers
    ensures Member(producers[x].meeting, producers[x].participant, producers[x].instance) in db
  {
  }

  lemma EvictionErases(db: Table, p: Id, m: Id, i: Id)
    requires Consistent(db) && OwnTransports(db.Keys)
    ensures Erases(db, Evicted(db, p, m, i), Gone(db, p, m, i))
  {
    EvictionEffect(db, p, m, i);
  }

  lemma StaleProducersAreThose(db: Table, producers: map<Id, ProducerEntry>, p: Id, m: Id, i: Id)
    requires Consistent(db) && ProducersAgree(db, producers)
    ensures Keeps(producers, producers - ProducersExcludingInstance(producers, p, m, i), Gone(db, p, m, i))
  {
    OneMembership(db, p);
    forall x | x in producers ensures
      x in ProducersExcludingInstance(producers, p, m, i) <==> producers[x].participant in Gone(db, p, m, i)
    {
      ProducerIsMembers(db, producers, x);
    }
  }

  /** The consumers that stay when a participant's instance goes: others', except those that its
      producers feed. */
  ghost predicate StaysAfterLeave(mem: Memory, e: ConsumerEntry, p: Id) {
    e.participant != p && !(e.producer in mem.producers && mem.producers[e.producer].participant == p)
  }

  /** The participant's producers feed nobody else. */
  ghost predicate FeedsNobody(mem: Memory, p: Id) {
    forall j, c :: 0 <= j < |mem.shards| && c in mem.shards[j] && mem.shards[j][c].participant != p ==>
      StaysAfterLeave(mem, mem.shards[j][c], p)
  }

  lemma StaleProducer(db: Table, producers: map<Id, ProducerEntry>, p: Id, m: Id, i: Id, x: Id)
    requires Consistent(db) && ProducersAgree(db, producers) && x in producers
    ensures x in ProducersExcludingInstance(producers, p, m, i) <==>
            Superseded(db, p, m, i) && producers[x].participant == p
    ensures Superseded(db, p, m, i) && producers[x].participant == p ==> producers[x].meeting == m
  {
    OneMembership(db, p);
    ProducerIsMembers(db, producers, x);
  }

  lemma StaleConsumer(db: Table, mem: Memory, p: Id, m: Id, i: Id, j: nat, c: Id)
    requires Consistent(db) && ConsumersOwned(db, mem) && j < |mem.shards| && c in mem.shards[j]
    ensures var e := mem.shards[j][c];
            e.participant == p && e.meeting == m && e.instance != i <==> Superseded(db, p, m, i) && e.participant == p
  {
    var e := mem.shards[j][c];
    OneMembership(db, p);
    assert Member(e.meeting, e.participant, e.instance) in db;
  }

  /** A rejoin closes the consumers of a superseded instance and those that its producers fed, and no
      other consumer in any shard; without a superseded instance it closes none. */
  lemma ClosedExactly(db: Table, mem: Memory, p: Id, m: Id, i: Id)
    requires Consistent(db) && ProducersAgree(db, mem.producers) && ConsumersOwned(db, mem)
    requires Placed(mem) && FedByTarget(mem)
    ensures var left := CloseOtherInstances(mem, p, m, i);
            && Shrinks(mem, left)
            && forall j, c :: 0 <= j < |mem.shards| && c in mem.shards[j] ==>
                 (c in left.shards[j] <==> !Superseded(db, p, m, i) || StaysAfterLeave(mem, mem.shards[j][c], p))
  {
    var left, k := CloseOtherInstances(mem, p, m, i), ShardIndex(mem.hash, |mem.shards|, m);
    var own := ConsumersExcludingInstance(mem.shards[k], p, m, i);
    var stale := ProducersExcludingInstance(mem.producers, p, m, i);
    var fed := ConsumersFedBy(mem.shards[k] - own, stale);
    assert left.shards == mem.shards[k := mem.shards[k] - own - fed];
    hide Consistent, ProducersAgree, ConsumersOwned, Superseded, CloseOtherInstances;
    forall j, c | 0 <= j < |mem.shards| && c in mem.shards[j]
      ensures c in left.shards[j] <==> !Superseded(db, p, m, i) || StaysAfterLeave(mem, mem.shards[j][c], p)
    {
      StaleConsumer(db, mem, p, m, i, j, c);
      if mem.shards[j][c].producer in mem.producers {
        StaleProducer(db, mem.producers, p, m, i, mem.shards[j][c].producer);
      }
    }
  }

  /** When the recording pipeline refuses, of the consumers only the superseded instance's own are closed. */
  lemma RefusedExactly(db: Table, mem: Memory, p: Id, m: Id, i: Id)
    requires Consistent(db) && ConsumersOwned(db, mem) && Placed(mem)
    ensures var left := CloseUntilRefused(mem, p, m, i);
            && Shrinks(mem, left)
            && forall j, c :: 0 <= j < |mem.shards| && c in mem.shards[j] ==>
                 (c in left.shards[j] <==> !Superseded(db, p, m, i) || mem.shards[j][c].participant != p)
  {
    var left, k := CloseUntilRefused(mem, p, m, i), ShardIndex(mem.hash, |mem.shards|, m);
    var own := ConsumersExcludingInstance(mem.shards[k], p, m, i);
    assert left.shards == mem.shards[k := mem.shards[k] - own];
    hide Consistent, ConsumersOwned, Superseded, CloseUntilRefused;
    forall j, c | 0 <= j < |mem.shards| && c in mem.shards[j]
      ensures c in left.shards[j] <==> !Superseded(db, p, m, i) || mem.shards[j][c].participant != p
    {
      StaleConsumer(db, mem, p, m, i, j, c);
    }
  }

  /** So what a rejoin closes is about the superseded participant. */
  lemma ClosedAreAbout(db: Table, mem: Memory, p: Id, m: Id, i: Id)
    requires Consistent(db) && ProducersAgree(db, mem.producers) && ConsumersOwned(db, mem)
    requires Placed(mem) && FedByTarget(mem)
    ensures DropsAbout(mem, CloseOtherInstances(mem, p, m, i), Gone(db, p, m, i))
  {
    ClosedExactly(db, mem, p, m, i);
    hide Consistent, ProducersAgree, ConsumersOwned, Superseded, CloseOtherInstances;
  }

  lemma RefusedAreAbout(db: Table, mem: Memory, p: Id, m: Id, i: Id)
    requires Consistent(db) && ConsumersOwned(db, mem) && Placed(mem)
    ensures DropsAbout(mem, CloseUntilRefused(mem, p, m, i), Gone(db, p, m, i))
  {
    RefusedExactly(db, mem, p, m, i);
    hide Consistent, ConsumersOwned, Superseded, CloseUntilRefused;
  }

  /** What both outcomes of closing have in common. */
  lemma OthersAreAbout(db: Table, mem: Memory, p: Id, m: Id, i: Id, removed: bool)
    requires Consistent(db) && ProducersAgree(db, mem.producers) && ConsumersOwned(db, mem)
    requires Placed(mem) && FedByTarget(mem)
    ensures var left := OthersClosed(mem, p, m, i, removed);
            && DropsAbout(mem, left, Gone(db, p, m, i))
            && left.producers == mem.producers - ProducersExcludingInstance(mem.producers, p, m, i)
            && left.transports == mem.transports && (PlainTracked(mem) ==> PlainTracked(left))
  {
    OthersClosedKeeps(mem, p, m, i, removed);
    ClosedAreAbout(db, mem, p, m, i);
    RefusedAreAbout(db, mem, p, m, i);
    hide Consistent, ProducersAgree, ConsumersOwned, Placed,
         FedByTarget, DropsAbout, CloseOtherInstances, CloseUntilRefused;
  }

  lemma ReadmissionKeepsMemory(db: Table, mem: Memory, p: Id, m: Id, i: Id, removed: bool)
    requires Consistent(db) && ProducersAgree(db, mem.producers) && ConsumersOwned(db, mem) && MemoryAgrees(mem)
    ensures MemoryAgrees(OthersClosed(mem, p, m, i, removed))
  {
    OthersAreAbout(db, mem, p, m, i, removed);
    MemoryAgreesAfterDrop(mem, OthersClosed(mem, p, m, i, removed));
  }

  lemma EvictionKeepsAgreement(db: Table, mem: Memory, issued: map<Id, Grant>, p: Id, m: Id, i: Id, removed: bool)
    requires TablesAgree(db, mem, issued) && MemoryAgrees(mem)
    ensures TablesAgree(Evicted(db, p, m, i), OthersClosed(mem, p, m, i, removed), issued)
  {
    var after, left, gone := Evicted(db, p, m, i), OthersClosed(mem, p, m, i, removed), Gone(db, p, m, i);
    EvictionKeepsConstraints(db, p, m, i);
    EvictionErases(db, p, m, i);
    StaleProducersAreThose(db, mem.producers, p, m, i);
    OthersAreAbout(db, mem, p, m, i, removed);
    ErasureKeepsTables(db, mem, issued, after, left, gone);
  }

  /** Adding a membership or router row. */
  lemma PlainRowKeepsAgreement(db: Table, mem: Memory, issued: map<Id, Grant>, row: Row)
    requires TablesAgree(db, mem, issued) && (row.Member? || row.ProducerRouter? || row.ConsumerRouter?)
    requires InsertRow(db, row).Applied? || Conflicts(db, row)
    ensures TablesAgree(Ensured(db, row), mem, issued)
  {
    if !Conflicts(db, row) {
      InsertKeepsConstraints(db, row);
      var after := Ensured(db, row);
      AgreementRetained(db, mem.producers, issued, after);
      ConsumersRetained(db, mem, after);
      OwnTransportsRetained(db, after);
    }
  }

  lemma RegistrationKeepsAgreement(db: Table, mem: Memory, issued: map<Id, Grant>, side: Side, q: JoinRequest,
                                   link: Link, removed: bool)
    requires TablesAgree(db, mem, issued) && MemoryAgrees(mem)
    requires RegisterFor(db, side, q, link).1.Success?
    ensures TablesAgree(RegisterFor(db, side, q, link).0,
                        OthersClosed(mem, q.participant, q.meeting, q.instance, removed), issued)
  {
    var p, m, i := q.participant, q.meeting, q.instance;
    var producing := if side.Producing? then Some(q.router) else None;
    var consuming := if side.Consuming? then Some(q.router) else None;
    var left := OthersClosed(mem, p, m, i, removed);
    RegisterInserts(db, p, m, i, producing, consuming, link);
    RegisterEffect(db, p, m, i, producing, consuming, link);
    EvictionKeepsAgreement(db, mem, issued, p, m, i, removed);
    PlainRowKeepsAgreement(Evicted(db, p, m, i), left, issued, Member(m, p, i));
    PlainRowKeepsAgreement(Admitted(db, p, m, i), left, issued, RouterRow(side, p, q.router));
  }

  /** A participant's request names the meeting its membership is already in, if it has one. */
  ghost predicate NamesOwnMeeting(db: Table, p: Id, m: Id) {
    forall r :: r in db && r.Member? && r.participant == p ==> r.meeting == m
  }

  /** After a successful membership transaction the participant is a member under the requested instance. */
  lemma RegisteredAsRequested(db: Table, side: Side, q: JoinRequest, link: Link)
    requires Consistent(db) && NamesOwnMeeting(db, q.participant, q.meeting)
    requires RegisterFor(db, side, q, link).1.Success?
    ensures Member(q.meeting, q.participant, q.instance) in RegisterFor(db, side, q, link).0
  {
    var p, m, i := q.participant, q.meeting, q.instance;
    var evicted := Evicted(db, p, m, i);
    RegisterEffect(db, p, m, i, if side.Producing? then Some(q.router) else None,
                   if side.Consuming? then Some(q.router) else None, link);
    MemberConflict(evicted, p, m, i);
    MemberAfterEviction(db, p, m, i);
    if HasMember(evicted, p) {
      var r :| r in evicted && r.Member? && r.participant == p;
      assert r in db && r == Member(m, p, i);
    }
  }

  /** A fresh transport is not mentioned by any row. */
  lemma FreshTransport(db: Table, issued: map<Id, Grant>, t: Id)
    requires Consistent(db) && Granted(db, issued) && t !in issued
    ensures forall r :: r in db && (SessionRow(r) || r.Consumer?) ==> r.transport != t
  {
    forall r | r in db && (SessionRow(r) || r.Consumer?) ensures r.transport != t {
      if r.Producer? || r.Consumer? {
        var k := if r.Producer? then ProducerTransportKey(r.transport) else ConsumerTransportKey(r.transport);
        assert k in References(r);
        assert Provided(db.Keys, k);
        var s :| s in db && k in Provides(s);
      }
    }
  }

  lemma TransportRowKeepsAgreement(db: Table, mem: Memory, issued: map<Id, Grant>, side: Side, p: Id, m: Id, i: Id,
                                   t: Id)
    requires TablesAgree(db, mem, issued) && t !in issued && Member(m, p, i) in db
    requires InsertRow(db, TransportRow(side, p, t)).Applied?
    ensures TablesAgree(InsertRow(db, TransportRow(side, p, t)).db, mem, issued[t := Grant(p, m, i)])
  {
    var row := TransportRow(side, p, t);
    var after := InsertRow(db, row).db;
    InsertKeepsConstraints(db, row);
    FreshTransport(db, issued, t);
    ProducersRetained(db, mem.producers, after);
    ConsumersRetained(db, mem, after);
  }

  /** The join got as far as storing the transport that mediasoup made for it. */
  predicate JoinMadeTransport(w: World, side: Side, q: JoinRequest, a: JoinAnswers) {
    && RegisterFor(w.db, side, q, a.membership).1.Success? && !JoinObstructed(w, q, a)
    && q.router in w.mem.routers && a.created.Some?
    && var now := RegisterFor(w.db, side, q, a.membership).0;
       TransportInserted(now, side, q.participant, a.created.value, a.transport).1.Success?
  }

  function AfterJoin(s: System, side: Side, q: JoinRequest, a: JoinAnswers): System {
    System(Joined(s.world, side, q, a),
           if JoinMadeTransport(s.world, side, q, a)
           then s.issued[a.created.value := Grant(q.participant, q.meeting, q.instance)] else s.issued,
           s.minted + Ids(a.created))
  }

  /** The in-memory transports do not appear in the agreement with the tables. */
  lemma TransportsDoNotMatter(db: Table, mem: Memory, issued: map<Id, Grant>, transports: map<Id, TransportEntry>)
    requires TablesAgree(db, mem, issued)
    ensures TablesAgree(db, mem.(transports := transports), issued)
  {
  }

  lemma JoinKeepsTables(s: System, side: Side, q: JoinRequest, a: JoinAnswers)
    requires Inv(s) && NamesOwnMeeting(s.world.db, q.participant, q.meeting)
    requires a.created.Some? ==> a.created.value !in s.minted
    ensures var t := AfterJoin(s, side, q, a); TablesAgree(t.world.db, t.world.mem, t.issued)
  {
    if RegisterFor(s.world.db, side, q, a.membership).1.Success? {
      ReadmittedAgrees(s, side, q, a);
      JoinIsReadmission(s.world, side, q, a);
      if JoinMadeTransport(s.world, side, q, a) {
        AddedTransportKeepsTables(s, side, q, a);
      }
      hide Inv, TablesAgree, RegisterFor, Joined, JoinMadeTransport, Readmitted;
    }
  }

  lemma ReadmittedAgrees(s: System, side: Side, q: JoinRequest, a: JoinAnswers)
    requires Inv(s) && RegisterFor(s.world.db, side, q, a.membership).1.Success?
    ensures var there := Readmitted(s.world, side, q, a); TablesAgree(there.db, there.mem, s.issued)
  {
    RegistrationKeepsAgreement(s.world.db, s.world.mem, s.issued, side, q, a.membership, a.removed);
    hide RegisterFor, OthersClosed;
  }

  /** Without a transport a registered join is the readmission alone. */
  lemma JoinIsReadmission(w: World, side: Side, q: JoinRequest, a: JoinAnswers)
    requires RegisterFor(w.db, side, q, a.membership).1.Success?
    ensures !JoinMadeTransport(w, side, q, a) ==> Joined(w, side, q, a) == Readmitted(w, side, q, a)
  {
    OthersClosedKeeps(w.mem, q.participant, q.meeting, q.instance, a.removed);
    hide RegisterFor, OthersClosed, Obstructed;
    FailedInsertChangesNothing(RegisterFor(w.db, side, q, a.membership).0, side, q.participant, a);
    hide TransportInserted;
  }

  lemma FailedInsertChangesNothing(db: Table, side: Side, p: Id, a: JoinAnswers)
    ensures a.created.Some? && TransportInserted(db, side, p, a.created.value, a.transport).1.Failure? ==>
              TransportInserted(db, side, p, a.created.value, a.transport).0 == db
  {
  }

  lemma AddedTransportKeepsTables(s: System, side: Side, q: JoinRequest, a: JoinAnswers)
    requires Inv(s) && NamesOwnMeeting(s.world.db, q.participant, q.meeting)
    requires JoinMadeTransport(s.world, side, q, a) && a.created.value !in s.minted
    requires var there := Readmitted(s.world, side, q, a); TablesAgree(there.db, there.mem, s.issued)
    ensures var t := AfterJoin(s, side, q, a); TablesAgree(t.world.db, t.world.mem, t.issued)
  {
    var t, there := a.created.value, Readmitted(s.world, side, q, a);
    var row := TransportRow(side, q.participant, t);
    RegisteredAsRequested(s.world.db, side, q, a.membership);
    SingleStatement(there.db, Insert(row), a.transport);
    IssuedAreMinted(s);
    JoinedWithTransport(s.world, side, q, a);
    hide Inv, TablesAgree, RegisterFor, Joined, Readmitted, OthersClosed, Transact, InsertRow;
    TransportRowKeepsAgreement(there.db, there.mem, s.issued, side, q.participant, q.meeting, q.instance, t);
    TransportsDoNotMatter(InsertRow(there.db, row).db, there.mem,
                          s.issued[t := Grant(q.participant, q.meeting, q.instance)],
                          Joined(s.world, side, q, a).mem.transports);
  }

  lemma IssuedAreMinted(s: System)
    requires Inv(s)
    ensures s.issued.Keys <= s.minted
  {
    hide TablesAgree, MemoryAgrees;
  }

  lemma JoinedWithTransport(w: World, side: Side, q: JoinRequest, a: JoinAnswers)
    requires JoinMadeTransport(w, side, q, a)
    ensures var there, after := Readmitted(w, side, q, a), Joined(w, side, q, a);
            && after.db == TransportInserted(there.db, side, q.participant, a.created.value, a.transport).0
            && after.mem == there.mem.(transports := after.mem.transports)
  {
    OthersClosedKeeps(w.mem, q.participant, q.meeting, q.instance, a.removed);
    hide RegisterFor, OthersClosed, Obstructed, TransportInserted;
  }

  lemma JoinKeepsMemory(s: System, side: Side, q: JoinRequest, a: JoinAnswers)
    requires Inv(s)
    ensures MemoryAgrees(AfterJoin(s, side, q, a).world.mem) && MintedIds(AfterJoin(s, side, q, a))
  {
    var db, mem := s.world.db, s.world.mem;
    var p, m, i := q.participant, q.meeting, q.instance;
    ReadmissionKeepsMemory(db, mem, p, m, i, a.removed);
    OthersAreAbout(db, mem, p, m, i, a.removed);
    JoinedMemory(s.world, side, q, a);
    JoinedKeepsMemory(s, OthersClosed(mem, p, m, i, a.removed), AfterJoin(s, side, q, a));
  }

  /** Beyond closing the others, a join changes only the transports in memory. */
  lemma JoinedMemory(w: World, side: Side, q: JoinRequest, a: JoinAnswers)
    ensures var after := Joined(w, side, q, a).mem;
            var left := OthersClosed(w.mem, q.participant, q.meeting, q.instance, a.removed);
            && (after == w.mem || after == left.(transports := after.transports))
            && after.transports.Keys
               <= w.mem.transports.Keys + (if JoinMadeTransport(w, side, q, a) then {a.created.value} else {})
  {
    hide Transact, MembershipStatements, CloseOtherInstances, CloseUntilRefused;
    OthersClosedKeeps(w.mem, q.participant, q.meeting, q.instance, a.removed);
  }

  /** Apart from consumers, closing removes the stale producers with their plain transports. */
  ghost predicate DropsStale(mem: Memory, left: Memory, stale: set<Id>) {
    && left.hash == mem.hash && left.workers == mem.workers
    && left.transports == mem.transports && left.routers == mem.routers
    && left.producers == mem.producers - stale
    && left.plainTransports == mem.plainTransports - stale * mem.producers.Keys
    && left.plainConsumers == mem.plainConsumers - stale * mem.producers.Keys
  }

  lemma RefusedDropsStale(mem: Memory, p: Id, m: Id, i: Id)
    ensures DropsStale(mem, CloseUntilRefused(mem, p, m, i), ProducersExcludingInstance(mem.producers, p, m, i))
  {
    hide ShardOf, ConsumersExcludingInstance, ProducersExcludingInstance;
  }

  lemma ClosedDropsStale(mem: Memory, p: Id, m: Id, i: Id)
    ensures DropsStale(mem, CloseOtherInstances(mem, p, m, i), ProducersExcludingInstance(mem.producers, p, m, i))
  {
    hide ShardOf, ConsumersExcludingInstance, ProducersExcludingInstance, ConsumersFedBy;
  }

  lemma StaleLeavesTracked(mem: Memory, left: Memory, stale: set<Id>)
    requires DropsStale(mem, left, stale) && PlainTracked(mem)
    ensures PlainTracked(left)
  {
  }

  lemma OthersClosedKeeps(mem: Memory, p: Id, m: Id, i: Id, removed: bool)
    ensures var left := OthersClosed(mem, p, m, i, removed);
            && left.transports == mem.transports && left.routers == mem.routers
            && left.producers == mem.producers - ProducersExcludingInstance(mem.producers, p, m, i)
            && (PlainTracked(mem) ==> PlainTracked(left))
  {
    var left, stale := OthersClosed(mem, p, m, i, removed), ProducersExcludingInstance(mem.producers, p, m, i);
    RefusedDropsStale(mem, p, m, i);
    ClosedDropsStale(mem, p, m, i);
    hide CloseUntilRefused, CloseOtherInstances, PlainTracked, Obstructed, ProducersExcludingInstance;
    if PlainTracked(mem) {
      StaleLeavesTracked(mem, left, stale);
    }
  }

  lemma JoinedKeepsMemory(s: System, left: Memory, t: System)
    requires MintedIds(s) && MemoryAgrees(s.world.mem) && MemoryAgrees(left) && Shrinks(s.world.mem, left)
    requires left.producers.Keys <= s.world.mem.producers.Keys
    requires t.world.mem == s.world.mem || t.world.mem == left.(transports := t.world.mem.transports)
    requires s.issued.Keys <= t.issued.Keys <= t.minted && s.minted <= t.minted
    requires t.world.mem.transports.Keys <= t.issued.Keys
    ensures MemoryAgrees(t.world.mem) && MintedIds(t)
  {
    var now := t.world.mem;
    if now != s.world.mem {
      TransportsDoNotMatterInMemory(left, now.transports);
      forall j, c | 0 <= j < |now.shards| && c in now.shards[j]
        ensures c in t.minted && now.shards[j][c].producer in t.minted
      {
        assert c in s.world.mem.shards[j];
      }
    }
  }

  lemma TransportsDoNotMatterInMemory(mem: Memory, transports: map<Id, TransportEntry>)
    requires MemoryAgrees(mem)
    ensures MemoryAgrees(mem.(transports := transports))
  {
  }

  lemma JoinKeepsInv(s: System, side: Side, q: JoinRequest, a: JoinAnswers)
    requires Inv(s) && NamesOwnMeeting(s.world.db, q.participant, q.meeting)
    requires a.created.Some? ==> a.created.value !in s.minted
    ensures Inv(AfterJoin(s, side, q, a))
  {
    JoinKeepsTables(s, side, q, a);
    JoinKeepsMemory(s, side, q, a);
  }

  // ----- What a rejoin forgets -----

  /** A registered join has the consumers that closing the others leaves. */
  lemma JoinedShards(w: World, side: Side, q: JoinRequest, a: JoinAnswers)
    requires RegisterFor(w.db, side, q, a.membership).1.Success?
    ensures Joined(w, side, q, a).mem.shards ==
            OthersClosed(w.mem, q.participant, q.meeting, q.instance, a.removed).shards
  {
    hide RegisterFor, OthersClosed, Obstructed, TransportInserted;
  }

  /** A registered rejoin leaves nobody with a consumer fed by the superseded instance, exactly when the
      recording pipeline lets go of that instance's producers or these feed nobody. */
  lemma RejoinForgetsFedIff(s: System, side: Side, q: JoinRequest, a: JoinAnswers)
    requires Inv(s) && Superseded(s.world.db, q.participant, q.meeting, q.instance)
    requires RegisterFor(s.world.db, side, q, a.membership).1.Success?
    ensures var mem, left := s.world.mem, Joined(s.world, side, q, a).mem;
            && Shrinks(mem, left)
            && ((forall j, c :: 0 <= j < |mem.shards| && c in left.shards[j] ==>
                   StaysAfterLeave(mem, left.shards[j][c], q.participant))
                <==> !JoinObstructed(s.world, q, a) || FeedsNobody(mem, q.participant))
  {
    ClosedExactly(s.world.db, s.world.mem, q.participant, q.meeting, q.instance);
    RefusedExactly(s.world.db, s.world.mem, q.participant, q.meeting, q.instance);
    JoinedShards(s.world, side, q, a);
    JoinedMemory(s.world, side, q, a);
    hide Inv, Joined, RegisterFor, Superseded, CloseOtherInstances, CloseUntilRefused, Obstructed, StaysAfterLeave;
    var mem, left := s.world.mem, Joined(s.world, side, q, a).mem;
    if JoinObstructed(s.world, q, a) && FeedsNobody(mem, q.participant) {
      forall j, c | 0 <= j < |mem.shards| && c in left.shards[j]
        ensures StaysAfterLeave(mem, left.shards[j][c], q.participant)
      {
        assert c in mem.shards[j];
      }
    }
  }
}
