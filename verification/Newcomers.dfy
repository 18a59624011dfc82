/** A participant whom the database does not know joins a meeting: the join goes through, and what it does. */
module Newcomers {
  import opened Common
  import opened Schema
  import opened Dao
  import opened Executor
  import opened Erasure
  import opened Session
  import opened Outcomes
  import opened Membership
  import opened Invariants
  import opened Joining
  import opened Leaving
  import opened Runs
  import opened Transports
  import opened Commuting

  /** No row is about the participant. */
  predicate Stranger(db: Table, p: Id) {
    forall r :: r in db ==> !About(r, p)
  }

  /** Somebody whom no row is about becomes a member. */
  lemma NewcomerIsRegistered(db: Table, side: Side, q: JoinRequest)
    requires Consistent(db) && OwnTransports(db.Keys) && Stranger(db, q.participant)
    requires KeyStored(db, RouterKey(q.router)) && KeyStored(db, MeetingKey(q.meeting))
    ensures RegisterFor(db, side, q, HEALTHY).1 == Success(true)
    ensures Evicted(db, q.participant, q.meeting, q.instance) == db
    ensures Admitted(db, q.participant, q.meeting, q.instance) == db[Member(q.meeting, q.participant, q.instance) := 1]
  {
    var p, m, i := q.participant, q.meeting, q.instance;
    var member := Member(m, p, i);
    assert About(member, p);
    EvictionEffect(db, p, m, i);
    MemberFits(db, member);
    assert MemberKey(p) in Provides(member) && member in db[member := 1];
    assert Admitted(db, p, m, i) == db[member := 1];
    ParticipantRouterFits(db[member := 1], side, p, q.router);
    hide Consistent, OwnTransports, Evicted, Admitted, RegisterFor;
    RegistrationSucceeds(db, side, q);
    NewUserIsExact(db, p, m, i, if side.Producing? then Some(q.router) else None,
                   if side.Consuming? then Some(q.router) else None, HEALTHY);
  }

  lemma MemberFits(db: Table, row: Row)
    requires row.Member? && KeyStored(db, MeetingKey(row.meeting)) && Stranger(db, row.participant)
    ensures InsertRow(db, row) == Applied(db[row := 1], 1)
  {
    assert About(row, row.participant);
    FittingRow(db, row);
  }

  lemma ParticipantRouterFits(db: Table, side: Side, p: Id, router: Id)
    requires KeyStored(db, RouterKey(router)) && KeyStored(db, MemberKey(p))
    ensures Insertable(db, RouterRow(side, p, router))
  {
  }

  /** A join of somebody new on a known router. */
  ghost predicate JoinsNew(s: System, q: JoinRequest, a: JoinAnswers) {
    && Inv(s) && Stranger(s.world.db, q.participant)
    && (forall t :: t in s.world.mem.transports ==> s.world.mem.transports[t].participant != q.participant)
    && KeyStored(s.world.db, RouterKey(q.router)) && KeyStored(s.world.db, MeetingKey(q.meeting))
    && q.router in s.world.mem.routers && q.oldProducerTransport.None? && q.oldConsumerTransport.None?
    && a.membership == HEALTHY && a.transport == HEALTHY && a.removed
    && a.created.Some? && a.created.value !in s.minted
  }

  function MembershipRows(side: Side, q: JoinRequest): set<Row> {
    {Member(q.meeting, q.participant, q.instance), RouterRow(side, q.participant, q.router)}
  }

  function OwnRows(side: Side, q: JoinRequest, t: Id): set<Row> {
    MembershipRows(side, q) + {TransportRow(side, q.participant, t)}
  }

  /** What such a join does. */
  ghost predicate HasJoined(s: System, side: Side, q: JoinRequest, t: Id, n: System) {
    var p, m, i := q.participant, q.meeting, q.instance;
    && Inv(n)
    && n.issued == s.issued[t := Grant(p, m, i)] && n.minted == s.minted + {t}
    && n.world.mem.transports == s.world.mem.transports[t := TransportEntry(m, p, side)]
    && n.world.mem.routers == s.world.mem.routers
    && n.world.mem.producers.Keys <= s.world.mem.producers.Keys
    && (forall x :: x in s.world.mem.producers ==>
          x in n.world.mem.producers && n.world.mem.producers[x] == s.world.mem.producers[x])
    && Shrinks(s.world.mem, n.world.mem)
    && TransportRow(side, p, t) in n.world.db && Member(m, p, i) in n.world.db
    && (forall r :: r in s.world.db ==> r in n.world.db)
    && (forall r :: r in n.world.db ==> r in s.world.db || r in OwnRows(side, q, t))
  }

  lemma StrangersJoinIsAdmissible(s: System, side: Side, q: JoinRequest, a: JoinAnswers)
    requires JoinsNew(s, q, a)
    ensures Admissible(s, Join(side, q, a)) && Clean(s, Join(side, q, a))
    ensures NamesOwnMeeting(s.world.db, q.participant, q.meeting)
  {
    assert forall m, i :: About(Member(m, q.participant, i), q.participant);
    hide Inv, RegisterFor, KeyStored;
  }

  lemma StrangerHasNoProducers(db: Table, producers: map<Id, ProducerEntry>, p: Id, m: Id, i: Id)
    requires ProducersAgree(db, producers) && Stranger(db, p)
    ensures ProducersExcludingInstance(producers, p, m, i) == {}
  {
    forall x | x in producers ensures producers[x].participant != p {
      ProducerIsMembers(db, producers, x);
      assert About(Member(producers[x].meeting, producers[x].participant, producers[x].instance),
                   producers[x].participant);
    }
  }

  /** The table after the membership transaction of somebody new. */
  lemma StrangersTable(db: Table, side: Side, q: JoinRequest)
    requires Consistent(db) && OwnTransports(db.Keys) && Stranger(db, q.participant)
    requires KeyStored(db, RouterKey(q.router)) && KeyStored(db, MeetingKey(q.meeting))
    ensures var now := RegisterFor(db, side, q, HEALTHY).0;
            && Member(q.meeting, q.participant, q.instance) in now
            && (forall r :: r in db ==> r in now) && (forall r :: r in now ==> r in db || r in MembershipRows(side, q))
  {
    var p, m, i := q.participant, q.meeting, q.instance;
    NewcomerIsRegistered(db, side, q);
    RegisterEffect(db, p, m, i, if side.Producing? then Some(q.router) else None,
                   if side.Consuming? then Some(q.router) else None, HEALTHY);
    hide Consistent, OwnTransports, Evicted, Admitted, RegisterFor, Register, Conflicts, KeyStored;
  }

  lemma StrangersJoinedTable(s: System, side: Side, q: JoinRequest, a: JoinAnswers)
    requires JoinsNew(s, q, a) && JoinMadeTransport(s.world, side, q, a)
    ensures var after := Joined(s.world, side, q, a).db;
            && TransportRow(side, q.participant, a.created.value) in after
            && Member(q.meeting, q.participant, q.instance) in after
            && (forall r :: r in s.world.db ==> r in after)
            && (forall r :: r in after ==> r in s.world.db || r in OwnRows(side, q, a.created.value))
  {
    AgreeIsConsistent(s);
    StrangersTable(s.world.db, side, q);
    MadeIsRegistered(s.world, side, q, a);
    JoinedTransports(s.world, side, q, a);
    hide Inv, Joined, RegisterFor, JoinMadeTransport, Forgotten, Stranger, KeyStored;
  }

  lemma StrangersJoinedMemory(s: System, side: Side, q: JoinRequest, a: JoinAnswers)
    requires JoinsNew(s, q, a) && JoinMadeTransport(s.world, side, q, a)
    ensures var mem, after := s.world.mem, Joined(s.world, side, q, a).mem;
            && after.transports == mem.transports[a.created.value := TransportEntry(q.meeting, q.participant, side)]
            && after.routers == mem.routers && after.producers == mem.producers && Shrinks(mem, after)
  {
    hide Inv, Joined, RegisterFor, JoinMadeTransport, OthersClosed, Stranger, KeyStored, Shrinks;
    MadeIsRegistered(s.world, side, q, a);
    StrangersTransports(s.world, side, q, a);
    JoinedMemory(s.world, side, q, a);
    StrangersLeft(s, q, a.removed);
    OthersClosedKeeps(s.world.mem, q.participant, q.meeting, q.instance, a.removed);
    OnlyTransportsDiffer(s.world.mem, OthersClosed(s.world.mem, q.participant, q.meeting, q.instance, a.removed),
                         Joined(s.world, side, q, a).mem);
  }

  lemma OnlyTransportsDiffer(mem: Memory, left: Memory, after: Memory)
    requires Shrinks(mem, left) && left.routers == mem.routers && left.producers == mem.producers
    requires after == mem || after == left.(transports := after.transports)
    ensures Shrinks(mem, after) && after.routers == mem.routers && after.producers == mem.producers
  {
  }

  lemma StrangersLeft(s: System, q: JoinRequest, removed: bool)
    requires Inv(s) && Stranger(s.world.db, q.participant)
    ensures var left := OthersClosed(s.world.mem, q.participant, q.meeting, q.instance, removed);
            Shrinks(s.world.mem, left) && left.producers == s.world.mem.producers
  {
    var p, m, i := q.participant, q.meeting, q.instance;
    StrangerHasNoProducers(s.world.db, s.world.mem.producers, p, m, i);
    OthersClosedKeeps(s.world.mem, p, m, i, removed);
    OthersAreAbout(s.world.db, s.world.mem, p, m, i, removed);
    hide Inv, OthersClosed, Stranger, ProducersExcludingInstance;
  }

  lemma StrangersTransports(w: World, side: Side, q: JoinRequest, a: JoinAnswers)
    requires q.oldProducerTransport.None? && q.oldConsumerTransport.None? && JoinMadeTransport(w, side, q, a)
    ensures Joined(w, side, q, a).mem.transports ==
            w.mem.transports[a.created.value := TransportEntry(q.meeting, q.participant, side)]
  {
    ForgetsNothing(w, side, q, a);
    JoinedTransports(w, side, q, a);
    MadeIsRegistered(w, side, q, a);
    hide Joined, RegisterFor, JoinMadeTransport, Forgotten;
  }

  lemma MadeIsRegistered(w: World, side: Side, q: JoinRequest, a: JoinAnswers)
    requires JoinMadeTransport(w, side, q, a)
    ensures RegisterFor(w.db, side, q, a.membership).1.Success?
  {
    hide RegisterFor, TransportInserted, Obstructed;
  }

  lemma ForgetsNothing(w: World, side: Side, q: JoinRequest, a: JoinAnswers)
    requires q.oldProducerTransport.None? && q.oldConsumerTransport.None?
    ensures w.mem.transports - Forgotten(w.db, side, q, a.membership) == w.mem.transports
  {
    hide RegisterFor;
  }

  lemma NewcomerJoins(s: System, side: Side, q: JoinRequest, a: JoinAnswers)
    requires JoinsNew(s, q, a)
    ensures Admissible(s, Join(side, q, a)) && HasJoined(s, side, q, a.created.value, AfterJoin(s, side, q, a))
  {
    hide Inv, Joined, RegisterFor, JoinMadeTransport, Admissible, JoinsNew, OwnRows, Shrinks, TransportRow;
    IsCreated(s, q, a);
    StrangerGetsTransport(s, side, q, a);
    StrangersJoinedTable(s, side, q, a);
    StrangersJoinedMemory(s, side, q, a);
  }

  lemma IsCreated(s: System, q: JoinRequest, a: JoinAnswers)
    requires JoinsNew(s, q, a)
    ensures a.created.Some?
  {
    hide Inv, Stranger, KeyStored;
  }

  lemma StrangerGetsTransport(s: System, side: Side, q: JoinRequest, a: JoinAnswers)
    requires JoinsNew(s, q, a)
    ensures Admissible(s, Join(side, q, a)) && Inv(AfterJoin(s, side, q, a)) && JoinMadeTransport(s.world, side, q, a)
  {
    hide Inv, Joined, RegisterFor, JoinMadeTransport, Admissible, Clean, Stranger, KeyStored, AfterJoin;
    StrangersJoinIsAdmissible(s, side, q, a);
    AgreeIsConsistent(s);
    hide Consistent, OwnTransports;
    NewcomerIsRegistered(s.world.db, side, q);
    NewcomerGetsTransport(s, side, q, a);
    JoinKeepsInv(s, side, q, a);
  }
}
