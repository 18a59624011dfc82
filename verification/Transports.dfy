/** The in-memory transports and the stored ones, when the foreign calls succeed. */
module Transports {
  import opened Common
  import opened Schema
  import opened Dao
  import opened Executor
  import opened Erasure
  import opened Session
  import opened Outcomes
  import opened Membership
  import opened Invariants
  import opened Joining
  import opened Producing
  import opened Consuming
  import opened Leaving
  import opened Provisioning
  import opened Runs

  predicate TransportRowOf(r: Row, side: Side) {
    if side.Producing? then r.ProducerTransport? else r.ConsumerTransport?
  }

  /** `transport_map` and the transport tables hold the same transports. */
  ghost predicate TransportsAgree(db: Table, transports: map<Id, TransportEntry>, issued: map<Id, Grant>) {
    && (forall t :: t in transports ==>
          && t in issued
          && var e := transports[t];
             issued[t].participant == e.participant && issued[t].meeting == e.meeting
             && TransportRow(e.side, e.participant, t) in db)
    && (forall r, side :: r in db && TransportRowOf(r, side) ==>
          r.transport in transports && transports[r.transport].participant == r.participant
          && transports[r.transport].side == side)
  }

  /** The named transports are exactly the participant's own current ones. */
  ghost predicate NamesOwnTransports(mem: Memory, named: set<Id>, p: Id) {
    && (forall t :: t in mem.transports && mem.transports[t].participant == p ==> t in named)
    && (forall t :: t in mem.transports && t in named ==> mem.transports[t].participant == p)
  }

  ghost predicate NamesMeetingsTransports(mem: Memory, named: set<Id>, m: Id) {
    forall t :: t in mem.transports ==> (t in named <==> mem.transports[t].meeting == m)
  }

  /** What a join names as the old transports matters only for a new user, and then the foreign calls
      after the membership transaction succeed and the named transports are the current ones. What a leave
      names matters only when it is of the current instance. */
  ghost predicate Clean(s: System, e: Event) {
    var w := s.world;
    match e
    case Join(side, q, a) =>
      RegisterFor(w.db, side, q, a.membership).1 == Success(true) ==>
        && a.removed && q.router in w.mem.routers && a.created.Some? && Reliable(a.transport)
        && NamesOwnTransports(w.mem, OldTransports(q), q.participant)
    case Leave(q, _, _) =>
      Member(q.meeting, q.participant, q.instance) in w.db ==>
        NamesOwnTransports(w.mem, Ids(q.producerTransport) + Ids(q.consumerTransport), q.participant)
    case End(q, link) => Deletes(w.db, q, link) ==> NamesMeetingsTransports(w.mem, q.transports, q.meeting)
    case _ => true
  }

  function OldTransports(q: JoinRequest): set<Id> {
    Ids(q.oldProducerTransport) + Ids(q.oldConsumerTransport)
  }

  predicate Deletes(db: Table, q: EndRequest, link: Link) {
    Transact(db, [Delete(MeetingStatusOf(q.meeting))], true, link).1.Success?
  }

  /** The exact condition: memory forgets the transports whose rows go, and no others. A join of a new
      user that stores no transport forgets none. */
  ghost predicate ForgetsExactly(s: System, e: Event) {
    var w := s.world;
    match e
    case Join(side, q, a) =>
      RegisterFor(w.db, side, q, a.membership).1 == Success(true) ==>
        NamesOwnTransports(w.mem, if JoinMadeTransport(w, side, q, a) then OldTransports(q) else {}, q.participant)
    case Leave(q, link, removed) =>
      Left(w, q, link, removed).0 != w ==>
        NamesOwnTransports(w.mem, Ids(q.producerTransport) + Ids(q.consumerTransport), q.participant)
    case End(q, link) => Deletes(w.db, q, link) ==> NamesMeetingsTransports(w.mem, q.transports, q.meeting)
    case _ => true
  }

  // ----- Steps that do not touch transports -----

  ghost predicate SameTransportRows(db: Table, after: Table) {
    forall r, side :: TransportRowOf(r, side) ==> (r in db <==> r in after)
  }

  lemma ProduceKeepsTransports(s: System, q: ProducerRequest, a: ProducerAnswers)
    ensures SameTransportRows(s.world.db, AfterProduce(s, q, a).world.db)
    ensures AfterProduce(s, q, a).world.mem.transports == s.world.mem.transports
  {
    if ProducerStored(s.world, q, a) {
      SingleStatement(s.world.db, Insert(ProducerRow(q, a.produced.value)), a.link);
    }
  }

  lemma CloseProducersKeepsTransports(s: System, p: Id, ids: seq<Id>, link: Link)
    ensures SameTransportRows(s.world.db, AfterCloseProducers(s, p, ids, link).world.db)
    ensures AfterCloseProducers(s, p, ids, link).world.mem.transports == s.world.mem.transports
  {
    if DeleteFrom(s.world.db, ProducerDeletions(p, ids), 0, 0, link).Success? {
      ProducerDeletionsEffect(s.world.db, ProducerDeletions(p, ids), p, ids, 0, 0, link);
    }
  }

  lemma ConsumeKeepsTransports(s: System, q: ConsumerRequest, a: ConsumerAnswers)
    requires Inv(s) && DistinctTargets(q, a)
    ensures SameTransportRows(s.world.db, AfterConsume(s, q, a).world.db)
    ensures AfterConsume(s, q, a).world.mem.transports == s.world.mem.transports
  {
    if ConsumersCreated(s.world, q, a).1.Success? {
      BatchOf(s.world.mem, q, a);
      CommittedBatch(s.world.db, Subscribed(s.world.mem, q, a).value.rows, a.link);
    }
  }

  lemma CloseConsumersKeepsTransports(s: System, m: Id, ids: seq<Id>, link: Link)
    ensures SameTransportRows(s.world.db, AfterCloseConsumers(s, m, ids, link).world.db)
    ensures AfterCloseConsumers(s, m, ids, link).world.mem.transports == s.world.mem.transports
  {
    if Transact(s.world.db, ConsumerDeletions(ids), true, link).1.Success? {
      ConsumerDeletionsEffect(s.world.db, ids, 0, false, link);
    }
  }

  lemma CreationKeepsTransports(s: System, q: CreateRequest, a: RouterAnswers)
    requires Inv(s)
    ensures SameTransportRows(s.world.db, AfterCreation(s, q, a).world.db)
    ensures AfterCreation(s, q, a).world.mem.transports == s.world.mem.transports
  {
    CreationIsAtomic(s.world, q, a);
  }

  lemma ReplacementKeepsTransports(s: System, plans: seq<MeetingPlan>, a: RouterAnswers)
    requires Inv(s) && DistinctMeetings(plans) && NobodyIn(s.world.db, plans)
    ensures SameTransportRows(s.world.db, AfterReplacement(s, plans, a).world.db)
    ensures AfterReplacement(s, plans, a).world.mem.transports == s.world.mem.transports
  {
    ReplacementIsAtomic(s.world, plans, a);
    if MeetingsReplaced(s.world, plans, a).1.Success? {
      ReplacementOnlyProvisions(s.world.db, plans, PlacePlans(s.world.mem.workers, plans, a.made, 0, 0, []).value,
                                AfterReplacement(s, plans, a).world.db);
    }
  }

  lemma UntouchedTransportsAgree(db: Table, transports: map<Id, TransportEntry>, issued: map<Id, Grant>, after: Table)
    requires TransportsAgree(db, transports, issued) && SameTransportRows(db, after)
    ensures TransportsAgree(after, transports, issued)
  {
    forall t | t in transports ensures TransportRow(transports[t].side, transports[t].participant, t) in after {
      assert TransportRowOf(TransportRow(transports[t].side, transports[t].participant, t), transports[t].side);
    }
  }

  // ----- Steps that remove transports -----

  /** The stored transports of some participants were removed: memory agrees exactly when the same ones
      were removed there. */
  lemma RemovedTransportsIff(db: Table, transports: map<Id, TransportEntry>, issued: map<Id, Grant>, after: Table,
                             named: set<Id>, gone: set<Id>)
    requires TransportsAgree(db, transports, issued) && Erases(db, after, gone)
    ensures TransportsAgree(after, transports - named, issued) <==>
            forall t :: t in transports ==> (t in named <==> transports[t].participant in gone)
  {
    if TransportsAgree(after, transports - named, issued) {
      forall t | t in transports ensures t in named <==> transports[t].participant in gone {
        RemovedTransport(db, transports, issued, after, named, gone, t);
      }
    }
  }

  lemma RemovedTransport(db: Table, transports: map<Id, TransportEntry>, issued: map<Id, Grant>, after: Table,
                         named: set<Id>, gone: set<Id>, t: Id)
    requires TransportsAgree(db, transports, issued) && Erases(db, after, gone) && t in transports
    requires TransportsAgree(after, transports - named, issued)
    ensures t in named <==> transports[t].participant in gone
  {
    var e := transports[t];
    var r := TransportRow(e.side, e.participant, t);
    assert r in db && TransportRowOf(r, e.side);
    assert r in after <==> e.participant !in gone;
    if t !in named {
      assert (transports - named)[t] == e;
    }
  }

  lemma LeaveTransportsIff(s: System, q: LeaveRequest, link: Link, removed: bool)
    requires Inv(s) && TransportsAgree(s.world.db, s.world.mem.transports, s.issued)
    ensures var after := AfterLeave(s, q, link, removed).world;
            TransportsAgree(after.db, after.mem.transports, s.issued) <==> ForgetsExactly(s, Leave(q, link, removed))
  {
    hide Inv, Left, Without, TransportsAgree, Erases, Consistent, OwnTransports;
    AgreeIsConsistent(s);
    LeftTransports(s.world, q, link, removed);
    WithoutTransportsIff(s.world.db, s.world.mem, s.issued,
                         Ids(q.producerTransport) + Ids(q.consumerTransport), q.participant);
  }

  lemma WithoutTransportsIff(db: Table, mem: Memory, issued: map<Id, Grant>, named: set<Id>, p: Id)
    requires TransportsAgree(db, mem.transports, issued)
    ensures TransportsAgree(Without(db, p), mem.transports - named, issued) <==> NamesOwnTransports(mem, named, p)
  {
    LeaverErases(db, p);
    RemovedTransportsIff(db, mem.transports, issued, Without(db, p), named, {p});
    hide TransportsAgree, Without, Erases;
  }

  lemma LeftTransports(w: World, q: LeaveRequest, link: Link, removed: bool)
    requires Consistent(w.db) && OwnTransports(w.db.Keys)
    ensures var after := Left(w, q, link, removed).0;
            after != w ==>
              && after.db == Without(w.db, q.participant)
              && after.mem.transports == w.mem.transports - (Ids(q.producerTransport) + Ids(q.consumerTransport))
  {
    LeaveOutcome(w, q, link, removed);
    hide Left, Without, Consistent, OwnTransports;
  }

  /** A transport in memory is in the meeting of its participant's membership. */
  lemma TransportIsMembers(db: Table, transports: map<Id, TransportEntry>, issued: map<Id, Grant>, t: Id)
    requires TransportsAgree(db, transports, issued) && Granted(db, issued) && t in transports
    ensures Member(transports[t].meeting, transports[t].participant, issued[t].instance) in db
  {
  }

  lemma EndTransportsIff(s: System, q: EndRequest, link: Link)
    requires Inv(s) && TransportsAgree(s.world.db, s.world.mem.transports, s.issued)
    ensures TransportsAgree(AfterEnd(s, q, link).world.db, AfterEnd(s, q, link).world.mem.transports, s.issued) <==>
            ForgetsExactly(s, End(q, link))
  {
    hide Inv, Ended, Transact, Members, WithoutMeeting, TransportsAgree, Erases, Consistent, OwnTransports, Deletes;
    var db, transports := s.world.db, s.world.mem.transports;
    EndedTransports(s.world, q, link);
    if Deletes(db, q, link) {
      AgreeIsConsistent(s);
      DeletedTable(db, q, link);
      MeetingErases(db, q.meeting);
      MeetingsTransports(s, q.meeting);
      RemovedTransportsIff(db, transports, s.issued,
                           WithoutMeeting(db, q.meeting), q.transports, Members(db, q.meeting));
    }
  }

  lemma DeletedTable(db: Table, q: EndRequest, link: Link)
    requires Consistent(db) && OwnTransports(db.Keys) && Deletes(db, q, link)
    ensures Transact(db, [Delete(MeetingStatusOf(q.meeting))], true, link).0 == WithoutMeeting(db, q.meeting)
  {
    hide Consistent, OwnTransports, Transact, WithoutMeeting;
    EndedTable(db, q, link);
  }

  lemma MeetingsTransports(s: System, m: Id)
    requires Inv(s) && TransportsAgree(s.world.db, s.world.mem.transports, s.issued)
    ensures var transports := s.world.mem.transports;
            forall t :: t in transports ==>
              (transports[t].meeting == m <==> transports[t].participant in Members(s.world.db, m))
  {
    var db, transports := s.world.db, s.world.mem.transports;
    AgreeIsConsistent(s);
    forall t | t in transports
      ensures transports[t].meeting == m <==> transports[t].participant in Members(db, m)
    {
      TransportIsMembers(db, transports, s.issued, t);
      OneMembership(db, transports[t].participant);
    }
    hide Inv, TransportsAgree, Consistent, OwnTransports;
  }

  lemma EndedTransports(w: World, q: EndRequest, link: Link)
    ensures if Deletes(w.db, q, link) then
              && Ended(w, q, link).db == Transact(w.db, [Delete(MeetingStatusOf(q.meeting))], true, link).0
              && Ended(w, q, link).mem.transports == w.mem.transports - q.transports
            else Ended(w, q, link) == w
  {
    hide Transact;
  }

  // ----- Joining -----

  lemma RegistrationErasesTransports(db: Table, side: Side, q: JoinRequest, link: Link)
    requires Consistent(db) && OwnTransports(db.Keys) && RegisterFor(db, side, q, link).1.Success?
    ensures SameTransportRows(Evicted(db, q.participant, q.meeting, q.instance), RegisterFor(db, side, q, link).0)
    ensures RegisterFor(db, side, q, link).1.value <==>
            !HasMember(db, q.participant) || Superseded(db, q.participant, q.meeting, q.instance)
  {
    var p, m, i := q.participant, q.meeting, q.instance;
    var producing := if side.Producing? then Some(q.router) else None;
    var consuming := if side.Consuming? then Some(q.router) else None;
    RegisterEffect(db, p, m, i, producing, consuming, link);
    NewUserIsExact(db, p, m, i, producing, consuming, link);
  }

  /** With the same transport rows agreement is the same. */
  lemma SameRowsAgree(db: Table, transports: map<Id, TransportEntry>, issued: map<Id, Grant>, after: Table)
    requires SameTransportRows(db, after)
    ensures TransportsAgree(db, transports, issued) <==> TransportsAgree(after, transports, issued)
  {
    if TransportsAgree(db, transports, issued) {
      UntouchedTransportsAgree(db, transports, issued, after);
    }
    if TransportsAgree(after, transports, issued) {
      UntouchedTransportsAgree(after, transports, issued, db);
    }
  }

  /** A transport in memory belongs to a member, and to no member that is only now admitted. */
  lemma TransportsOfNewUser(s: System, q: JoinRequest, named: set<Id>)
    requires Inv(s) && TransportsAgree(s.world.db, s.world.mem.transports, s.issued)
    requires !HasMember(s.world.db, q.participant) || Superseded(s.world.db, q.participant, q.meeting, q.instance)
    ensures NamesOwnTransports(s.world.mem, named, q.participant) <==>
            forall t :: t in s.world.mem.transports ==>
              (t in named <==>
                 s.world.mem.transports[t].participant in Gone(s.world.db, q.participant, q.meeting, q.instance))
  {
    var db, transports := s.world.db, s.world.mem.transports;
    forall t | t in transports
      ensures transports[t].participant == q.participant <==>
              transports[t].participant in Gone(db, q.participant, q.meeting, q.instance)
    {
      TransportIsMembers(db, transports, s.issued, t);
    }
    hide Inv, TransportsAgree, Superseded, HasMember;
  }

  /** What the registration leaves agrees with the in-memory transports without some named ones, exactly
      when those are the transports of the evicted instance. */
  lemma RegisteredTransportsIff(s: System, side: Side, q: JoinRequest, link: Link, named: set<Id>)
    requires Inv(s) && TransportsAgree(s.world.db, s.world.mem.transports, s.issued)
    requires RegisterFor(s.world.db, side, q, link).1.Success?
    ensures TransportsAgree(RegisterFor(s.world.db, side, q, link).0, s.world.mem.transports - named, s.issued) <==>
            forall t :: t in s.world.mem.transports ==>
              (t in named <==>
                 s.world.mem.transports[t].participant in Gone(s.world.db, q.participant, q.meeting, q.instance))
  {
    var db, transports := s.world.db, s.world.mem.transports;
    var p, m, i := q.participant, q.meeting, q.instance;
    AgreeIsConsistent(s);
    RegistrationErasesTransports(db, side, q, link);
    EvictionErases(db, p, m, i);
    hide Inv, TransportsAgree, RegisterFor, Evicted, Gone, Erases, SameTransportRows, Consistent, OwnTransports;
    RemovedTransportsIff(db, transports, s.issued, Evicted(db, p, m, i), named, Gone(db, p, m, i));
    SameRowsAgree(Evicted(db, p, m, i), transports - named, s.issued, RegisterFor(db, side, q, link).0);
  }

  lemma AddedTransportIff(db: Table, transports: map<Id, TransportEntry>, issued: map<Id, Grant>, side: Side,
                          g: Grant, t: Id)
    requires t !in issued && transports.Keys <= issued.Keys
    requires forall r, other :: r in db && TransportRowOf(r, other) ==> r.transport != t
    requires InsertRow(db, TransportRow(side, g.participant, t)).Applied?
    ensures TransportsAgree(InsertRow(db, TransportRow(side, g.participant, t)).db,
                            transports[t := TransportEntry(g.meeting, g.participant, side)], issued[t := g])
            <==> TransportsAgree(db, transports, issued)
  {
    var row, more := TransportRow(side, g.participant, t),
        transports[t := TransportEntry(g.meeting, g.participant, side)];
    var after := InsertRow(db, row).db;
    assert after.Keys == db.Keys + {row};
    hide InsertRow;
    if TransportsAgree(after, more, issued[t := g]) {
      AgreesWithoutAdded(db, transports, issued, row, side, g, t, after);
    }
  }

  lemma AgreesWithoutAdded(db: Table, transports: map<Id, TransportEntry>, issued: map<Id, Grant>, row: Row, side: Side,
                           g: Grant, t: Id, after: Table)
    requires t !in issued && transports.Keys <= issued.Keys && row == TransportRow(side, g.participant, t)
    requires forall r, other :: r in db && TransportRowOf(r, other) ==> r.transport != t
    requires after.Keys == db.Keys + {row}
    requires TransportsAgree(after, transports[t := TransportEntry(g.meeting, g.participant, side)], issued[t := g])
    ensures TransportsAgree(db, transports, issued)
  {
    var more := transports[t := TransportEntry(g.meeting, g.participant, side)];
    forall x | x in transports
      ensures var e := transports[x];
              issued[x].participant == e.participant && issued[x].meeting == e.meeting
              && TransportRow(e.side, e.participant, x) in db
    {
      assert more[x] == transports[x] && issued[t := g][x] == issued[x];
      assert TransportRow(transports[x].side, transports[x].participant, x) != row;
    }
  }

  lemma NoTransportWithoutMembership(db: Table, side: Side, p: Id, r: Row)
    requires Consistent(db) && r in db && TransportRowOf(r, side) && r.participant == p
    ensures HasMember(db, p)
  {
    NobodyWithoutMembership(db, p, r);
  }

  lemma TransportConflict(db: Table, side: Side, p: Id, t: Id)
    requires Conflicts(db, TransportRow(side, p, t)) && forall r :: r in db && TransportRowOf(r, side) ==>
               r.transport != t
    ensures exists r :: r in db && TransportRowOf(r, side) && r.participant == p
  {
  }

  /** Nothing of a participant without membership is left to collide with. */
  lemma NewcomersTransportIsFree(evicted: Table, now: Table, side: Side, p: Id, t: Id)
    requires Consistent(evicted) && !HasMember(evicted, p) && SameTransportRows(evicted, now)
    requires forall r :: r in evicted && TransportRowOf(r, side) ==> r.transport != t
    ensures !Conflicts(now, TransportRow(side, p, t))
  {
    if Conflicts(now, TransportRow(side, p, t)) {
      TransportConflict(now, side, p, t);
      var r :| r in now && TransportRowOf(r, side) && r.participant == p;
      NoTransportWithoutMembership(evicted, side, p, r);
    }
  }

  /** A newcomer's transport is accepted. */
  lemma NewcomersTransportIsAccepted(s: System, side: Side, q: JoinRequest, a: JoinAnswers)
    requires Inv(s) && NamesOwnMeeting(s.world.db, q.participant, q.meeting)
    requires a.created.Some? && a.created.value !in s.minted
    requires RegisterFor(s.world.db, side, q, a.membership).1 == Success(true)
    ensures InsertRow(RegisterFor(s.world.db, side, q, a.membership).0,
                      TransportRow(side, q.participant, a.created.value)).Applied?
  {
    var db, p, m, i, t := s.world.db, q.participant, q.meeting, q.instance, a.created.value;
    var now, evicted := RegisterFor(db, side, q, a.membership).0, Evicted(db, p, m, i);
    RegistrationErasesTransports(db, side, q, a.membership);
    RegisteredAsRequested(db, side, q, a.membership);
    EvictionKeepsConstraints(db, p, m, i);
    MemberAfterEviction(db, p, m, i);
    FreshTransport(db, s.issued, t);
    EvictionEffect(db, p, m, i);
    NewcomersTransportIsFree(evicted, now, side, p, t);
    assert MemberKey(p) in Provides(Member(m, p, i));
  }

  lemma NewcomerGetsTransport(s: System, side: Side, q: JoinRequest, a: JoinAnswers)
    requires Inv(s) && Admissible(s, Join(side, q, a)) && Clean(s, Join(side, q, a))
    requires RegisterFor(s.world.db, side, q, a.membership).1 == Success(true)
    ensures JoinMadeTransport(s.world, side, q, a)
  {
    NewcomersTransportIsAccepted(s, side, q, a);
    SingleStatement(RegisterFor(s.world.db, side, q, a.membership).0,
                    Insert(TransportRow(side, q.participant, a.created.value)), a.transport);
  }

  /** The tables and the transports after a join that registered the membership. */
  lemma JoinedTransports(w: World, side: Side, q: JoinRequest, a: JoinAnswers)
    requires RegisterFor(w.db, side, q, a.membership).1.Success?
    ensures var now := RegisterFor(w.db, side, q, a.membership).0;
            var left := w.mem.transports - Forgotten(w.db, side, q, a.membership);
            var after := Joined(w, side, q, a);
            if JoinMadeTransport(w, side, q, a) then
              var row := TransportRow(side, q.participant, a.created.value);
              && InsertRow(now, row).Applied? && after.db == InsertRow(now, row).db
              && after.mem.transports == left[a.created.value := TransportEntry(q.meeting, q.participant, side)]
            else after.db == now && after.mem.transports == w.mem.transports
  {
    if JoinMadeTransport(w, side, q, a) {
      SingleStatement(RegisterFor(w.db, side, q, a.membership).0,
                      Insert(TransportRow(side, q.participant, a.created.value)), a.transport);
    }
  }

  /** No stored transport has a new identifier, before or after the registration. */
  lemma NewTransportIsUnstored(s: System, side: Side, q: JoinRequest, link: Link, t: Id)
    requires Inv(s) && t !in s.minted && RegisterFor(s.world.db, side, q, link).1.Success?
    ensures t !in s.issued
    ensures forall r, other ::
            r in RegisterFor(s.world.db, side, q, link).0 && TransportRowOf(r, other) ==> r.transport != t
  {
    AgreeIsConsistent(s);
    IssuedAreMinted(s);
    HasConsistent(s);
    FreshTransport(s.world.db, s.issued, t);
    RegistrationErasesTransports(s.world.db, side, q, link);
    EvictionErases(s.world.db, q.participant, q.meeting, q.instance);
    hide Inv, RegisterFor, Evicted, Gone, Consistent, OwnTransports, Granted;
  }

  /** A join keeps the transports in agreement exactly when memory forgets those that the eviction removed
      from the tables, and no others. */
  lemma JoinTransportsIff(s: System, side: Side, q: JoinRequest, a: JoinAnswers)
    requires Inv(s) && TransportsAgree(s.world.db, s.world.mem.transports, s.issued)
    requires Admissible(s, Join(side, q, a))
    ensures var t := AfterJoin(s, side, q, a);
            TransportsAgree(t.world.db, t.world.mem.transports, t.issued) <==> ForgetsExactly(s, Join(side, q, a))
  {
    hide Inv, TransportsAgree, RegisterFor, Joined, JoinMadeTransport, Admissible, NamesOwnTransports, AfterJoin;
    if RegisterFor(s.world.db, side, q, a.membership).1.Success? {
      var named := if JoinMadeTransport(s.world, side, q, a) then Forgotten(s.world.db, side, q, a.membership) else {};
      JoinedAgreesIff(s, side, q, a, named);
      RegisteredTransportsIff(s, side, q, a.membership, named);
      RegistrationFlag(s, side, q, a.membership);
      if RegisterFor(s.world.db, side, q, a.membership).1.value {
        TransportsOfNewUser(s, q, named);
      }
    } else {
      UnregisteredJoin(s, side, q, a);
    }
  }

  lemma UnregisteredJoin(s: System, side: Side, q: JoinRequest, a: JoinAnswers)
    requires RegisterFor(s.world.db, side, q, a.membership).1.Failure?
    ensures AfterJoin(s, side, q, a).world == s.world && AfterJoin(s, side, q, a).issued == s.issued
  {
    hide RegisterFor;
  }

  lemma RegistrationFlag(s: System, side: Side, q: JoinRequest, link: Link)
    requires Inv(s) && RegisterFor(s.world.db, side, q, link).1.Success?
    ensures RegisterFor(s.world.db, side, q, link).1.value <==>
            !HasMember(s.world.db, q.participant) || Superseded(s.world.db, q.participant, q.meeting, q.instance)
    ensures !RegisterFor(s.world.db, side, q, link).1.value ==>
              Gone(s.world.db, q.participant, q.meeting, q.instance) == {}
  {
    AgreeIsConsistent(s);
    RegistrationErasesTransports(s.world.db, side, q, link);
    hide Inv, RegisterFor, Consistent, OwnTransports;
  }

  lemma JoinedAgreesIff(s: System, side: Side, q: JoinRequest, a: JoinAnswers, named: set<Id>)
    requires Inv(s) && TransportsAgree(s.world.db, s.world.mem.transports, s.issued)
    requires Admissible(s, Join(side, q, a)) && RegisterFor(s.world.db, side, q, a.membership).1.Success?
    requires named ==
             if JoinMadeTransport(s.world, side, q, a) then Forgotten(s.world.db, side, q, a.membership) else {}
    ensures var t := AfterJoin(s, side, q, a);
            TransportsAgree(t.world.db, t.world.mem.transports, t.issued) <==>
            TransportsAgree(RegisterFor(s.world.db, side, q, a.membership).0, s.world.mem.transports - named, s.issued)
  {
    hide Inv, TransportsAgree, RegisterFor, Joined, JoinMadeTransport, Forgotten;
    NewIsUnminted(s, side, q, a);
    hide Admissible;
    var transports := s.world.mem.transports;
    JoinedTransports(s.world, side, q, a);
    if JoinMadeTransport(s.world, side, q, a) {
      NewTransportIsUnstored(s, side, q, a.membership, a.created.value);
      AgreedAreIssued(s.world.db, transports, s.issued);
      AddedTransportIff(RegisterFor(s.world.db, side, q, a.membership).0, transports - named, s.issued, side,
                        Grant(q.participant, q.meeting, q.instance), a.created.value);
    } else {
      assert transports - {} == transports;
    }
  }

  lemma NewIsUnminted(s: System, side: Side, q: JoinRequest, a: JoinAnswers)
    requires Admissible(s, Join(side, q, a))
    ensures a.created.Some? ==> a.created.value !in s.minted
    ensures JoinMadeTransport(s.world, side, q, a) ==> a.created.Some?
  {
    hide RegisterFor, TransportInserted, Obstructed;
  }

  lemma AgreedAreIssued(db: Table, transports: map<Id, TransportEntry>, issued: map<Id, Grant>)
    requires TransportsAgree(db, transports, issued)
    ensures transports.Keys <= issued.Keys
  {
  }

  /** For a new user, clean foreign calls store the transport. */
  lemma CleanIsExact(s: System, e: Event)
    requires Inv(s) && Admissible(s, e) && Clean(s, e)
    ensures ForgetsExactly(s, e)
  {
    match e
    case Join(side, q, a) =>
      if RegisterFor(s.world.db, side, q, a.membership).1 == Success(true) {
        NewcomerGetsTransport(s, side, q, a);
      }
    case Leave(q, link, removed) =>
      AgreeIsConsistent(s);
      LeaveOutcome(s.world, q, link, removed);
    case _ =>
  }

  // ----- Runs -----

  /** Every step keeps the transports in agreement exactly when it forgets the right ones. */
  lemma StepTransportsIff(s: System, e: Event)
    requires Inv(s) && TransportsAgree(s.world.db, s.world.mem.transports, s.issued) && Admissible(s, e)
    ensures var t := Step(s, e);
            TransportsAgree(t.world.db, t.world.mem.transports, t.issued) <==> ForgetsExactly(s, e)
  {
    match e
    case Join(side, q, a) => JoinTransportsIff(s, side, q, a);
    case Leave(q, link, removed) => LeaveTransportsIff(s, q, link, removed);
    case End(q, link) => EndTransportsIff(s, q, link);
    case _ =>
      QuietStep(s, e);
      UntouchedTransportsAgree(s.world.db, s.world.mem.transports, s.issued, Step(s, e).world.db);
  }

  lemma QuietStep(s: System, e: Event)
    requires Inv(s) && Admissible(s, e) && !e.Join? && !e.Leave? && !e.End?
    ensures SameTransportRows(s.world.db, Step(s, e).world.db)
    ensures Step(s, e).world.mem.transports == s.world.mem.transports && Step(s, e).issued == s.issued
  {
    match e
    case Create(q, a) => CreationKeepsTransports(s, q, a);
    case Replace(plans, a) => ReplacementKeepsTransports(s, plans, a);
    case Produce(q, a) => ProduceKeepsTransports(s, q, a);
    case CloseProducers(p, ids, link) => CloseProducersKeepsTransports(s, p, ids, link);
    case Consume(q, a) => ConsumeKeepsTransports(s, q, a);
    case CloseConsumers(m, ids, link) => CloseConsumersKeepsTransports(s, m, ids, link);
  }

  ghost predicate IsCleanRun(states: seq<System>, events: seq<Event>) {
    IsRun(states, events) && forall i :: 0 <= i < |events| ==> Clean(states[i], events[i])
  }

  ghost predicate AgreesUpTo(states: seq<System>, n: nat)
    requires n < |states|
  {
    forall i :: 0 <= i <= n ==> TransportsAgree(states[i].world.db, states[i].world.mem.transports, states[i].issued)
  }

  /** In a run the in-memory transports agree with the tables all along exactly when every step forgets
      the transports whose rows go, and no others. */
  lemma {:induction false} TransportsAgreeIff(states: seq<System>, events: seq<Event>, n: nat)
    requires IsRun(states, events) && n < |states|
    ensures AgreesUpTo(states, n) <==> forall i :: 0 <= i < n ==> ForgetsExactly(states[i], events[i])
  {
    hide TransportsAgree, ForgetsExactly, Inv, Admissible, Step;
    if n == 0 {
      StartAgrees(states[0]);
    } else {
      var s, e, t := states[n - 1], events[n - 1], states[n];
      TransportsAgreeIff(states, events, n - 1);
      if AgreesUpTo(states, n - 1) {
        RunKeepsInv(states, events, n - 1);
        StepTransportsIff(s, e);
      }
      assert AgreesUpTo(states, n) <==>
             AgreesUpTo(states, n - 1) && TransportsAgree(t.world.db, t.world.mem.transports, t.issued);
      assert (forall i :: 0 <= i < n ==> ForgetsExactly(states[i], events[i])) <==>
             (forall i :: 0 <= i < n - 1 ==> ForgetsExactly(states[i], events[i])) && ForgetsExactly(s, e);
    }
  }

  lemma StartAgrees(s: System)
    requires Start(s)
    ensures TransportsAgree(s.world.db, s.world.mem.transports, s.issued)
  {
  }

  lemma CleanRunKeepsTransports(states: seq<System>, events: seq<Event>, n: nat)
    requires IsCleanRun(states, events) && n < |states|
    ensures var s := states[n]; TransportsAgree(s.world.db, s.world.mem.transports, s.issued)
  {
    hide TransportsAgree, ForgetsExactly, Inv, Admissible, Clean, Step, Start;
    forall i | 0 <= i < n ensures ForgetsExactly(states[i], events[i]) {
      RunKeepsInv(states, events, i);
      CleanIsExact(states[i], events[i]);
    }
    TransportsAgreeIff(states, events, n);
  }

  function StoredTransports(db: Table): set<(Id, Id, Side)> {
    (set r | r in db && r.ProducerTransport? :: (r.transport, r.participant, Producing))
    + (set r | r in db && r.ConsumerTransport? :: (r.transport, r.participant, Consuming))
  }

  function KnownTransports(transports: map<Id, TransportEntry>): set<(Id, Id, Side)> {
    set t | t in transports :: (t, transports[t].participant, transports[t].side)
  }

  predicate SameOwner(a: TransportEntry, b: TransportEntry) {
    a.participant == b.participant && a.side == b.side
  }

  /** A participant has at most one transport on each side. */
  predicate OnePerSide(transports: map<Id, TransportEntry>) {
    forall t, u :: t in transports && u in transports && SameOwner(transports[t], transports[u]) ==> t == u
  }

  lemma AgreeingTransports(db: Table, transports: map<Id, TransportEntry>, issued: map<Id, Grant>)
    requires Consistent(db) && TransportsAgree(db, transports, issued)
    ensures StoredTransports(db) == KnownTransports(transports)
    ensures OnePerSide(transports)
  {
    forall r, side | r in db && TransportRowOf(r, side)
      ensures (r.transport, r.participant, side) in KnownTransports(transports)
    {
    }
    forall t | t in transports ensures (t, transports[t].participant, transports[t].side) in StoredTransports(db) {
      var r := TransportRow(transports[t].side, transports[t].participant, t);
      assert r in db;
      assert r.ProducerTransport? || r.ConsumerTransport?;
    }
    forall t, u | t in transports && u in transports && SameOwner(transports[t], transports[u]) ensures t == u
    {
      OwnersAreDistinct(db, transports[t].side, transports[t].participant, t, u);
    }
  }

  lemma OwnersAreDistinct(db: Table, side: Side, p: Id, t: Id, u: Id)
    requires Consistent(db) && TransportRow(side, p, t) in db && TransportRow(side, p, u) in db
    ensures t == u
  {
  }

  /** In every state of every clean run `transport_map` and the transport tables hold the same
      transports, and a participant has at most one on each side. */
  lemma TransportsAgreeOnRuns(states: seq<System>, events: seq<Event>, n: nat)
    requires IsCleanRun(states, events) && n < |states|
    ensures var w := states[n].world;
            && StoredTransports(w.db) == KnownTransports(w.mem.transports)
            && OnePerSide(w.mem.transports)
  {
    RunKeepsInv(states, events, n);
    CleanRunKeepsTransports(states, events, n);
    AgreeingTransports(states[n].world.db, states[n].world.mem.transports, states[n].issued);
  }

  // ----- Repeating a join under the same instance -----

  lemma NothingToClose(db: Table, mem: Memory, p: Id, m: Id, i: Id)
    requires Consistent(db) && ProducersAgree(db, mem.producers) && ConsumersOwned(db, mem) && Member(m, p, i) in db
    ensures CloseOtherInstances(mem, p, m, i) == mem && ProducersExcludingInstance(mem.producers, p, m, i) == {}
  {
    var k := ShardIndex(mem.hash, |mem.shards|, m);
    NobodyElse(db, mem, p, m, i, k);
    hide Consistent, ProducersAgree, ConsumersOwned;
    assert ConsumersFedBy(mem.shards[k], {}) == {};
    assert mem.shards[k] - {} == mem.shards[k];
    assert mem.shards[k := mem.shards[k]] == mem.shards;
  }

  lemma NobodyElse(db: Table, mem: Memory, p: Id, m: Id, i: Id, k: nat)
    requires Consistent(db) && ProducersAgree(db, mem.producers) && ConsumersOwned(db, mem) && Member(m, p, i) in db
    requires k < |mem.shards|
    ensures ConsumersExcludingInstance(mem.shards[k], p, m, i) == {}
    ensures ProducersExcludingInstance(mem.producers, p, m, i) == {}
  {
    OneMembership(db, p);
    hide Consistent;
    forall c | c in mem.shards[k] && mem.shards[k][c].participant == p ensures mem.shards[k][c].instance == i {
      var e := mem.shards[k][c];
      assert Member(e.meeting, e.participant, e.instance) in db;
    }
    forall x | x in mem.producers && mem.producers[x].participant == p ensures mem.producers[x].instance == i {
      ProducerIsMembers(db, mem.producers, x);
    }
  }

  lemma CurrentMemberStays(db: Table, p: Id, m: Id, i: Id)
    requires Consistent(db) && OwnTransports(db.Keys) && Member(m, p, i) in db
    ensures !Superseded(db, p, m, i) && Evicted(db, p, m, i) == db && Admitted(db, p, m, i) == db && HasMember(db, p)
  {
    OneMembership(db, p);
    EvictionEffect(db, p, m, i);
    MemberConflict(db, p, m, i);
  }

  /** A participant who is a member under the same instance and has a transport on this side gets
      that transport back through the duplicate path; no map changes, and no table except that a
      missing router row is added. */
  lemma RepeatedJoinReusesTransport(s: System, side: Side, q: JoinRequest, a: JoinAnswers, t: Id)
    requires Inv(s) && TransportsAgree(s.world.db, s.world.mem.transports, s.issued)
    requires Member(q.meeting, q.participant, q.instance) in s.world.db
             && TransportRow(side, q.participant, t) in s.world.db
    requires q.router in s.world.mem.routers && a.created.Some?
    requires RollsBack(a.transport)
    ensures RegisterFor(s.world.db, side, q, a.membership).1.Success? ==>
              && Joined(s.world, side, q, a) ==
                World(Ensured(s.world.db, RouterRow(side, q.participant, q.router)), s.world.mem)
              && forall reply :: JoinReply(s.world, side, q, a, reply) <==> reply == Success(t)
    ensures RegisterFor(s.world.db, side, q, a.membership).1.Failure? ==> Joined(s.world, side, q, a) == s.world
  {
    if RegisterFor(s.world.db, side, q, a.membership).1.Success? {
      RepeatedRegistration(s.world.db, side, q, a.membership);
      NothingToClose(s.world.db, s.world.mem, q.participant, q.meeting, q.instance);
      OnlyTransport(s, side, q.participant, q.meeting, q.instance, t);
      DuplicateTransport(s.world, side, q, a, t);
    }
  }

  /** A second transport is refused by the owner's key, and the one in memory answers for it. */
  lemma DuplicateTransport(w: World, side: Side, q: JoinRequest, a: JoinAnswers, t: Id)
    requires TransportRow(side, q.participant, t) in w.db && q.router in w.mem.routers && a.created.Some?
    requires RollsBack(a.transport)
    requires RegisterFor(w.db, side, q, a.membership)
             == (Ensured(w.db, RouterRow(side, q.participant, q.router)), Success(false))
    requires OthersClosed(w.mem, q.participant, q.meeting, q.instance, a.removed) == w.mem && !JoinObstructed(w, q, a)
    requires TransportsOf(w.mem, q.participant, q.meeting, side) == {t}
    ensures Joined(w, side, q, a) == World(Ensured(w.db, RouterRow(side, q.participant, q.router)), w.mem)
    ensures forall reply :: JoinReply(w, side, q, a, reply) <==> reply == Success(t)
  {
    var now := Ensured(w.db, RouterRow(side, q.participant, q.router));
    OwnerConflicts(now, side, q.participant, t, a.created.value);
    SingleStatement(now, Insert(TransportRow(side, q.participant, a.created.value)), a.transport);
  }

  lemma RepeatedRegistration(db: Table, side: Side, q: JoinRequest, link: Link)
    requires Consistent(db) && OwnTransports(db.Keys) && Member(q.meeting, q.participant, q.instance) in db
    requires RegisterFor(db, side, q, link).1.Success?
    ensures RegisterFor(db, side, q, link) == (Ensured(db, RouterRow(side, q.participant, q.router)), Success(false))
  {
    var p, m, i := q.participant, q.meeting, q.instance;
    RegisterEffect(db, p, m, i, if side.Producing? then Some(q.router) else None,
                   if side.Consuming? then Some(q.router) else None, link);
    CurrentMemberStays(db, p, m, i);
  }

  /** A join of the current instance is clean whatever old transports it names and whatever fails. */
  lemma MembersJoinIsClean(s: System, side: Side, q: JoinRequest, a: JoinAnswers)
    requires Inv(s) && Member(q.meeting, q.participant, q.instance) in s.world.db
    ensures Clean(s, Join(side, q, a))
  {
    AgreeIsConsistent(s);
    if RegisterFor(s.world.db, side, q, a.membership).1.Success? {
      RepeatedRegistration(s.world.db, side, q, a.membership);
    }
    hide Inv, RegisterFor, Consistent, OwnTransports, NamesOwnTransports;
  }

  lemma OwnerConflicts(db: Table, side: Side, p: Id, t: Id, u: Id)
    requires TransportRow(side, p, t) in db
    ensures IsDuplicate(InsertRow(db, TransportRow(side, p, u)))
  {
    var k := if side.Producing? then ProducerTransportOwnerKey(p) else ConsumerTransportOwnerKey(p);
    assert k in Provides(TransportRow(side, p, t)) && k in Provides(TransportRow(side, p, u));
  }

  lemma OnlyTransport(s: System, side: Side, p: Id, m: Id, i: Id, t: Id)
    requires Inv(s) && TransportsAgree(s.world.db, s.world.mem.transports, s.issued)
    requires Member(m, p, i) in s.world.db && TransportRow(side, p, t) in s.world.db
    ensures TransportsOf(s.world.mem, p, m, side) == {t}
  {
    var row := TransportRow(side, p, t);
    assert TransportRowOf(row, side);
    hide Consistent, ProducersAgree, ConsumersBacked, ConsumersOwned, MemoryAgrees, MintedIds, OwnTransports;
    TransportIsMembers(s.world.db, s.world.mem.transports, s.issued, t);
    OneMembership(s.world.db, p);
    AgreeingTransports(s.world.db, s.world.mem.transports, s.issued);
  }
}
