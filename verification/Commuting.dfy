/** A client that comes back under a new instance asks for its two transports in either order. */
module Commuting {
  import opened Common
  import opened Schema
  import opened Dao
  import opened Executor
  import opened Erasure
  import opened Session
  import opened Outcomes
  import opened Membership
  import opened Invariants
  import opened Joining
  import opened Leaving
  import opened Runs
  import opened Transports

  predicate KeyStored(db: Table, k: Key) {
    exists r :: r in db && k in Provides(r)
  }

  lemma RegistrationSucceeds(db: Table, side: Side, q: JoinRequest)
    requires Insertable(Evicted(db, q.participant, q.meeting, q.instance), Member(q.meeting, q.participant, q.instance))
    requires Insertable(Admitted(db, q.participant, q.meeting, q.instance), RouterRow(side, q.participant, q.router))
    ensures RegisterFor(db, side, q, HEALTHY).1.Success?
  {
    var p, m, i := q.participant, q.meeting, q.instance;
    var w := MemberOtherInstance(m, p, i);
    var stmts := [Delete(w), Insert(Member(m, p, i)), Insert(RouterRow(side, p, q.router))];
    var evicted, admitted := Evicted(db, p, m, i), Admitted(db, p, m, i);
    assert stmts == MembershipStatements(p, m, i, if side.Producing? then Some(q.router) else None,
                                         if side.Consuming? then Some(q.router) else None);
    DeleteApplies(db, w);
    assert RunFrom(db, stmts, 0, false, false, HEALTHY) == RunFrom(evicted, stmts, 1, false, false, HEALTHY);
    var known := Conflicts(evicted, Member(m, p, i));
    assert RunFrom(evicted, stmts, 1, false, false, HEALTHY) == RunFrom(admitted, stmts, 2, known, false, HEALTHY);
    assert RunFrom(admitted, stmts, 2, known, false, HEALTHY).Success?;
  }

  // ----- The first of the two calls -----

  function RejoinedTable(db: Table, side: Side, q: JoinRequest, t: Id): Table {
    var p := q.participant;
    Without(db, p)
      [Member(q.meeting, p, q.instance) := 1][RouterRow(side, p, q.router) := 1][TransportRow(side, p, t) := 1]
  }

  function RejoinedMemory(mem: Memory, side: Side, q: JoinRequest, t: Id): Memory {
    var named := Ids(q.oldProducerTransport) + Ids(q.oldConsumerTransport);
    CloseOtherInstances(mem, q.participant, q.meeting, q.instance).(
      transports := (mem.transports - named)[t := TransportEntry(q.meeting, q.participant, side)])
  }

  /** The request and the server are ready for a rejoin: its participant is a member under another
      instance, its router is known, and the transport made for it is new. */
  ghost predicate Rejoins(s: System, side: Side, q: JoinRequest, a: JoinAnswers) {
    && Superseded(s.world.db, q.participant, q.meeting, q.instance)
    && q.router in s.world.mem.routers && KeyStored(s.world.db, RouterKey(q.router))
    && a.removed && a.created.Some? && a.created.value !in s.minted
    && a.membership == HEALTHY && a.transport == HEALTHY
  }

  lemma NothingAboutLeaver(db: Table, p: Id, row: Row)
    requires row.Member? || row.ProducerRouter? || row.ConsumerRouter?
    requires row.participant == p
    ensures !Conflicts(Without(db, p), row)
  {
  }

  lemma ReadmissionTable(db: Table, side: Side, q: JoinRequest)
    requires Consistent(db) && OwnTransports(db.Keys)
    requires Superseded(db, q.participant, q.meeting, q.instance) && KeyStored(db, RouterKey(q.router))
    ensures RegisterFor(db, side, q, HEALTHY) ==
            (Without(db, q.participant)[Member(q.meeting, q.participant, q.instance) := 1]
                                       [RouterRow(side, q.participant, q.router) := 1], Success(true))
  {
    var p, m, i := q.participant, q.meeting, q.instance;
    ReadmittedMember(db, q);
    RouterFits(db, side, q);
    hide Consistent, Conflicts, Dangles, Without, Superseded, KeyStored, RegisterFor, OwnTransports, Evicted, Admitted;
    RegistrationSucceeds(db, side, q);
    RegisterEffect(db, p, m, i, if side.Producing? then Some(q.router) else None,
                   if side.Consuming? then Some(q.router) else None, HEALTHY);
  }

  lemma ReadmittedMember(db: Table, q: JoinRequest)
    requires Consistent(db) && OwnTransports(db.Keys) && Superseded(db, q.participant, q.meeting, q.instance)
    ensures var p, member := q.participant, Member(q.meeting, q.participant, q.instance);
            && Evicted(db, p, q.meeting, q.instance) == Without(db, p)
            && Admitted(db, p, q.meeting, q.instance) == Without(db, p)[member := 1]
            && Insertable(Without(db, p), member) && !HasMember(Without(db, p), p)
  {
    var p, member := q.participant, Member(q.meeting, q.participant, q.instance);
    EvictionEffect(db, p, q.meeting, q.instance);
    NothingAboutLeaver(db, p, member);
    MeetingStays(db, q);
    hide Evicted, Consistent, OwnTransports, Superseded;
    FittingRow(Without(db, p), member);
  }

  /** The meeting outlives the eviction of one of its members. */
  lemma MeetingStays(db: Table, q: JoinRequest)
    requires Consistent(db) && Superseded(db, q.participant, q.meeting, q.instance)
    ensures !Dangles(Without(db, q.participant), Member(q.meeting, q.participant, q.instance))
  {
    var r :| r in db && r.Member? && r.participant == q.participant
      && r.meeting == q.meeting && r.instance != q.instance;
    var k := MeetingKey(q.meeting);
    assert k in References(r);
    assert Provided(db.Keys, k);
    var status :| status in db && k in Provides(status);
    assert status in Without(db, q.participant);
  }

  lemma RouterFits(db: Table, side: Side, q: JoinRequest)
    requires KeyStored(db, RouterKey(q.router))
    ensures var readmitted := Without(db, q.participant)[Member(q.meeting, q.participant, q.instance) := 1];
            InsertRow(readmitted, RouterRow(side, q.participant, q.router))
            == Applied(readmitted[RouterRow(side, q.participant, q.router) := 1], 1)
  {
    var p, member, row := q.participant,
        Member(q.meeting, q.participant, q.instance), RouterRow(side, q.participant, q.router);
    var bare := Without(db, p);
    NothingAboutLeaver(db, p, row);
    var stored :| stored in db && RouterKey(q.router) in Provides(stored);
    assert stored in bare;
    assert MemberKey(p) in Provides(member);
    FittingRow(bare[member := 1], row);
  }

  lemma FittingRow(db: Table, row: Row)
    requires !Conflicts(db, row) && !Dangles(db, row) && row !in db
    ensures InsertRow(db, row) == Applied(db[row := 1], 1)
  {
  }

  /** No stored transport has this identifier. */
  ghost predicate Unused(db: Table, t: Id) {
    forall r :: r in db && (r.ProducerTransport? || r.ConsumerTransport?) ==> r.transport != t
  }

  lemma MintedIsUnused(s: System, t: Id)
    requires Inv(s) && t !in s.minted
    ensures Unused(s.world.db, t)
  {
  }

  lemma TransportFits(db: Table, side: Side, q: JoinRequest, t: Id)
    requires Unused(db, t)
    ensures var there := Without(db, q.participant)[Member(q.meeting, q.participant, q.instance) := 1]
                                                   [RouterRow(side, q.participant, q.router) := 1];
            InsertRow(there, TransportRow(side, q.participant, t)) == Applied(RejoinedTable(db, side, q, t), 1)
  {
    var p, member := q.participant, Member(q.meeting, q.participant, q.instance);
    assert MemberKey(p) in Provides(member);
  }

  /** A join whose membership is registered and whose transport is accepted. */
  lemma AcceptedJoin(w: World, side: Side, q: JoinRequest, a: JoinAnswers, now: Table, newcomer: bool, after: Table)
    requires RegisterFor(w.db, side, q, HEALTHY) == (now, Success(newcomer))
    requires q.router in w.mem.routers && a.removed && a.created.Some?
    requires a.membership == HEALTHY && a.transport == HEALTHY
    requires InsertRow(now, TransportRow(side, q.participant, a.created.value)) == Applied(after, 1)
    ensures var named := if newcomer then Ids(q.oldProducerTransport) + Ids(q.oldConsumerTransport) else {};
            Joined(w, side, q, a) ==
            World(after, CloseOtherInstances(w.mem, q.participant, q.meeting, q.instance).(
              transports := (w.mem.transports - named)
                            [a.created.value := TransportEntry(q.meeting, q.participant, side)]))
    ensures JoinMadeTransport(w, side, q, a)
  {
    SingleStatement(now, Insert(TransportRow(side, q.participant, a.created.value)), HEALTHY);
  }

  lemma FirstRejoin(s: System, side: Side, q: JoinRequest, a: JoinAnswers)
    requires Inv(s) && Rejoins(s, side, q, a)
    ensures Joined(s.world, side, q, a) ==
            World(RejoinedTable(s.world.db, side, q, a.created.value),
                  RejoinedMemory(s.world.mem, side, q, a.created.value))
    ensures JoinMadeTransport(s.world, side, q, a)
  {
    var db, t := s.world.db, a.created.value;
    ReadmissionTable(db, side, q);
    MintedIsUnused(s, t);
    TransportFits(db, side, q, t);
    AcceptedJoin(s.world, side, q, a, RegisterFor(db, side, q, HEALTHY).0, true, RejoinedTable(db, side, q, t));
  }

  // ----- The second -----

  /** The participant already is a member under the requested instance, with nothing on this side. */
  ghost predicate Completes(s: System, side: Side, q: JoinRequest, a: JoinAnswers) {
    && Member(q.meeting, q.participant, q.instance) in s.world.db
    && Missing(s.world.db, side, q.participant)
    && q.router in s.world.mem.routers && KeyStored(s.world.db, RouterKey(q.router))
    && a.removed && a.created.Some? && a.created.value !in s.minted
    && a.membership == HEALTHY && a.transport == HEALTHY
  }

  function CompletedTable(db: Table, side: Side, q: JoinRequest, t: Id): Table {
    db[RouterRow(side, q.participant, q.router) := 1][TransportRow(side, q.participant, t) := 1]
  }

  function CompletedMemory(mem: Memory, side: Side, q: JoinRequest, t: Id): Memory {
    mem.(transports := mem.transports[t := TransportEntry(q.meeting, q.participant, side)])
  }

  /** Nothing of the participant is stored on this side. */
  ghost predicate Missing(db: Table, side: Side, p: Id) {
    forall r :: r in db && About(r, p) ==>
      !TransportRowOf(r, side) && (if side.Producing? then !r.ProducerRouter? else !r.ConsumerRouter?)
  }

  lemma MissingRouterFits(db: Table, side: Side, q: JoinRequest)
    requires Member(q.meeting, q.participant, q.instance) in db && Missing(db, side, q.participant)
    requires KeyStored(db, RouterKey(q.router))
    ensures InsertRow(db, RouterRow(side, q.participant, q.router)) ==
            Applied(db[RouterRow(side, q.participant, q.router) := 1], 1)
  {
  }

  lemma MissingTransportFits(db: Table, side: Side, q: JoinRequest, t: Id)
    requires Member(q.meeting, q.participant, q.instance) in db && Missing(db, side, q.participant) && Unused(db, t)
    ensures InsertRow(db[RouterRow(side, q.participant, q.router) := 1], TransportRow(side, q.participant, t))
            == Applied(CompletedTable(db, side, q, t), 1)
  {
    assert MemberKey(q.participant) in Provides(Member(q.meeting, q.participant, q.instance));
    assert About(TransportRow(side, q.participant, t), q.participant);
  }

  lemma CompletingRegistration(db: Table, side: Side, q: JoinRequest)
    requires Consistent(db) && OwnTransports(db.Keys)
    requires Member(q.meeting, q.participant, q.instance) in db && Missing(db, side, q.participant)
    requires KeyStored(db, RouterKey(q.router))
    ensures RegisterFor(db, side, q, HEALTHY) == (db[RouterRow(side, q.participant, q.router) := 1], Success(false))
  {
    var p, m, i := q.participant, q.meeting, q.instance;
    CurrentMemberStays(db, p, m, i);
    MissingRouterFits(db, side, q);
    MemberConflict(db, p, m, i);
    RegistrationSucceeds(db, side, q);
    RegisterEffect(db, p, m, i, if side.Producing? then Some(q.router) else None,
                   if side.Consuming? then Some(q.router) else None, HEALTHY);
  }

  lemma CompletingJoin(w: World, side: Side, q: JoinRequest, a: JoinAnswers)
    requires Consistent(w.db) && OwnTransports(w.db.Keys)
    requires Member(q.meeting, q.participant, q.instance) in w.db && Missing(w.db, side, q.participant)
    requires KeyStored(w.db, RouterKey(q.router)) && q.router in w.mem.routers
    requires a.removed && a.created.Some? && Unused(w.db, a.created.value)
    requires a.membership == HEALTHY && a.transport == HEALTHY
    requires CloseOtherInstances(w.mem, q.participant, q.meeting, q.instance) == w.mem
    ensures Joined(w, side, q, a) ==
            World(CompletedTable(w.db, side, q, a.created.value), CompletedMemory(w.mem, side, q, a.created.value))
    ensures JoinMadeTransport(w, side, q, a)
  {
    var t := a.created.value;
    CompletingRegistration(w.db, side, q);
    MissingTransportFits(w.db, side, q, t);
    AcceptedJoin(w, side, q, a,
                 w.db[RouterRow(side, q.participant, q.router) := 1], false, CompletedTable(w.db, side, q, t));
    assert w.mem.transports - {} == w.mem.transports;
  }

  lemma SecondRejoin(s: System, side: Side, q: JoinRequest, a: JoinAnswers)
    requires Inv(s) && Completes(s, side, q, a)
    ensures Joined(s.world, side, q, a) ==
            World(CompletedTable(s.world.db, side, q, a.created.value),
                  CompletedMemory(s.world.mem, side, q, a.created.value))
    ensures JoinMadeTransport(s.world, side, q, a)
  {
    NothingToClose(s.world.db, s.world.mem, q.participant, q.meeting, q.instance);
    MintedIsUnused(s, a.created.value);
    CompletingJoin(s.world, side, q, a);
  }

  // ----- Both -----

  function Other(side: Side): Side {
    if side.Producing? then Consuming else Producing
  }

  /** The two requests of one client that comes back: same participant, meeting, instance and old transports. */
  predicate Companions(q: JoinRequest, r: JoinRequest) {
    && q.participant == r.participant && q.meeting == r.meeting && q.instance == r.instance
    && q.oldProducerTransport == r.oldProducerTransport && q.oldConsumerTransport == r.oldConsumerTransport
  }

  /** After the first call the second finds the membership, but nothing on its side. */
  lemma FirstLeadsToSecond(s: System, side: Side, q: JoinRequest, a: JoinAnswers, r: JoinRequest, b: JoinAnswers)
    requires Inv(s) && Rejoins(s, side, q, a) && Rejoins(s, Other(side), r, b) && Companions(q, r)
    requires NamesOwnMeeting(s.world.db, q.participant, q.meeting) && a.created != b.created
    ensures Inv(AfterJoin(s, side, q, a)) && Completes(AfterJoin(s, side, q, a), Other(side), r, b)
  {
    JoinKeepsInv(s, side, q, a);
    FirstRejoin(s, side, q, a);
    RejoinedMissesOther(s.world.db, side, q, a.created.value);
    RouterStaysStored(s.world.db, side, q, a.created.value, r.router);
  }

  lemma RejoinedMissesOther(db: Table, side: Side, q: JoinRequest, t: Id)
    ensures Missing(RejoinedTable(db, side, q, t), Other(side), q.participant)
  {
  }

  lemma RouterStaysStored(db: Table, side: Side, q: JoinRequest, t: Id, router: Id)
    requires KeyStored(db, RouterKey(router))
    ensures KeyStored(RejoinedTable(db, side, q, t), RouterKey(router))
  {
  }

  function BothTable(db: Table, q: JoinRequest, t: Id, r: JoinRequest, u: Id): Table {
    var p := q.participant;
    Without(db, p)[Member(q.meeting, p, q.instance) := 1]
                  [ProducerRouter(p, q.router) := 1][ProducerTransport(p, t) := 1]
                  [ConsumerRouter(p, r.router) := 1][ConsumerTransport(p, u) := 1]
  }

  function BothMemory(mem: Memory, q: JoinRequest, t: Id, r: JoinRequest, u: Id): Memory {
    var named := Ids(q.oldProducerTransport) + Ids(q.oldConsumerTransport);
    CloseOtherInstances(mem, q.participant, q.meeting, q.instance).(
      transports := (mem.transports - named)[t := TransportEntry(q.meeting, q.participant, Producing)]
                                            [u := TransportEntry(q.meeting, q.participant, Consuming)])
  }

  /** The two calls commute: both orders end in the same tables and memory, which hold both new
      transports; in particular the second call does not remove the transport of the first. */
  lemma RejoinsCommute(s: System, q: JoinRequest, a: JoinAnswers, r: JoinRequest, b: JoinAnswers)
    requires Inv(s) && Rejoins(s, Producing, q, a) && Rejoins(s, Consuming, r, b) && Companions(q, r)
    requires NamesOwnMeeting(s.world.db, q.participant, q.meeting) && a.created != b.created
    ensures var both := World(BothTable(s.world.db, q, a.created.value, r, b.created.value),
                              BothMemory(s.world.mem, q, a.created.value, r, b.created.value));
            && Joined(Joined(s.world, Producing, q, a), Consuming, r, b) == both
            && Joined(Joined(s.world, Consuming, r, b), Producing, q, a) == both
  {
    ProducingFirst(s, q, a, r, b);
    ConsumingFirst(s, q, a, r, b);
  }

  /** In either order both calls are clean when the client names its current transports as the old ones. */
  lemma RejoinsAreClean(s: System, side: Side, q: JoinRequest, a: JoinAnswers, r: JoinRequest, b: JoinAnswers)
    requires Inv(s) && Rejoins(s, side, q, a) && Rejoins(s, Other(side), r, b) && Companions(q, r)
    requires NamesOwnMeeting(s.world.db, q.participant, q.meeting) && a.created != b.created
    requires NamesOwnTransports(s.world.mem, OldTransports(q), q.participant)
    ensures Clean(s, Join(side, q, a)) && Clean(AfterJoin(s, side, q, a), Join(Other(side), r, b))
  {
    FirstLeadsToSecond(s, side, q, a, r, b);
    hide Inv, Superseded, KeyStored, Missing, NamesOwnTransports, AfterJoin, RegisterFor;
    MembersJoinIsClean(AfterJoin(s, side, q, a), Other(side), r, b);
  }

  lemma ProducingFirst(s: System, q: JoinRequest, a: JoinAnswers, r: JoinRequest, b: JoinAnswers)
    requires Inv(s) && Rejoins(s, Producing, q, a) && Rejoins(s, Consuming, r, b) && Companions(q, r)
    requires NamesOwnMeeting(s.world.db, q.participant, q.meeting) && a.created != b.created
    ensures Joined(Joined(s.world, Producing, q, a), Consuming, r, b) ==
            World(BothTable(s.world.db, q, a.created.value, r, b.created.value),
                  BothMemory(s.world.mem, q, a.created.value, r, b.created.value))
  {
    FirstRejoin(s, Producing, q, a);
    FirstLeadsToSecond(s, Producing, q, a, r, b);
    SecondRejoin(AfterJoin(s, Producing, q, a), Consuming, r, b);
  }

  lemma ConsumingFirst(s: System, q: JoinRequest, a: JoinAnswers, r: JoinRequest, b: JoinAnswers)
    requires Inv(s) && Rejoins(s, Producing, q, a) && Rejoins(s, Consuming, r, b) && Companions(q, r)
    requires NamesOwnMeeting(s.world.db, q.participant, q.meeting) && a.created != b.created
    ensures Joined(Joined(s.world, Consuming, r, b), Producing, q, a) ==
            World(BothTable(s.world.db, q, a.created.value, r, b.created.value),
                  BothMemory(s.world.mem, q, a.created.value, r, b.created.value))
  {
    FirstRejoin(s, Consuming, r, b);
    FirstLeadsToSecond(s, Consuming, r, b, q, a);
    SecondRejoin(AfterJoin(s, Consuming, r, b), Producing, q, a);
    SameRows(s.world.db, q, a.created.value, r, b.created.value);
    SameTransports(s.world.mem, q, a.created.value, r, b.created.value);
  }

  lemma SameRows(db: Table, q: JoinRequest, t: Id, r: JoinRequest, u: Id)
    requires Companions(q, r)
    ensures CompletedTable(RejoinedTable(db, Consuming, r, u), Producing, q, t) == BothTable(db, q, t, r, u)
  {
  }

  lemma SameTransports(mem: Memory, q: JoinRequest, t: Id, r: JoinRequest, u: Id)
    requires Companions(q, r) && t != u
    ensures CompletedMemory(RejoinedMemory(mem, Consuming, r, u), Producing, q, t) == BothMemory(mem, q, t, r, u)
  {
    var named := Ids(q.oldProducerTransport) + Ids(q.oldConsumerTransport);
    var p, c := TransportEntry(q.meeting, q.participant, Producing),
                TransportEntry(q.meeting, q.participant, Consuming);
    assert (mem.transports - named)[u := c][t := p] == (mem.transports - named)[t := p][u := c];
  }

  /** What is left of the participant afterwards: of its rows only the five new ones; none of the named
      old transports, none of its producers with their plain transports, none of its consumers, and none
      of the consumers that its producers fed. Everyone else's entries stay; when the named transports are
      the participant's current ones, its only transports are the two new ones. */
  lemma OldInstanceIsGone(s: System, q: JoinRequest, t: Id, r: JoinRequest, u: Id)
    requires Inv(s) && Superseded(s.world.db, q.participant, q.meeting, q.instance) && Companions(q, r)
    requires t !in s.minted && u !in s.minted
    ensures var p, mem, after := q.participant, s.world.mem, BothMemory(s.world.mem, q, t, r, u);
            && (forall row :: row in BothTable(s.world.db, q, t, r, u) && About(row, p) <==>
                  row in {Member(q.meeting, p, q.instance), ProducerRouter(p, q.router), ConsumerRouter(p, r.router),
                          ProducerTransport(p, t), ConsumerTransport(p, u)})
            && (forall x :: x in mem.transports && x in OldTransports(q) ==> x !in after.transports)
            && (forall x :: x in mem.transports && x !in OldTransports(q) ==>
                  x in after.transports && after.transports[x] == mem.transports[x])
            && (NamesOwnTransports(mem, OldTransports(q), p) ==>
                  after.transports == OthersTransports(mem.transports, p)[t := TransportEntry(q.meeting, p, Producing)]
                                                                         [u := TransportEntry(q.meeting, p, Consuming)])
            && after.producers == OthersProducers(mem.producers, p)
            && after.plainTransports == OnlyFor(mem.plainTransports, after.producers.Keys)
            && after.plainConsumers == OnlyFor(mem.plainConsumers, after.producers.Keys)
            && Shrinks(mem, after)
            && forall j, c :: 0 <= j < |mem.shards| && c in mem.shards[j] ==>
                 (c in after.shards[j] <==> StaysAfterLeave(mem, mem.shards[j][c], p))
  {
    var p, mem := q.participant, s.world.mem;
    NewTransportsAreFresh(s, t, u);
    TransportsAfterBoth(mem, q, t, r, u);
    RowsAfterBoth(s.world.db, q, t, r, u);
    SupersededRegistry(s.world.db, mem, q);
    ClosedExactly(s.world.db, mem, p, q.meeting, q.instance);
    hide Inv, CloseOtherInstances, BothTable, OthersTransports, OthersProducers,
         NamesOwnTransports, StaysAfterLeave, OnlyFor;
  }

  function OthersTransports(transports: map<Id, TransportEntry>, p: Id): map<Id, TransportEntry> {
    map x | x in transports && transports[x].participant != p :: transports[x]
  }

  lemma NewTransportsAreFresh(s: System, t: Id, u: Id)
    requires Inv(s) && t !in s.minted && u !in s.minted
    ensures t !in s.world.mem.transports && u !in s.world.mem.transports
  {
  }

  lemma TransportsAfterBoth(mem: Memory, q: JoinRequest, t: Id, r: JoinRequest, u: Id)
    requires t !in mem.transports && u !in mem.transports
    ensures var p, after := q.participant, BothMemory(mem, q, t, r, u);
            && (forall x :: x in mem.transports && x in OldTransports(q) ==> x !in after.transports)
            && (forall x :: x in mem.transports && x !in OldTransports(q) ==>
                  x in after.transports && after.transports[x] == mem.transports[x])
            && (NamesOwnTransports(mem, OldTransports(q), p) ==>
                  after.transports == OthersTransports(mem.transports, p)[t := TransportEntry(q.meeting, p, Producing)]
                                                                         [u := TransportEntry(q.meeting, p, Consuming)])
  {
    hide CloseOtherInstances;
    if NamesOwnTransports(mem, OldTransports(q), q.participant) {
      assert mem.transports - OldTransports(q) == OthersTransports(mem.transports, q.participant);
    }
  }

  lemma RowsAfterBoth(db: Table, q: JoinRequest, t: Id, r: JoinRequest, u: Id)
    ensures var p := q.participant;
            forall row :: row in BothTable(db, q, t, r, u) && About(row, p) <==>
              row in {Member(q.meeting, p, q.instance), ProducerRouter(p, q.router), ConsumerRouter(p, r.router),
                      ProducerTransport(p, t), ConsumerTransport(p, u)}
  {
  }

  lemma SupersededRegistry(db: Table, mem: Memory, q: JoinRequest)
    requires Consistent(db) && ProducersAgree(db, mem.producers) && PlainTracked(mem)
    requires Superseded(db, q.participant, q.meeting, q.instance)
    ensures var left := CloseOtherInstances(mem, q.participant, q.meeting, q.instance);
            && left.producers == OthersProducers(mem.producers, q.participant)
            && left.plainTransports == OnlyFor(mem.plainTransports, left.producers.Keys)
            && left.plainConsumers == OnlyFor(mem.plainConsumers, left.producers.Keys)
  {
    var stale := ProducersExcludingInstance(mem.producers, q.participant, q.meeting, q.instance);
    StaleProducersAreThose(db, mem.producers, q.participant, q.meeting, q.instance);
    PlainFollow(mem, stale);
    ClosedDropsStale(mem, q.participant, q.meeting, q.instance);
    hide Consistent, ProducersAgree, CloseOtherInstances, ProducersExcludingInstance;
    assert mem.producers - stale == OthersProducers(mem.producers, q.participant);
  }
}
