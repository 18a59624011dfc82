/** What each request of a session is told, and what it leaves behind in memory and in the tables. */
module Answers {
  import opened Common
  import opened Schema
  import opened Dao
  import opened Executor
  import opened Erasure
  import opened Session
  import opened Outcomes
  import opened Membership
  import opened Invariants
  import opened Joining
  import opened Producing
  import opened Consuming
  import opened Leaving
  import opened Runs
  import opened Transports
  import Failures

  // ----- Joining -----

  /** A join that succeeds answers with a transport that is in memory for this participant, in this meeting
      and on this side. */
  lemma JoinNamesItsTransport(w: World, side: Side, q: JoinRequest, a: JoinAnswers, t: Id)
    requires JoinReply(w, side, q, a, Success(t))
    ensures var transports := Joined(w, side, q, a).mem.transports;
            t in transports && transports[t] == TransportEntry(q.meeting, q.participant, side)
  {
    hide RegisterFor, OthersClosed, Obstructed, TransportInserted;
    OthersClosedKeeps(w.mem, q.participant, q.meeting, q.instance, a.removed);
  }

  /** A join that stores the transport made for it answers with that transport, and its row is in the table
      of its side. */
  lemma NewTransportIsAnswered(w: World, side: Side, q: JoinRequest, a: JoinAnswers, t: Id, reply: Reply<Id>)
    requires a.created == Some(t) && t !in w.mem.transports && t in Joined(w, side, q, a).mem.transports
    ensures JoinReply(w, side, q, a, reply) <==> reply == Success(t)
    ensures (if side.Producing? then ProducerTransport(q.participant, t) else ConsumerTransport(q.participant, t))
            in Joined(w, side, q, a).db
  {
    hide RegisterFor, OthersClosed, Obstructed, Transact;
    OthersClosedKeeps(w.mem, q.participant, q.meeting, q.instance, a.removed);
    var now := RegisterFor(w.db, side, q, a.membership).0;
    SingleStatement(now, Insert(TransportRow(side, q.participant, t)), a.transport);
  }

  /** After a successful join the participant is a member under the requested instance and has a router on
      this side, which is the requested one if it was not a member under that instance before. */
  lemma JoinRegisters(s: System, side: Side, q: JoinRequest, a: JoinAnswers, t: Id)
    requires Inv(s) && NamesOwnMeeting(s.world.db, q.participant, q.meeting)
    requires JoinReply(s.world, side, q, a, Success(t))
    ensures var db := Joined(s.world, side, q, a).db;
            && Member(q.meeting, q.participant, q.instance) in db
            && (exists router :: (if side.Producing? then ProducerRouter(q.participant, router)
                                  else ConsumerRouter(q.participant, router)) in db)
            && (Member(q.meeting, q.participant, q.instance) !in s.world.db ==>
                  (if side.Producing? then ProducerRouter(q.participant, q.router)
                   else ConsumerRouter(q.participant, q.router)) in db)
  {
    hide Inv, RegisterFor, Consistent, OwnTransports, AddTransport, AddTransportReply, OthersClosed, Obstructed;
    AgreeIsConsistent(s);
    RegisteredAsRequested(s.world.db, side, q, a.membership);
    RegisteredRouter(s.world.db, side, q, a.membership);
    TransportAddsRows(Readmitted(s.world, side, q, a), side, q, a, Forgotten(s.world.db, side, q, a.membership));
  }

  lemma TransportAddsRows(w: World, side: Side, q: JoinRequest, a: JoinAnswers, named: set<Id>)
    ensures var after := AddTransport(w, side, q.router, q.participant, q.meeting, named, a.created, a.transport);
            && (forall r :: r in w.db ==> r in after.db)
            && (forall r :: !About(r, q.participant) ==>
                  (r in w.db <==> r in after.db) && (r in w.db ==> after.db[r] == w.db[r]))
  {
    if a.created.Some? {
      SingleStatement(w.db, Insert(TransportRow(side, q.participant, a.created.value)), a.transport);
    }
    hide Transact;
  }

  lemma RegisteredRouter(db: Table, side: Side, q: JoinRequest, link: Link)
    requires Consistent(db) && NamesOwnMeeting(db, q.participant, q.meeting)
    requires RegisterFor(db, side, q, link).1.Success?
    ensures var after := RegisterFor(db, side, q, link).0;
            && (exists router :: (if side.Producing? then ProducerRouter(q.participant, router)
                                  else ConsumerRouter(q.participant, router)) in after)
            && (Member(q.meeting, q.participant, q.instance) !in db ==>
                  (if side.Producing? then ProducerRouter(q.participant, q.router)
                   else ConsumerRouter(q.participant, q.router)) in after)
  {
    var p, m, i := q.participant, q.meeting, q.instance;
    var producing := if side.Producing? then Some(q.router) else None;
    var consuming := if side.Consuming? then Some(q.router) else None;
    RegisterEffect(db, p, m, i, producing, consuming, link);
    MemberAfterEviction(db, p, m, i);
    if !HasMember(Evicted(db, p, m, i), p) {
      NewcomerHasNoRouter(db, p, m, i, side, q.router);
    } else {
      hide Consistent, Evicted;
      var r :| r in db && r.Member? && r.participant == p;
      assert r == Member(m, p, i) || Superseded(db, p, m, i);
    }
    RouterIsThere(Admitted(db, p, m, i), side, p, q.router);
  }

  /** After the router's insertion, skipped or not, the participant has a router on this side. */
  lemma RouterIsThere(db: Table, side: Side, p: Id, router: Id)
    ensures exists x :: (if side.Producing? then ProducerRouter(p, x) else ConsumerRouter(p, x))
                        in Ensured(db, RouterRow(side, p, router))
    ensures !Conflicts(db, RouterRow(side, p, router)) ==>
              (if side.Producing? then ProducerRouter(p, router) else ConsumerRouter(p, router))
              in Ensured(db, RouterRow(side, p, router))
  {
    if Conflicts(db, RouterRow(side, p, router)) {
      var r, k :| r in db && k in Provides(RouterRow(side, p, router)) && k in Provides(r);
      assert r == if side.Producing? then ProducerRouter(p, r.router) else ConsumerRouter(p, r.router);
    }
  }

  /** Which rows a join, successful or not, can touch: those about its participant. */
  lemma JoinSparesOtherRows(s: System, side: Side, q: JoinRequest, a: JoinAnswers)
    requires Inv(s)
    ensures var (db, after) := (s.world.db, Joined(s.world, side, q, a).db);
            forall r :: !About(r, q.participant) ==> (r in db <==> r in after) && (r in db ==> after[r] == db[r])
  {
    AgreeIsConsistent(s);
    hide Inv, RegisterFor, Consistent, OwnTransports, OthersClosed, Obstructed, AddTransport, Forgotten, About;
    if RegisterFor(s.world.db, side, q, a.membership).1.Success? {
      RegistrationSparesOthers(s.world.db, side, q, a.membership);
      TransportAddsRows(Readmitted(s.world, side, q, a), side, q, a, Forgotten(s.world.db, side, q, a.membership));
    }
  }

  lemma RegistrationSparesOthers(db: Table, side: Side, q: JoinRequest, link: Link)
    requires Consistent(db) && OwnTransports(db.Keys) && RegisterFor(db, side, q, link).1.Success?
    ensures var after := RegisterFor(db, side, q, link).0;
            forall r :: !About(r, q.participant) ==> (r in db <==> r in after) && (r in db ==> after[r] == db[r])
  {
    var p, m, i := q.participant, q.meeting, q.instance;
    RegisterEffect(db, p, m, i, if side.Producing? then Some(q.router) else None,
                   if side.Consuming? then Some(q.router) else None, link);
    EvictionEffect(db, p, m, i);
    hide Consistent, OwnTransports, Evicted, Superseded, RegisterFor, Conflicts;
  }

  /** What a registered join does to memory, apart from consumers: a superseded instance's producers go with
      their plain transports, the transport made for the join replaces those it names, if it is stored, and
      nothing else changes. */
  lemma JoinRemembers(s: System, side: Side, q: JoinRequest, a: JoinAnswers)
    requires Inv(s) && RegisterFor(s.world.db, side, q, a.membership).1.Success?
    ensures var (mem, left) := (s.world.mem, Joined(s.world, side, q, a).mem);
            var superseded := Superseded(s.world.db, q.participant, q.meeting, q.instance);
            && left.hash == mem.hash && left.workers == mem.workers && left.routers == mem.routers
            && left.producers == (if superseded then OthersProducers(mem.producers, q.participant) else mem.producers)
            && left.plainTransports == OnlyFor(mem.plainTransports, left.producers.Keys)
            && left.plainConsumers == OnlyFor(mem.plainConsumers, left.producers.Keys)
            && (left.transports == mem.transports
                || (a.created.Some? && left.transports ==
                      (if HasMember(s.world.db, q.participant) && !superseded then mem.transports
                       else mem.transports - (Ids(q.oldProducerTransport) + Ids(q.oldConsumerTransport)))
                      [a.created.value := TransportEntry(q.meeting, q.participant, side)]))
  {
    hide *;
    AgreeIsConsistent(s);
    RegistrationErasesTransports(s.world.db, side, q, a.membership);
    ClosedRegistry(s, q.participant, q.meeting, q.instance, a.removed);
    JoinsTransports(s.world, side, q, a);
  }

  lemma JoinsTransports(w: World, side: Side, q: JoinRequest, a: JoinAnswers)
    requires RegisterFor(w.db, side, q, a.membership).1.Success?
    ensures var left := OthersClosed(w.mem, q.participant, q.meeting, q.instance, a.removed);
            || Joined(w, side, q, a).mem == left
            || (a.created.Some? && Joined(w, side, q, a).mem == left.(transports :=
                  (if !RegisterFor(w.db, side, q, a.membership).1.value then left.transports
                   else left.transports - (Ids(q.oldProducerTransport) + Ids(q.oldConsumerTransport)))
                  [a.created.value := TransportEntry(q.meeting, q.participant, side)]))
  {
    hide RegisterFor, OthersClosed, Obstructed, TransportInserted;
  }

  lemma ClosedRegistry(s: System, p: Id, m: Id, i: Id, removed: bool)
    requires Inv(s)
    ensures var (mem, left) := (s.world.mem, OthersClosed(s.world.mem, p, m, i, removed));
            && left.hash == mem.hash && left.workers == mem.workers
            && left.routers == mem.routers && left.transports == mem.transports
            && left.producers ==
               (if Superseded(s.world.db, p, m, i) then OthersProducers(mem.producers, p) else mem.producers)
            && left.plainTransports == OnlyFor(mem.plainTransports, left.producers.Keys)
            && left.plainConsumers == OnlyFor(mem.plainConsumers, left.producers.Keys)
  {
    hide Superseded, ProducersExcludingInstance, Obstructed, CloseUntilRefused, CloseOtherInstances, OnlyFor,
         OthersProducers, Inv;
    var mem, stale := s.world.mem, ProducersExcludingInstance(s.world.mem.producers, p, m, i);
    StaleAreTheSuperseded(s, p, m, i);
    ClosedFollows(mem, CloseUntilRefused(mem, p, m, i), stale);
    ClosedFollows(mem, CloseOtherInstances(mem, p, m, i), stale);
  }

  lemma StaleAreTheSuperseded(s: System, p: Id, m: Id, i: Id)
    requires Inv(s)
    ensures var (mem, stale) := (s.world.mem, ProducersExcludingInstance(s.world.mem.producers, p, m, i));
            && PlainTracked(mem)
            && DropsStale(mem, CloseUntilRefused(mem, p, m, i), stale)
            && DropsStale(mem, CloseOtherInstances(mem, p, m, i), stale)
            && mem.producers - stale ==
               if Superseded(s.world.db, p, m, i) then OthersProducers(mem.producers, p) else mem.producers
  {
    var mem, stale := s.world.mem, ProducersExcludingInstance(s.world.mem.producers, p, m, i);
    hide CloseUntilRefused, CloseOtherInstances, DropsStale, Superseded, ProducersExcludingInstance, ConsumersBacked;
    RefusedDropsStale(mem, p, m, i);
    ClosedDropsStale(mem, p, m, i);
    forall x | x in mem.producers
      ensures x in stale <==> Superseded(s.world.db, p, m, i) && mem.producers[x].participant == p
    {
      StaleProducer(s.world.db, mem.producers, p, m, i, x);
    }
  }

  lemma ClosedFollows(mem: Memory, left: Memory, stale: set<Id>)
    requires DropsStale(mem, left, stale) && PlainTracked(mem)
    ensures left.plainTransports == OnlyFor(mem.plainTransports, left.producers.Keys)
    ensures left.plainConsumers == OnlyFor(mem.plainConsumers, left.producers.Keys)
  {
  }

  /** A producer that another instance of the participant left in the meeting. */
  predicate IsStale(mem: Memory, q: JoinRequest, x: Id) {
    && x in mem.producers && mem.producers[x].participant == q.participant && mem.producers[x].meeting == q.meeting
    && mem.producers[x].instance != q.instance
  }

  /** Only a producer of a superseded instance can make the recording pipeline stop a join, which then fails. */
  lemma JoinIsRefusedIff(w: World, side: Side, q: JoinRequest, a: JoinAnswers)
    requires RegisterFor(w.db, side, q, a.membership).1.Success?
    ensures JoinObstructed(w, q, a) <==>
            !a.removed && exists x :: IsStale(w.mem, q, x)
    ensures JoinObstructed(w, q, a) ==> forall reply :: JoinReply(w, side, q, a, reply) <==> reply == Failure(Failed)
  {
    hide RegisterFor, OthersClosed, AddTransportReply;
    var stale := ProducersExcludingInstance(w.mem.producers, q.participant, q.meeting, q.instance);
    assert forall x :: x in stale <==> IsStale(w.mem, q, x);
  }

  /** A join panics exactly without a connection for one of its transactions, or when it gets to an unknown
      router. */
  lemma JoinPanicsIff(w: World, side: Side, q: JoinRequest, a: JoinAnswers)
    ensures JoinReply(w, side, q, a, Failure(Unwound)) <==>
            || !a.membership.connected
            || (RegisterFor(w.db, side, q, a.membership).1.Success? && !JoinObstructed(w, q, a)
                && (q.router !in w.mem.routers || (a.created.Some? && !a.transport.connected)))
  {
    RegistrationPanicsIff(w.db, side, q, a.membership);
    OthersClosedKeeps(w.mem, q.participant, q.meeting, q.instance, a.removed);
    if a.created.Some? {
      Failures.PanicsWithoutConnection(RegisterFor(w.db, side, q, a.membership).0,
                                       [Insert(TransportRow(side, q.participant, a.created.value))], true, a.transport);
    }
    hide RegisterFor, OthersClosed, Obstructed, Transact;
  }

  lemma RegistrationPanicsIff(db: Table, side: Side, q: JoinRequest, link: Link)
    ensures RegisterFor(db, side, q, link).1 == Failure(Unwound) <==> !link.connected
  {
    var producing := if side.Producing? then Some(q.router) else None;
    var consuming := if side.Consuming? then Some(q.router) else None;
    Failures.PanicsWithoutConnection(
      db, MembershipStatements(q.participant, q.meeting, q.instance, producing, consuming), false, link);
    hide Transact, MembershipStatements;
  }

  /** In a state whose transports agree, a registered join that gets through to its transaction succeeds when
      the database answers: a refused duplicate always has its transport in memory. */
  lemma JoinSucceeds(s: System, side: Side, q: JoinRequest, a: JoinAnswers, reply: Reply<Id>)
    requires Inv(s) && TransportsAgree(s.world.db, s.world.mem.transports, s.issued)
    requires NamesOwnMeeting(s.world.db, q.participant, q.meeting)
    requires a.created.Some? && a.created.value !in s.minted
    requires RegisterFor(s.world.db, side, q, a.membership).1.Success? && !JoinObstructed(s.world, q, a)
    requires q.router in s.world.mem.routers && Reliable(a.transport) && RollsBack(a.transport)
    requires JoinReply(s.world, side, q, a, reply)
    ensures reply.Success?
  {
    hide *;
    var now := RegisterFor(s.world.db, side, q, a.membership).0;
    var row := TransportRow(side, q.participant, a.created.value);
    if InsertRow(now, row).Applied? {
      AppliedIsAnswered(s.world, side, q, a, reply);
    } else {
      RefusedIsRepeated(s, side, q, a);
      var t :| TransportRow(side, q.participant, t) in s.world.db;
      RepeatedJoinReusesTransport(s, side, q, a, t);
    }
  }

  lemma AppliedIsAnswered(w: World, side: Side, q: JoinRequest, a: JoinAnswers, reply: Reply<Id>)
    requires RegisterFor(w.db, side, q, a.membership).1.Success? && !JoinObstructed(w, q, a)
    requires q.router in w.mem.routers && a.created.Some? && Reliable(a.transport)
    requires InsertRow(RegisterFor(w.db, side, q, a.membership).0,
                       TransportRow(side, q.participant, a.created.value)).Applied?
    requires JoinReply(w, side, q, a, reply)
    ensures reply.Success?
  {
    hide RegisterFor, OthersClosed, Obstructed, Transact, InsertRow;
    OthersClosedKeeps(w.mem, q.participant, q.meeting, q.instance, a.removed);
    SingleStatement(RegisterFor(w.db, side, q, a.membership).0,
                    Insert(TransportRow(side, q.participant, a.created.value)), a.transport);
  }

  /** Only a member who has a transport on this side already has the new one refused. */
  lemma RefusedIsRepeated(s: System, side: Side, q: JoinRequest, a: JoinAnswers)
    requires Inv(s) && NamesOwnMeeting(s.world.db, q.participant, q.meeting)
    requires a.created.Some? && a.created.value !in s.minted
    requires RegisterFor(s.world.db, side, q, a.membership).1.Success?
    requires !InsertRow(RegisterFor(s.world.db, side, q, a.membership).0,
                        TransportRow(side, q.participant, a.created.value)).Applied?
    ensures Member(q.meeting, q.participant, q.instance) in s.world.db
    ensures exists t :: TransportRow(side, q.participant, t) in s.world.db
  {
    var db, t := s.world.db, a.created.value;
    hide Inv, RegisterFor, Consistent, OwnTransports, InsertRow, Superseded;
    AgreeIsConsistent(s);
    if RegisterFor(db, side, q, a.membership).1.value {
      assert RegisterFor(db, side, q, a.membership).1 == Success(true);
      NewcomersTransportIsAccepted(s, side, q, a);
      assert false;
    } else {
      RegistrationErasesTransports(db, side, q, a.membership);
      OldMember(db, q);
      RepeatedRegistration(db, side, q, a.membership);
      MintedUnused(s, t);
      if forall x :: TransportRow(side, q.participant, x) !in db {
        FirstTransportFits(db, side, q, t);
      }
    }
  }

  lemma OldMember(db: Table, q: JoinRequest)
    requires HasMember(db, q.participant) && !Superseded(db, q.participant, q.meeting, q.instance)
    requires NamesOwnMeeting(db, q.participant, q.meeting)
    ensures Member(q.meeting, q.participant, q.instance) in db
  {
  }

  lemma MintedUnused(s: System, t: Id)
    requires Inv(s) && t !in s.minted
    ensures forall r :: r in s.world.db && (r.ProducerTransport? || r.ConsumerTransport?) ==> r.transport != t
  {
  }

  lemma FirstTransportFits(db: Table, side: Side, q: JoinRequest, t: Id)
    requires Member(q.meeting, q.participant, q.instance) in db
    requires forall x :: TransportRow(side, q.participant, x) !in db
    requires forall r :: r in db && (r.ProducerTransport? || r.ConsumerTransport?) ==> r.transport != t
    ensures InsertRow(Ensured(db, RouterRow(side, q.participant, q.router)),
                      TransportRow(side, q.participant, t)).Applied?
  {
    var now, row := Ensured(db, RouterRow(side, q.participant, q.router)), TransportRow(side, q.participant, t);
    assert MemberKey(q.participant) in Provides(Member(q.meeting, q.participant, q.instance));
    assert Member(q.meeting, q.participant, q.instance) in now;
    forall r, k | r in now && k in Provides(row) ensures k !in Provides(r) {
      if r.ProducerTransport? || r.ConsumerTransport? {
        assert r in db;
        assert r.participant == q.participant ==> r != TransportRow(side, q.participant, r.transport);
      }
    }
  }

  // ----- Creating a producer -----

  /** The letters of `s` are those of the lower-case word `t`, in either case. */
  predicate Spells(s: string, t: string) {
    && |s| == |t|
    && forall i :: 0 <= i < |s| ==> s[i] == t[i] || ('a' <= t[i] <= 'z' && s[i] == t[i] - 'a' + 'A')
  }

  lemma KindsAreSpelled(s: string)
    ensures ParseKind(s) == Some(Video) <==> Spells(s, "video")
    ensures ParseKind(s) == Some(Audio) <==> Spells(s, "audio")
    ensures ParseKind(s) == Some(ScreenShare) <==> Spells(s, "screenshare")
  {
    LowercaseSpells(s, "video");
    LowercaseSpells(s, "audio");
    LowercaseSpells(s, "screenshare");
    hide Lowercase, Spells;
    assert |"video"| != |"screenshare"| && |"audio"| != |"screenshare"| && "video"[0] != "audio"[0];
  }

  lemma LowercaseSpells(s: string, t: string)
    requires forall i :: 0 <= i < |t| ==> 'a' <= t[i] <= 'z'
    ensures Lowercase(s) == t <==> Spells(s, t)
  {
  }

  /** Every step of recording the producer succeeded. */
  predicate RecordingWorks(r: RecordingSteps) {
    r.plain.Some? && r.folder && r.started && r.connected && r.consumer.Some? && r.resumed
  }

  /** The first `n` consumer routers are known, and the producer was piped to them. */
  predicate PipedTo(mem: Memory, q: ProducerRequest, a: ProducerAnswers, n: nat)
    requires n <= |q.consumerRouters|
  {
    forall i: nat :: i < n ==> q.consumerRouters[i] in mem.routers && a.piped(i)
  }

  /** The first consumer router that stops the create is number `i`, which is unknown. */
  predicate RouterMissingAt(mem: Memory, q: ProducerRequest, a: ProducerAnswers, i: nat) {
    i < |q.consumerRouters| && q.consumerRouters[i] !in mem.routers && PipedTo(mem, q, a, i)
  }

  lemma {:induction false} PipesInTurn(mem: Memory, q: ProducerRequest, a: ProducerAnswers, n: nat)
    requires n <= |q.consumerRouters| && PipedTo(mem, q, a, n)
    ensures PipeObstacle(mem, q.consumerRouters, a.piped, n).None? <==> PipedTo(mem, q, a, |q.consumerRouters|)
    ensures PipeObstacle(mem, q.consumerRouters, a.piped, n) == Some(Unwound) <==>
            exists i: nat :: n <= i && RouterMissingAt(mem, q, a, i)
    decreases |q.consumerRouters| - n
  {
    if n < |q.consumerRouters| {
      if q.consumerRouters[n] !in mem.routers {
        assert RouterMissingAt(mem, q, a, n);
      } else if a.piped(n) {
        PipesInTurn(mem, q, a, n + 1);
      }
    }
  }

  /** What it takes for a create to reach the database. */
  predicate Serves(mem: Memory, q: ProducerRequest, a: ProducerAnswers) {
    && q.transport in mem.transports && ParseKind(q.kind).Some? && a.produced.Some?
    && (q.record ==> RecordingWorks(a.recording))
    && q.router in mem.routers && PipedTo(mem, q, a, |q.consumerRouters|)
  }

  /** It panics on an unknown transport, and, once the producer is made, on the first unknown router. */
  ghost predicate FindsNoRouter(mem: Memory, q: ProducerRequest, a: ProducerAnswers) {
    || q.transport !in mem.transports
    || (ParseKind(q.kind).Some? && a.produced.Some?
        && (q.router !in mem.routers
            || ((q.record ==> RecordingWorks(a.recording))
                && exists i: nat :: RouterMissingAt(mem, q, a, i))))
  }

  lemma ObstaclesAre(mem: Memory, q: ProducerRequest, a: ProducerAnswers)
    ensures ProducerObstacle(mem, q, a).None? <==> Serves(mem, q, a)
    ensures ProducerObstacle(mem, q, a) == Some(Unwound) <==> FindsNoRouter(mem, q, a)
  {
    PipesInTurn(mem, q, a, 0);
    hide ParseKind, PipeObstacle;
  }

  /** The participant has a producer of this spelling in the meeting. */
  predicate HasProducer(mem: Memory, q: ProducerRequest, x: Id) {
    && x in mem.producers && mem.producers[x].meeting == q.meeting
    && mem.producers[x].participant == q.participant && mem.producers[x].kind == q.kind
  }

  /** A create that stores its producer answers with it, stores its row, and remembers it with exactly the plain
      transport and the consumer that record it, if it is recorded. */
  lemma NewProducerIsAnswered(w: World, q: ProducerRequest, a: ProducerAnswers, x: Id, reply: Reply<Id>)
    requires a.produced == Some(x) && x !in w.mem.producers && x in ProducerCreated(w, q, a).mem.producers
    ensures ProducerReply(w, q, a, reply) <==> reply == Success(x)
    ensures forall y :: !HasProducer(w.mem, q, y)
    ensures Serves(w.mem, q, a)
    ensures var (db, after, row) := (w.db, ProducerCreated(w, q, a).db,
                                     Producer(q.participant, 1, q.kind, x, q.meeting, q.transport));
            after == db[row := if row in db then db[row] + 1 else 1]
    ensures ProducerCreated(w, q, a).mem == w.mem.(
              producers := w.mem.producers[x := ProducerEntry(q.meeting, q.participant, q.kind, q.instance)],
              plainTransports := if q.record then w.mem.plainTransports[x := a.recording.plain.value]
                                 else w.mem.plainTransports,
              plainConsumers := if q.record then w.mem.plainConsumers[x := a.recording.consumer.value]
                                else w.mem.plainConsumers)
  {
    ObstaclesAre(w.mem, q, a);
    ExistingIs(w.mem, q);
    SingleStatement(w.db, Insert(Producer(q.participant, 1, q.kind, x, q.meeting, q.transport)), a.link);
    hide ProducerObstacle, Transact, ParseKind, PipedTo, Conflicts, Dangles;
  }

  lemma ExistingIs(mem: Memory, q: ProducerRequest)
    ensures forall x ::
              x in ProducersOfKind(mem.producers, q.meeting, q.participant, q.kind) <==> HasProducer(mem, q, x)
  {
  }

  /** Any other create changes nothing, and if it succeeds it answers with a producer of this spelling that was
      there before. */
  lemma OtherCreatesChangeNothing(w: World, q: ProducerRequest, a: ProducerAnswers, reply: Reply<Id>)
    requires a.produced.Some? ==> a.produced.value !in ProducerCreated(w, q, a).mem.producers
    requires ProducerReply(w, q, a, reply)
    ensures ProducerCreated(w, q, a) == w
    ensures reply.Success? ==> HasProducer(w.mem, q, reply.value)
    ensures reply.Failure? ==> forall y :: !HasProducer(w.mem, q, y)
  {
    ExistingIs(w.mem, q);
    ObstaclesAre(w.mem, q, a);
    hide ProducerObstacle, Transact, PipedTo, ParseKind;
  }

  /** A create panics exactly when there is nothing to answer with and it finds no router or, being served, no
      connection. */
  lemma CreatePanicsIff(w: World, q: ProducerRequest, a: ProducerAnswers)
    ensures ProducerReply(w, q, a, Failure(Unwound)) <==>
            && (forall x :: !HasProducer(w.mem, q, x))
            && (FindsNoRouter(w.mem, q, a) || (Serves(w.mem, q, a) && !a.link.connected))
  {
    ObstaclesAre(w.mem, q, a);
    ExistingIs(w.mem, q);
    if a.produced.Some? {
      Failures.PanicsWithoutConnection(w.db, [Insert(ProducerRow(q, a.produced.value))], true, a.link);
    }
    hide ProducerObstacle, Transact, FindsNoRouter, HasProducer, ProducersOfKind;
  }

  // ----- Closing producers -----

  /** A close that gets through removes exactly the named producers: their rows of the participant, their
      entries and their plain transports; any other close changes nothing. */
  lemma CloseForgetsExactly(w: World, p: Id, ids: seq<Id>, link: Link)
    ensures var after := ProducersClosed(w, p, ids, link);
            if DeleteFrom(w.db, ProducerDeletions(p, ids), 0, 0, link).Success? then
              && after.db == (map r | r in w.db && !(r.Producer? && r.participant == p && r.producer in ids) :: w.db[r])
              && (PlainTracked(w.mem) ==>
                    after.mem == w.mem.(
                      producers := map x | x in w.mem.producers && x !in ids :: w.mem.producers[x],
                      plainTransports := map x | x in w.mem.plainTransports && x !in ids :: w.mem.plainTransports[x],
                      plainConsumers := map x | x in w.mem.plainConsumers && x !in ids :: w.mem.plainConsumers[x]))
            else after == w
  {
    hide DeleteFrom, PlainTracked, DropProducers;
    if DeleteFrom(w.db, ProducerDeletions(p, ids), 0, 0, link).Success? {
      ProducerDeletionsEffect(w.db, ProducerDeletions(p, ids), p, ids, 0, 0, link);
      assert ids[0..] == ids;
      if PlainTracked(w.mem) {
        DroppedExactly(w.mem, ids);
      }
    }
  }

  lemma DroppedExactly(mem: Memory, ids: seq<Id>)
    requires PlainTracked(mem)
    ensures DropProducers(mem, Elements(ids)) == mem.(
              producers := map x | x in mem.producers && x !in ids :: mem.producers[x],
              plainTransports := map x | x in mem.plainTransports && x !in ids :: mem.plainTransports[x],
              plainConsumers := map x | x in mem.plainConsumers && x !in ids :: mem.plainConsumers[x])
  {
  }
}
