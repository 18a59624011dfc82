/** Runs that show what the code does not keep: two producers of one meaning, and a meeting that an end
    without participants leaves behind. */
module Witness {
  import opened Common
  import opened Schema
  import opened Dao
  import opened Executor
  import opened Erasure
  import opened Session
  import opened Outcomes
  import opened Membership
  import opened Invariants
  import opened Joining
  import opened Producing
  import opened Leaving
  import opened Provisioning
  import opened Runs
  import opened Transports
  import opened Commuting
  import opened Newcomers
  import opened Kinds

  const WORKER := WorkerContainer("worker", "container")

  function Begin(): System {
    System(World(map[WORKER := 1],
           Memory((m: Id) => 0, {"worker"}, map[], map[], map[], [map[]], map[], map[])), map[], {})
  }

  // ----- A meeting with one router -----

  const CREATION := CreateRequest("meeting", "container", [Share("worker", [Capacities(Some(1), None, None)])])

  const PLACEMENT := Placement("meeting", "container", "worker", "router", Capacities(Some(1), None, None))

  function OneRouter(): RouterAnswers {
    RouterAnswers((i: nat, j: nat) => Some("router"), HEALTHY)
  }

  lemma OnePlacement()
    ensures PlaceShares({"worker"}, CREATION, OneRouter().made, 0, 0, []) == Success([PLACEMENT])
  {
    assert [] + [PlacementFor(CREATION, 0, 0, "router")] == [PLACEMENT];
    assert PlaceShares({"worker"}, CREATION, OneRouter().made, 1, 0, [PLACEMENT]) == Success([PLACEMENT]);
    assert PlaceShares({"worker"}, CREATION, OneRouter().made, 0, 1, [PLACEMENT]) == Success([PLACEMENT]);
  }

  lemma CreationStatementsAre(stmts: seq<Statement>)
    requires stmts ==
             [Insert(MeetingStatus("meeting", true)), Insert(WorkerRow(PLACEMENT)), Insert(MeetingRouterRow(PLACEMENT))]
    ensures BuildAll(CreationEntities("meeting", [PLACEMENT])) == Success(stmts)
  {
    var entities := CreationEntities("meeting", [PLACEMENT]);
    assert entities == [MeetingStatusDao(Insertion, "meeting", Some(true)), WorkerDao(PLACEMENT), RouterDao(PLACEMENT)];
    BuildAllIsPointwise(entities, stmts);
  }

  lemma MeetingIsCreated()
    ensures MeetingCreated(Begin().world, CREATION, OneRouter()).1 == Success(Created)
  {
    var db := map[WORKER := 1];
    var status, worker, router := MeetingStatus("meeting", true), WorkerRow(PLACEMENT), MeetingRouterRow(PLACEMENT);
    var stmts := [Insert(status), Insert(worker), Insert(router)];
    OnePlacement();
    CreationStatementsAre(stmts);
    FittingRow(db, status);
    WorkerFits(db[status := 1], worker);
    MeetingRouterFits(db[status := 1][worker := 1], router);
    ThreeInserts(db, status, worker, router);
  }

  lemma WorkerFits(db: Table, row: Row)
    requires db == map[WORKER := 1][MeetingStatus("meeting", true) := 1] && row == WorkerRow(PLACEMENT)
    ensures InsertRow(db, row) == Applied(db[row := 1], 1)
  {
    assert WorkerKey("worker") in Provides(WORKER) && WORKER in db;
    FittingRow(db, row);
  }

  lemma MeetingRouterFits(db: Table, row: Row)
    requires db == map[WORKER := 1][MeetingStatus("meeting", true) := 1][WorkerRow(PLACEMENT) := 1]
    requires row == MeetingRouterRow(PLACEMENT)
    ensures InsertRow(db, row) == Applied(db[row := 1], 1)
  {
    assert MeetingKey("meeting") in Provides(MeetingStatus("meeting", true)) && MeetingStatus("meeting", true) in db;
    assert RouterKey("router") in Provides(WorkerRow(PLACEMENT)) && WorkerRow(PLACEMENT) in db;
    FittingRow(db, row);
  }

  lemma ThreeInserts(db: Table, a: Row, b: Row, c: Row)
    requires InsertRow(db, a) == Applied(db[a := 1], 1)
    requires InsertRow(db[a := 1], b) == Applied(db[a := 1][b := 1], 1)
    requires InsertRow(db[a := 1][b := 1], c) == Applied(db[a := 1][b := 1][c := 1], 1)
    ensures Transact(db, [Insert(a), Insert(b), Insert(c)], true, HEALTHY).1.Success?
  {
    var stmts := [Insert(a), Insert(b), Insert(c)];
    var last := db[a := 1][b := 1][c := 1];
    assert RunFrom(last, stmts, 3, false, true, HEALTHY).Success?;
    assert RunFrom(db[a := 1][b := 1], stmts, 2, false, true, HEALTHY).Success?;
    assert RunFrom(db[a := 1], stmts, 1, false, true, HEALTHY).Success?;
  }

  // ----- A participant joins it -----

  const JOIN := JoinRequest("participant", "meeting", "instance", "router", None, None)

  const JOINED := JoinAnswers(HEALTHY, true, Some("transport"), HEALTHY)

  predicate Infrastructure(r: Row) {
    ProvisioningRow(r) || r.WorkerContainer?
  }

  /** The meeting and its router are there, and nobody else. */
  ghost predicate Ready(s: System) {
    && Inv(s) && s.minted == {} && s.world.mem.producers == map[] && s.world.mem.transports == map[]
    && "router" in s.world.mem.routers
    && KeyStored(s.world.db, RouterKey("router")) && KeyStored(s.world.db, MeetingKey("meeting"))
    && forall r :: r in s.world.db ==> Infrastructure(r)
  }

  lemma CreationIsReady()
    ensures Ready(AfterCreation(Begin(), CREATION, OneRouter()))
  {
    var s := Begin();
    BeginStarts();
    StartHasInv(s);
    CreationKeepsInv(s, CREATION, OneRouter());
    MeetingIsCreated();
    OnePlacement();
    CreationIsAtomic(s.world, CREATION, OneRouter());
    CreatedRows(AfterCreation(s, CREATION, OneRouter()).world);
    hide Inv, MeetingCreated, RoutersAdded, Provisioned, PlaceShares, KeyStored, Start;
  }

  lemma BeginStarts()
    ensures Start(Begin())
  {
  }

  lemma CreatedRows(w: World)
    requires RoutersAdded(map[WORKER := 1][MeetingStatus("meeting", true) := 1], [PLACEMENT], w.db)
    requires w.mem.routers.Keys == {} + PlacedRouters([PLACEMENT])
    ensures "router" in w.mem.routers
    ensures KeyStored(w.db, RouterKey("router")) && KeyStored(w.db, MeetingKey("meeting"))
    ensures forall r :: r in w.db ==> Infrastructure(r)
  {
    var status := MeetingStatus("meeting", true);
    assert NewRow([PLACEMENT], WorkerRow([PLACEMENT][0]));
    assert WorkerRow(PLACEMENT) in w.db && RouterKey("router") in Provides(WorkerRow(PLACEMENT));
    assert status in w.db && MeetingKey("meeting") in Provides(status);
    assert [PLACEMENT][0].router in PlacedRouters([PLACEMENT]);
    forall r | r in w.db ensures Infrastructure(r) {
      assert r == WORKER || r == status || NewRow([PLACEMENT], r);
    }
  }

  lemma InfrastructureIsAboutNobody(db: Table, p: Id)
    requires forall r :: r in db ==> Infrastructure(r)
    ensures Stranger(db, p)
  {
  }

  /** A member with a transport for producing and no producer. */
  ghost predicate MayProduce(s: System) {
    && Inv(s) && s.minted == {"transport"} && s.world.mem.producers == map[]
    && "router" in s.world.mem.routers && "transport" in s.world.mem.transports
    && ProducerTransport("participant", "transport") in s.world.db
    && "transport" in s.issued && s.issued["transport"] == Grant("participant", "meeting", "instance")
  }

  lemma JoinedMayProduce(s: System)
    requires Ready(s)
    ensures Admissible(s, Join(Producing, JOIN, JOINED)) && MayProduce(AfterJoin(s, Producing, JOIN, JOINED))
  {
    hide *;
    SpeakerMayJoin(s);
    NewcomerJoins(s, Producing, JOIN, JOINED);
    JoinedState(s, AfterJoin(s, Producing, JOIN, JOINED));
  }

  lemma SpeakerMayJoin(s: System)
    requires Ready(s)
    ensures JoinsNew(s, JOIN, JOINED) && JOINED.created == Some("transport")
  {
    InfrastructureIsAboutNobody(s.world.db, "participant");
    hide Inv, Stranger, KeyStored;
  }

  lemma JoinedState(s: System, n: System)
    requires Ready(s) && HasJoined(s, Producing, JOIN, "transport", n)
    ensures MayProduce(n)
  {
    hide Inv, KeyStored, Shrinks, OwnRows, Infrastructure;
    NobodyProduces(s.world.mem.producers, n.world.mem.producers);
  }

  lemma NobodyProduces(before: map<Id, ProducerEntry>, after: map<Id, ProducerEntry>)
    requires before == map[] && after.Keys <= before.Keys
    ensures after == map[]
  {
  }

  // ----- It joins on the second side without naming old transports -----

  const SECOND := JoinAnswers(HEALTHY, true, Some("other"), HEALTHY)

  const BOTH_SIDES := [Create(CREATION, OneRouter()), Join(Producing, JOIN, JOINED), Join(Consuming, JOIN, SECOND)]

  lemma NothingOnSecondSide(s: System, n: System)
    requires Ready(s) && HasJoined(s, Producing, JOIN, "transport", n)
    ensures Completes(n, Consuming, JOIN, SECOND)
  {
    hide Inv, Shrinks;
    var stored :| stored in s.world.db && RouterKey("router") in Provides(stored);
    assert stored in n.world.db;
    forall r | r in n.world.db && About(r, "participant")
      ensures !TransportRowOf(r, Consuming) && !r.ConsumerRouter?
    {
      assert r in s.world.db || r in OwnRows(Producing, JOIN, "transport");
    }
  }

  lemma SecondSideIsAdmissible(n: System)
    requires Inv(n) && Member("meeting", "participant", "instance") in n.world.db && "other" !in n.minted
    ensures Admissible(n, Join(Consuming, JOIN, SECOND))
  {
    AgreeIsConsistent(n);
    OneMembership(n.world.db, "participant");
    hide Inv, Consistent, OwnTransports;
  }

  /** The second join is clean, and the participant has both transports. */
  lemma SecondSideJoins(s: System, n: System)
    requires Ready(s) && HasJoined(s, Producing, JOIN, "transport", n)
    ensures Admissible(n, Join(Consuming, JOIN, SECOND)) && Clean(n, Join(Consuming, JOIN, SECOND))
    ensures var transports := AfterJoin(n, Consuming, JOIN, SECOND).world.mem.transports;
            transports == map["transport" := TransportEntry("meeting", "participant", Producing),
                              "other" := TransportEntry("meeting", "participant", Consuming)]
  {
    NothingOnSecondSide(s, n);
    hide Inv, Admissible, Clean, Joined, KeyStored, Missing, Shrinks, Infrastructure, OwnRows;
    SecondSideIsAdmissible(n);
    MembersJoinIsClean(n, Consuming, JOIN, SECOND);
    SecondRejoin(n, Consuming, JOIN, SECOND);
  }

  lemma BothSidesJoin() returns (created: System, one: System, two: System)
    ensures created == AfterCreation(Begin(), CREATION, OneRouter())
    ensures Admissible(created, Join(Producing, JOIN, JOINED)) && Clean(created, Join(Producing, JOIN, JOINED))
    ensures one == AfterJoin(created, Producing, JOIN, JOINED)
    ensures Admissible(one, Join(Consuming, JOIN, SECOND)) && Clean(one, Join(Consuming, JOIN, SECOND))
    ensures two == AfterJoin(one, Consuming, JOIN, SECOND)
    ensures two.world.mem.transports ==
            map["transport" := TransportEntry("meeting", "participant", Producing),
                "other" := TransportEntry("meeting", "participant", Consuming)]
  {
    hide *;
    created := AfterCreation(Begin(), CREATION, OneRouter());
    CreationIsReady();
    SpeakerMayJoin(created);
    NewcomerJoins(created, Producing, JOIN, JOINED);
    one := AfterJoin(created, Producing, JOIN, JOINED);
    FirstSideIsClean(created);
    SecondSideJoins(created, one);
    two := AfterJoin(one, Consuming, JOIN, SECOND);
  }

  lemma JoinStep(s: System, side: Side, q: JoinRequest, a: JoinAnswers)
    requires Admissible(s, Join(side, q, a))
    ensures Step(s, Join(side, q, a)) == AfterJoin(s, side, q, a)
  {
    hide AfterJoin;
  }

  lemma CreationStarts()
    ensures var e := Create(CREATION, OneRouter());
            && Start(Begin()) && Admissible(Begin(), e) && Clean(Begin(), e)
            && Step(Begin(), e) == AfterCreation(Begin(), CREATION, OneRouter())
  {
    hide AfterCreation, Begin, CREATION, OneRouter, Start;
    BeginStarts();
  }

  lemma ThreeCleanSteps(s: System, e: Event, f: Event, g: Event) returns (states: seq<System>)
    requires Start(s) && Admissible(s, e) && Clean(s, e)
    requires var one := Step(s, e);
             && Admissible(one, f) && Clean(one, f) && Admissible(Step(one, f), g) && Clean(Step(one, f), g)
    ensures |states| == 4 && IsCleanRun(states, [e, f, g]) && states[3] == Step(Step(Step(s, e), f), g)
  {
    hide Start, Admissible, Clean, Step;
    var one := Step(s, e);
    var two := Step(one, f);
    states := [s, one, two, Step(two, g)];
  }

  /** A clean run: the participant joins to produce and then to consume. */
  lemma BothSidesAreClean() returns (states: seq<System>)
    ensures |states| == 4 && IsCleanRun(states, BOTH_SIDES)
    ensures states[3].world.mem.transports ==
            map["transport" := TransportEntry("meeting", "participant", Producing),
                "other" := TransportEntry("meeting", "participant", Consuming)]
  {
    var created, one, two := BothSidesJoin();
    CreationStarts();
    JoinStep(created, Producing, JOIN, JOINED);
    JoinStep(one, Consuming, JOIN, SECOND);
    hide *;
    states := ThreeCleanSteps(Begin(), Create(CREATION, OneRouter()),
                              Join(Producing, JOIN, JOINED), Join(Consuming, JOIN, SECOND));
    assert BOTH_SIDES == [Create(CREATION, OneRouter()), Join(Producing, JOIN, JOINED), Join(Consuming, JOIN, SECOND)];
  }

  lemma FirstSideIsClean(s: System)
    requires Ready(s)
    ensures Clean(s, Join(Producing, JOIN, JOINED))
  {
    hide Inv, RegisterFor, KeyStored;
  }

  // ----- It produces the same kind in two spellings -----

  function Produces(kind: string): ProducerRequest {
    ProducerRequest("participant", kind, "meeting", "router", [], "transport", false, "instance")
  }

  function Made(x: Id): ProducerAnswers {
    ProducerAnswers(Some(x), RecordingSteps(None, false, false, false, None, false), (n: nat) => true, HEALTHY)
  }

  lemma Spellings()
    ensures ParseKind("video") == ParseKind("Video") == Some(Video)
  {
    assert Lowercase("Video") == "video";
    assert Lowercase("video") == "video";
  }

  lemma FirstIsStored(s: System)
    requires MayProduce(s)
    ensures Admissible(s, Produce(Produces("video"), Made("first")))
    ensures ProducerStored(s.world, Produces("video"), Made("first"))
  {
    NoObstacle(s.world.mem, "video", "first");
    AdmissibleCreate(s, "video", "first");
    hide Inv, ProducerStored, ProducerObstacle, Admissible;
    CreateCommitsIff(s, Produces("video"), Made("first"));
  }

  lemma SecondIsStored(s: System)
    requires MayProduce(s)
    ensures var next := AfterProduce(s, Produces("video"), Made("first"));
            && Inv(next) && next.world.mem.producers == map["first" := RequestedEntry(Produces("video"))]
            && Admissible(next, Produce(Produces("Video"), Made("second")))
            && ProducerStored(next.world, Produces("Video"), Made("second"))
  {
    var q, next := Produces("video"), AfterProduce(s, Produces("video"), Made("first"));
    FirstIsStored(s);
    ProduceKeepsInv(s, q, Made("first"));
    StoredEntry(s.world, q, Made("first"));
    StoredWorld(s.world, q, Made("first"));
    hide Inv, ProducerCreated, ProducerStored, ParseKind, ProducerObstacle, Admissible;
    AdmissibleCreate(next, "Video", "second");
    SecondCommits(next);
  }

  lemma AdmissibleCreate(s: System, kind: string, x: Id)
    requires "transport" in s.issued && s.issued["transport"] == Grant("participant", "meeting", "instance")
    requires x !in s.minted
    ensures Admissible(s, Produce(Produces(kind), Made(x)))
  {
  }

  lemma SecondCommits(s: System)
    requires Inv(s) && s.world.mem.producers == map["first" := RequestedEntry(Produces("video"))]
    requires "router" in s.world.mem.routers && "transport" in s.world.mem.transports
    requires ProducerTransport("participant", "transport") in s.world.db
    requires "transport" in s.issued && s.issued["transport"] == Grant("participant", "meeting", "instance")
    ensures ProducerStored(s.world, Produces("Video"), Made("second"))
  {
    NoObstacle(s.world.mem, "Video", "second");
    assert "video"[0] != "Video"[0];
    hide Inv, ProducerStored, ProducerObstacle;
    CreateCommitsIff(s, Produces("Video"), Made("second"));
  }

  lemma NoObstacle(mem: Memory, kind: string, x: Id)
    requires kind == "video" || kind == "Video"
    requires "router" in mem.routers && "transport" in mem.transports
    ensures ProducerObstacle(mem, Produces(kind), Made(x)).None?
  {
    Spellings();
    hide ParseKind;
  }

  lemma StoredWorld(w: World, q: ProducerRequest, a: ProducerAnswers)
    requires ProducerStored(w, q, a) && !q.record
    ensures var after := ProducerCreated(w, q, a);
            && after.mem.routers == w.mem.routers && after.mem.transports == w.mem.transports
            && forall r :: r in w.db ==> r in after.db
  {
    SingleStatement(w.db, Insert(ProducerRow(q, a.produced.value)), a.link);
    hide Transact, ProducerObstacle;
  }

  const EVENTS := [Create(CREATION, OneRouter()), Join(Producing, JOIN, JOINED),
                   Produce(Produces("video"), Made("first")), Produce(Produces("Video"), Made("second"))]

  function BothSpellings(): map<Id, ProducerEntry> {
    map["first" := RequestedEntry(Produces("video")), "second" := RequestedEntry(Produces("Video"))]
  }

  lemma TwoSpellings(s: System)
    requires MayProduce(s)
    ensures var last :=
            AfterProduce(AfterProduce(s, Produces("video"), Made("first")), Produces("Video"), Made("second"));
            && Inv(last)
            && last.world.mem.producers == BothSpellings()
            && !OnePerParsedKind(last.world.mem.producers)
  {
    var next := AfterProduce(s, Produces("video"), Made("first"));
    Spellings();
    SecondIsStored(s);
    StoredEntry(next.world, Produces("Video"), Made("second"));
    ProduceKeepsInv(next, Produces("Video"), Made("second"));
    assert SameParsedKind(BothSpellings()["first"], BothSpellings()["second"]);
  }

  /** The run: the participant ends up with two producers that mean the same kind. */
  lemma SpellingsCanDouble() returns (states: seq<System>)
    ensures |states| == 5 && IsRun(states, EVENTS) && Inv(states[4])
    ensures states[4].world.mem.producers == BothSpellings()
    ensures !OnePerParsedKind(states[4].world.mem.producers)
  {
    hide Inv, AfterCreation, AfterJoin, AfterProduce, MayProduce, Ready, OnePerParsedKind, ProducerStored;
    var created := AfterCreation(Begin(), CREATION, OneRouter());
    CreationIsReady();
    JoinedMayProduce(created);
    var joined := AfterJoin(created, Producing, JOIN, JOINED);
    FirstIsStored(joined);
    SecondIsStored(joined);
    TwoSpellings(joined);
    var first := AfterProduce(joined, Produces("video"), Made("first"));
    states := [Begin(), created, joined, first, AfterProduce(first, Produces("Video"), Made("second"))];
    BeginStarts();
  }

  /** And an end of that meeting that lists no participant panics and leaves tables and memory apart. */
  lemma UnlistedEndCanDisagree() returns (s: System, after: World)
    ensures exists states :: |states| == 5 && IsRun(states, EVENTS) && states[4] == s
    ensures Ends(s.world, EndRequest("meeting", {}, {}), [], HEALTHY, after, Failure(Unwound))
    ensures !Inv(s.(world := after))
  {
    hide *;
    var states := SpellingsCanDouble();
    s := states[4];
    after := World(WithoutMeeting(s.world.db, "meeting"),
                   EndUnwound(s.world.mem, EndRequest("meeting", {}, {}), "first"));
    BothAreStale(s.world.mem);
    AgreeIsConsistent(s);
    UnlistedEndPanics(s.world, EndRequest("meeting", {}, {}), "first");
    UnlistedEndAgreesIff(s, EndRequest("meeting", {}, {}), "first");
  }

  lemma BothAreStale(mem: Memory)
    requires mem.producers == BothSpellings()
    ensures "first" in ProducersOfMeeting(mem.producers, "meeting")
    ensures ProducersOfMeeting(mem.producers, "meeting") != {"first"}
  {
    assert "second" in ProducersOfMeeting(mem.producers, "meeting");
  }
}
