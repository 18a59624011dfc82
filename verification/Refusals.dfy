/** Runs in which the recording pipeline refuses to let go of a participant's producers: the participant
    leaves, or comes back under a new instance, and another one keeps a consumer that it fed. */
module Refusals {
  import opened Common
  import opened Schema
  import opened Dao
  import opened Executor
  import opened Erasure
  import opened Session
  import opened Outcomes
  import opened Membership
  import opened Invariants
  import opened Joining
  import opened Producing
  import opened Consuming
  import opened Leaving
  import opened Provisioning
  import opened Runs
  import opened Transports
  import opened Commuting
  import opened Newcomers
  import opened Kinds
  import opened Witness

  ghost predicate NoConsumers(mem: Memory) {
    forall j :: 0 <= j < |mem.shards| ==> mem.shards[j] == map[]
  }

  // ----- A meeting with a speaker and a viewer -----

  const VIEW := JoinRequest("viewer", "meeting", "viewing", "router", None, None)

  const VIEWED := JoinAnswers(HEALTHY, true, Some("screen"), HEALTHY)

  lemma CreatedWithoutConsumers()
    ensures NoConsumers(AfterCreation(Begin(), CREATION, OneRouter()).world.mem)
  {
    CreationOnlyRouters(Begin().world, CREATION, OneRouter());
    hide MeetingCreated;
  }

  lemma StillNoConsumers(mem: Memory, left: Memory)
    requires NoConsumers(mem) && Shrinks(mem, left)
    ensures NoConsumers(left)
  {
    forall j | 0 <= j < |left.shards| ensures left.shards[j] == map[] {
      assert forall c :: c !in left.shards[j];
    }
  }

  lemma StillStored(db: Table, after: Table, k: Key)
    requires KeyStored(db, k) && forall r :: r in db ==> r in after
    ensures KeyStored(after, k)
  {
  }

  /** The participant joined to produce, and the other one is unknown yet. */
  ghost predicate SpeakerIn(s: System) {
    && Inv(s) && s.minted == {"transport"} && s.world.mem.producers == map[] && NoConsumers(s.world.mem)
    && s.world.mem.transports == map["transport" := TransportEntry("meeting", "participant", Producing)]
    && s.issued == map["transport" := Grant("participant", "meeting", "instance")]
    && "router" in s.world.mem.routers
    && KeyStored(s.world.db, RouterKey("router")) && KeyStored(s.world.db, MeetingKey("meeting"))
    && ProducerTransport("participant", "transport") in s.world.db
    && Member("meeting", "participant", "instance") in s.world.db
    && Stranger(s.world.db, "viewer")
  }

  lemma SpeakerJoins(s: System)
    requires Ready(s) && NoConsumers(s.world.mem) && s.issued == map[]
    ensures Admissible(s, Join(Producing, JOIN, JOINED)) && SpeakerIn(AfterJoin(s, Producing, JOIN, JOINED))
  {
    hide *;
    SpeakerMayJoin(s);
    NewcomerJoins(s, Producing, JOIN, JOINED);
    SpeakerJoined(s, AfterJoin(s, Producing, JOIN, JOINED));
  }

  lemma SpeakerJoined(s: System, n: System)
    requires Ready(s) && NoConsumers(s.world.mem) && s.issued == map[]
    requires HasJoined(s, Producing, JOIN, "transport", n)
    ensures SpeakerIn(n)
  {
    hide Inv, Stranger, Shrinks, NoConsumers, KeyStored;
    StillNoConsumers(s.world.mem, n.world.mem);
    StillStored(s.world.db, n.world.db, RouterKey("router"));
    StillStored(s.world.db, n.world.db, MeetingKey("meeting"));
    ViewerIsUnknown(s.world.db, n.world.db);
  }

  lemma ViewerIsUnknown(db: Table, after: Table)
    requires forall r :: r in db ==> Infrastructure(r)
    requires forall r :: r in after ==> r in db || r in OwnRows(Producing, JOIN, "transport")
    ensures Stranger(after, "viewer")
  {
  }

  /** Both are members, each with its transport. */
  ghost predicate BothIn(s: System) {
    && Inv(s) && s.minted == {"transport", "screen"} && s.world.mem.producers == map[] && NoConsumers(s.world.mem)
    && "transport" in s.world.mem.transports && "screen" in s.world.mem.transports
    && "transport" in s.issued && s.issued["transport"] == Grant("participant", "meeting", "instance")
    && Viewing(s)
    && ProducerTransport("participant", "transport") in s.world.db
  }

  /** What stays true of the two members while the speaker produces. */
  ghost predicate Viewing(s: System) {
    && "screen" in s.world.mem.transports
    && "screen" in s.issued && s.issued["screen"] == Grant("viewer", "meeting", "viewing")
    && "router" in s.world.mem.routers && KeyStored(s.world.db, RouterKey("router"))
    && Member("meeting", "participant", "instance") in s.world.db
    && Member("meeting", "viewer", "viewing") in s.world.db
    && ConsumerTransport("viewer", "screen") in s.world.db
  }

  lemma ViewerJoins(s: System)
    requires SpeakerIn(s)
    ensures Admissible(s, Join(Consuming, VIEW, VIEWED)) && BothIn(AfterJoin(s, Consuming, VIEW, VIEWED))
  {
    hide *;
    ViewerMayJoin(s);
    NewcomerJoins(s, Consuming, VIEW, VIEWED);
    ViewerJoined(s, AfterJoin(s, Consuming, VIEW, VIEWED));
  }

  lemma ViewerMayJoin(s: System)
    requires SpeakerIn(s)
    ensures JoinsNew(s, VIEW, VIEWED) && VIEWED.created == Some("screen")
  {
    hide Inv, Stranger, KeyStored, NoConsumers;
  }

  lemma ViewerJoined(s: System, n: System)
    requires SpeakerIn(s) && HasJoined(s, Consuming, VIEW, "screen", n)
    ensures BothIn(n)
  {
    hide Inv, Stranger, Shrinks, NoConsumers, KeyStored, OwnRows;
    StillNoConsumers(s.world.mem, n.world.mem);
    StillStored(s.world.db, n.world.db, RouterKey("router"));
  }

  /** The speaker's producer is there, and nobody consumes it yet. */
  ghost predicate OnAir(s: System) {
    && Inv(s) && s.minted == {"transport", "screen", "first"} && NoConsumers(s.world.mem) && Viewing(s)
    && s.world.mem.producers == map["first" := RequestedEntry(Produces("video"))]
  }

  lemma SpeakerProduces(s: System)
    requires BothIn(s)
    ensures Admissible(s, Produce(Produces("video"), Made("first")))
    ensures OnAir(AfterProduce(s, Produces("video"), Made("first")))
  {
    hide Inv, Admissible, ProducerStored, AfterProduce, NoConsumers, Viewing, OnAir;
    AdmissibleCreate(s, "video", "first");
    SpeakersCreateCommits(s);
    ProduceKeepsInv(s, Produces("video"), Made("first"));
    SpeakerProduced(s);
  }

  lemma SpeakerProduced(s: System)
    requires BothIn(s) && ProducerStored(s.world, Produces("video"), Made("first"))
    requires Inv(AfterProduce(s, Produces("video"), Made("first")))
    ensures OnAir(AfterProduce(s, Produces("video"), Made("first")))
  {
    var q, a, n := Produces("video"), Made("first"), AfterProduce(s, Produces("video"), Made("first"));
    hide Inv, ProducerCreated, ProducerStored, KeyStored, NoConsumers;
    StoredEntry(s.world, q, a);
    StoredWorld(s.world, q, a);
    ProducedShards(s.world, q, a);
    StillStored(s.world.db, n.world.db, RouterKey("router"));
    SameShardsNoConsumers(s.world.mem, n.world.mem);
  }

  lemma SpeakersCreateCommits(s: System)
    requires BothIn(s)
    ensures ProducerStored(s.world, Produces("video"), Made("first"))
  {
    NoObstacle(s.world.mem, "video", "first");
    hide Inv, ProducerStored, ProducerObstacle, KeyStored;
    CreateCommitsIff(s, Produces("video"), Made("first"));
  }

  lemma ProducedShards(w: World, q: ProducerRequest, a: ProducerAnswers)
    ensures ProducerCreated(w, q, a).mem.shards == w.mem.shards
  {
    hide Transact, ProducerObstacle;
  }

  lemma SameShardsNoConsumers(mem: Memory, after: Memory)
    requires NoConsumers(mem) && after.shards == mem.shards
    ensures NoConsumers(after)
  {
  }

  // ----- The viewer watches -----

  const SPEAKER := Target("participant", "video", "first")

  const WATCH := ConsumerRequest("viewer", "screen", [SPEAKER], "meeting", "viewing")

  const WATCHED := ConsumerAnswers([Some("consumer")], HEALTHY)

  lemma WatchIsHonest(s: System)
    requires OnAir(s)
    ensures HonestConsume(s, WATCH, WATCHED) && Admissible(s, Consume(WATCH, WATCHED))
  {
    hide Inv, NoConsumers, KeyStored;
  }

  lemma WatchSubscribes(mem: Memory)
    requires NoConsumers(mem) && "screen" in mem.transports
    ensures Subscribed(mem, WATCH, WATCHED).Success?
    ensures Subscribed(mem, WATCH, WATCHED).value.added == map["consumer" := EntryFor(WATCH, SPEAKER)]
    ensures Subscribed(mem, WATCH, WATCHED).value.rows == [Insert(RowFor(WATCH, SPEAKER, "consumer"))]
  {
    var shard := ShardOf(mem, "meeting");
    assert shard == map[] && Subscriptions(shard, WATCH, SPEAKER) == {};
    var one := Batch(map[]["consumer" := EntryFor(WATCH, SPEAKER)], [] + [Insert(RowFor(WATCH, SPEAKER, "consumer"))],
                     map[][("participant", "video") := "consumer"]);
    assert Subscribe(shard, WATCH, WATCHED, 1, one) == Success(one);
    assert Subscribe(shard, WATCH, WATCHED, 0, Batch(map[], [], map[])) == Subscribe(shard, WATCH, WATCHED, 1, one);
  }

  lemma ConsumerRowFits(db: Table, row: Row)
    requires row.Consumer? && forall r :: r in db ==> !r.Consumer?
    requires KeyStored(db, MemberKey(row.participant)) && KeyStored(db, MemberKey(row.target))
    requires KeyStored(db, ConsumerTransportKey(row.transport))
    ensures InsertRow(db, row).Applied?
  {
  }

  lemma NoConsumerRows(s: System)
    requires Inv(s) && NoConsumers(s.world.mem)
    ensures forall r :: r in s.world.db ==> !r.Consumer?
  {
    assert forall m :: ShardOf(s.world.mem, m) == map[];
  }

  lemma MembersAreStored(db: Table)
    requires Member("meeting", "participant", "instance") in db && Member("meeting", "viewer", "viewing") in db
    requires ConsumerTransport("viewer", "screen") in db
    ensures KeyStored(db, MemberKey("participant")) && KeyStored(db, MemberKey("viewer"))
    ensures KeyStored(db, ConsumerTransportKey("screen"))
  {
    assert MemberKey("participant") in Provides(Member("meeting", "participant", "instance"));
    assert MemberKey("viewer") in Provides(Member("meeting", "viewer", "viewing"));
    assert ConsumerTransportKey("screen") in Provides(ConsumerTransport("viewer", "screen"));
  }

  lemma WatchCommits(s: System)
    requires OnAir(s)
    ensures ConsumersCreated(s.world, WATCH, WATCHED).1.Success?
    ensures var n := ConsumersCreated(s.world, WATCH, WATCHED).0;
            && n.mem == AddConsumers(s.world.mem, "meeting", map["consumer" := EntryFor(WATCH, SPEAKER)])
            && forall r :: r in s.world.db ==> r in n.db
  {
    var row := RowFor(WATCH, SPEAKER, "consumer");
    WatchSubscribes(s.world.mem);
    NoConsumerRows(s);
    MembersAreStored(s.world.db);
    hide Inv, Subscribed, NoConsumers, KeyStored;
    ConsumerRowFits(s.world.db, row);
    SingleStatement(s.world.db, Insert(row), HEALTHY);
    hide Transact;
  }

  /** The viewer has a consumer of the speaker's producer. */
  ghost predicate Watched(s: System) {
    && Inv(s) && "newer" !in s.minted
    && KeyStored(s.world.db, RouterKey("router")) && Member("meeting", "participant", "instance") in s.world.db
    && s.world.mem.producers == map["first" := RequestedEntry(Produces("video"))]
    && FedConsumer(s.world.mem)
  }

  predicate FedConsumer(mem: Memory) {
    var shard := ShardOf(mem, "meeting");
    "consumer" in shard && shard["consumer"].participant == "viewer" && shard["consumer"].producer == "first"
  }

  lemma ViewerWatches(s: System)
    requires OnAir(s)
    ensures Admissible(s, Consume(WATCH, WATCHED)) && Watched(AfterConsume(s, WATCH, WATCHED))
  {
    hide Inv, OnAir, Watched, Admissible, AfterConsume, ConsumersCreated;
    WatchIsHonest(s);
    IsInv(s);
    ConsumeKeepsInv(s, WATCH, WATCHED);
    ViewerWatched(s);
  }

  lemma IsInv(s: System)
    requires OnAir(s)
    ensures Inv(s)
  {
  }

  lemma ViewerWatched(s: System)
    requires OnAir(s) && Inv(AfterConsume(s, WATCH, WATCHED))
    ensures Watched(AfterConsume(s, WATCH, WATCHED))
  {
    hide Inv, ConsumersCreated, OnAir, Watched;
    WatchCommits(s);
    WatchIsStored(s, AfterConsume(s, WATCH, WATCHED));
  }

  lemma WatchIsStored(s: System, n: System)
    requires OnAir(s) && Inv(n) && n.minted == s.minted + Consumed(WATCHED)
    requires n.world.mem == AddConsumers(s.world.mem, "meeting", map["consumer" := EntryFor(WATCH, SPEAKER)])
    requires forall r :: r in s.world.db ==> r in n.world.db
    ensures Watched(n)
  {
    hide Inv, KeyStored, NoConsumers, AddConsumers, FedConsumer;
    assert WATCHED.consumed[0] == Some("consumer");
    assert Consumed(WATCHED) == {"consumer"};
    AddedIsFed(s.world.mem);
    StillStored(s.world.db, n.world.db, RouterKey("router"));
    AddKeepsProducers(s.world.mem);
  }

  lemma AddedIsFed(mem: Memory)
    ensures FedConsumer(AddConsumers(mem, "meeting", map["consumer" := EntryFor(WATCH, SPEAKER)]))
  {
  }

  lemma AddKeepsProducers(mem: Memory)
    ensures AddConsumers(mem, "meeting", map["consumer" := EntryFor(WATCH, SPEAKER)]).producers == mem.producers
  {
  }

  // ----- The speaker leaves, or comes back -----

  const LEAVE := LeaveRequest("participant", "meeting", "instance", None, None)

  const AGAIN := JoinRequest("participant", "meeting", "again", "router", Some("transport"), None)

  const REFUSED := JoinAnswers(HEALTHY, false, Some("newer"), HEALTHY)

  lemma SpeakerIsStale(s: System)
    requires Watched(s)
    ensures LeaveObstructed(s.world.mem, LEAVE, false)
    ensures JoinObstructed(s.world, AGAIN, REFUSED) && Superseded(s.world.db, "participant", "meeting", "again")
  {
    assert "first" in LeaverStale(s.world.mem, LEAVE);
    assert "first" in ProducersExcludingInstance(s.world.mem.producers, "participant", "meeting", "again");
    assert Member("meeting", "participant", "instance").instance != "again" by {
      assert |"instance"| != |"again"|;
    }
    hide Inv, KeyStored, FedConsumer;
  }

  lemma FedStays(mem: Memory, left: Memory)
    requires FedConsumer(mem) && Shrinks(mem, left)
    requires forall j, c :: 0 <= j < |mem.shards| && c in mem.shards[j] ==>
               (c in left.shards[j] <==> mem.shards[j][c].participant != "participant")
    ensures FedConsumer(left)
  {
    assert "viewer"[0] != "participant"[0];
    assert "consumer" in mem.shards[ShardIndex(mem.hash, |mem.shards|, "meeting")];
  }

  lemma RefusedLeaveWorld(s: System)
    requires Watched(s)
    ensures Left(s.world, LEAVE, HEALTHY, false) ==
            (World(Without(s.world.db, "participant"), ForgetUntilRefused(s.world.mem, LEAVE)), Failure(Failed))
  {
    SpeakerIsStale(s);
    AgreeIsConsistent(s);
    LeaveDeletes(s.world.db, LEAVE);
    SingleDeletion(s.world.db, MemberInstance("meeting", "participant", "instance"), HEALTHY);
    hide Inv, KeyStored, FedConsumer, DeleteFrom, DeleteRows, Consistent, OwnTransports, Without, ForgetUntilRefused;
  }

  lemma LeaveKeepsFed(s: System)
    requires Watched(s)
    ensures var left := ForgetUntilRefused(s.world.mem, LEAVE);
            FedConsumer(left) && Shrinks(s.world.mem, left) && "first" !in left.producers
  {
    RefusedConsumers(s.world.db, s.world.mem, LEAVE);
    RefusedParts(s.world.mem, LEAVE);
    assert "first" in LeaverStale(s.world.mem, LEAVE);
    hide Inv, KeyStored, FedConsumer, ForgetUntilRefused, LeaverStale, Shrinks;
    FedStays(s.world.mem, ForgetUntilRefused(s.world.mem, LEAVE));
  }

  lemma RefusedRejoinWorld(s: System)
    requires Watched(s)
    ensures RegisterFor(s.world.db, Producing, AGAIN, HEALTHY).1.Success?
    ensures Joined(s.world, Producing, AGAIN, REFUSED).mem ==
            CloseUntilRefused(s.world.mem, "participant", "meeting", "again")
    ensures JoinReply(s.world, Producing, AGAIN, REFUSED, Failure(Failed))
  {
    SpeakerIsStale(s);
    AgreeIsConsistent(s);
    ReadmissionTable(s.world.db, Producing, AGAIN);
    hide Inv, KeyStored, FedConsumer, RegisterFor, Obstructed, CloseUntilRefused, Superseded, Consistent, OwnTransports;
    ObstructedJoin(s.world, Producing, AGAIN, REFUSED);
  }

  lemma ObstructedJoin(w: World, side: Side, q: JoinRequest, a: JoinAnswers)
    requires RegisterFor(w.db, side, q, a.membership).1.Success? && JoinObstructed(w, q, a)
    ensures Joined(w, side, q, a).mem == CloseUntilRefused(w.mem, q.participant, q.meeting, q.instance)
    ensures JoinReply(w, side, q, a, Failure(Failed))
  {
    hide RegisterFor, CloseUntilRefused;
  }

  lemma RejoinKeepsFed(s: System)
    requires Watched(s)
    ensures var left := CloseUntilRefused(s.world.mem, "participant", "meeting", "again");
            FedConsumer(left) && Shrinks(s.world.mem, left) && "first" !in left.producers
  {
    var stale := ProducersExcludingInstance(s.world.mem.producers, "participant", "meeting", "again");
    SpeakerIsStale(s);
    RefusedExactly(s.world.db, s.world.mem, "participant", "meeting", "again");
    RefusedDropsStale(s.world.mem, "participant", "meeting", "again");
    assert "first" in stale;
    hide Inv, KeyStored, FedConsumer, CloseUntilRefused, Superseded, Shrinks, ProducersExcludingInstance;
    FedStays(s.world.mem, CloseUntilRefused(s.world.mem, "participant", "meeting", "again"));
  }

  lemma RejoinIsAdmissible(s: System)
    requires Watched(s)
    ensures Admissible(s, Join(Producing, AGAIN, REFUSED))
  {
    AgreeIsConsistent(s);
    OneMembership(s.world.db, "participant");
    hide Inv, KeyStored, FedConsumer, Consistent, OwnTransports;
  }

  const BOTH_IN := [Create(CREATION, OneRouter()), Join(Producing, JOIN, JOINED), Join(Consuming, VIEW, VIEWED)]

  const ON_AIR := BOTH_IN + [Produce(Produces("video"), Made("first"))]

  const WATCHING := ON_AIR + [Consume(WATCH, WATCHED)]

  /** The run up to the point where the viewer watches the speaker. */
  lemma ViewerCanWatch() returns (states: seq<System>)
    ensures |states| == 6 && IsRun(states, WATCHING) && Watched(states[5])
  {
    var created, one := SpeakerComesIn();
    var two, three, last := ViewerComesIn(one);
    states := BothComeIn(created, one, two);
    states := AndWatches(states, two, three, last);
  }

  lemma AndWatches(states: seq<System>, two: System, three: System, last: System) returns (all: seq<System>)
    requires |states| == 4 && IsRun(states, BOTH_IN) && states[3] == two
    requires Admissible(two, Produce(Produces("video"), Made("first")))
    requires three == AfterProduce(two, Produces("video"), Made("first"))
    requires Admissible(three, Consume(WATCH, WATCHED)) && last == AfterConsume(three, WATCH, WATCHED)
    ensures |all| == 6 && IsRun(all, WATCHING) && all[5] == last
  {
    ProduceStep(two, Produces("video"), Made("first"));
    ConsumeStep(three, WATCH, WATCHED);
    assert |BOTH_IN| == 3 && |ON_AIR| == 4;
    hide *;
    all := OneMoreStep(states, BOTH_IN, Produce(Produces("video"), Made("first")));
    assert ON_AIR == BOTH_IN + [Produce(Produces("video"), Made("first"))];
    all := OneMoreStep(all, ON_AIR, Consume(WATCH, WATCHED));
    assert WATCHING == ON_AIR + [Consume(WATCH, WATCHED)];
  }

  lemma ProduceStep(s: System, q: ProducerRequest, a: ProducerAnswers)
    requires Admissible(s, Produce(q, a))
    ensures Step(s, Produce(q, a)) == AfterProduce(s, q, a)
  {
    hide AfterProduce;
  }

  lemma ConsumeStep(s: System, q: ConsumerRequest, a: ConsumerAnswers)
    requires Admissible(s, Consume(q, a)) && |q.targets| == |a.consumed|
    ensures Step(s, Consume(q, a)) == AfterConsume(s, q, a)
  {
    hide AfterConsume;
  }

  lemma BothComeIn(created: System, one: System, two: System) returns (states: seq<System>)
    requires created == AfterCreation(Begin(), CREATION, OneRouter())
    requires Admissible(created, Join(Producing, JOIN, JOINED)) && one == AfterJoin(created, Producing, JOIN, JOINED)
    requires Admissible(one, Join(Consuming, VIEW, VIEWED)) && two == AfterJoin(one, Consuming, VIEW, VIEWED)
    ensures |states| == 4 && IsRun(states, BOTH_IN) && states[3] == two
  {
    BeginStarts();
    hide Start, AfterCreation, AfterJoin, NamesOwnMeeting, Begin, CREATION, OneRouter;
    states := [Begin(), created, one, two];
  }

  lemma SpeakerComesIn() returns (created: System, one: System)
    ensures created == AfterCreation(Begin(), CREATION, OneRouter())
    ensures Admissible(created, Join(Producing, JOIN, JOINED)) && one == AfterJoin(created, Producing, JOIN, JOINED)
    ensures SpeakerIn(one)
  {
    created := AfterCreation(Begin(), CREATION, OneRouter());
    CreationIsReady();
    CreatedWithoutConsumers();
    CreationIssuesNothing();
    hide Admissible, AfterCreation, AfterJoin, Ready, SpeakerIn, NoConsumers;
    SpeakerJoins(created);
    one := AfterJoin(created, Producing, JOIN, JOINED);
  }

  lemma ViewerComesIn(one: System) returns (two: System, three: System, last: System)
    requires SpeakerIn(one)
    ensures Admissible(one, Join(Consuming, VIEW, VIEWED)) && two == AfterJoin(one, Consuming, VIEW, VIEWED)
    ensures Admissible(two, Produce(Produces("video"), Made("first")))
    ensures three == AfterProduce(two, Produces("video"), Made("first"))
    ensures Admissible(three, Consume(WATCH, WATCHED)) && last == AfterConsume(three, WATCH, WATCHED) && Watched(last)
  {
    hide Admissible, AfterJoin, AfterProduce, AfterConsume, SpeakerIn, BothIn, OnAir, Watched;
    ViewerJoins(one);
    two := AfterJoin(one, Consuming, VIEW, VIEWED);
    SpeakerProduces(two);
    three := AfterProduce(two, Produces("video"), Made("first"));
    ViewerWatches(three);
    last := AfterConsume(three, WATCH, WATCHED);
  }

  lemma CreationIssuesNothing()
    ensures AfterCreation(Begin(), CREATION, OneRouter()).issued == map[]
  {
    hide MeetingCreated;
  }

  lemma OneMoreStep(states: seq<System>, events: seq<Event>, e: Event) returns (more: seq<System>)
    requires IsRun(states, events) && Admissible(states[|events|], e)
    ensures |more| == |events| + 2 && IsRun(more, events + [e])
    ensures more[|events|] == states[|events|] && more[|events| + 1] == Step(states[|events|], e)
  {
    more := states + [Step(states[|events|], e)];
    hide Step, Admissible, Start;
  }

  /** The speaker leaves: the row is gone and so is its producer, but the viewer keeps the consumer that
      the producer fed. */
  lemma RefusedLeaveCanLeaveFed() returns (states: seq<System>)
    ensures |states| == 7 && IsRun(states, WATCHING + [Leave(LEAVE, HEALTHY, false)])
    ensures Left(states[5].world, LEAVE, HEALTHY, false).1 == Failure(Failed)
    ensures "first" in states[5].world.mem.producers && "first" !in states[6].world.mem.producers
    ensures FedConsumer(states[6].world.mem)
  {
    hide IsRun, Inv, ForgetUntilRefused, Left, FedConsumer, KeyStored, Without;
    var before := ViewerCanWatch();
    states := OneMoreStep(before, WATCHING, Leave(LEAVE, HEALTHY, false));
    RefusedLeaveWorld(before[5]);
    LeaveKeepsFed(before[5]);
  }

  /** The speaker comes back under a new instance: its old producer is gone, but the viewer keeps the
      consumer that the producer fed. */
  lemma RefusedRejoinCanLeaveFed() returns (states: seq<System>)
    ensures |states| == 7 && IsRun(states, WATCHING + [Join(Producing, AGAIN, REFUSED)])
    ensures JoinReply(states[5].world, Producing, AGAIN, REFUSED, Failure(Failed))
    ensures "first" in states[5].world.mem.producers && "first" !in states[6].world.mem.producers
    ensures FedConsumer(states[6].world.mem)
  {
    hide IsRun, Inv, CloseUntilRefused, Joined, JoinReply, FedConsumer, KeyStored, Admissible;
    var before := ViewerCanWatch();
    RejoinIsAdmissible(before[5]);
    states := OneMoreStep(before, WATCHING, Join(Producing, AGAIN, REFUSED));
    RefusedRejoinWorld(before[5]);
    RejoinKeepsFed(before[5]);
  }
}
