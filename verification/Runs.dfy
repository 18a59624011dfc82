/** Runs of the session service: any sequence of its operations, whatever fails on the way. */
module Runs {
  import opened Common
  import opened Schema
  import opened Executor
  import opened Session
  import opened Invariants
  import opened Joining
  import opened Producing
  import opened Consuming
  import opened Leaving
  import opened Provisioning

  datatype Event =
    | Create(creation: CreateRequest, made: RouterAnswers)
    | Replace(plans: seq<MeetingPlan>, made: RouterAnswers)
    | Join(side: Side, join: JoinRequest, joined: JoinAnswers)
    | Produce(produce: ProducerRequest, produced: ProducerAnswers)
    | CloseProducers(participant: Id, producers: seq<Id>, link: Link)
    | Consume(consume: ConsumerRequest, consumed: ConsumerAnswers)
    | CloseConsumers(meeting: Id, consumers: seq<Id>, link: Link)
    | Leave(leave: LeaveRequest, link: Link, removed: bool)
    | End(end: EndRequest, link: Link)

  /** Requests are honest and mediasoup's identifiers are new. Anything may fail. */
  ghost predicate Admissible(s: System, e: Event) {
    match e
    case Create(_, _) => true
    case Replace(plans, _) => DistinctMeetings(plans) && NobodyIn(s.world.db, plans)
    case Join(_, q, a) =>
      NamesOwnMeeting(s.world.db, q.participant, q.meeting) && (a.created.Some? ==> a.created.value !in s.minted)
    case Produce(q, a) =>
      && PresentsOwn(s.issued, q.transport, q.participant, q.meeting, q.instance)
      && (a.produced.Some? ==> a.produced.value !in s.minted)
    case CloseProducers(p, ids, _) => OwnProducers(s.world.mem, p, ids)
    case Consume(q, a) => HonestConsume(s, q, a)
    case CloseConsumers(_, _, _) => true
    case Leave(_, _, _) => true
    case End(_, _) => true
  }

  ghost function Step(s: System, e: Event): System
    requires Admissible(s, e)
  {
    match e
    case Create(q, a) => AfterCreation(s, q, a)
    case Replace(plans, a) => AfterReplacement(s, plans, a)
    case Join(side, q, a) => AfterJoin(s, side, q, a)
    case Produce(q, a) => AfterProduce(s, q, a)
    case CloseProducers(p, ids, link) => AfterCloseProducers(s, p, ids, link)
    case Consume(q, a) => AfterConsume(s, q, a)
    case CloseConsumers(m, ids, link) => AfterCloseConsumers(s, m, ids, link)
    case Leave(q, link, removed) => AfterLeave(s, q, link, removed)
    case End(q, link) => AfterEnd(s, q, link)
  }

  /** A server that has just started, with nothing but workers in the database. */
  ghost predicate Start(s: System) {
    var mem := s.world.mem;
    && Consistent(s.world.db) && (forall r :: r in s.world.db ==> r.WorkerContainer?)
    && mem.routers == map[] && mem.transports == map[] && mem.producers == map[]
    && (forall j :: 0 <= j < |mem.shards| ==> mem.shards[j] == map[])
    && mem.plainTransports == map[] && mem.plainConsumers == map[]
    && s.issued == map[] && s.minted == {}
  }

  ghost predicate IsRun(states: seq<System>, events: seq<Event>) {
    && |states| == |events| + 1
    && Start(states[0])
    && forall i :: 0 <= i < |events| ==> Admissible(states[i], events[i]) && states[i + 1] == Step(states[i], events[i])
  }

  lemma StepKeepsInv(s: System, e: Event)
    requires Inv(s) && Admissible(s, e)
    ensures Inv(Step(s, e))
  {
    match e
    case Create(q, a) => CreationKeepsInv(s, q, a);
    case Replace(plans, a) => ReplacementKeepsInv(s, plans, a);
    case Join(side, q, a) => JoinKeepsInv(s, side, q, a);
    case Produce(q, a) => ProduceKeepsInv(s, q, a);
    case CloseProducers(p, ids, link) => CloseProducersKeepsInv(s, p, ids, link);
    case Consume(q, a) => ConsumeKeepsInv(s, q, a);
    case CloseConsumers(m, ids, link) => CloseConsumersKeepsInv(s, m, ids, link);
    case Leave(q, link, removed) => LeaveKeepsInv(s, q, link, removed);
    case End(q, link) => EndKeepsInv(s, q, link);
  }

  lemma {:induction false} RunKeepsInv(states: seq<System>, events: seq<Event>, n: nat)
    requires IsRun(states, events) && n < |states|
    ensures Inv(states[n])
  {
    if n == 0 {
      StartHasInv(states[0]);
    } else {
      RunKeepsInv(states, events, n - 1);
      StepKeepsInv(states[n - 1], events[n - 1]);
    }
  }

  lemma StartHasInv(s: System)
    requires Start(s)
    ensures Inv(s)
  {
  }

  function StoredProducers(db: Table): set<(Id, Id, Id, string)> {
    set r | r in db && r.Producer? :: (r.producer, r.participant, r.meeting, r.kind)
  }

  function KnownProducers(producers: map<Id, ProducerEntry>): set<(Id, Id, Id, string)> {
    set x | x in producers :: (x, producers[x].participant, producers[x].meeting, producers[x].kind)
  }

  /** In every state of every run `producer_map` and `participant_producers` hold the same producers
      with the same participant, meeting and kind, and each producer's instance is the one in its
      participant's membership row; and all keys of the schema hold. */
  lemma ProducersAgreeOnRuns(states: seq<System>, events: seq<Event>, n: nat)
    requires IsRun(states, events) && n < |states|
    ensures var w := states[n].world;
            && StoredProducers(w.db) == KnownProducers(w.mem.producers)
            && (forall r, s ::
                  r in w.db && s in w.db && r.Producer? && s.Producer? && r.producer == s.producer ==> r == s)
            && (forall r :: r in w.db && r.Producer? ==> w.db[r] == 1)
            && (forall x :: x in w.mem.producers ==>
                  var e := w.mem.producers[x]; Member(e.meeting, e.participant, e.instance) in w.db)
            && Consistent(w.db)
  {
    RunKeepsInv(states, events, n);
    var w := states[n].world;
    forall x | x in w.mem.producers
      ensures (x, w.mem.producers[x].participant, w.mem.producers[x].meeting, w.mem.producers[x].kind) in
                StoredProducers(w.db)
    {
      var r :| r in w.db && r.Producer? && r.producer == x;
      assert (r.producer, r.participant, r.meeting, r.kind) in StoredProducers(w.db);
    }
  }

  /** In every state of every run a create that names a transport issued to an instance that is no
      longer the participant's current one changes neither the tables nor the maps. */
  lemma StaleInstancesAreFencedOnRuns(states: seq<System>, events: seq<Event>, n: nat, q: ProducerRequest,
                                      a: ProducerAnswers)
    requires IsRun(states, events) && n < |states|
    requires q.transport in states[n].issued
    requires states[n].issued[q.transport] == Grant(q.participant, q.meeting, q.instance)
    requires Member(q.meeting, q.participant, q.instance) !in states[n].world.db
    ensures ProducerCreated(states[n].world, q, a) == states[n].world
  {
    RunKeepsInv(states, events, n);
    SupersededTransportIsFenced(states[n], q, a);
  }

  /** In every state of every run a participant has at most one consumer for each target, kind, meeting
      and instance, so `create_consumer` never finds more than one existing consumer. */
  lemma NeverTwoConsumersOnRuns(states: seq<System>, events: seq<Event>, n: nat, q: ConsumerRequest, t: Target)
    requires IsRun(states, events) && n < |states|
    ensures |Subscriptions(ShardOf(states[n].world.mem, q.meeting), q, t)| <= 1
  {
    RunKeepsInv(states, events, n);
    AtMostOne(states[n].world.mem, q, t);
  }
}
