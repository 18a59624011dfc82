/** Data access objects: which row each insert writes and which rows each delete selects. */
module Dao {
  import opened Common
  import opened Schema

  /** UPDATE is issued only by the heartbeat thread and is not modelled. */
  datatype MutationType = Insertion | Deletion | Query | CustomQuery1 | CustomQuery2

  /** The WHERE clause of a DELETE. */
  datatype Where =
    | MeetingStatusOf(meeting: Id)
    | RouterWorkerOf(router: Id)
    | RoutersOfMeeting(meeting: Id)
    | RouterOfMeeting(router: Id, meeting: Id)
    | ContainerOfMeeting(container: Id, meeting: Id)
    | MemberOf(meeting: Id, participant: Id)
    | MemberInstance(meeting: Id, participant: Id, instance: Id)
    | MemberOtherInstance(meeting: Id, participant: Id, instance: Id)
    | ProducerTransportOf(participant: Id)
    | ConsumerTransportOf(participant: Id)
    | ProducerById(participant: Id, producer: Id)
    | ProducersByKind(participant: Id, kind: string)
    | ProducersOf(participant: Id)
    | ConsumerByTargetKind(participant: Id, target: Id, kind: string)
    | ConsumersByTarget(participant: Id, target: Id)
    | ConsumersOnTarget(target: Id)
    | ConsumerById(consumer: Id)
    | ConsumersOf(participant: Id)

  predicate Selects(w: Where, r: Row) {
    match w
    case MeetingStatusOf(m) => r.MeetingStatus? && r.meeting == m
    case RouterWorkerOf(router) => r.RouterWorker? && r.router == router
    case RoutersOfMeeting(m) => r.RouterMeeting? && r.meeting == m
    case RouterOfMeeting(router, m) => r.RouterMeeting? && r.router == router && r.meeting == m
    case ContainerOfMeeting(c, m) => r.RouterMeeting? && r.container == c && r.meeting == m
    case MemberOf(m, p) => r.Member? && r.meeting == m && r.participant == p
    case MemberInstance(m, p, i) => r.Member? && r.meeting == m && r.participant == p && r.instance == i
    case MemberOtherInstance(m, p, i) => r.Member? && r.meeting == m && r.participant == p && r.instance != i
    case ProducerTransportOf(p) => r.ProducerTransport? && r.participant == p
    case ConsumerTransportOf(p) => r.ConsumerTransport? && r.participant == p
    case ProducerById(p, id) => r.Producer? && r.participant == p && r.producer == id
    case ProducersByKind(p, kind) => r.Producer? && r.participant == p && r.kind == kind
    case ProducersOf(p) => r.Producer? && r.participant == p
    case ConsumerByTargetKind(p, target, kind) =>
      r.Consumer? && r.participant == p && r.target == target && r.kind == kind
    case ConsumersByTarget(p, target) => r.Consumer? && r.participant == p && r.target == target
    case ConsumersOnTarget(target) => r.Consumer? && r.target == target
    case ConsumerById(id) => r.Consumer? && r.consumer == id
    case ConsumersOf(p) => r.Consumer? && r.participant == p
  }

  datatype Statement = Insert(row: Row) | Delete(where: Where)

  /** `Refused` is an `Err` returned to the caller, `Panics` an `unwrap` of a missing field. */
  datatype BuildError = Refused(reason: string) | Panics

  type Built = Result<Statement, BuildError>

  datatype Dao =
    | WorkerContainerDao(mutation: MutationType, container: Id, worker: Id)
    | MeetingStatusDao(mutation: MutationType, meeting: Id, enabled: Option<bool>)
    | RouterWorkerDao(mutation: MutationType, workerId: Option<Id>, router: Id)
    | RouterMeetingDao(mutation: MutationType, routerId: Option<Id>, meeting: Id, producerCapacity: Option<int>,
                       consumerCapacity: Option<int>, capacity: Option<int>, containerId: Option<Id>)
    | ParticipantMeetingDao(mutation: MutationType, meeting: Id, participantId: Option<Id>, instanceId: Option<Id>)
    | ParticipantProducerRouterDao(mutation: MutationType, participant: Id, routerId: Option<Id>)
    | ParticipantConsumerRouterDao(mutation: MutationType, participant: Id, routerId: Option<Id>)
    | ParticipantProducerTransportDao(mutation: MutationType, participant: Id, transportId: Option<Id>)
    | ParticipantConsumerTransportDao(mutation: MutationType, participant: Id, transportId: Option<Id>)
    | ParticipantProducersDao(mutation: MutationType, participantId: Option<Id>, producers: Option<int>,
                              kind: Option<string>, producerId: Option<Id>, meetingId: Option<Id>,
                              transportId: Option<Id>)
    | ParticipantConsumersDao(mutation: MutationType, participantId: Option<Id>, consumers: Option<int>,
                              targetId: Option<Id>, kind: Option<string>, consumerId: Option<Id>,
                              meetingId: Option<Id>, transportId: Option<Id>)

  function InsertStatement(d: Dao): Built {
    match d
    case WorkerContainerDao(_, c, w) => Success(Insert(WorkerContainer(w, c)))
    case MeetingStatusDao(_, m, enabled) =>
      if enabled.None? then Failure(Refused("Enabled is mandatory field"))
      else Success(Insert(MeetingStatus(m, enabled.value)))
    case RouterWorkerDao(_, w, router) =>
      if w.None? then Failure(Refused("Worker Id is mandatory field"))
      else Success(Insert(RouterWorker(w.value, router)))
    case RouterMeetingDao(_, router, m, producing, consuming, capacity, container) =>
      if router.None? then Failure(Refused("Router Id is mandatory field"))
      else if container.None? then Failure(Refused("Container Id is mandatory field"))
      else if capacity.Some? then
        Success(Insert(RouterMeeting(router.value, m, None, None, capacity, container.value)))
      else if producing.Some? then
        Success(Insert(RouterMeeting(router.value, m, producing, None, None, container.value)))
      else if consuming.Some? then
        Success(Insert(RouterMeeting(router.value, m, None, consuming, None, container.value)))
      else
        Failure(Refused("Producer Capacity and Consumer Capacity or Capacity are mandatory fields"))
    case ParticipantMeetingDao(_, m, p, i) =>
      if p.None? || i.None? then Failure(Refused("Participant Id & Instance Id is mandatory field"))
      else Success(Insert(Member(m, p.value, i.value)))
    case ParticipantProducerRouterDao(_, p, router) =>
      if router.None? then Failure(Refused("Producer Router Id is mandatory field"))
      else Success(Insert(ProducerRouter(p, router.value)))
    case ParticipantConsumerRouterDao(_, p, router) =>
      if router.None? then Failure(Refused("Consumer Router Id is mandatory field"))
      else Success(Insert(ConsumerRouter(p, router.value)))
    case ParticipantProducerTransportDao(_, p, t) =>
      if t.None? then Failure(Refused("Transport Id is mandatory field"))
      else Success(Insert(ProducerTransport(p, t.value)))
    case ParticipantConsumerTransportDao(_, p, t) =>
      if t.None? then Failure(Refused("Transport Id is mandatory field"))
      else Success(Insert(ConsumerTransport(p, t.value)))
    case ParticipantProducersDao(_, p, n, kind, id, m, t) =>
      if kind.None? || n.None? || id.None? || m.None? || p.None? then
        Failure(Refused("Mandatory fields are missing"))
      else if t.None? then Failure(Panics)
      else Success(Insert(Producer(p.value, n.value, kind.value, id.value, m.value, t.value)))
    case ParticipantConsumersDao(_, p, n, target, kind, id, m, t) =>
      if n.None? || target.None? || kind.None? || id.None? || m.None? then
        Failure(Refused("mandatory fields are missing"))
      else if p.None? || t.None? then Failure(Panics)
      else Success(Insert(Consumer(p.value, n.value, target.value, kind.value, id.value, m.value, t.value)))
  }

  function DeleteStatement(d: Dao): Built {
    match d
    case MeetingStatusDao(_, m, _) => Success(Delete(MeetingStatusOf(m)))
    case RouterWorkerDao(_, _, router) => Success(Delete(RouterWorkerOf(router)))
    case RouterMeetingDao(_, router, m, _, _, _, container) =>
      if router.None? && container.None? then Success(Delete(RoutersOfMeeting(m)))
      else if container.None? then Success(Delete(RouterOfMeeting(router.value, m)))
      else Success(Delete(ContainerOfMeeting(container.value, m)))
    case ParticipantMeetingDao(_, m, p, i) =>
      if p.None? then Failure(Refused("Participant Id is mandatory field"))
      else if i.Some? then Success(Delete(MemberInstance(m, p.value, i.value)))
      else Success(Delete(MemberOf(m, p.value)))
    case ParticipantProducerTransportDao(_, p, _) => Success(Delete(ProducerTransportOf(p)))
    case ParticipantConsumerTransportDao(_, p, _) => Success(Delete(ConsumerTransportOf(p)))
    case ParticipantProducersDao(_, p, _, kind, id, _, _) =>
      if p.None? then Failure(Panics)
      else if id.Some? then Success(Delete(ProducerById(p.value, id.value)))
      else if kind.Some? then Success(Delete(ProducersByKind(p.value, kind.value)))
      else Success(Delete(ProducersOf(p.value)))
    case ParticipantConsumersDao(_, p, _, target, kind, id, _, _) =>
      if kind.Some? && target.Some? && p.Some? then
        Success(Delete(ConsumerByTargetKind(p.value, target.value, kind.value)))
      else if target.Some? && p.Some? then Success(Delete(ConsumersByTarget(p.value, target.value)))
      else if target.Some? then Success(Delete(ConsumersOnTarget(target.value)))
      else if id.Some? then Success(Delete(ConsumerById(id.value)))
      else if p.None? then Failure(Panics)
      else Success(Delete(ConsumersOf(p.value)))
    case _ => Failure(Refused("Not implemented"))
  }

  /** Only the membership of a participant has a first custom statement; the one custom statement
      of the second kind is a SELECT that `mutate` never receives. */
  function CustomStatement1(d: Dao): Built {
    match d
    case ParticipantMeetingDao(_, m, p, i) =>
      if p.None? || i.None? then Failure(Refused("Participant Id & Instance Id are mandatory fields"))
      else Success(Delete(MemberOtherInstance(m, p.value, i.value)))
    case _ => Failure(Refused("Not implemented"))
  }

  function BuildStatement(d: Dao): Built {
    match d.mutation
    case Insertion => InsertStatement(d)
    case Deletion => DeleteStatement(d)
    case CustomQuery1 => CustomStatement1(d)
    case CustomQuery2 => Failure(Refused("Not implemented"))
    case Query => Failure(Refused("Unhandled case"))
  }
}
