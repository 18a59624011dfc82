/** What each session operation of the SFU does to the database and to the in-memory maps, as
    functions of the request and of what the foreign calls answered. */
module Session {
  import opened Common
  import opened Schema
  import opened Dao
  import opened Executor

  datatype Side = Producing | Consuming

  datatype TransportEntry = TransportEntry(meeting: Id, participant: Id, side: Side)

  datatype ProducerEntry = ProducerEntry(meeting: Id, participant: Id, kind: string, instance: Id)

  datatype ConsumerEntry =
    ConsumerEntry(meeting: Id, participant: Id, target: Id, kind: string, instance: Id, producer: Id)

  type ConsumerMap = map<Id, ConsumerEntry>

  type Shards = s: seq<ConsumerMap> | 0 < |s| witness [map[]]

  /** The maps of `Inner`. The plain transports are keyed by the producer they record. */
  datatype Memory = Memory(
    hash: Id -> nat,
    workers: set<Id>,
    routers: map<Id, int>,
    transports: map<Id, TransportEntry>,
    producers: map<Id, ProducerEntry>,
    shards: Shards,
    plainTransports: map<Id, Id>,
    plainConsumers: map<Id, Id>)

  datatype World = World(db: Table, mem: Memory)

  /** An `Err` returned to the caller, or a panic. */
  datatype Problem = Failed | Unwound

  type Reply<T> = Result<T, Problem>

  /** A panic in the database code unwinds through the operation. */
  function ProblemOf(e: DbError): Problem {
    if e.Panicked? then Unwound else Failed
  }

  function Ids(id: Option<Id>): set<Id> {
    if id.Some? then {id.value} else {}
  }

  // ----- Queries over the in-memory maps -----

  function ShardIndex(hash: Id -> nat, shardCount: nat, m: Id): (i: nat)
    requires shardCount > 0
    ensures i < shardCount
  {
    hash(m) % shardCount
  }

  function ShardOf(mem: Memory, m: Id): ConsumerMap {
    mem.shards[ShardIndex(mem.hash, |mem.shards|, m)]
  }

  function ConsumersForInstance(shard: ConsumerMap, p: Id, m: Id, i: Id): set<Id> {
    set c | c in shard && shard[c].participant == p && shard[c].meeting == m && shard[c].instance == i
  }

  function ConsumersExcludingInstance(shard: ConsumerMap, p: Id, m: Id, i: Id): set<Id> {
    set c | c in shard && shard[c].participant == p && shard[c].meeting == m && shard[c].instance != i
  }

  function ConsumersFedBy(shard: ConsumerMap, producers: set<Id>): set<Id> {
    set c | c in shard && shard[c].producer in producers
  }

  function ConsumersOfMeeting(shard: ConsumerMap, m: Id): set<Id> {
    set c | c in shard && shard[c].meeting == m
  }

  function ProducersForInstance(producers: map<Id, ProducerEntry>, p: Id, m: Id, i: Id): set<Id> {
    set x | x in producers && producers[x].participant == p && producers[x].meeting == m && producers[x].instance == i
  }

  function ProducersExcludingInstance(producers: map<Id, ProducerEntry>, p: Id, m: Id, i: Id): set<Id> {
    set x | x in producers && producers[x].participant == p && producers[x].meeting == m && producers[x].instance != i
  }

  function ProducersOfMeeting(producers: map<Id, ProducerEntry>, m: Id): set<Id> {
    set x | x in producers && producers[x].meeting == m
  }

  // ----- Removals from the in-memory maps -----

  function DropConsumers(mem: Memory, m: Id, ids: set<Id>): Memory {
    mem.(shards := mem.shards[ShardIndex(mem.hash, |mem.shards|, m) := ShardOf(mem, m) - ids])
  }

  /** A plain transport goes only together with a producer that was in memory. */
  function DropProducers(mem: Memory, ids: set<Id>): Memory {
    mem.(producers := mem.producers - ids,
         plainTransports := mem.plainTransports - ids * mem.producers.Keys,
         plainConsumers := mem.plainConsumers - ids * mem.producers.Keys)
  }

  /** A rejoin closes what other instances of the participant left in memory: their consumers, their
      producers, and every consumer in the meeting's shard that those producers fed. */
  function CloseOtherInstances(mem: Memory, p: Id, m: Id, i: Id): Memory {
    var ownGone := DropConsumers(mem, m, ConsumersExcludingInstance(ShardOf(mem, m), p, m, i));
    var stale := ProducersExcludingInstance(ownGone.producers, p, m, i);
    DropConsumers(DropProducers(ownGone, stale), m, ConsumersFedBy(ShardOf(ownGone, m), stale))
  }

  /** The same up to the point where taking the producers out of the recording pipeline is refused:
      the consumers that they fed stay. */
  function CloseUntilRefused(mem: Memory, p: Id, m: Id, i: Id): Memory {
    var ownGone := DropConsumers(mem, m, ConsumersExcludingInstance(ShardOf(mem, m), p, m, i));
    DropProducers(ownGone, ProducersExcludingInstance(ownGone.producers, p, m, i))
  }

  /** The pipeline is only asked when there are producers to take out. */
  predicate Obstructed(mem: Memory, p: Id, m: Id, i: Id, removed: bool) {
    !removed && ProducersExcludingInstance(mem.producers, p, m, i) != {}
  }

  function OthersClosed(mem: Memory, p: Id, m: Id, i: Id, removed: bool): Memory {
    if Obstructed(mem, p, m, i, removed) then CloseUntilRefused(mem, p, m, i) else CloseOtherInstances(mem, p, m, i)
  }

  // ----- Join and rejoin -----

  datatype JoinRequest = JoinRequest(participant: Id, meeting: Id, instance: Id, router: Id,
                                     oldProducerTransport: Option<Id>, oldConsumerTransport: Option<Id>)

  /** `removed` tells whether closed producers could be taken out of the recording pipeline, and
      `created` is the WebRTC transport that mediasoup made, if it made one. */
  datatype JoinAnswers = JoinAnswers(membership: Link, removed: bool, created: Option<Id>, transport: Link)

  function RouterRow(side: Side, p: Id, router: Id): Row {
    if side.Producing? then ProducerRouter(p, router) else ConsumerRouter(p, router)
  }

  function TransportRow(side: Side, p: Id, t: Id): Row {
    if side.Producing? then ProducerTransport(p, t) else ConsumerTransport(p, t)
  }

  function MembershipStatements(p: Id, m: Id, i: Id, producing: Option<Id>, consuming: Option<Id>): seq<Statement> {
    [Delete(MemberOtherInstance(m, p, i)), Insert(Member(m, p, i))]
    + (if producing.Some? then [Insert(ProducerRouter(p, producing.value))] else [])
    + (if consuming.Some? then [Insert(ConsumerRouter(p, consuming.value))] else [])
  }

  /** The table after the membership transaction, and whether it saw no duplicate. */
  function Register(db: Table, p: Id, m: Id, i: Id, producing: Option<Id>, consuming: Option<Id>, link: Link)
    : (Table, Reply<bool>)
  {
    match Transact(db, MembershipStatements(p, m, i, producing, consuming), false, link)
    case (after, Success(duplicate)) => (after, Success(!duplicate))
    case (after, Failure(e)) => (after, Failure(ProblemOf(e)))
  }

  function RegisterFor(db: Table, side: Side, q: JoinRequest, link: Link): (Table, Reply<bool>) {
    Register(db, q.participant, q.meeting, q.instance,
             if side.Producing? then Some(q.router) else None,
             if side.Consuming? then Some(q.router) else None, link)
  }

  function TransportsOf(mem: Memory, p: Id, m: Id, side: Side): set<Id> {
    set t | t in mem.transports && mem.transports[t] == TransportEntry(m, p, side)
  }

  function TransportInserted(db: Table, side: Side, p: Id, t: Id, link: Link): (Table, Result<bool, DbError>) {
    Transact(db, [Insert(TransportRow(side, p, t))], true, link)
  }

  function AddTransport(w: World, side: Side, router: Id, p: Id, m: Id, forgotten: set<Id>, created: Option<Id>,
                        link: Link)
    : World
  {
    if router !in w.mem.routers || created.None? then w
    else
      var t := created.value;
      match TransportInserted(w.db, side, p, t, link)
      case (after, Success(_)) =>
        World(after, w.mem.(transports := (w.mem.transports - forgotten)[t := TransportEntry(m, p, side)]))
      case (_, Failure(_)) => w
  }

  /** When the participant already has a transport on this side, any in-memory one of its own in the
      meeting is returned instead. */
  ghost predicate AddTransportReply(w: World, side: Side, router: Id, p: Id, m: Id, created: Option<Id>, link: Link,
                                    reply: Reply<Id>)
  {
    if router !in w.mem.routers then reply == Failure(Unwound)
    else if created.None? then reply == Failure(Failed)
    else
      match TransportInserted(w.db, side, p, created.value, link).1
      case Success(_) => reply == Success(created.value)
      case Failure(e) =>
        if e == MySqlError(DUPLICATE_KEY) && TransportsOf(w.mem, p, m, side) != {} then
          reply.Success? && reply.value in TransportsOf(w.mem, p, m, side)
        else reply == Failure(ProblemOf(e))
  }

  /** The state in which the new transport is created: membership registered, other instances closed. */
  function Readmitted(w: World, side: Side, q: JoinRequest, a: JoinAnswers): World {
    World(RegisterFor(w.db, side, q, a.membership).0,
          OthersClosed(w.mem, q.participant, q.meeting, q.instance, a.removed))
  }

  predicate JoinObstructed(w: World, q: JoinRequest, a: JoinAnswers) {
    Obstructed(w.mem, q.participant, q.meeting, q.instance, a.removed)
  }

  /** The old transports are forgotten only when the membership transaction reported a new user. */
  function Forgotten(db: Table, side: Side, q: JoinRequest, link: Link): set<Id> {
    if RegisterFor(db, side, q, link).1 == Success(true)
    then Ids(q.oldProducerTransport) + Ids(q.oldConsumerTransport)
    else {}
  }

  function Joined(w: World, side: Side, q: JoinRequest, a: JoinAnswers): World {
    if RegisterFor(w.db, side, q, a.membership).1.Failure? then w
    else if JoinObstructed(w, q, a) then Readmitted(w, side, q, a)
    else AddTransport(Readmitted(w, side, q, a), side, q.router, q.participant, q.meeting,
                      Forgotten(w.db, side, q, a.membership), a.created, a.transport)
  }

  ghost predicate JoinReply(w: World, side: Side, q: JoinRequest, a: JoinAnswers, reply: Reply<Id>) {
    var registered := RegisterFor(w.db, side, q, a.membership).1;
    if registered.Failure? then reply == Failure(registered.error)
    else if JoinObstructed(w, q, a) then reply == Failure(Failed)
    else AddTransportReply(Readmitted(w, side, q, a), side, q.router, q.participant, q.meeting,
                           a.created, a.transport, reply)
  }

  // ----- Producers -----

  datatype Kind = Video | Audio | ScreenShare

  function Lower(c: char): char {
    if 'A' <= c <= 'Z' then c - 'A' + 'a' else c
  }

  function Lowercase(s: string): string {
    seq(|s|, i requires 0 <= i < |s| => Lower(s[i]))
  }

  function ParseKind(s: string): Option<Kind> {
    match Lowercase(s)
    case "video" => Some(Video)
    case "audio" => Some(Audio)
    case "screenshare" => Some(ScreenShare)
    case _ => None
  }

  datatype ProducerRequest = ProducerRequest(participant: Id, kind: string, meeting: Id, router: Id,
                                             consumerRouters: seq<Id>, transport: Id, record: bool, instance: Id)

  /** How far the recording branch gets: the plain transport, the folder, the pipeline on a free port, the
      connection to it, the transport's consumer, and its start. */
  datatype RecordingSteps =
    RecordingSteps(plain: Option<Id>, folder: bool, started: bool, connected: bool, consumer: Option<Id>, resumed: bool)

  /** The plain transport and its consumer, when every step of the recording branch succeeds. */
  function Recorded(r: RecordingSteps): Option<(Id, Id)> {
    if r.plain.Some? && r.folder && r.started && r.connected && r.consumer.Some? && r.resumed
    then Some((r.plain.value, r.consumer.value)) else None
  }

  /** `recording` tells how the recording branch goes, and
      `piped(n)` tells whether the producer was piped to consumer router `n`. */
  datatype ProducerAnswers =
    ProducerAnswers(produced: Option<Id>, recording: RecordingSteps, piped: nat -> bool, link: Link)

  function ProducersOfKind(producers: map<Id, ProducerEntry>, m: Id, p: Id, kind: string): set<Id> {
    set x | x in producers && producers[x].meeting == m && producers[x].participant == p && producers[x].kind == kind
  }

  /** The first thing, in the order of the code, that stops a producer from reaching the database. */
  function ProducerObstacle(mem: Memory, q: ProducerRequest, a: ProducerAnswers): Option<Problem> {
    if q.transport !in mem.transports then Some(Unwound)
    else if ParseKind(q.kind).None? || a.produced.None? then Some(Failed)
    else if q.record && q.router !in mem.routers then Some(Unwound)
    else if q.record && Recorded(a.recording).None? then Some(Failed)
    else if q.router !in mem.routers then Some(Unwound)
    else PipeObstacle(mem, q.consumerRouters, a.piped, 0)
  }

  function PipeObstacle(mem: Memory, routers: seq<Id>, piped: nat -> bool, n: nat): Option<Problem>
    requires n <= |routers|
    decreases |routers| - n
  {
    if n == |routers| then None
    else if routers[n] !in mem.routers then Some(Unwound)
    else if !piped(n) then Some(Failed)
    else PipeObstacle(mem, routers, piped, n + 1)
  }

  function ProducerRow(q: ProducerRequest, x: Id): Row {
    Producer(q.participant, 1, q.kind, x, q.meeting, q.transport)
  }

  function AddProducer(mem: Memory, q: ProducerRequest, x: Id, recording: Option<(Id, Id)>): Memory {
    var known := mem.(producers := mem.producers[x := ProducerEntry(q.meeting, q.participant, q.kind, q.instance)]);
    if q.record && recording.Some? then
      known.(plainTransports := mem.plainTransports[x := recording.value.0],
             plainConsumers := mem.plainConsumers[x := recording.value.1])
    else known
  }

  function ProducerCreated(w: World, q: ProducerRequest, a: ProducerAnswers): World {
    if ProducersOfKind(w.mem.producers, q.meeting, q.participant, q.kind) != {}
       || ProducerObstacle(w.mem, q, a).Some? then w
    else
      match Transact(w.db, [Insert(ProducerRow(q, a.produced.value))], true, a.link)
      case (after, Success(_)) => World(after, AddProducer(w.mem, q, a.produced.value, Recorded(a.recording)))
      case (_, Failure(_)) => w
  }

  ghost predicate ProducerReply(w: World, q: ProducerRequest, a: ProducerAnswers, reply: Reply<Id>) {
    var existing := ProducersOfKind(w.mem.producers, q.meeting, q.participant, q.kind);
    if existing != {} then reply.Success? && reply.value in existing
    else if ProducerObstacle(w.mem, q, a).Some? then reply == Failure(ProducerObstacle(w.mem, q, a).value)
    else
      match Transact(w.db, [Insert(ProducerRow(q, a.produced.value))], true, a.link).1
      case Success(_) => reply == Success(a.produced.value)
      case Failure(e) => reply == Failure(ProblemOf(e))
  }

  function ProducerDeletions(p: Id, ids: seq<Id>): seq<Statement> {
    seq(|ids|, i requires 0 <= i < |ids| => Delete(ProducerById(p, ids[i])))
  }

  function Elements(ids: seq<Id>): set<Id> {
    set id | id in ids
  }

  function ProducersClosed(w: World, p: Id, ids: seq<Id>, link: Link): World {
    match DeleteFrom(w.db, ProducerDeletions(p, ids), 0, 0, link)
    case Success(done) => World(done.0, DropProducers(w.mem, Elements(ids)))
    case Failure(_) => w
  }

  // ----- Consumers -----

  datatype Target = Target(participant: Id, kind: string, producer: Id)

  /** The targets come in the order in which the request's maps happen to be traversed. */
  datatype ConsumerRequest = ConsumerRequest(participant: Id, transport: Id, targets: seq<Target>,
                                             meeting: Id, instance: Id)

  /** Position `n` of `consumed` is the consumer that mediasoup made for target `n`, if it made one. */
  datatype ConsumerAnswers = ConsumerAnswers(consumed: seq<Option<Id>>, link: Link)

  function EntryFor(q: ConsumerRequest, t: Target): ConsumerEntry {
    ConsumerEntry(q.meeting, q.participant, t.participant, t.kind, q.instance, t.producer)
  }

  function RowFor(q: ConsumerRequest, t: Target, c: Id): Row {
    Consumer(q.participant, 1, t.participant, t.kind, c, q.meeting, q.transport)
  }

  predicate SameSubscription(a: ConsumerEntry, b: ConsumerEntry) {
    a.participant == b.participant && a.target == b.target && a.kind == b.kind
    && a.meeting == b.meeting && a.instance == b.instance
  }

  function Subscriptions(shard: ConsumerMap, q: ConsumerRequest, t: Target): set<Id> {
    set c | c in shard && SameSubscription(shard[c], EntryFor(q, t))
  }

  /** Consumers found or made so far: the ones to add, their rows, and the reply. */
  datatype Batch = Batch(added: ConsumerMap, rows: seq<Statement>, reply: map<(Id, string), Id>)

  ghost function TheOnly(ids: set<Id>): Id
    requires |ids| == 1
  {
    var id :| id in ids; id
  }

  ghost function Subscribe(shard: ConsumerMap, q: ConsumerRequest, a: ConsumerAnswers, n: nat,
                           done: Batch): Reply<Batch>
    requires n <= |q.targets| == |a.consumed|
    decreases |q.targets| - n
  {
    if n == |q.targets| then Success(done)
    else
      var t := q.targets[n];
      var existing := Subscriptions(shard, q, t);
      if |existing| == 1 then
        Subscribe(shard, q, a, n + 1, done.(reply := done.reply[(t.participant, t.kind) := TheOnly(existing)]))
      else if |existing| > 1 || a.consumed[n].None? then Failure(Failed)
      else
        var c := a.consumed[n].value;
        Subscribe(shard, q, a, n + 1,
                  Batch(done.added[c := EntryFor(q, t)], done.rows + [Insert(RowFor(q, t, c))],
                        done.reply[(t.participant, t.kind) := c]))
  }

  ghost function Subscribed(mem: Memory, q: ConsumerRequest, a: ConsumerAnswers): Reply<Batch>
    requires |q.targets| == |a.consumed|
  {
    if q.transport !in mem.transports then Failure(Unwound)
    else Subscribe(ShardOf(mem, q.meeting), q, a, 0, Batch(map[], [], map[]))
  }

  function AddConsumers(mem: Memory, m: Id, added: ConsumerMap): Memory {
    mem.(shards := mem.shards[ShardIndex(mem.hash, |mem.shards|, m) := ShardOf(mem, m) + added])
  }

  ghost function ConsumersCreated(w: World, q: ConsumerRequest, a: ConsumerAnswers)
    : (World, Reply<map<(Id, string), Id>>)
    requires |q.targets| == |a.consumed|
  {
    match Subscribed(w.mem, q, a)
    case Failure(e) => (w, Failure(e))
    case Success(batch) =>
      match Transact(w.db, batch.rows, true, a.link)
      case (after, Success(_)) => (World(after, AddConsumers(w.mem, q.meeting, batch.added)), Success(batch.reply))
      case (_, Failure(e)) => (w, Failure(ProblemOf(e)))
  }

  function ConsumerDeletions(ids: seq<Id>): seq<Statement> {
    seq(|ids|, i requires 0 <= i < |ids| => Delete(ConsumerById(ids[i])))
  }

  function ConsumersClosed(w: World, m: Id, ids: seq<Id>, link: Link): World {
    match Transact(w.db, ConsumerDeletions(ids), true, link)
    case (after, Success(_)) => World(after, DropConsumers(w.mem, m, Elements(ids)))
    case (_, Failure(_)) => w
  }

  // ----- Leaving and ending -----

  datatype LeaveRequest = LeaveRequest(participant: Id, meeting: Id, instance: Id,
                                       producerTransport: Option<Id>, consumerTransport: Option<Id>)

  function ForgetInstance(mem: Memory, q: LeaveRequest): Memory {
    var gone := mem.(transports := mem.transports - (Ids(q.producerTransport) + Ids(q.consumerTransport)));
    var quiet := DropConsumers(gone, q.meeting,
                   ConsumersForInstance(ShardOf(gone, q.meeting), q.participant, q.meeting, q.instance));
    var stale := ProducersForInstance(quiet.producers, q.participant, q.meeting, q.instance);
    DropConsumers(DropProducers(quiet, stale), q.meeting, ConsumersFedBy(ShardOf(quiet, q.meeting), stale))
  }

  function LeaverStale(mem: Memory, q: LeaveRequest): set<Id> {
    ProducersForInstance(mem.producers, q.participant, q.meeting, q.instance)
  }

  /** The same up to the point where taking the producers out of the recording pipeline is refused. */
  function ForgetUntilRefused(mem: Memory, q: LeaveRequest): Memory {
    var gone := mem.(transports := mem.transports - (Ids(q.producerTransport) + Ids(q.consumerTransport)));
    var quiet := DropConsumers(gone, q.meeting,
                   ConsumersForInstance(ShardOf(gone, q.meeting), q.participant, q.meeting, q.instance));
    DropProducers(quiet, LeaverStale(mem, q))
  }

  /** The reply is the `send_signal` flag. */
  function Left(w: World, q: LeaveRequest, link: Link, removed: bool): (World, Reply<bool>) {
    match DeleteFrom(w.db, [Delete(MemberInstance(q.meeting, q.participant, q.instance))], 0, 0, link)
    case Failure(e) => (w, Failure(ProblemOf(e)))
    case Success(done) =>
      if done.1 == 0 then (World(done.0, w.mem), Success(false))
      else if !removed && LeaverStale(w.mem, q) != {} then
        (World(done.0, ForgetUntilRefused(w.mem, q)), Failure(Failed))
      else (World(done.0, ForgetInstance(w.mem, q)), Success(true))
  }

  datatype EndRequest = EndRequest(meeting: Id, routers: set<Id>, transports: set<Id>)

  function ForgetMeeting(mem: Memory, q: EndRequest): Memory {
    var gone := mem.(routers := mem.routers - q.routers, transports := mem.transports - q.transports);
    var quiet := DropConsumers(gone, q.meeting, ConsumersOfMeeting(ShardOf(gone, q.meeting), q.meeting));
    DropProducers(quiet, ProducersOfMeeting(quiet.producers, q.meeting))
  }

  /** An end that lists no participants while the meeting still has producers panics right after it
      removed the first of them. */
  function EndUnwound(mem: Memory, q: EndRequest, x: Id): Memory {
    var gone := mem.(routers := mem.routers - q.routers, transports := mem.transports - q.transports);
    var quiet := DropConsumers(gone, q.meeting, ConsumersOfMeeting(ShardOf(gone, q.meeting), q.meeting));
    quiet.(producers := quiet.producers - {x})
  }

  ghost predicate Ends(w: World, q: EndRequest, participants: seq<Id>, link: Link, after: World, reply: Reply<()>) {
    var deleted := Transact(w.db, [Delete(MeetingStatusOf(q.meeting))], true, link);
    var stale := ProducersOfMeeting(w.mem.producers, q.meeting);
    if deleted.1.Failure? then after == w && reply == Failure(ProblemOf(deleted.1.error))
    else if participants == [] && stale != {} then
      reply == Failure(Unwound) && exists x :: x in stale && after == World(deleted.0, EndUnwound(w.mem, q, x))
    else after == Ended(w, q, link) && reply == Success(())
  }

  function Ended(w: World, q: EndRequest, link: Link): World {
    match Transact(w.db, [Delete(MeetingStatusOf(q.meeting))], true, link)
    case (after, Success(_)) => World(after, ForgetMeeting(w.mem, q))
    case (_, Failure(_)) => w
  }
}
