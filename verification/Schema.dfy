/** The tables of `create_tables.sql` that the session code reads or writes: one row constructor
    per table, the keys each row provides, and the keys its foreign keys refer to. */
module Schema {
  import opened Common

  datatype Row =
    | WorkerContainer(worker: Id, container: Id)
    | RouterWorker(worker: Id, router: Id)
    | MeetingStatus(meeting: Id, enabled: bool)
    | RouterMeeting(router: Id, meeting: Id, producerCapacity: Option<int>,
                    consumerCapacity: Option<int>, capacity: Option<int>, container: Id)
    | Member(meeting: Id, participant: Id, instance: Id)
    | ProducerRouter(participant: Id, router: Id)
    | ConsumerRouter(participant: Id, router: Id)
    | ProducerTransport(participant: Id, transport: Id)
    | ConsumerTransport(participant: Id, transport: Id)
    | Producer(participant: Id, producers: int, kind: string, producer: Id, meeting: Id, transport: Id)
    | Consumer(participant: Id, consumers: int, target: Id, kind: string, consumer: Id,
               meeting: Id, transport: Id)

  /** A value that a primary key or a unique constraint allows at most once. */
  datatype Key =
    | WorkerKey(worker: Id)
    | RouterKey(router: Id)
    | MeetingKey(meeting: Id)
    | MemberKey(participant: Id)
    | ProducerRouterKey(participant: Id)
    | ConsumerRouterKey(participant: Id)
    | ProducerTransportOwnerKey(participant: Id)
    | ProducerTransportKey(transport: Id)
    | ConsumerTransportOwnerKey(participant: Id)
    | ConsumerTransportKey(transport: Id)
    | SubscriptionKey(participant: Id, target: Id, kind: string)

  /** The primary and unique keys of a row. `router_meeting` and `participant_producers` have none. */
  function Provides(r: Row): set<Key> {
    match r
    case WorkerContainer(w, _) => {WorkerKey(w)}
    case RouterWorker(_, router) => {RouterKey(router)}
    case MeetingStatus(m, _) => {MeetingKey(m)}
    case RouterMeeting(_, _, _, _, _, _) => {}
    case Member(_, p, _) => {MemberKey(p)}
    case ProducerRouter(p, _) => {ProducerRouterKey(p)}
    case ConsumerRouter(p, _) => {ConsumerRouterKey(p)}
    case ProducerTransport(p, t) => {ProducerTransportOwnerKey(p), ProducerTransportKey(t)}
    case ConsumerTransport(p, t) => {ConsumerTransportOwnerKey(p), ConsumerTransportKey(t)}
    case Producer(_, _, _, _, _, _) => {}
    case Consumer(p, _, target, kind, _, _, _) => {SubscriptionKey(p, target, kind)}
  }

  /** The keys that the row's foreign keys with ON DELETE CASCADE refer to. */
  function CascadeRefs(r: Row): set<Key> {
    match r
    case WorkerContainer(_, _) => {}
    case RouterWorker(_, _) => {}
    case MeetingStatus(_, _) => {}
    case RouterMeeting(router, m, _, _, _, _) => {RouterKey(router), MeetingKey(m)}
    case Member(m, _, _) => {MeetingKey(m)}
    case ProducerRouter(p, router) => {MemberKey(p), RouterKey(router)}
    case ConsumerRouter(p, router) => {MemberKey(p), RouterKey(router)}
    case ProducerTransport(p, _) => {MemberKey(p)}
    case ConsumerTransport(p, _) => {MemberKey(p)}
    case Producer(p, _, _, _, _, t) => {MemberKey(p), ProducerTransportKey(t)}
    case Consumer(p, _, target, _, _, _, t) => {MemberKey(p), MemberKey(target), ConsumerTransportKey(t)}
  }

  /** The keys that the row's foreign keys without a delete action refer to. */
  function RestrictRefs(r: Row): set<Key> {
    if r.RouterWorker? then {WorkerKey(r.worker)} else {}
  }

  function References(r: Row): set<Key> {
    CascadeRefs(r) + RestrictRefs(r)
  }

  type Count = n: int | 0 < n witness 1

  /** The database: how many copies of each row are stored. Only tables without a unique key can
      hold more than one copy. */
  type Table = map<Row, Count>

  ghost predicate UniqueKeys(rows: set<Row>) {
    forall r, s, k :: r in rows && s in rows && k in Provides(r) && k in Provides(s) ==> r == s
  }

  ghost predicate Provided(rows: set<Row>, k: Key) {
    exists s :: s in rows && k in Provides(s)
  }

  ghost predicate ForeignKeys(rows: set<Row>) {
    forall r, k :: r in rows && k in References(r) ==> Provided(rows, k)
  }

  ghost predicate SingleCopies(db: Table) {
    forall r :: r in db && Provides(r) != {} ==> db[r] == 1
  }

  /** Every primary key, unique key and foreign key of the schema holds. */
  ghost predicate Consistent(db: Table) {
    UniqueKeys(db.Keys) && ForeignKeys(db.Keys) && SingleCopies(db)
  }
}
