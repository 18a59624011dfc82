# Meeting sessions, their tables and their recordings

Doordarshan's media server keeps every meeting session twice: in MySQL tables tied together by foreign
keys, and in hash maps in the memory of the server. A third piece of bookkeeping, a dozen maps per
meeting, shadows the GStreamer pipeline that records it. This project models the three and proves what
keeps them in step. `dafny verify dfyconfig.toml` checks all of it.

## Structure

- `Schema`, `Cascade`, `Dao`, `Executor`: the tables with their keys and foreign keys, `ON DELETE CASCADE`
  as a closure over the foreign-key graph, which row an insert writes and which rows a delete selects,
  and the transaction loops of `mutate`, `put` and `delete`. A table is a bag of rows: only the two tables
  without a key can hold a row twice.
- `Session`: what each session operation does to tables and memory, as functions of the request and of
  what the foreign calls answered. `Provisioning` does the same for meetings and routers.
- `Sfu`: the server as a class whose fields are the in-memory maps. Each method works as the source does
  (loops over ids, inserts and removals, calls to the executor) and is proved equal to the function of
  `Session` or `Provisioning` that specifies it.
- `Answers`, `Outgoing`, `Placements`, `Failures`, `RecordingEffects`: what each request is told and what it
  leaves behind, stated on rows and map entries; when it panics; and how transactions fail.
- `Outcomes`, `Erasure`, `Membership`: what the session's transactions commit, row by row; the
  `new_user` flag.
- `Invariants`, `Joining`, `Producing`, `Consuming`, `Leaving`, `Runs`: what ties tables to memory, that
  every operation keeps it whatever fails on the way, and hence every run.
- `Transports`, `Commuting`, `Sharding`, `KeyedLocks`, `Ports`: transport recreation, the two rejoin calls
  of a returning client, the sharded consumer store, the keyed async locks, the recording ports.
- `Kinds`, `Newcomers`, `Witness`, `Refusals`: which spellings of a producer kind can stand beside one
  another, what the join of somebody new does, and runs that show what the code does not keep.
- `Recording`, `RecordingRuns`, `Gstreamer`: the recording pipeline as values, what any run of its
  operations keeps, and the operations step by step as a class.

## How the parts of the source appear

A *run* starts from a server with empty maps and a database holding only workers, and is any sequence of
the nine operations: create a meeting, replace a batch of meetings, join or rejoin on either side, create
and close producers, create and close consumers, leave, end. One operation is one step, except in
`KeyedLocks`, where `create_producer` is cut into lock, check, commit, insert and unlock.

What the world decides is a parameter of each step: the identifiers mediasoup makes (always new), whether
it makes them, how far the recording of a producer gets, whether a pipe to a router succeeds, whether closed
producers can be taken out of the recording pipeline, and for each transaction a `Link` that can give no
connection, on which the source panics, refuse one statement with an error of its own, fail to roll back, or
fail to commit. All of these may fail anywhere in a run, except where a row of the table says that foreign
calls succeed.

Requests are honest: a transport is presented with the participant, meeting and instance it was made for;
a join names the meeting its participant is already in, if any; closed producers belong to the named
participant; consumed producers were made by mediasoup and, while they live, belong to the named target in
the named meeting; an end lists a participant when the meeting has producers. A batch replaces only
meetings without participants in the tables. `Admissible` in `Runs` states this.

Which transports memory forgets is up to the request. `Clean` in `Transports` asks that the named ones are
the current ones, where the source uses them: in a join of a new user, whose foreign calls then have to
succeed, in a leave of the current instance, and in an end that deletes. It says nothing about the joins of
a known member, about stale leaves or about any other step. `ForgetsExactly` is the exact condition.

A transaction that fails or is interrupted leaves the table as it was; a row that is both a duplicate and
dangling is reported as a duplicate. The media server is the only writer of the database. Identifiers
are compared exactly. Hash maps are traversed in an arbitrary order: methods list a set of keys in any
order, or take any element where the source takes the first.

In the recorder, elements of different sorts are kept in different sets, requested pads belong to the
element they were requested from, and `made` counts the calls that make something new. The optional shared
elements are a map from their role. Pads of the RTP bin are announced for live sessions only, and a new
session gets a number that no live session has.

## Where the code does less than it is said to

Each of these has the exact condition, for all inputs, and an example.

- A producer kind is parsed without regard to case but stored and compared exactly, so a participant can have
  two producers of one meaning. `Kinds.CreateDoublesIff` says which create does it, `Witness.SpellingsCanDouble`
  is a run that does, and `Kinds.OnePerParsedKindOnRuns` that lower-case requests never do.
- Closing participants leaves their RTCP sink of video and their compositor pad in place until the next pad
  replaces them: `RecordingRuns.CloseLeavesNothingIff`, `RecordingRuns.CloseCanLeaveSomething`. The maps still
  match GStreamer exactly.
- A leave or rejoin whose producers cannot be taken out of the recording pipeline stops there and leaves the
  consumers that they fed: `Leaving.LeaveForgetsFedIff` and `Joining.RejoinForgetsFedIff`, with the runs
  `Refusals.RefusedLeaveCanLeaveFed` and `Refusals.RefusedRejoinCanLeaveFed`.
- An end that lists no participants panics at the first producer it removes and leaves the others in memory:
  `Leaving.EndAgreesIff`, `Witness.UnlistedEndCanDisagree`.
- Two recordings from disjoint port ranges can share a port: `Ports.DisjointRangesShareIff`,
  `Ports.AdjacentRangesCanShare`. The RTCP port can equal the exclusive end of the range:
  `Ports.RtcpPortIsEndIff`.

## Model

| member | source | states |
|---|---|---|
| `Cascade.ClosureIsReachability` | create_tables.sql:109-149 | A row goes exactly when a chain of cascading foreign keys leads to it from a deleted row. |
| `Cascade.ClosureGrows` | create_tables.sql:109-149 | The cascade contains the deleted rows and leaves no surviving row that references a deleted one. |
| `Cascade.ClosureIsLeast` | create_tables.sql:109-149 | It is contained in every set of rows that does so. |
| `Cascade.RemovalKeepsReferences` | create_tables.sql:109-149 | Removing a set of rows keeps all cascading foreign keys if and only if the set is closed in that sense. |
| `Cascade.CascadeInAnyOrder` | create_tables.sql:109-149 | Visiting rows one at a time in any order terminates with the same set. |
| `Executor.StatementKeepsConstraints` | create_tables.sql:4-149 | Every insert and delete that the database accepts preserves all primary, unique and foreign keys. |
| `Executor.TransactionKeepsConstraints` | src/db/mod.rs:189-228 | So does every transaction, also one that skips duplicates part-way or fails. |
| `Executor.TransactionMeaning` | src/db/mod.rs:176-244 | On failure the table is unchanged; success with a table and a flag means exactly that a history of the statements in order leads there, in which each statement was applied or was a duplicate that was skipped, and the flag tells whether one was skipped, which never happens with rollback on duplicates. |
| `Failures.TransactionFailure` | src/db/mod.rs:176-244 | A transaction fails with an error if and only if it has no connection and panics, or the first statement that is neither applied nor skipped is answered with that error, which a failing rollback replaces, or it gets through and the commit answers with it. |
| `Executor.BuildAllIsPointwise` | src/db/mod.rs:125-175 | Building the queries succeeds exactly when every entity builds, and yields their statements in order. |
| `Executor.BuildQueries` | src/db/mod.rs:125-175 | The loop that builds the queries stops at the first entity that refuses. |
| `Failures.FirstRefusal` | src/db/mod.rs:125-175 | Building fails with an error if and only if it is that of the first entity that does not build. |
| `Executor.Mutate` | src/db/mod.rs:124-244 | The transaction loop commits the table and returns the flag or error of the specified transaction, and panics without a connection. |
| `Executor.Put` | src/db/mod.rs:251-313 | `put` is `mutate` on the inserts of its entities, without rollback on duplicates and without the flag, and panics alike. |
| `Failures.PutInserts` | src/db/mod.rs:251-313 | What `put` builds is exactly the insertion of every entity, whatever its own mutation, in order. |
| `Executor.DeleteEntities` | src/db/mod.rs:378-417 | `delete` applies all deletes or none, reports the affected rows of the last, and panics on a refused one or without a connection. |
| `Failures.DeleteDeletes` | src/db/mod.rs:378-390 | What `delete` builds is exactly the deletion of every entity, in order. |
| `Failures.DeletionMeaning` | src/db/mod.rs:378-417 | `delete` commits a table and a count if and only if every statement in turn was applied, the last one affected that many rows, and the commit succeeds; it panics if and only if it has no connection or a statement is refused. |
| `Erasure.MemberClosure` | create_tables.sql:115-146 | Deleting a membership removes exactly the rows that name its participant as owner or as target. |
| `Erasure.MeetingClosure` | create_tables.sql:109-149 | Deleting a meeting removes exactly its own rows and the rows about its members. |
| `Outcomes.DeleteApplies` | create_tables.sql:106-149 | No delete of the session code is refused by the one foreign key without a delete action. |
| `Membership.RegisterEffect` | src/mediasoupv1/mod.rs:1030-1084 | What a successful membership transaction commits, with other instances evicted and duplicates skipped, and the value of its flag. |
| `Membership.EvictionEffect` | src/mediasoupv1/mod.rs:1037-1043 | Evicting a superseded instance removes everything about the participant and nothing else; otherwise nothing. |
| `Membership.NewcomerHasNoRouter` | create_tables.sql:115-131 | When the membership insert succeeds, referential integrity rules out that the router insert is the duplicate. |
| `Membership.NewUserIsExact` | src/mediasoupv1/mod.rs:1030-1084 | `new_user` is true if and only if the participant had no membership, or had one in this meeting under another instance. |
| `Joining.JoinKeepsInv` | src/mediasoupv1/mod.rs:905-1022 | A join or rejoin keeps tables and memory in agreement, wherever it fails, also when the recording pipeline refuses to let go of old producers. |
| `Answers.NewTransportIsAnswered` | src/mediasoupv1/mod.rs:1296-1315 | When a join stores the transport made for it, it answers with exactly that transport, and the row is in the table of its side. |
| `Answers.JoinNamesItsTransport` | src/mediasoupv1/mod.rs:1309-1348 | Every successful join answers with a transport that is in `transport_map` for this participant, meeting and side. |
| `Answers.JoinRegisters` | src/mediasoupv1/mod.rs:905-1084 | After a successful join the participant is stored as a member under the requested instance and has a router row on this side, the requested one unless it was already a member under that instance. |
| `Answers.JoinRemembers` | src/mediasoupv1/mod.rs:905-1022 | In memory a registered join takes away the producers and plain transports of a superseded instance, replaces the transports it names by the one made for it if that is stored, the names counting for a new user only, and changes nothing else but consumers. |
| `Answers.JoinSparesOtherRows` | src/mediasoupv1/mod.rs:905-1022 | No join, failed or not, touches a row that is not about its participant. |
| `Answers.JoinSucceeds` | src/mediasoupv1/mod.rs:1316-1348 | Once registered, with a known router and a transport made, a join over a working connection succeeds from agreeing transports: "No transport found for participant" cannot happen. |
| `Answers.JoinIsRefusedIff` | src/mediasoupv1/mod.rs:1559-1582 | The recording pipeline stops a registered join exactly when it does not let go and another instance of the participant has a producer in the meeting, and then the join fails. |
| `Answers.JoinPanicsIff` | src/mediasoupv1/mod.rs:905-1022 | A join panics exactly without a connection for one of its transactions, or when it gets to an unknown router. |
| `Joining.ClosedExactly` | src/mediasoupv1/mod.rs:1553-1582 | In every shard a rejoin closes the superseded participant's own consumers and those its producers fed, and no other one; without a superseded instance it closes none. |
| `Joining.RejoinForgetsFedIff` | src/mediasoupv1/mod.rs:1553-1636 | A registered rejoin leaves nobody with a consumer fed by the superseded instance if and only if the recording pipeline lets its producers go or they feed nobody. |
| `Refusals.RefusedRejoinCanLeaveFed` | src/mediasoupv1/mod.rs:1559-1582 | A run in which the pipeline refuses a rejoin: the old producer is gone and the viewer keeps the consumer that it fed. |
| `Producing.ProduceKeepsInv` | src/mediasoupv1/mod.rs:1847-2113 | Creating a producer keeps the agreement, wherever it fails. |
| `Answers.NewProducerIsAnswered` | src/mediasoupv1/mod.rs:2048-2113 | A create that stores its producer answers with it, adds exactly its row, and remembers it with its meeting, participant, kind and instance and, if recorded, with exactly the plain transport and the consumer that record it. |
| `Answers.OtherCreatesChangeNothing` | src/mediasoupv1/mod.rs:1871-1886 | Any other create changes nothing; it succeeds only with a producer of this spelling that the participant has in the meeting, and fails only when there is none. |
| `Answers.ObstaclesAre` | src/mediasoupv1/mod.rs:1888-2043 | A create reaches the database exactly when the transport is known, the kind parses, mediasoup made the producer, every step of recording worked if asked for, and the router and every consumer router are known and reached; which of the failures are panics. |
| `Answers.CreatePanicsIff` | src/mediasoupv1/mod.rs:1847-2113 | A create panics exactly when it has nothing to answer with and comes to an unknown transport or router, or has no connection. |
| `Answers.KindsAreSpelled` | src/mediasoupv1/mod.rs:228-245 | A kind parses exactly when its letters, in either case, are those of video, audio or screenshare. |
| `Producing.SupersededTransportIsFenced` | src/mediasoupv1/mod.rs:1847-2113 | A create on a transport whose instance is no longer the member's changes neither tables nor maps. |
| `Producing.CreateCommitsIff` | src/mediasoupv1/mod.rs:1847-2113 | A create that nothing else stops commits if and only if the transport is still stored for the participant. |
| `Kinds.CreateDoublesIff` | src/mediasoupv1/mod.rs:1871-1886 | A create that commits yields a second producer of one parsed kind if and only if the participant has one in the meeting under another spelling. |
| `Kinds.OnePerKindOnRuns` | src/mediasoupv1/mod.rs:1871-1886 | In every state of every run a participant has at most one producer of each spelling in a meeting. |
| `Kinds.OnePerParsedKindOnRuns` | src/mediasoupv1/mod.rs:228-245 | When all requested kinds that parse are in lower case, at most one of each parsed kind. |
| `Kinds.NeverTwoOfAMeaning` | src/mediasoupv1/mod.rs:228-245 | The same under every interleaving of creates with unlocked closes, where a create of a kind that does not parse stops before its commit. |
| `Witness.SpellingsCanDouble` | src/mediasoupv1/mod.rs:1871-1886 | A run in which a participant gets producers of the kinds "video" and "Video". |
| `Producing.CloseProducersKeepsInv` | src/mediasoupv1/mod.rs:2367-2442 | Closing producers keeps the agreement. |
| `Answers.CloseForgetsExactly` | src/mediasoupv1/mod.rs:2367-2442 | A close that gets through removes exactly the named producers of the participant from the table, and from memory the named ones with their plain transports and nothing else; any other changes nothing. |
| `Producing.ProducerDeletionsEffect` | src/mediasoupv1/mod.rs:2375-2404 | The close transaction removes exactly the named producers of the participant. |
| `Consuming.ConsumeKeepsInv` | src/mediasoupv1/mod.rs:2122-2237 | Creating consumers keeps the agreement, wherever it fails. |
| `Outgoing.ConsumersAreAnswered` | src/mediasoupv1/mod.rs:2151-2228 | A successful create answers exactly the requested pairs of target and kind, each with a consumer of this instance in the shard: the one that was there before, or else the one made for it, with its row. |
| `Outgoing.NothingElseConsumed` | src/mediasoupv1/mod.rs:2122-2237 | It adds only what it answers to the shard and the table and changes nothing else; a failed one changes nothing. |
| `Outgoing.ConsumePanicsIff` | src/mediasoupv1/mod.rs:2122-2237 | A create of consumers panics exactly on an unknown transport, or without a connection once every target is served. |
| `Consuming.SubscribeAssembles` | src/mediasoupv1/mod.rs:2151-2215 | The loop over the targets adds exactly one consumer, with its row, for each target that has none and answers the others with the one they have. |
| `Consuming.OnlyRefusalsFail` | src/mediasoupv1/mod.rs:2153-2176 | With one consumer per subscription the "More than one existing consumer" branch is unreachable: before the transaction a create fails if and only if the transport is unknown or mediasoup refuses a new target. |
| `Consuming.RepeatedConsumeIsNoOp` | src/mediasoupv1/mod.rs:2122-2237 | Repeating a successful create returns the same consumers and changes neither memory nor tables; a failed one changes neither. |
| `Consuming.SupersededConsumerTransportIsFenced` | src/mediasoupv1/mod.rs:2122-2237 | A create on a consumer transport of a superseded instance changes neither tables nor maps. |
| `Consuming.CloseConsumersKeepsInv` | src/mediasoupv1/mod.rs:3023-3066 | Closing consumers keeps the agreement. |
| `Outgoing.CloseDropsExactly` | src/mediasoupv1/mod.rs:3023-3066 | A close that gets through removes exactly the named consumers from the table and from the shard of the meeting; any other changes nothing. |
| `Consuming.ConsumerDeletionsEffect` | src/mediasoupv1/mod.rs:3030-3058 | The close transaction removes exactly the named consumers. |
| `Leaving.LeaveOutcome` | src/mediasoupv1/mod.rs:3073-3152 | A leave acts if and only if the exact meeting, participant and instance is stored, and `send_signal` says so; a stale or repeated leave changes nothing; it fails without effect in the transaction, or with the rows gone when the recording pipeline refuses. |
| `Outgoing.LeavePanicsIff` | src/mediasoupv1/mod.rs:3073-3117 | A leave panics exactly without a connection, or when its statement is refused. |
| `Outgoing.LeaveIsRefusedIff` | src/mediasoupv1/mod.rs:3118-3135 | The recording pipeline stops a leave exactly when it does not let go and the leaving instance has a producer in the meeting. |
| `Outgoing.RefusedLeaveErases` | src/mediasoupv1/mod.rs:3118-3135 | A leave that is stopped fails with the leaver's rows, named transports, producers, plain transports and own consumers gone, and nothing else. |
| `Leaving.LeaveErasesExactlyTheLeaver` | src/mediasoupv1/mod.rs:3073-3152 | An effective leave removes all rows about the participant, the transports it names, its producers and their plain transports, its consumers and those its producers fed, and leaves every other entry unchanged. |
| `Leaving.LeaveForgetsFedIff` | src/mediasoupv1/mod.rs:3118-3135 | Of a leaver whose row is deleted nobody keeps a fed consumer, if and only if the recording pipeline lets its producers go or they feed nobody. |
| `Refusals.RefusedLeaveCanLeaveFed` | src/mediasoupv1/mod.rs:3119-3135 | A run in which the pipeline refuses a leave, with the same outcome. |
| `Leaving.LeaveKeepsInv` | src/mediasoupv1/mod.rs:3073-3152 | A leave keeps the agreement. |
| `Leaving.MeetingDeletion` | src/mediasoupv1/mod.rs:3173-3187 | Deleting the meeting's status removes exactly the meeting, also when there is none. |
| `Leaving.EndErasesExactlyTheMeeting` | src/mediasoupv1/mod.rs:3159-3219 | Ending removes all rows that name the meeting or are about its members, its producers, plain transports and consumers in every shard, and nothing else. |
| `Outgoing.EndAnswers` | src/mediasoupv1/mod.rs:3159-3219 | Over a working connection an end answers Ok exactly when it lists a participant or the meeting has no producer; it panics exactly without a connection, or at the first of the producers, which alone is gone from its map then; an error means that nothing changed. |
| `Leaving.EndKeepsInv` | src/mediasoupv1/mod.rs:3159-3219 | Ending keeps the agreement. |
| `Leaving.EndAgreesIff` | src/mediasoupv1/mod.rs:3159-3219 | For every request ending keeps the agreement if and only if the transaction fails, or a participant is listed, or the meeting has at most one producer and that one is not recorded. |
| `Witness.UnlistedEndCanDisagree` | src/mediasoupv1/mod.rs:2449-2473 | A run after which an end without participants panics and breaks the agreement. |
| `Runs.StepKeepsInv` | src/mediasoupv1/mod.rs:656-3254 | Every operation keeps the agreement between tables and memory. |
| `Runs.ProducersAgreeOnRuns` | src/mediasoupv1/mod.rs:1539-3254 | In every state of every run `producer_map` and `participant_producers` hold the same producers with equal participant, meeting and kind, once each; each producer's instance is the one in its participant's membership; and all keys of the schema hold. |
| `Runs.StaleInstancesAreFencedOnRuns` | src/mediasoupv1/mod.rs:1847-2113 | In every such state a create naming a transport issued to a superseded instance changes nothing. |
| `Runs.NeverTwoConsumersOnRuns` | src/mediasoupv1/mod.rs:2153-2176 | In every such state there is at most one consumer per participant, target, kind, meeting and instance. |
| `Transports.TransportsAgreeOnRuns` | src/mediasoupv1/mod.rs:1225-1470 | In every state of every clean run `transport_map` and the transport tables hold the same transports and a participant has at most one on each side. |
| `Transports.TransportsAgreeIff` | src/mediasoupv1/mod.rs:905-3219 | In a run transport memory agrees with the tables, and every transport with its grant, in every state if and only if each join, leave and end forgets the transports whose rows it removes, and no others. |
| `Transports.JoinTransportsIff` | src/mediasoupv1/mod.rs:1296-1308 | From agreeing transports a join, whatever fails in it, leads to agreeing transports if and only if it is not of a new user, or it stores its transport and names exactly the participant's current ones, or it stores none and the participant had none. |
| `Transports.MembersJoinIsClean` | src/mediasoupv1/mod.rs:935-941 | A join under the instance of the membership is clean whatever it names and whatever fails, because its old transports are ignored. |
| `Witness.BothSidesAreClean` | src/mediasoupv1/mod.rs:905-1022 | A clean run in which a participant joins to produce and then to consume without naming old transports, and has both transports. |
| `Transports.NewcomersTransportIsAccepted` | src/mediasoupv1/mod.rs:1296-1308 | After a join that reports a new user the transport insert cannot collide. |
| `Transports.RepeatedJoinReusesTransport` | src/mediasoupv1/mod.rs:1309-1348 | Repeating a join under the same instance returns the existing transport through the duplicate path and changes no map. |
| `Commuting.RejoinsCommute` | src/mediasoupv1/mod.rs:905-1022 | The producer and the consumer rejoin of a client under a new instance, with the same old transports, end in the same tables and memory in either order, holding both new transports. |
| `Commuting.RejoinsAreClean` | src/mediasoupv1/mod.rs:905-1022 | In either order both of these rejoins are clean when the client names its current transports as the old ones. |
| `Commuting.OldInstanceIsGone` | src/mediasoupv1/mod.rs:1539-1654 | Afterwards of the old instance no named transport, producer, plain transport, consumer or fed consumer is left, its rows are only the five new ones, everyone else's entries stay, and if the named transports are its current ones its only transports are the two new ones. |
| `Sharding.RunRefines` | src/mediasoupv1/mod.rs:3385-3390 | Any run of store operations on the shards refines the same run on one flat map, each consumer living in the shard of its meeting only. |
| `Sharding.StoreIsOneFlatMap` | src/mediasoupv1/mod.rs:3300-3378 | After any run, for every hash function and shard count, creation decides on the same batch and reply and the meeting-filtered queries give the same answers as on the flat map. |
| `Sharding.SessionRunsRefineFlat` | src/mediasoupv1/mod.rs:2122-3254 | In every run of the session the shards follow one flat map to which the same store operations are applied, all legal: creation and all queries, also the query by producers of the meeting, answer as on the flat map. |
| `Sharding.OpsAreLegal` | src/mediasoupv1/mod.rs:2122-3254 | What each step of the session does to the shards is a sequence of legal store operations. |
| `Sharding.HonestCloseIsOneDrop` | src/mediasoupv1/mod.rs:3004-3016 | A close that names consumers of its own meeting only is one deletion from the flat map. |
| `KeyedLocks.NeverTwoOfAKind` | src/mediasoupv1/mod.rs:1862-1886 | Under every interleaving of creates with unlocked closes, `producer_map` never holds two producers of one meeting, participant and kind. |
| `KeyedLocks.OneAtATime` | src/mediasoupv1/mod.rs:1862-1865 | Of the tasks that create producers in one meeting at most one holds a lock, and so for the tasks with which one participant rejoins. |
| `KeyedLocks.InsertedAsRequested` | src/mediasoupv1/mod.rs:2074-2086 | Under every interleaving what a task inserts is the producer that it committed, under the meeting, participant and kind it was started with. |
| `KeyedLocks.InsertKeepsAbsence` | src/mediasoupv1/mod.rs:2074-2086 | Between its check and its insertion nobody else inserts what a task is about to insert. |
| `KeyedLocks.KeyYieldsOneMutex` | src/mediasoupv1/mod.rs:1862-1865 | A key yields the same mutex for ever, and no other key yields it. |
| `KeyedLocks.HolderCanMove` | src/mediasoupv1/mod.rs:970-975 | The holder of a mutex that is waited for can release it, and then the waiting task can take it. |
| `KeyedLocks.NoWaitCycle` | src/mediasoupv1/mod.rs:916-921 | A task holds at most one keyed mutex and waits for none while it holds one, so no chain of waiting tasks is longer than one wait. |
| `Provisioning.SharesArePlaced` | src/mediasoupv1/mod.rs:793-850 | Creation places exactly one router per requested entry, on known workers, or fails. |
| `Placements.CreatedRouter` | src/mediasoupv1/mod.rs:793-870 | When a create answers that it created the meeting, every entry of every share has the router made for it: stored for the worker of the share and for the meeting with the capacity of that entry in its column, and in `routers_map` with that capacity. |
| `Placements.NothingElseCreated` | src/mediasoupv1/mod.rs:774-886 | Everything else that is new is the meeting's status and belongs to those routers; all old rows and routers stay. |
| `Placements.PlacingFails` | src/mediasoupv1/mod.rs:793-808 | Placing succeeds if and only if every worker is known and every router is made, and panics if and only if an unknown worker comes before a router that is not made. |
| `Placements.CreationPanicsIff` | src/mediasoupv1/mod.rs:774-886 | A create panics exactly when placing does, or without a connection once all routers are placed with a capacity each. |
| `Provisioning.PlansArePlaced` | src/mediasoupv1/mod.rs:667-728 | So does the batch. |
| `Placements.ReplacedRouter` | src/mediasoupv1/mod.rs:667-755 | When a batch succeeds every entry of every plan has the router made for it, in the same places with its own capacity. |
| `Placements.NothingElseReplaced` | src/mediasoupv1/mod.rs:656-766 | Every meeting of the batch exists then, and everything else that is new belongs to those routers. |
| `Placements.PlanningFails` | src/mediasoupv1/mod.rs:667-690 | Placing a batch succeeds if and only if every worker is known and every router is made, and panics if and only if the first entry that stops it names an unknown worker. |
| `Placements.ReplacementPanicsIff` | src/mediasoupv1/mod.rs:656-766 | A batch panics exactly when placing does, or without a connection once all routers are placed with a capacity each. |
| `Provisioning.CreationIsAtomic` | src/mediasoupv1/mod.rs:774-886 | On success the meeting is new and every router is in the tables and in `routers_map` with the capacity of its column, routers that were there keep theirs, and nothing else changed; otherwise nothing changed. |
| `Provisioning.ExistingMeetingIsKept` | src/mediasoupv1/mod.rs:867-873 | Creating a meeting that exists answers Ok and changes nothing, whatever routers it asks for. |
| `Provisioning.AlreadyExistsIff` | src/mediasoupv1/mod.rs:862-873 | With new router identifiers that answer is given if and only if the meeting exists. |
| `Provisioning.ReplacementIsAtomic` | src/mediasoupv1/mod.rs:656-766 | On success every new router is in both, routers that were there keep their capacities, the old rows outside the replaced meetings stay as they were, and the only other rows are the meetings' statuses and the new routers' rows; on failure nothing changed. |
| `Provisioning.ReplacedMeetingIsClean` | src/mediasoupv1/mod.rs:656-766 | A replaced meeting has no participants and exactly its new routers. |
| `Provisioning.BuiltRouters` | src/dao/mod.rs:253-288 | The row of a router fills in one capacity column, the whole one before the producing before the consuming. |
| `Ports.FreePort` | src/mediasoupv1/mod.rs:629-650 | The search returns the least free port start+2k below the end of the range, or fails if and only if all are busy. |
| `Ports.RtcpPort` | src/mediasoupv1/mod.rs:1994-1999 | The port after it does not overflow and does not pass the end of the range. |
| `Ports.OneRangeNeverShares` | src/mediasoupv1/mod.rs:1994-1999 | Two different results of one range share no port. |
| `Ports.DisjointRangesShareIff` | src/mediasoupv1/mod.rs:629-650 | Searches over two disjoint ranges can find pairs that share a port if and only if the second range starts where the first ends and the first has an odd number of ports. |
| `Ports.AdjacentRangesCanShare` | src/mediasoupv1/mod.rs:629-650 | Two searches over adjacent ranges whose results share a port. |
| `Ports.RtcpPortIsEndIff` | src/mediasoupv1/mod.rs:1994-1999 | A search can find a port whose RTCP port is the exclusive end of the range if and only if the range has an odd number of ports. |
| `Ports.PairingNeedsEvenStart` | src/mediasoupv1/mod.rs:629-650 | All pairs are an even RTP and the next odd RTCP port, as section 11 of RFC 3550 asks, if and only if the range starts even. |
| `Sfu.MediaServer.RemoveAndAddParticipantToMeeting` | src/mediasoupv1/mod.rs:1030-1084 | Runs the membership transaction and answers `new_user`. |
| `Sfu.MembershipBuilds` | src/dao/mod.rs:354-480 | The statements of that transaction: delete other instances, insert membership, insert routers. |
| `Sfu.MediaServer.CreateTransport` | src/mediasoupv1/mod.rs:1225-1470 | Stores the new transport and replaces the old ones in memory, or returns the existing one on a duplicate. |
| `Sfu.MediaServer.CloseOthers` | src/mediasoupv1/mod.rs:1539-1580 | Closes in memory what other instances left, up to the producers when the recording pipeline refuses. |
| `Sfu.MediaServer.RecreateTransportHelper` | src/mediasoupv1/mod.rs:905-1022 | The whole join on either side has the specified effect and reply, which `Answers` determines. |
| `Sfu.MediaServer.CreateProducer` | src/mediasoupv1/mod.rs:1847-2113 | Has the specified effect and reply for every obstacle, and every step of the recording branch, in the order of the code. |
| `Sfu.MediaServer.CloseProducer` | src/mediasoupv1/mod.rs:2367-2442 | Has the specified effect, reports exactly the producers that were in memory, and fails when they cannot be taken out of the recording pipeline, which a screen share alone never asks for. |
| `Sfu.MediaServer.CloseAllProducersInMemory` | src/mediasoupv1/mod.rs:2449-2473 | Removes the producers with their plain transports and reports those removed; without participants it panics at the first one, which alone is gone. |
| `Sfu.MediaServer.CreateConsumer` | src/mediasoupv1/mod.rs:2122-2237 | The loop over the targets has the specified effect and reply, which `Outgoing.ConsumersAreAnswered` determines. |
| `Sfu.MediaServer.CloseConsumer` | src/mediasoupv1/mod.rs:3023-3066 | Has the specified effect. |
| `Sfu.MediaServer.CloseAllConsumersInMemory` | src/mediasoupv1/mod.rs:3004-3016 | Removes the consumers from their meeting's shard. |
| `Sfu.MediaServer.LeaveMeeting` | src/mediasoupv1/mod.rs:3073-3152 | Has the specified effect and reply. |
| `Sfu.MediaServer.EndMeeting` | src/mediasoupv1/mod.rs:3159-3219 | Has the specified effect and reply, also without participants. |
| `Sfu.MediaServer.CreateMeetingAndRoutersOnWorkers` | src/mediasoupv1/mod.rs:774-886 | Has the specified effect and reply, which `Placements` determines. |
| `Sfu.MediaServer.BatchCreateRouterOnWorker` | src/mediasoupv1/mod.rs:656-766 | Has the specified effect and reply, which `Placements` determines. |
| `RecordingRuns.RecordingIsConserved` | src/gstreamer/mod.rs:930-2000 | After any run the six video and the three audio decode maps have equal keys, the decode elements in the pipeline are exactly their values, the live mixer and compositor pads are exactly those of their maps, and no pad was released twice. |
| `RecordingRuns.PadIsNeverLost` | src/gstreamer/mod.rs:1424-1449 | A mixer or compositor pad once requested is in use or was released exactly once. |
| `Recording.PadKeepsDecoders` | src/gstreamer/mod.rs:1076-1338 | Replacing a participant's elements keeps the maps exact. |
| `RecordingEffects.SourcePadFeeds` | src/gstreamer/mod.rs:1699-1742 | After a source pad of audio the participant has a new pad of the mixer, and of video of the compositor, live on neither before; the one it replaces is released there, everyone else keeps theirs, and the other element and its map are unchanged. |
| `RecordingEffects.SourcePadDecodes` | src/gstreamer/mod.rs:1076-1338 | For every decoding stage of the medium a new element takes the participant's place in its map and in the pipeline; all other entries, sources, sinks and sessions stay. |
| `Recording.CloseKeepsDecoders` | src/mediasoupv1/mod.rs:2544-2770 | So does closing participants. |
| `RecordingEffects.CloseSparesOthers` | src/mediasoupv1/mod.rs:2475-2995 | Closing takes exactly the closed participants' entries out of every map but two, with their sessions and sources; everyone else's stay, and so do the shared elements. |
| `Recording.SessionsTaken` | src/gstreamer/mod.rs:236-246 | Removing sessions with their pads keeps the pads of the RTP bin exactly those of the live sessions. |
| `Recording.StartLinksOnce` | src/gstreamer/mod.rs:2368-2459 | A start in any order, on either medium, keeps the video chain, the audio chain and the handler linked exactly once for the elements that are there. |
| `RecordingEffects.ChainsAreLinked` | src/gstreamer/mod.rs:820-900 | After any run the links are, once each and in this order, compositor to scaler to caps to encoder to muxer if some start happened, and mixer to encoder to muxer if some start was audio, between elements of the pipeline. |
| `RecordingEffects.StartStores` | src/gstreamer/mod.rs:317-928 | Every start succeeds and remembers a new RTP and a new RTCP source of its medium for the participant and a session with two new pads of the bin; all other entries, elements and pads stay. |
| `RecordingEffects.BinFromTheFirst` | src/mediasoupv1/mod.rs:2834-2860 | In every run there is an RTP bin exactly from the first operation on, so that closing half-way and the panic of a failing source only meet a recorder with nothing to lose. |
| `RecordingRuns.SinkIsReplaced` | src/gstreamer/mod.rs:1772-1998 | After an RTCP pad the participant has exactly one sink of the medium in the pipeline, the new one, and everyone else keeps theirs. |
| `RecordingRuns.SinkPadKeepsInv` | src/gstreamer/mod.rs:1772-1998 | Replacing a sink keeps the bookkeeping exact. |
| `RecordingRuns.FailureErasesOneMedium` | src/gstreamer/mod.rs:213-297 | A failed source takes the participant's sources and sessions of one medium and releases their pads once; every other session, pad and source stays. |
| `RecordingRuns.FailKeepsInv` | src/gstreamer/mod.rs:213-297 | That cleanup keeps the bookkeeping exact. |
| `RecordingRuns.CloseLeavesNothingIff` | src/mediasoupv1/mod.rs:2544-2932 | Closing participants leaves nothing of them in any map if and only if none of them has an RTCP sink of video or a compositor pad. |
| `RecordingRuns.CloseCanLeaveSomething` | src/mediasoupv1/mod.rs:2779-2788 | A run after which a closed participant still has both. |
| `Recording.NeverTorn` | src/gstreamer/mod.rs:655-682 | The errors for a group of shared elements of which only some are new cannot occur. |
| `RecordingRuns.SharedElementsOnce` | src/gstreamer/mod.rs:412-917 | After any run of starts in any order every start gets past those errors, each shared element was added at most once, the video chain is linked exactly once and the handler connected exactly once if some start happened, and the audio chain is linked exactly once if and only if some start was audio. |
| `RecordingRuns.StepKeepsInv` | src/gstreamer/mod.rs:213-2468 | Every recording operation keeps the bookkeeping exact; the elements that take the decoded streams exist when the handler needs them. |
| `GstreamerOps.Gstreamer.StartRecording` | src/gstreamer/mod.rs:317-928 | A start on either medium, element by element, has the specified effect and result. |
| `GstreamerOps.Gstreamer.SourcePadAdded` | src/gstreamer/mod.rs:979-1742 | The handler replaces the participant's elements and pad as specified, its lookups of old elements cannot fail, and it panics exactly when the pad's name lacks the session or the synchronisation source, or the session is not live. |
| `GstreamerOps.Gstreamer.CloseParticipants` | src/mediasoupv1/mod.rs:2475-2995 | The removal loops take the participants' entries out of the maps and the pipeline as specified; without an RTP bin they fail half-way. |

## Left out

- mediasoup and GStreamer themselves, media flow, DTLS and ICE, bitrates, codecs and caps: only new identifiers, success or failure, and sets of elements and pads appear.
- HTTP handlers, JSON, configuration, logging, metrics, heartbeats and the analytics client.
- SQL text, quoting, column widths and collations: statements are structured and identifiers compare exactly.
- `UPDATE` statements, `container_heartbeat` and `container_status`: only the heartbeat thread uses them.
- The replies of the database queries `get_producers_of_meeting` and its excluding variant, and the texts of errors.
- Pausing and resuming producers and consumers, connecting transports and restarting ICE: they change no bookkeeping.
- `pipeline_map`: the map from meetings to recorders is not among the maps of the session, and each recorder is modelled by itself.
- Folders, file names and timestamps in element names, the H.264 pipeline, and the SSRC list of each recording session.
- UDP sources matching the pipeline: a participant that starts video and screen share overwrites its entry, so only the entries themselves are modelled.
- Agreement in the middle of an operation, and after a batch replaces a meeting that still has participants.
- Deadlock freedom of the locks inside the recorder: only the keyed locks are modelled.
- A panic of a recording handler also poisons the lock it holds, so that later calls on that recorder panic too.
- GstreamerOps.Gstreamer.StartRecording: one method for both media, and every call to GStreamer succeeds.
- Leaving.LeaveErasesExactlyTheLeaver: the transports that go are those the request names, as in the source; `Transports.LeaveTransportsIff` says what follows when these are the current ones.
