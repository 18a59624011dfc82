/** Creating a meeting with its routers, and replacing the routers of a batch of meetings. */
module Provisioning {
  import opened Common
  import opened Schema
  import opened Dao
  import opened Executor
  import opened Erasure
  import opened Session
  import opened Outcomes
  import opened Invariants
  import opened Leaving

  datatype Capacities = Capacities(whole: Option<int>, producing: Option<int>, consuming: Option<int>)

  function CapacityOf(c: Capacities): Option<int> {
    if c.whole.Some? then c.whole else if c.producing.Some? then c.producing else c.consuming
  }

  /** A router that mediasoup made on a worker for a meeting. */
  datatype Placement = Placement(meeting: Id, container: Id, worker: Id, router: Id, capacities: Capacities)

  /** `made(i, j)` is the router made for entry `j` of part `i` of the request, if one was made. */
  datatype RouterAnswers = RouterAnswers(made: (nat, nat) -> Option<Id>, link: Link)

  // ----- Placing the routers -----

  datatype Share = Share(worker: Id, wanted: seq<Capacities>)

  datatype CreateRequest = CreateRequest(meeting: Id, container: Id, shares: seq<Share>)

  function PlacementFor(q: CreateRequest, i: nat, j: nat, router: Id): Placement
    requires i < |q.shares| && j < |q.shares[i].wanted|
  {
    Placement(q.meeting, q.container, q.shares[i].worker, router, q.shares[i].wanted[j])
  }

  function PlaceShares(workers: set<Id>, q: CreateRequest, made: (nat, nat) -> Option<Id>, i: nat, j: nat,
                       done: seq<Placement>): Reply<seq<Placement>>
    requires i <= |q.shares| && (i < |q.shares| ==> j <= |q.shares[i].wanted|)
    decreases |q.shares| - i, if i < |q.shares| then |q.shares[i].wanted| - j else 0
  {
    if i == |q.shares| then Success(done)
    else if q.shares[i].worker !in workers then Failure(Unwound)
    else if j == |q.shares[i].wanted| then PlaceShares(workers, q, made, i + 1, 0, done)
    else
      match made(i, j)
      case None => Failure(Failed)
      case Some(router) => PlaceShares(workers, q, made, i, j + 1, done + [PlacementFor(q, i, j, router)])
  }

  datatype MeetingPlan = MeetingPlan(meeting: Id, container: Id, routers: seq<(Id, Capacities)>)

  function PlannedFor(plan: MeetingPlan, j: nat, router: Id): Placement
    requires j < |plan.routers|
  {
    Placement(plan.meeting, plan.container, plan.routers[j].0, router, plan.routers[j].1)
  }

  function PlacePlans(workers: set<Id>, plans: seq<MeetingPlan>, made: (nat, nat) -> Option<Id>, i: nat, j: nat,
                      done: seq<Placement>): Reply<seq<Placement>>
    requires i <= |plans| && (i < |plans| ==> j <= |plans[i].routers|)
    decreases |plans| - i, if i < |plans| then |plans[i].routers| - j else 0
  {
    if i == |plans| then Success(done)
    else if j == |plans[i].routers| then PlacePlans(workers, plans, made, i + 1, 0, done)
    else if plans[i].routers[j].0 !in workers then Failure(Unwound)
    else
      match made(i, j)
      case None => Failure(Failed)
      case Some(router) => PlacePlans(workers, plans, made, i, j + 1, done + [PlannedFor(plans[i], j, router)])
  }

  /** The request asks for the placement at or after entry `(i, j)`. */
  predicate Asks(q: CreateRequest, made: (nat, nat) -> Option<Id>, i: nat, j: nat, p: Placement) {
    exists k: nat, l: nat ::
      k < |q.shares| && l < |q.shares[k].wanted| && (i < k || (i == k && j <= l))
      && made(k, l).Some?
      && p == Placement(q.meeting, q.container, q.shares[k].worker, made(k, l).value, q.shares[k].wanted[l])
  }

  /** On success exactly the routers that the request asks for were placed, on known workers. */
  lemma {:induction false} SharesArePlaced(workers: set<Id>, q: CreateRequest, made: (nat, nat) -> Option<Id>, i: nat,
      j: nat,
                                           done: seq<Placement>)
    requires i <= |q.shares| && (i < |q.shares| ==> j <= |q.shares[i].wanted|)
    requires PlaceShares(workers, q, made, i, j, done).Success?
    ensures forall p :: p in PlaceShares(workers, q, made, i, j, done).value <==> p in done || Asks(q, made, i, j, p)
    ensures forall k :: i <= k < |q.shares| ==> q.shares[k].worker in workers
    ensures forall k, l :: i < k < |q.shares| && 0 <= l < |q.shares[k].wanted| ==> made(k, l).Some?
    ensures i < |q.shares| ==> forall l :: j <= l < |q.shares[i].wanted| ==> made(i, l).Some?
    decreases |q.shares| - i, if i < |q.shares| then |q.shares[i].wanted| - j else 0
  {
    if i < |q.shares| {
      if j == |q.shares[i].wanted| {
        SharesArePlaced(workers, q, made, i + 1, 0, done);
        assert forall p :: Asks(q, made, i, j, p) <==> Asks(q, made, i + 1, 0, p);
      } else {
        var here := PlacementFor(q, i, j, made(i, j).value);
        SharesArePlaced(workers, q, made, i, j + 1, done + [here]);
        assert forall p :: Asks(q, made, i, j, p) <==> p == here || Asks(q, made, i, j + 1, p);
      }
    }
  }

  /** The batch plans the placement at or after entry `(i, j)`. */
  predicate Plans(plans: seq<MeetingPlan>, made: (nat, nat) -> Option<Id>, i: nat, j: nat, p: Placement) {
    exists k: nat, l: nat ::
      k < |plans| && l < |plans[k].routers| && (i < k || (i == k && j <= l))
      && made(k, l).Some?
      && p == Placement(plans[k].meeting, plans[k].container, plans[k].routers[l].0, made(k, l).value,
                        plans[k].routers[l].1)
  }

  lemma {:induction false} PlansArePlaced(workers: set<Id>, plans: seq<MeetingPlan>, made: (nat, nat) -> Option<Id>,
                                          i: nat, j: nat, done: seq<Placement>)
    requires i <= |plans| && (i < |plans| ==> j <= |plans[i].routers|)
    requires PlacePlans(workers, plans, made, i, j, done).Success?
    ensures forall p :: p in PlacePlans(workers, plans, made, i, j, done).value <==>
              p in done || Plans(plans, made, i, j, p)
    ensures forall k, l :: i < k < |plans| && 0 <= l < |plans[k].routers| ==>
              plans[k].routers[l].0 in workers && made(k, l).Some?
    ensures i < |plans| ==> forall l :: j <= l < |plans[i].routers| ==>
              plans[i].routers[l].0 in workers && made(i, l).Some?
    decreases |plans| - i, if i < |plans| then |plans[i].routers| - j else 0
  {
    if i < |plans| {
      if j == |plans[i].routers| {
        PlansArePlaced(workers, plans, made, i + 1, 0, done);
        assert forall p :: Plans(plans, made, i, j, p) <==> Plans(plans, made, i + 1, 0, p);
      } else {
        var here := PlannedFor(plans[i], j, made(i, j).value);
        PlansArePlaced(workers, plans, made, i, j + 1, done + [here]);
        assert forall p :: Plans(plans, made, i, j, p) <==> p == here || Plans(plans, made, i, j + 1, p);
      }
    }
  }

  // ----- Storing them -----

  function WorkerDao(p: Placement): Dao {
    RouterWorkerDao(Insertion, Some(p.worker), p.router)
  }

  function RouterDao(p: Placement): Dao {
    RouterMeetingDao(Insertion, Some(p.router), p.meeting, p.capacities.producing, p.capacities.consuming,
                     p.capacities.whole, Some(p.container))
  }

  function RouterDaos(ps: seq<Placement>): (all: seq<Dao>)
    ensures |all| == 2 * |ps|
  {
    seq(2 * |ps|, n requires 0 <= n < 2 * |ps| => if n < |ps| then WorkerDao(ps[n]) else RouterDao(ps[n - |ps|]))
  }

  /** The in-memory routers; one without a capacity is not remembered. */
  function RoutersOf(ps: seq<Placement>): map<Id, int> {
    if ps == [] then map[]
    else
      var last := ps[|ps| - 1];
      var before := RoutersOf(ps[..|ps| - 1]);
      if CapacityOf(last.capacities).Some? then before[last.router := CapacityOf(last.capacities).value] else before
  }

  datatype Creation = Created | AlreadyExists

  function CreationEntities(m: Id, ps: seq<Placement>): seq<Dao> {
    [MeetingStatusDao(Insertion, m, Some(true))] + RouterDaos(ps)
  }

  function MeetingCreated(w: World, q: CreateRequest, a: RouterAnswers): (World, Reply<Creation>) {
    match PlaceShares(w.mem.workers, q, a.made, 0, 0, [])
    case Failure(e) => (w, Failure(e))
    case Success(ps) =>
      match Mutated(w.db, CreationEntities(q.meeting, ps), true, a.link)
      case (after, Success(_)) => (World(after, w.mem.(routers := w.mem.routers + RoutersOf(ps))), Success(Created))
      case (_, Failure(e)) =>
        (w, if e == MySqlError(DUPLICATE_KEY) then Success(AlreadyExists) else Failure(ProblemOf(e)))
  }

  function StatusDaos(plans: seq<MeetingPlan>): (all: seq<Dao>)
    ensures |all| == 2 * |plans|
  {
    seq(2 * |plans|, n requires 0 <= n < 2 * |plans| =>
      if n % 2 == 0 then MeetingStatusDao(Deletion, plans[n / 2].meeting, None)
      else MeetingStatusDao(Insertion, plans[n / 2].meeting, Some(true)))
  }

  function MeetingsReplaced(w: World, plans: seq<MeetingPlan>, a: RouterAnswers): (World, Reply<()>) {
    match PlacePlans(w.mem.workers, plans, a.made, 0, 0, [])
    case Failure(e) => (w, Failure(e))
    case Success(ps) =>
      match Mutated(w.db, StatusDaos(plans) + RouterDaos(ps), true, a.link)
      case (after, Success(_)) => (World(after, w.mem.(routers := w.mem.routers + RoutersOf(ps))), Success(()))
      case (_, Failure(e)) => (w, Failure(ProblemOf(e)))
  }

  // ----- Memory and tables describe the same routers -----

  function WorkerRow(p: Placement): Row {
    RouterWorker(p.worker, p.router)
  }

  /** The capacity column that is filled in: the whole one before the producing, before the consuming one. */
  function MeetingRouterRow(p: Placement): Row {
    var c := p.capacities;
    RouterMeeting(p.router, p.meeting, if c.whole.Some? then None else c.producing,
                  if c.whole.Some? || c.producing.Some? then None else c.consuming, c.whole, p.container)
  }

  function StoredCapacity(r: Row): Option<int>
    requires r.RouterMeeting?
  {
    if r.capacity.Some? then r.capacity else if r.producerCapacity.Some? then r.producerCapacity else r.consumerCapacity
  }

  /** Every placed router is stored for its worker and its meeting and is known in memory with the
      capacity of its `router_meeting` row. */
  ghost predicate Provisioned(ps: seq<Placement>, db: Table, routers: map<Id, int>) {
    forall i :: 0 <= i < |ps| ==>
      && WorkerRow(ps[i]) in db && MeetingRouterRow(ps[i]) in db
      && ps[i].router in routers
      && StoredCapacity(MeetingRouterRow(ps[i])) == Some(routers[ps[i].router])
  }

  predicate NewRow(ps: seq<Placement>, r: Row) {
    exists i :: 0 <= i < |ps| && (r == WorkerRow(ps[i]) || r == MeetingRouterRow(ps[i]))
  }

  function PlacedRouters(ps: seq<Placement>): set<Id> {
    set i | 0 <= i < |ps| :: ps[i].router
  }

  ghost predicate DistinctRouters(ps: seq<Placement>) {
    forall i, j :: 0 <= i < j < |ps| ==> ps[i].router != ps[j].router
  }

  lemma {:induction false} RoutersOfPlacements(ps: seq<Placement>)
    requires DistinctRouters(ps) && forall i :: 0 <= i < |ps| ==> CapacityOf(ps[i].capacities).Some?
    ensures RoutersOf(ps).Keys == PlacedRouters(ps)
    ensures forall i :: 0 <= i < |ps| ==> RoutersOf(ps)[ps[i].router] == CapacityOf(ps[i].capacities).value
  {
    if ps != [] {
      var rest := ps[..|ps| - 1];
      RoutersOfPlacements(rest);
      assert PlacedRouters(ps) == PlacedRouters(rest) + {ps[|ps| - 1].router};
      assert forall i :: 0 <= i < |rest| ==> rest[i] == ps[i];
    }
  }

  /** The statements for the routers: first the workers' rows, then the meetings'. */
  ghost predicate StoresRouters(ps: seq<Placement>, stmts: seq<Statement>, n: nat) {
    && |stmts| == n + 2 * |ps|
    && forall i :: 0 <= i < |ps| ==>
         && CapacityOf(ps[i].capacities).Some?
         && stmts[n + i] == Insert(WorkerRow(ps[i]))
         && stmts[n + |ps| + i] == Insert(MeetingRouterRow(ps[i]))
  }

  /** The entities from position `n` on are those of the placements. */
  ghost predicate Lists(entities: seq<Dao>, ps: seq<Placement>, n: nat) {
    && |entities| == n + 2 * |ps|
    && forall i :: 0 <= i < |ps| ==>
         entities[n + i] == WorkerDao(ps[i]) && entities[n + |ps| + i] == RouterDao(ps[i])
  }

  lemma EntitiesList(first: seq<Dao>, ps: seq<Placement>)
    ensures Lists(first + RouterDaos(ps), ps, |first|)
  {
  }

  lemma BuiltRouters(entities: seq<Dao>, ps: seq<Placement>, stmts: seq<Statement>, n: nat)
    requires BuildAll(entities) == Success(stmts) && Lists(entities, ps, n)
    ensures StoresRouters(ps, stmts, n)
  {
    BuildAllIsPointwise(entities, stmts);
    forall i | 0 <= i < |ps|
      ensures CapacityOf(ps[i].capacities).Some?
              && stmts[n + i] == Insert(WorkerRow(ps[i])) && stmts[n + |ps| + i] == Insert(MeetingRouterRow(ps[i]))
    {
      assert BuildStatement(entities[n + i]) == Success(stmts[n + i]);
      assert BuildStatement(entities[n + |ps| + i]) == Success(stmts[n + |ps| + i]);
    }
  }

  lemma StoredRoutersAreInserts(ps: seq<Placement>, stmts: seq<Statement>, n: nat, k: nat)
    requires StoresRouters(ps, stmts, n) && n <= k < |stmts|
    ensures stmts[k].Insert? && NewRow(ps, stmts[k].row)
  {
    var i := if k < n + |ps| then k - n else k - n - |ps|;
    assert 0 <= i < |ps|;
    assert stmts[k] == Insert(WorkerRow(ps[i])) || stmts[k] == Insert(MeetingRouterRow(ps[i]));
  }

  lemma RoutersAreDistinct(ps: seq<Placement>, stmts: seq<Statement>, n: nat)
    requires StoresRouters(ps, stmts, n) && InsertsOnly(stmts, n) && DistinctKeys(stmts, n)
    ensures DistinctRouters(ps)
  {
  }

  /** A placed router was unknown to the database before. */
  lemma PlacedRouterIsNew(db: Table, ps: seq<Placement>, stmts: seq<Statement>, n: nat, r: Row)
    requires ForeignKeys(db.Keys) && StoresRouters(ps, stmts, n) && InsertsOnly(stmts, n) && NewKeys(db, stmts, n)
    requires NewRow(ps, r)
    ensures r !in db
  {
    var i :| 0 <= i < |ps| && (r == WorkerRow(ps[i]) || r == MeetingRouterRow(ps[i]));
    var key := RouterKey(ps[i].router);
    assert key in Provides(stmts[n + i].row);
    assert !Provided(db.Keys, key);
    if r.RouterMeeting? {
      assert key in References(r);
    } else {
      assert key in Provides(r);
    }
  }

  ghost predicate RoutersAdded(db: Table, ps: seq<Placement>, after: Table) {
    && (forall r :: r in db ==> r in after && after[r] == db[r])
    && (forall r :: r in after <==> r in db || NewRow(ps, r))
  }

  /** Committing the statements for the routers adds exactly their rows. */
  lemma StoringRouters(db: Table, ps: seq<Placement>, stmts: seq<Statement>, n: nat, duplicate: bool, link: Link)
    requires ForeignKeys(db.Keys) && StoresRouters(ps, stmts, n)
    requires RunFrom(db, stmts, n, duplicate, true, link).Success?
    ensures RoutersAdded(db, ps, RunFrom(db, stmts, n, duplicate, true, link).value.0)
    ensures DistinctRouters(ps)
  {
    var after := RunFrom(db, stmts, n, duplicate, true, link).value.0;
    forall k | n <= k < |stmts| ensures stmts[k].Insert? && NewRow(ps, stmts[k].row) {
      StoredRoutersAreInserts(ps, stmts, n, k);
    }
    InsertionRun(db, stmts, n, duplicate, link);
    RoutersAreDistinct(ps, stmts, n);
    hide RunFrom, NewKeys, DistinctKeys;
    forall r | NewRow(ps, r) ensures r in after && r !in db {
      PlacedRouterIsNew(db, ps, stmts, n, r);
      PlacedRouterIsStored(ps, stmts, n, after, r);
    }
  }

  lemma PlacedRouterIsStored(ps: seq<Placement>, stmts: seq<Statement>, n: nat, after: Table, r: Row)
    requires StoresRouters(ps, stmts, n) && NewRow(ps, r)
    requires forall k :: n <= k < |stmts| ==> stmts[k].Insert? && stmts[k].row in after
    ensures r in after
  {
    var i :| 0 <= i < |ps| && (r == WorkerRow(ps[i]) || r == MeetingRouterRow(ps[i]));
    assert stmts[n + i].row in after && stmts[n + |ps| + i].row in after;
  }

  lemma RoutersAreProvisioned(db: Table, routers: map<Id, int>, ps: seq<Placement>, after: Table)
    requires RoutersAdded(db, ps, after) && DistinctRouters(ps)
    requires forall i :: 0 <= i < |ps| ==> CapacityOf(ps[i].capacities).Some?
    ensures Provisioned(ps, after, routers + RoutersOf(ps))
    ensures RoutersOf(ps).Keys == PlacedRouters(ps)
    ensures OldCapacities(routers, routers + RoutersOf(ps), ps)
  {
    RoutersOfPlacements(ps);
    forall i | 0 <= i < |ps| ensures WorkerRow(ps[i]) in after && MeetingRouterRow(ps[i]) in after {
      assert NewRow(ps, WorkerRow(ps[i])) && NewRow(ps, MeetingRouterRow(ps[i]));
    }
  }

  /** Every router that was not placed keeps its capacity. */
  ghost predicate OldCapacities(before: map<Id, int>, after: map<Id, int>, ps: seq<Placement>) {
    forall r :: r in before && r !in PlacedRouters(ps) ==> r in after && after[r] == before[r]
  }

  // ----- Creating a meeting -----

  lemma CreationStatements(m: Id, ps: seq<Placement>, stmts: seq<Statement>)
    requires BuildAll(CreationEntities(m, ps)) == Success(stmts)
    ensures StoresRouters(ps, stmts, 1)
    ensures stmts[0] == Insert(MeetingStatus(m, true))
  {
    var entities := CreationEntities(m, ps);
    EntitiesList([MeetingStatusDao(Insertion, m, Some(true))], ps);
    BuiltRouters(entities, ps, stmts, 1);
    BuildAllIsPointwise(entities, stmts);
    assert BuildStatement(entities[0]) == Success(stmts[0]);
  }

  lemma CommittedCreation(db: Table, m: Id, ps: seq<Placement>, link: Link)
    requires Consistent(db) && Mutated(db, CreationEntities(m, ps), true, link).1.Success?
    ensures var after := Mutated(db, CreationEntities(m, ps), true, link).0;
            && MeetingStatus(m, true) !in db && !Conflicts(db, MeetingStatus(m, true))
            && Consistent(after)
            && RoutersAdded(db[MeetingStatus(m, true) := 1], ps, after)
            && DistinctRouters(ps) && forall i :: 0 <= i < |ps| ==> CapacityOf(ps[i].capacities).Some?
  {
    var stmts := BuildAll(CreationEntities(m, ps)).value;
    var status := MeetingStatus(m, true);
    CreationStatements(m, ps, stmts);
    TransactionKeepsConstraints(db, stmts, true, link);
    RunStep(db, stmts, 0, false, true, link);
    InsertKeepsConstraints(db, status);
    assert MeetingKey(m) in Provides(status);
    StoringRouters(db[status := 1], ps, stmts, 1, false, link);
  }

  /** Creating a meeting is all or nothing across the tables and the router map. When it answers
      that it created the meeting, the meeting is new, every router is in both with one capacity,
      and nothing else changed; otherwise nothing changed. */
  lemma CreationIsAtomic(w: World, q: CreateRequest, a: RouterAnswers)
    requires Consistent(w.db)
    ensures var (after, reply) := MeetingCreated(w, q, a);
            var status := MeetingStatus(q.meeting, true);
            if reply == Success(Created) then
              var ps := PlaceShares(w.mem.workers, q, a.made, 0, 0, []).value;
              && Consistent(after.db)
              && Provisioned(ps, after.db, after.mem.routers)
              && RoutersAdded(w.db[status := 1], ps, after.db)
              && status !in w.db
              && after.mem == w.mem.(routers := after.mem.routers)
              && after.mem.routers.Keys == w.mem.routers.Keys + PlacedRouters(ps)
              && OldCapacities(w.mem.routers, after.mem.routers, ps)
            else after == w
  {
    if MeetingCreated(w, q, a).1 == Success(Created) {
      var ps := PlaceShares(w.mem.workers, q, a.made, 0, 0, []).value;
      CommittedCreation(w.db, q.meeting, ps, a.link);
      RoutersAreProvisioned(w.db[MeetingStatus(q.meeting, true) := 1], w.mem.routers, ps,
                            Mutated(w.db, CreationEntities(q.meeting, ps), true, a.link).0);
    }
  }

  /** Creating a meeting that exists answers Ok and changes nothing, whatever routers it asks for. */
  lemma ExistingMeetingIsKept(w: World, q: CreateRequest, a: RouterAnswers)
    requires exists r :: r in w.db && r.MeetingStatus? && r.meeting == q.meeting
    requires PlaceShares(w.mem.workers, q, a.made, 0, 0, []).Success?
    requires BuildAll(CreationEntities(q.meeting, PlaceShares(w.mem.workers, q, a.made, 0, 0, []).value)).Success?
    requires RollsBack(a.link)
    ensures MeetingCreated(w, q, a) == (w, Success(AlreadyExists))
  {
    var ps := PlaceShares(w.mem.workers, q, a.made, 0, 0, []).value;
    var stmts := BuildAll(CreationEntities(q.meeting, ps)).value;
    CreationStatements(q.meeting, ps, stmts);
    var r :| r in w.db && r.MeetingStatus? && r.meeting == q.meeting;
    assert MeetingKey(q.meeting) in Provides(r) && MeetingKey(q.meeting) in Provides(MeetingStatus(q.meeting, true));
    assert Attempt(w.db, stmts[0], 0, a.link) == Rejected(Server(DUPLICATE_KEY));
  }

  /** The placed routers are new to the database, and different from one another. */
  ghost predicate FreshRouters(db: Table, ps: seq<Placement>) {
    DistinctRouters(ps) && forall i :: 0 <= i < |ps| ==> !Provided(db.Keys, RouterKey(ps[i].router))
  }

  /** Inserted rows that share no key with stored rows or with one another are not refused as duplicates. */
  lemma {:induction false} FreshInsertsDoNotCollide(db: Table, stmts: seq<Statement>, n: nat,
                                                    duplicate: bool, link: Link)
    requires n <= |stmts| && InsertsOnly(stmts, n) && NewKeys(db, stmts, n) && DistinctKeys(stmts, n)
    ensures RunFrom(db, stmts, n, duplicate, true, link) != Failure(MySqlError(DUPLICATE_KEY))
    decreases |stmts| - n
  {
    if n < |stmts| {
      var row := stmts[n].row;
      assert !Conflicts(db, row) by {
        if Conflicts(db, row) {
          var r, k :| r in db && k in Provides(row) && k in Provides(r);
          assert Provided(db.Keys, k);
        }
      }
      if Attempt(db, stmts[n], n, link).Applied? {
        var next := InsertRow(db, row).db;
        forall k, key | n + 1 <= k < |stmts| && key in Provides(stmts[k].row) ensures !Provided(next.Keys, key) {
          assert Provides(stmts[n].row) !! Provides(stmts[k].row) && !Provided(db.Keys, key);
        }
        FreshInsertsDoNotCollide(next, stmts, n + 1, duplicate, link);
      }
    }
  }

  lemma CreationKeys(db: Table, m: Id, ps: seq<Placement>, stmts: seq<Statement>)
    requires StoresRouters(ps, stmts, 1) && stmts[0] == Insert(MeetingStatus(m, true))
    requires FreshRouters(db, ps) && !Provided(db.Keys, MeetingKey(m))
    ensures InsertsOnly(stmts, 0) && NewKeys(db, stmts, 0) && DistinctKeys(stmts, 0)
  {
    forall k | 0 <= k < |stmts|
      ensures stmts[k].Insert?
              && Provides(stmts[k].row) == if k == 0 then {MeetingKey(m)}
                                           else if k <= |ps| then {RouterKey(ps[k - 1].router)} else {}
    {
      if 1 <= k <= |ps| {
        assert stmts[1 + (k - 1)] == Insert(WorkerRow(ps[k - 1]));
      } else if k > |ps| {
        assert stmts[1 + |ps| + (k - 1 - |ps|)] == Insert(MeetingRouterRow(ps[k - 1 - |ps|]));
      }
    }
  }

  /** With new router identifiers, the answer that the meeting exists is given exactly when it does. */
  lemma AlreadyExistsIff(w: World, q: CreateRequest, a: RouterAnswers)
    requires PlaceShares(w.mem.workers, q, a.made, 0, 0, []).Success?
    requires BuildAll(CreationEntities(q.meeting, PlaceShares(w.mem.workers, q, a.made, 0, 0, []).value)).Success?
    requires RollsBack(a.link)
    requires FreshRouters(w.db, PlaceShares(w.mem.workers, q, a.made, 0, 0, []).value)
    ensures MeetingCreated(w, q, a).1 == Success(AlreadyExists) <==>
            exists r :: r in w.db && r.MeetingStatus? && r.meeting == q.meeting
  {
    var ps := PlaceShares(w.mem.workers, q, a.made, 0, 0, []).value;
    var stmts := BuildAll(CreationEntities(q.meeting, ps)).value;
    if exists r :: r in w.db && r.MeetingStatus? && r.meeting == q.meeting {
      ExistingMeetingIsKept(w, q, a);
    } else {
      CreationStatements(q.meeting, ps, stmts);
      CreationKeys(w.db, q.meeting, ps, stmts);
      FreshInsertsDoNotCollide(w.db, stmts, 0, false, a.link);
    }
  }

  // ----- Replacing a batch of meetings -----

  ghost predicate DistinctMeetings(plans: seq<MeetingPlan>) {
    forall i, j :: 0 <= i < j < |plans| ==> plans[i].meeting != plans[j].meeting
  }

  predicate InAny(rows: set<Row>, r: Row, plans: seq<MeetingPlan>, k: nat)
    requires k <= |plans|
  {
    exists i :: 0 <= i < k && InMeeting(rows, r, plans[i].meeting)
  }

  predicate StatusOf(r: Row, plans: seq<MeetingPlan>, k: nat)
    requires k <= |plans|
  {
    exists i :: 0 <= i < k && r == MeetingStatus(plans[i].meeting, true)
  }

  function Statuses(plans: seq<MeetingPlan>, k: nat): set<Row>
    requires k <= |plans|
  {
    set i | 0 <= i < k :: MeetingStatus(plans[i].meeting, true)
  }

  /** The table in which the first `k` meetings were emptied and enabled again. */
  function Replaced(db: Table, plans: seq<MeetingPlan>, k: nat): Table
    requires k <= |plans|
  {
    (map r | r in db && !InAny(db.Keys, r, plans, k) :: db[r]) + (map r | r in Statuses(plans, k) :: 1)
  }

  lemma StillInMeeting(db: Table, plans: seq<MeetingPlan>, k: nat, r: Row, m: Id)
    requires Consistent(db) && k <= |plans| && r in db && !InAny(db.Keys, r, plans, k)
    requires forall i :: 0 <= i < k ==> plans[i].meeting != m
    ensures InMeeting(Replaced(db, plans, k).Keys, r, m) <==> InMeeting(db.Keys, r, m)
  {
  }

  lemma StatusInNoOtherMeeting(rows: set<Row>, status: Row, m: Id)
    requires status.MeetingStatus?
    ensures InMeeting(rows, status, m) <==> status.meeting == m
  {
  }

  lemma EmptiedRow(db: Table, plans: seq<MeetingPlan>, k: nat, r: Row)
    requires Consistent(db) && k < |plans| && DistinctMeetings(plans) && r in db && !InAny(db.Keys, r, plans, k)
    ensures InAny(db.Keys, r, plans, k + 1) <==> InMeeting(Replaced(db, plans, k).Keys, r, plans[k].meeting)
  {
    StillInMeeting(db, plans, k, r, plans[k].meeting);
  }

  function EmptiedAndEnabled(db: Table, m: Id): Table {
    WithoutMeeting(db, m)[MeetingStatus(m, true) := 1]
  }

  lemma EmptiedSame(db: Table, plans: seq<MeetingPlan>, k: nat, r: Row)
    requires Consistent(db) && k < |plans| && DistinctMeetings(plans)
    ensures var next := EmptiedAndEnabled(Replaced(db, plans, k), plans[k].meeting);
            (r in next <==> r in Replaced(db, plans, k + 1)) && (r in next ==> next[r] == Replaced(db, plans, k + 1)[r])
  {
    var now, m := Replaced(db, plans, k), plans[k].meeting;
    assert Statuses(plans, k + 1) == Statuses(plans, k) + {MeetingStatus(m, true)};
    if r in Statuses(plans, k) {
      StatusInNoOtherMeeting(now.Keys, r, m);
    } else if r in now {
      EmptiedRow(db, plans, k, r);
    } else if r in db {
      assert InAny(db.Keys, r, plans, k + 1);
    }
  }

  lemma EmptiedNext(db: Table, plans: seq<MeetingPlan>, k: nat)
    requires Consistent(db) && k < |plans| && DistinctMeetings(plans)
    ensures EmptiedAndEnabled(Replaced(db, plans, k), plans[k].meeting) == Replaced(db, plans, k + 1)
  {
    var next, goal := EmptiedAndEnabled(Replaced(db, plans, k), plans[k].meeting), Replaced(db, plans, k + 1);
    forall r ensures (r in next <==> r in goal) && (r in next ==> next[r] == goal[r]) {
      EmptiedSame(db, plans, k, r);
    }
  }

  lemma EmptiedMeetingIsFree(db: Table, m: Id)
    ensures !Conflicts(WithoutMeeting(db, m), MeetingStatus(m, true))
    ensures !Dangles(WithoutMeeting(db, m), MeetingStatus(m, true))
  {
  }

  /** Two statements replace one more meeting. */
  lemma ReplaceStep(db: Table, stmts: seq<Statement>, n: nat, m: Id, duplicate: bool, link: Link)
    requires Consistent(db) && OwnTransports(db.Keys)
    requires n + 1 < |stmts| && stmts[n] == Delete(MeetingStatusOf(m)) && stmts[n + 1] == Insert(MeetingStatus(m, true))
    requires RunFrom(db, stmts, n, duplicate, true, link).Success?
    ensures var next := EmptiedAndEnabled(db, m);
            && Consistent(next) && OwnTransports(next.Keys)
            && RunFrom(db, stmts, n, duplicate, true, link) == RunFrom(next, stmts, n + 2, duplicate, true, link)
  {
    var emptied, status := WithoutMeeting(db, m), MeetingStatus(m, true);
    MeetingDeletion(db, m);
    DeleteKeepsConstraints(db, MeetingStatusOf(m));
    RunStep(db, stmts, n, duplicate, true, link);
    EmptiedMeetingIsFree(db, m);
    InsertKeepsConstraints(emptied, status);
    assert MeetingKey(m) in Provides(status);
    assert status !in emptied;
    RunStep(emptied, stmts, n + 1, duplicate, true, link);
    OwnTransportsRetained(db, emptied[status := 1]);
  }

  ghost predicate ReplacesMeetings(plans: seq<MeetingPlan>, stmts: seq<Statement>) {
    |stmts| >= 2 * |plans| && forall i: nat :: i < |plans| ==> ReplacesMeeting(plans, stmts, i)
  }

  predicate ReplacesMeeting(plans: seq<MeetingPlan>, stmts: seq<Statement>, i: nat)
    requires i < |plans| && |stmts| >= 2 * |plans|
  {
    && stmts[2 * i] == Delete(MeetingStatusOf(plans[i].meeting))
    && stmts[2 * i + 1] == Insert(MeetingStatus(plans[i].meeting, true))
  }

  /** The statements for meeting number `k` replace one more meeting. */
  lemma NextReplaced(db: Table, plans: seq<MeetingPlan>, k: nat,
                     stmts: seq<Statement>, n: nat, duplicate: bool, link: Link)
    requires Consistent(db) && k < |plans| && DistinctMeetings(plans) && n + 1 < |stmts|
    requires stmts[n] == Delete(MeetingStatusOf(plans[k].meeting))
    requires stmts[n + 1] == Insert(MeetingStatus(plans[k].meeting, true))
    requires Consistent(Replaced(db, plans, k)) && OwnTransports(Replaced(db, plans, k).Keys)
    requires RunFrom(Replaced(db, plans, k), stmts, n, duplicate, true, link).Success?
    ensures Consistent(Replaced(db, plans, k + 1)) && OwnTransports(Replaced(db, plans, k + 1).Keys)
    ensures RunFrom(Replaced(db, plans, k), stmts, n, duplicate, true, link) ==
            RunFrom(Replaced(db, plans, k + 1), stmts, n + 2, duplicate, true, link)
  {
    hide *;
    var m := plans[k].meeting;
    ReplaceStep(Replaced(db, plans, k), stmts, n, m, duplicate, link);
    EmptiedNext(db, plans, k);
  }

  lemma {:induction false} ReplacementRun(db: Table, plans: seq<MeetingPlan>, k: nat, stmts: seq<Statement>, n: nat,
                                          duplicate: bool, link: Link)
    requires Consistent(db) && k <= |plans| && DistinctMeetings(plans) && ReplacesMeetings(plans, stmts) && n == 2 * k
    requires Consistent(Replaced(db, plans, k)) && OwnTransports(Replaced(db, plans, k).Keys)
    requires RunFrom(Replaced(db, plans, k), stmts, n, duplicate, true, link).Success?
    ensures Consistent(Replaced(db, plans, |plans|)) && OwnTransports(Replaced(db, plans, |plans|).Keys)
    ensures RunFrom(Replaced(db, plans, k), stmts, n, duplicate, true, link) ==
            RunFrom(Replaced(db, plans, |plans|), stmts, 2 * |plans|, duplicate, true, link)
    decreases |plans| - k
  {
    hide Consistent, OwnTransports, Replaced, RunFrom, DistinctMeetings;
    if k < |plans| {
      assert ReplacesMeeting(plans, stmts, k);
      NextReplaced(db, plans, k, stmts, n, duplicate, link);
      ReplacementRun(db, plans, k + 1, stmts, n + 2, duplicate, link);
    }
  }

  lemma ReplacementStatements(plans: seq<MeetingPlan>, ps: seq<Placement>, stmts: seq<Statement>)
    requires BuildAll(StatusDaos(plans) + RouterDaos(ps)) == Success(stmts)
    ensures ReplacesMeetings(plans, stmts) && StoresRouters(ps, stmts, 2 * |plans|)
  {
    var entities := StatusDaos(plans) + RouterDaos(ps);
    EntitiesList(StatusDaos(plans), ps);
    BuiltRouters(entities, ps, stmts, 2 * |plans|);
    StatusesBuilt(entities, plans, stmts);
  }

  lemma StatusesBuilt(entities: seq<Dao>, plans: seq<MeetingPlan>, stmts: seq<Statement>)
    requires StatusDaos(plans) <= entities && BuildAll(entities) == Success(stmts)
    ensures ReplacesMeetings(plans, stmts)
  {
    BuildAllIsPointwise(entities, stmts);
    hide BuildAll, StatusDaos;
    forall i: nat | i < |plans| ensures ReplacesMeeting(plans, stmts, i) {
      StatusDaosAt(plans, i);
      assert entities[2 * i] == StatusDaos(plans)[2 * i] && entities[2 * i + 1] == StatusDaos(plans)[2 * i + 1];
      assert BuildStatement(entities[2 * i]) == Success(stmts[2 * i]);
      assert BuildStatement(entities[2 * i + 1]) == Success(stmts[2 * i + 1]);
    }
  }

  lemma StatusDaosAt(plans: seq<MeetingPlan>, i: nat)
    requires i < |plans|
    ensures StatusDaos(plans)[2 * i] == MeetingStatusDao(Deletion, plans[i].meeting, None)
    ensures StatusDaos(plans)[2 * i + 1] == MeetingStatusDao(Insertion, plans[i].meeting, Some(true))
  {
  }

  lemma CommittedReplacement(db: Table, plans: seq<MeetingPlan>, ps: seq<Placement>, link: Link)
    requires Consistent(db) && OwnTransports(db.Keys) && DistinctMeetings(plans)
    requires Mutated(db, StatusDaos(plans) + RouterDaos(ps), true, link).1.Success?
    ensures var after := Mutated(db, StatusDaos(plans) + RouterDaos(ps), true, link).0;
            && Consistent(after)
            && RoutersAdded(Replaced(db, plans, |plans|), ps, after)
            && DistinctRouters(ps) && forall i :: 0 <= i < |ps| ==> CapacityOf(ps[i].capacities).Some?
  {
    var stmts := BuildAll(StatusDaos(plans) + RouterDaos(ps)).value;
    ReplacementStatements(plans, ps, stmts);
    CommittedStatements(db, plans, ps, stmts, link);
  }

  lemma NothingReplaced(db: Table, plans: seq<MeetingPlan>)
    ensures Replaced(db, plans, 0) == db
  {
  }

  lemma CommittedStatements(db: Table, plans: seq<MeetingPlan>, ps: seq<Placement>, stmts: seq<Statement>, link: Link)
    requires Consistent(db) && OwnTransports(db.Keys) && DistinctMeetings(plans)
    requires ReplacesMeetings(plans, stmts) && StoresRouters(ps, stmts, 2 * |plans|)
    requires Transact(db, stmts, true, link).1.Success?
    ensures Consistent(Transact(db, stmts, true, link).0)
    ensures RoutersAdded(Replaced(db, plans, |plans|), ps, Transact(db, stmts, true, link).0)
    ensures DistinctRouters(ps)
  {
    TransactionKeepsConstraints(db, stmts, true, link);
    NothingReplaced(db, plans);
    ReplacementRun(db, plans, 0, stmts, 0, false, link);
    StoringRouters(Replaced(db, plans, |plans|), ps, stmts, 2 * |plans|, false, link);
  }

  /** Of the old rows exactly those outside the replaced meetings stay; the new ones are the statuses
      of the meetings and the rows of their routers. */
  ghost predicate ReplacesRows(db: Table, plans: seq<MeetingPlan>, ps: seq<Placement>, after: Table) {
    && (forall r :: r in db && !InAny(db.Keys, r, plans, |plans|) ==>
          r in after && (!StatusOf(r, plans, |plans|) ==> after[r] == db[r]))
    && (forall r :: r in after <==>
          (r in db && !InAny(db.Keys, r, plans, |plans|)) || StatusOf(r, plans, |plans|) || NewRow(ps, r))
  }

  /** Replacing a batch of meetings is all or nothing: on success every new router is in the tables
      and in memory with one capacity, each replaced meeting has exactly its new routers and no
      participants, and no row of any other meeting changed; on failure nothing changed. */
  lemma ReplacementIsAtomic(w: World, plans: seq<MeetingPlan>, a: RouterAnswers)
    requires Consistent(w.db) && OwnTransports(w.db.Keys) && DistinctMeetings(plans)
    ensures var (after, reply) := MeetingsReplaced(w, plans, a);
            if reply.Success? then
              var ps := PlacePlans(w.mem.workers, plans, a.made, 0, 0, []).value;
              && Consistent(after.db)
              && Provisioned(ps, after.db, after.mem.routers)
              && ReplacesRows(w.db, plans, ps, after.db)
              && after.mem == w.mem.(routers := after.mem.routers)
              && after.mem.routers.Keys == w.mem.routers.Keys + PlacedRouters(ps)
              && OldCapacities(w.mem.routers, after.mem.routers, ps)
            else after == w
  {
    if MeetingsReplaced(w, plans, a).1.Success? {
      var ps := PlacePlans(w.mem.workers, plans, a.made, 0, 0, []).value;
      var after := Mutated(w.db, StatusDaos(plans) + RouterDaos(ps), true, a.link).0;
      CommittedReplacement(w.db, plans, ps, a.link);
      RoutersAreProvisioned(Replaced(w.db, plans, |plans|), w.mem.routers, ps, after);
      ReplacedRows(w.db, plans, ps, after);
    }
  }

  lemma ReplacedRows(db: Table, plans: seq<MeetingPlan>, ps: seq<Placement>, after: Table)
    requires RoutersAdded(Replaced(db, plans, |plans|), ps, after)
    ensures ReplacesRows(db, plans, ps, after)
  {
  }

  /** In particular nobody is a member of a replaced meeting, and its routers are exactly the new ones. */
  lemma ReplacedMeetingIsClean(db: Table, plans: seq<MeetingPlan>, ps: seq<Placement>, after: Table, k: nat, r: Row)
    requires ReplacesRows(db, plans, ps, after) && k < |plans|
    ensures r.Member? && r in after ==> r.meeting != plans[k].meeting
    ensures r.RouterMeeting? && r.meeting == plans[k].meeting ==> (r in after <==> NewRow(ps, r))
  {
  }

  // ----- Provisioning leaves the sessions alone -----

  predicate ProvisioningRow(r: Row) {
    r.MeetingStatus? || r.RouterWorker? || r.RouterMeeting?
  }

  ghost predicate OnlyProvisions(db: Table, after: Table) {
    forall r :: !ProvisioningRow(r) ==> (r in db <==> r in after) && (r in db ==> after[r] == db[r])
  }

  lemma ProvisioningKeepsTables(db: Table, mem: Memory, issued: map<Id, Grant>, after: Table, routers: map<Id, int>)
    requires TablesAgree(db, mem, issued) && Consistent(after) && OnlyProvisions(db, after)
    ensures TablesAgree(after, mem.(routers := routers), issued)
  {
    ProvisioningKeepsProducers(db, mem.producers, issued, after);
    ProvisioningKeepsConsumers(db, mem, after, routers);
    OwnTransportsRetained(db, after);
  }

  lemma ProvisioningKeepsProducers(db: Table, producers: map<Id, ProducerEntry>, issued: map<Id, Grant>, after: Table)
    requires ProducersAgree(db, producers) && Granted(db, issued) && OnlyProvisions(db, after)
    ensures ProducersAgree(after, producers) && Granted(after, issued)
  {
    AgreementRetained(db, producers, issued, after);
  }

  lemma ProvisioningKeepsConsumers(db: Table, mem: Memory, after: Table, routers: map<Id, int>)
    requires ConsumersBacked(db, mem) && ConsumersOwned(db, mem) && OnlyProvisions(db, after)
    ensures ConsumersBacked(after, mem.(routers := routers)) && ConsumersOwned(after, mem.(routers := routers))
  {
  }

  /** In memory only the routers change. */
  lemma CreationOnlyRouters(w: World, q: CreateRequest, a: RouterAnswers)
    ensures MeetingCreated(w, q, a).0.mem == w.mem.(routers := MeetingCreated(w, q, a).0.mem.routers)
  {
    hide PlaceShares, Mutated, RoutersOf;
  }

  lemma ReplacementOnlyRouters(w: World, plans: seq<MeetingPlan>, a: RouterAnswers)
    ensures MeetingsReplaced(w, plans, a).0.mem == w.mem.(routers := MeetingsReplaced(w, plans, a).0.mem.routers)
  {
    hide PlacePlans, Mutated, RoutersOf;
  }

  function AfterCreation(s: System, q: CreateRequest, a: RouterAnswers): System {
    s.(world := MeetingCreated(s.world, q, a).0)
  }

  lemma CreationKeepsInv(s: System, q: CreateRequest, a: RouterAnswers)
    requires Inv(s)
    ensures Inv(AfterCreation(s, q, a))
  {
    CreationIsAtomic(s.world, q, a);
    var after := MeetingCreated(s.world, q, a).0;
    if after != s.world {
      ProvisioningKeepsTables(s.world.db, s.world.mem, s.issued, after.db, after.mem.routers);
      MemoryAgreesAfterDrop(s.world.mem, after.mem);
    }
  }

  function AfterReplacement(s: System, plans: seq<MeetingPlan>, a: RouterAnswers): System {
    s.(world := MeetingsReplaced(s.world, plans, a).0)
  }

  /** The meetings of the batch have no participants in the tables. */
  ghost predicate NobodyIn(db: Table, plans: seq<MeetingPlan>) {
    forall i :: 0 <= i < |plans| ==> Members(db, plans[i].meeting) == {}
  }

  lemma EmptyMeetings(db: Table, plans: seq<MeetingPlan>, r: Row)
    requires NobodyIn(db, plans) && !ProvisioningRow(r)
    ensures !InAny(db.Keys, r, plans, |plans|)
  {
    forall i | 0 <= i < |plans| ensures !InMeeting(db.Keys, r, plans[i].meeting) {
      forall s | s in db && s.Member? ensures s.meeting != plans[i].meeting {
        assert s.participant in Members(db, s.meeting);
      }
    }
  }

  lemma ReplacementOnlyProvisions(db: Table, plans: seq<MeetingPlan>, ps: seq<Placement>, after: Table)
    requires ReplacesRows(db, plans, ps, after) && NobodyIn(db, plans)
    ensures OnlyProvisions(db, after)
  {
    forall r | !ProvisioningRow(r) ensures (r in db <==> r in after) && (r in db ==> after[r] == db[r]) {
      EmptyMeetings(db, plans, r);
    }
  }

  lemma ReplacementKeepsInv(s: System, plans: seq<MeetingPlan>, a: RouterAnswers)
    requires Inv(s) && DistinctMeetings(plans) && NobodyIn(s.world.db, plans)
    ensures Inv(AfterReplacement(s, plans, a))
  {
    ReplacementIsAtomic(s.world, plans, a);
    var after := MeetingsReplaced(s.world, plans, a).0;
    if MeetingsReplaced(s.world, plans, a).1.Success? {
      ReplacementOnlyProvisions(s.world.db, plans,
                                PlacePlans(s.world.mem.workers, plans, a.made, 0, 0, []).value, after.db);
      ProvisioningKeepsTables(s.world.db, s.world.mem, s.issued, after.db, after.mem.routers);
      MemoryAgreesAfterDrop(s.world.mem, after.mem);
    }
  }
}
