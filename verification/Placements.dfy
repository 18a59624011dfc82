/** What creating a meeting and replacing a batch of meetings leave behind, entry by entry of the request,
    and when placing the routers fails. */
module Placements {
  import opened Common
  import opened Schema
  import opened Dao
  import opened Executor
  import opened Erasure
  import opened Session
  import opened Provisioning
  import Failures

  /** The router is stored for its worker and, with the one capacity that counts, for its meeting, and it is
      remembered with that capacity. */
  ghost predicate HoldsRouter(w: World, worker: Id, router: Id, m: Id, container: Id, wanted: Capacities) {
    && RouterWorker(worker, router) in w.db && router in w.mem.routers
    && var c := w.mem.routers[router];
       if wanted.whole.Some? then
         wanted.whole.value == c && RouterMeeting(router, m, None, None, Some(c), container) in w.db
       else if wanted.producing.Some? then
         wanted.producing.value == c && RouterMeeting(router, m, Some(c), None, None, container) in w.db
       else
         wanted.consuming == Some(c) && RouterMeeting(router, m, None, Some(c), None, container) in w.db
  }

  lemma ProvisionedHolds(ps: seq<Placement>, w: World, p: Placement)
    requires Provisioned(ps, w.db, w.mem.routers) && p in ps
    ensures HoldsRouter(w, p.worker, p.router, p.meeting, p.container, p.capacities)
  {
    var i :| 0 <= i < |ps| && ps[i] == p;
    assert WorkerRow(ps[i]) in w.db && MeetingRouterRow(ps[i]) in w.db;
  }

  // ----- Creating a meeting -----

  /** When a create answers that it created the meeting, entry `l` of share `k` has the router that was made
      for it: on the share's worker, in this meeting, with the entry's own capacity. */
  lemma CreatedRouter(w: World, q: CreateRequest, a: RouterAnswers, k: nat, l: nat)
    requires Consistent(w.db) && MeetingCreated(w, q, a).1 == Success(Created)
    requires k < |q.shares| && l < |q.shares[k].wanted|
    ensures a.made(k, l).Some?
    ensures HoldsRouter(MeetingCreated(w, q, a).0, q.shares[k].worker, a.made(k, l).value, q.meeting, q.container,
                        q.shares[k].wanted[l])
  {
    hide *;
    CreationPlaces(w, q, a);
    var ps := PlaceShares(w.mem.workers, q, a.made, 0, 0, []).value;
    CreationIsAtomic(w, q, a);
    SharesArePlaced(w.mem.workers, q, a.made, 0, 0, []);
    EntryIsAsked(q, a.made, k, l);
    var p := Placement(q.meeting, q.container, q.shares[k].worker, a.made(k, l).value, q.shares[k].wanted[l]);
    ProvisionedHolds(ps, MeetingCreated(w, q, a).0, p);
  }

  lemma CreationPlaces(w: World, q: CreateRequest, a: RouterAnswers)
    requires MeetingCreated(w, q, a).1 == Success(Created)
    ensures PlaceShares(w.mem.workers, q, a.made, 0, 0, []).Success?
  {
    hide PlaceShares, Mutated;
  }

  lemma EntryIsAsked(q: CreateRequest, made: (nat, nat) -> Option<Id>, k: nat, l: nat)
    requires k < |q.shares| && l < |q.shares[k].wanted|
    requires forall l: nat :: k == 0 && l < |q.shares[k].wanted| ==> made(k, l).Some?
    requires k > 0 ==> made(k, l).Some?
    ensures made(k, l).Some?
    ensures Asks(q, made, 0, 0, Placement(q.meeting, q.container, q.shares[k].worker, made(k, l).value,
                                          q.shares[k].wanted[l]))
  {
    assert made(k, l).Some?;
  }

  /** A router that was made for an entry of the request. */
  predicate MadeForShare(q: CreateRequest, a: RouterAnswers, router: Id) {
    exists k: nat, l: nat :: k < |q.shares| && l < |q.shares[k].wanted| && a.made(k, l) == Some(router)
  }

  /** The meeting is new, and everything else that is new belongs to a router made for the request. */
  lemma NothingElseCreated(w: World, q: CreateRequest, a: RouterAnswers)
    requires Consistent(w.db) && MeetingCreated(w, q, a).1 == Success(Created)
    ensures var after := MeetingCreated(w, q, a).0;
            && MeetingStatus(q.meeting, true) in after.db && MeetingStatus(q.meeting, true) !in w.db
            && (forall r :: r in w.db ==> r in after.db && after.db[r] == w.db[r])
            && (forall r :: r in after.db && r !in w.db ==>
                  || r == MeetingStatus(q.meeting, true)
                  || ((r.RouterWorker? || r.RouterMeeting?) && MadeForShare(q, a, r.router)))
            && (forall x :: x in after.mem.routers && x !in w.mem.routers ==> MadeForShare(q, a, x))
            && (forall x :: x in w.mem.routers && !MadeForShare(q, a, x) ==>
                  x in after.mem.routers && after.mem.routers[x] == w.mem.routers[x])
            && after.mem == w.mem.(routers := after.mem.routers)
  {
    hide Consistent, MeetingCreated, PlaceShares, Provisioned, Asks, NewRow, MadeForShare, PlacedRouters;
    CreationPlaces(w, q, a);
    var ps := PlaceShares(w.mem.workers, q, a.made, 0, 0, []).value;
    CreationIsAtomic(w, q, a);
    SharesArePlaced(w.mem.workers, q, a.made, 0, 0, []);
    PlacedAreMade(q, a, ps);
  }

  lemma PlacedAreMade(q: CreateRequest, a: RouterAnswers, ps: seq<Placement>)
    requires forall p :: p in ps ==> Asks(q, a.made, 0, 0, p)
    ensures forall i :: 0 <= i < |ps| ==> MadeForShare(q, a, ps[i].router)
    ensures forall x :: x in PlacedRouters(ps) ==> MadeForShare(q, a, x)
    ensures forall r :: NewRow(ps, r) ==> (r.RouterWorker? || r.RouterMeeting?) && MadeForShare(q, a, r.router)
  {
    forall i | 0 <= i < |ps| ensures MadeForShare(q, a, ps[i].router) {
      assert ps[i] in ps;
    }
    hide MadeForShare;
  }

  /** Share `k` names an unknown worker, and everything before it could be placed. */
  predicate UnknownWorkerAt(workers: set<Id>, q: CreateRequest, made: (nat, nat) -> Option<Id>, i: nat, j: nat, k: nat)
    requires k < |q.shares|
  {
    && q.shares[k].worker !in workers
    && forall n: nat :: i <= n < k ==>
         && q.shares[n].worker in workers
         && forall l: nat :: l < |q.shares[n].wanted| && (n == i ==> j <= l) ==> made(n, l).Some?
  }

  /** Every share names a known worker, and every router could be made. */
  predicate AllPlaceable(workers: set<Id>, q: CreateRequest, made: (nat, nat) -> Option<Id>, i: nat, j: nat) {
    forall k: nat :: i <= k < |q.shares| ==>
      && q.shares[k].worker in workers
      && forall l: nat :: l < |q.shares[k].wanted| && (k == i ==> j <= l) ==> made(k, l).Some?
  }

  /** Placing succeeds if and only if all workers are known and all routers are made; it panics if and only
      if it comes to an unknown worker before a router that is not made. */
  lemma {:induction false} PlacingFails(workers: set<Id>, q: CreateRequest, made: (nat, nat) -> Option<Id>, i: nat,
                                        j: nat, done: seq<Placement>)
    requires i <= |q.shares| && (i < |q.shares| ==> j <= |q.shares[i].wanted|)
    ensures PlaceShares(workers, q, made, i, j, done).Success? <==> AllPlaceable(workers, q, made, i, j)
    ensures PlaceShares(workers, q, made, i, j, done) == Failure(Unwound) <==>
            exists k: nat :: i <= k < |q.shares| && UnknownWorkerAt(workers, q, made, i, j, k)
    decreases |q.shares| - i, if i < |q.shares| then |q.shares[i].wanted| - j else 0
  {
    if i < |q.shares| {
      if q.shares[i].worker !in workers {
        assert PlaceShares(workers, q, made, i, j, done) == Failure(Unwound);
        assert UnknownWorkerAt(workers, q, made, i, j, i);
      } else if j == |q.shares[i].wanted| {
        var next := i + 1;
        PlacingFails(workers, q, made, next, 0, done);
        assert forall k: nat :: next <= k < |q.shares| ==>
          (UnknownWorkerAt(workers, q, made, i, j, k) <==> UnknownWorkerAt(workers, q, made, next, 0, k));
      } else if made(i, j).Some? {
        var next := j + 1;
        PlacingFails(workers, q, made, i, next, done + [PlacementFor(q, i, j, made(i, j).value)]);
        assert forall k: nat :: i <= k < |q.shares| ==>
          (UnknownWorkerAt(workers, q, made, i, j, k) <==> UnknownWorkerAt(workers, q, made, i, next, k));
      } else {
        assert made(i, j).None?;
        assert forall k: nat :: i < k < |q.shares| ==> !UnknownWorkerAt(workers, q, made, i, j, k);
      }
    }
  }

  lemma {:induction false} NothingPanics(entities: seq<Dao>)
    requires forall i :: 0 <= i < |entities| ==> BuildStatement(entities[i]) != Failure(Panics)
    ensures BuildAll(entities) != Failure(Panics)
    ensures (forall i :: 0 <= i < |entities| ==> BuildStatement(entities[i]).Success?) <==> BuildAll(entities).Success?
  {
    if entities != [] {
      NothingPanics(entities[1..]);
      assert forall i :: 0 < i < |entities| ==> entities[i] == entities[1..][i - 1];
    }
  }

  /** The entities of the routers build exactly when every router has a capacity; else they are refused. */
  lemma RoutersBuildIff(first: seq<Dao>, ps: seq<Placement>)
    requires forall i :: 0 <= i < |first| ==> BuildStatement(first[i]).Success?
    ensures BuildAll(first + RouterDaos(ps)) != Failure(Panics)
    ensures BuildAll(first + RouterDaos(ps)).Success? <==>
            forall i :: 0 <= i < |ps| ==> CapacityOf(ps[i].capacities).Some?
  {
    hide BuildAll, BuildStatement, RouterDaos, WorkerDao, RouterDao, CapacityOf;
    var entities := first + RouterDaos(ps);
    EntitiesList(first, ps);
    assert first <= entities;
    forall n | 0 <= n < |entities|
      ensures BuildStatement(entities[n]) != Failure(Panics)
      ensures BuildStatement(entities[n]).Failure? <==>
                |first| + |ps| <= n && CapacityOf(ps[n - |first| - |ps|].capacities).None?
    {
      if n < |first| {
        assert entities[n] == first[n];
      } else {
        var i := if n < |first| + |ps| then n - |first| else n - |first| - |ps|;
        assert n == |first| + i || n == |first| + |ps| + i;
        RouterBuilds(ps[i]);
      }
    }
    NothingPanics(entities);
    if BuildAll(entities).Success? {
      forall i | 0 <= i < |ps| ensures CapacityOf(ps[i].capacities).Some? {
        assert BuildStatement(entities[|first| + |ps| + i]).Success?;
      }
    }
  }

  lemma RouterBuilds(p: Placement)
    ensures BuildStatement(WorkerDao(p)).Success?
    ensures BuildStatement(RouterDao(p)) != Failure(Panics)
    ensures BuildStatement(RouterDao(p)).Success? <==> CapacityOf(p.capacities).Some?
  {
  }

  /** A create panics exactly when placing does, or without a connection once all routers are placed with a
      capacity each. */
  lemma CreationPanicsIff(w: World, q: CreateRequest, a: RouterAnswers)
    ensures MeetingCreated(w, q, a).1 == Failure(Unwound) <==>
            || PlaceShares(w.mem.workers, q, a.made, 0, 0, []) == Failure(Unwound)
            || (AllPlaceable(w.mem.workers, q, a.made, 0, 0) && !a.link.connected
                && forall k, l :: 0 <= k < |q.shares| && 0 <= l < |q.shares[k].wanted| ==>
                     q.shares[k].wanted[l] != Capacities(None, None, None))
  {
    var placed := PlaceShares(w.mem.workers, q, a.made, 0, 0, []);
    PlacingFails(w.mem.workers, q, a.made, 0, 0, []);
    if placed.Success? {
      CapacitiesAreAsked(w, q, a);
      var status := MeetingStatusDao(Insertion, q.meeting, Some(true));
      RoutersBuildIff([status], placed.value);
      if BuildAll(CreationEntities(q.meeting, placed.value)).Success? {
        Failures.PanicsWithoutConnection(w.db, BuildAll(CreationEntities(q.meeting, placed.value)).value, true, a.link);
      }
    }
    hide PlaceShares, BuildAll, RouterDaos, Transact, AllPlaceable, CapacityOf;
  }

  lemma CapacitiesAreAsked(w: World, q: CreateRequest, a: RouterAnswers)
    requires PlaceShares(w.mem.workers, q, a.made, 0, 0, []).Success?
    ensures var ps := PlaceShares(w.mem.workers, q, a.made, 0, 0, []).value;
            (forall i :: 0 <= i < |ps| ==> CapacityOf(ps[i].capacities).Some?) <==>
            forall k, l :: 0 <= k < |q.shares| && 0 <= l < |q.shares[k].wanted| ==>
              q.shares[k].wanted[l] != Capacities(None, None, None)
  {
    hide PlaceShares, Asks;
    var ps := PlaceShares(w.mem.workers, q, a.made, 0, 0, []).value;
    SharesArePlaced(w.mem.workers, q, a.made, 0, 0, []);
    if forall i :: 0 <= i < |ps| ==> CapacityOf(ps[i].capacities).Some? {
      forall k: nat, l: nat | k < |q.shares| && l < |q.shares[k].wanted|
        ensures q.shares[k].wanted[l] != Capacities(None, None, None)
      {
        EntryIsAsked(q, a.made, k, l);
        var i :| 0 <= i < |ps| && ps[i].capacities == q.shares[k].wanted[l];
      }
    }
    if forall k, l :: 0 <= k < |q.shares| && 0 <= l < |q.shares[k].wanted| ==>
         q.shares[k].wanted[l] != Capacities(None, None, None)
    {
      forall i | 0 <= i < |ps| ensures CapacityOf(ps[i].capacities).Some? {
        assert ps[i] in ps;
        var k, l := AskedEntry(q, a.made, ps[i]);
      }
    }
  }

  lemma AskedEntry(q: CreateRequest, made: (nat, nat) -> Option<Id>, p: Placement) returns (k: nat, l: nat)
    requires Asks(q, made, 0, 0, p)
    ensures k < |q.shares| && l < |q.shares[k].wanted| && p.capacities == q.shares[k].wanted[l]
  {
    k, l :| k < |q.shares| && l < |q.shares[k].wanted| && made(k, l).Some?
            && p == Placement(q.meeting, q.container, q.shares[k].worker, made(k, l).value, q.shares[k].wanted[l]);
  }

  // ----- Replacing a batch of meetings -----

  /** When a batch succeeds, entry `l` of plan `k` has the router that was made for it. */
  lemma ReplacedRouter(w: World, plans: seq<MeetingPlan>, a: RouterAnswers, k: nat, l: nat)
    requires Consistent(w.db) && OwnTransports(w.db.Keys) && DistinctMeetings(plans)
    requires MeetingsReplaced(w, plans, a).1.Success?
    requires k < |plans| && l < |plans[k].routers|
    ensures a.made(k, l).Some?
    ensures HoldsRouter(MeetingsReplaced(w, plans, a).0, plans[k].routers[l].0, a.made(k, l).value, plans[k].meeting,
                        plans[k].container, plans[k].routers[l].1)
  {
    hide *;
    ReplacementPlaces(w, plans, a);
    var ps := PlacePlans(w.mem.workers, plans, a.made, 0, 0, []).value;
    ReplacementIsAtomic(w, plans, a);
    PlansArePlaced(w.mem.workers, plans, a.made, 0, 0, []);
    EntryIsPlanned(plans, a.made, k, l);
    var p := Placement(plans[k].meeting, plans[k].container, plans[k].routers[l].0, a.made(k, l).value,
                       plans[k].routers[l].1);
    ProvisionedHolds(ps, MeetingsReplaced(w, plans, a).0, p);
  }

  lemma ReplacementPlaces(w: World, plans: seq<MeetingPlan>, a: RouterAnswers)
    requires MeetingsReplaced(w, plans, a).1.Success?
    ensures PlacePlans(w.mem.workers, plans, a.made, 0, 0, []).Success?
  {
    hide PlacePlans, Mutated;
  }

  lemma EntryIsPlanned(plans: seq<MeetingPlan>, made: (nat, nat) -> Option<Id>, k: nat, l: nat)
    requires k < |plans| && l < |plans[k].routers|
    requires forall l: nat :: k == 0 && l < |plans[k].routers| ==> made(k, l).Some?
    requires k > 0 ==> made(k, l).Some?
    ensures made(k, l).Some?
    ensures Plans(plans, made, 0, 0, Placement(plans[k].meeting, plans[k].container, plans[k].routers[l].0,
                                               made(k, l).value, plans[k].routers[l].1))
  {
    assert made(k, l).Some?;
  }

  predicate MadeForPlan(plans: seq<MeetingPlan>, a: RouterAnswers, router: Id) {
    exists k: nat, l: nat :: k < |plans| && l < |plans[k].routers| && a.made(k, l) == Some(router)
  }

  /** Every meeting of the batch exists, and everything else that is new belongs to a router made for it. */
  lemma NothingElseReplaced(w: World, plans: seq<MeetingPlan>, a: RouterAnswers)
    requires Consistent(w.db) && OwnTransports(w.db.Keys) && DistinctMeetings(plans)
    requires MeetingsReplaced(w, plans, a).1.Success?
    ensures var after := MeetingsReplaced(w, plans, a).0;
            && (forall k :: 0 <= k < |plans| ==> MeetingStatus(plans[k].meeting, true) in after.db)
            && (forall r :: r in after.db && r !in w.db ==>
                  || (exists k :: 0 <= k < |plans| && r == MeetingStatus(plans[k].meeting, true))
                  || ((r.RouterWorker? || r.RouterMeeting?) && MadeForPlan(plans, a, r.router)))
            && (forall x :: x in after.mem.routers && x !in w.mem.routers ==> MadeForPlan(plans, a, x))
            && (forall x :: x in w.mem.routers && !MadeForPlan(plans, a, x) ==>
                  x in after.mem.routers && after.mem.routers[x] == w.mem.routers[x])
            && after.mem == w.mem.(routers := after.mem.routers)
  {
    hide Consistent, OwnTransports, DistinctMeetings, MeetingsReplaced, PlacePlans, Provisioned, ReplacesRows, Plans,
         NewRow, MadeForPlan, PlacedRouters;
    ReplacementPlaces(w, plans, a);
    var ps := PlacePlans(w.mem.workers, plans, a.made, 0, 0, []).value;
    ReplacementIsAtomic(w, plans, a);
    PlansArePlaced(w.mem.workers, plans, a.made, 0, 0, []);
    PlannedAreMade(plans, a, ps);
    StatusesStand(w.db, plans, ps, MeetingsReplaced(w, plans, a).0.db);
  }

  lemma PlannedAreMade(plans: seq<MeetingPlan>, a: RouterAnswers, ps: seq<Placement>)
    requires forall p :: p in ps ==> Plans(plans, a.made, 0, 0, p)
    ensures forall i :: 0 <= i < |ps| ==> MadeForPlan(plans, a, ps[i].router)
    ensures forall x :: x in PlacedRouters(ps) ==> MadeForPlan(plans, a, x)
    ensures forall r :: NewRow(ps, r) ==> (r.RouterWorker? || r.RouterMeeting?) && MadeForPlan(plans, a, r.router)
  {
    forall i | 0 <= i < |ps| ensures MadeForPlan(plans, a, ps[i].router) {
      assert ps[i] in ps;
    }
    hide MadeForPlan;
  }

  lemma StatusesStand(db: Table, plans: seq<MeetingPlan>, ps: seq<Placement>, after: Table)
    requires ReplacesRows(db, plans, ps, after)
    ensures forall k :: 0 <= k < |plans| ==> MeetingStatus(plans[k].meeting, true) in after
    ensures forall r :: r in after && r !in db ==>
              (exists k :: 0 <= k < |plans| && r == MeetingStatus(plans[k].meeting, true)) || NewRow(ps, r)
  {
    forall k | 0 <= k < |plans| ensures MeetingStatus(plans[k].meeting, true) in after {
      assert StatusOf(MeetingStatus(plans[k].meeting, true), plans, |plans|);
    }
    hide InAny, NewRow;
  }

  /** Placing a batch succeeds if and only if all workers are known and all routers are made; otherwise it
      panics if and only if the first entry that stops it names an unknown worker. */
  lemma {:induction false} PlanningFails(workers: set<Id>, plans: seq<MeetingPlan>, made: (nat, nat) -> Option<Id>,
                                         i: nat, j: nat, done: seq<Placement>)
    requires i <= |plans| && (i < |plans| ==> j <= |plans[i].routers|)
    ensures PlacePlans(workers, plans, made, i, j, done).Success? <==>
            forall k: nat, l: nat :: k < |plans| && l < |plans[k].routers| && NotBefore(i, j, k, l) ==>
              plans[k].routers[l].0 in workers && made(k, l).Some?
    ensures PlacePlans(workers, plans, made, i, j, done) == Failure(Unwound) <==>
            exists k: nat, l: nat :: StopsAtWorker(workers, plans, made, i, j, k, l)
    decreases |plans| - i, if i < |plans| then |plans[i].routers| - j else 0
  {
    if i < |plans| {
      if j == |plans[i].routers| {
        var next := i + 1;
        PlanningFails(workers, plans, made, next, 0, done);
        assert forall k: nat, l: nat :: k < |plans| && l < |plans[k].routers| ==>
          (NotBefore(i, j, k, l) <==> NotBefore(next, 0, k, l));
        assert forall k: nat, l: nat :: StopsAtWorker(workers, plans, made, i, j, k, l) <==>
          StopsAtWorker(workers, plans, made, next, 0, k, l);
      } else if plans[i].routers[j].0 !in workers {
        assert PlacePlans(workers, plans, made, i, j, done) == Failure(Unwound);
        assert NotBefore(i, j, i, j);
        assert StopsAtWorker(workers, plans, made, i, j, i, j);
      } else if made(i, j).None? {
        assert NotBefore(i, j, i, j);
        assert forall k: nat, l: nat :: !StopsAtWorker(workers, plans, made, i, j, k, l);
      } else {
        var next := j + 1;
        PlanningFails(workers, plans, made, i, next, done + [PlannedFor(plans[i], j, made(i, j).value)]);
        assert forall k: nat, l: nat :: NotBefore(i, j, k, l) <==> (k == i && l == j) || NotBefore(i, next, k, l);
        assert forall k: nat, l: nat :: StopsAtWorker(workers, plans, made, i, j, k, l) <==>
          StopsAtWorker(workers, plans, made, i, next, k, l);
      }
    }
  }

  predicate NotBefore(i: nat, j: nat, k: nat, l: nat) {
    i < k || (i == k && j <= l)
  }

  /** Entry `(k, l)` names an unknown worker, and no entry before it stops the batch. */
  predicate StopsAtWorker(workers: set<Id>, plans: seq<MeetingPlan>, made: (nat, nat) -> Option<Id>, i: nat, j: nat,
                          k: nat, l: nat)
  {
    && k < |plans| && l < |plans[k].routers| && NotBefore(i, j, k, l) && plans[k].routers[l].0 !in workers
    && forall n: nat, o: nat ::
         n < |plans| && o < |plans[n].routers| && NotBefore(i, j, n, o) && !NotBefore(k, l, n, o) ==>
           plans[n].routers[o].0 in workers && made(n, o).Some?
  }

  /** A batch panics exactly when placing does, or without a connection once all routers are placed with a
      capacity each. */
  lemma ReplacementPanicsIff(w: World, plans: seq<MeetingPlan>, a: RouterAnswers)
    ensures MeetingsReplaced(w, plans, a).1 == Failure(Unwound) <==>
            || (exists k: nat, l: nat :: StopsAtWorker(w.mem.workers, plans, a.made, 0, 0, k, l))
            || (PlacePlans(w.mem.workers, plans, a.made, 0, 0, []).Success? && !a.link.connected
                && forall k, l :: 0 <= k < |plans| && 0 <= l < |plans[k].routers| ==>
                     plans[k].routers[l].1 != Capacities(None, None, None))
  {
    var placed := PlacePlans(w.mem.workers, plans, a.made, 0, 0, []);
    PlanningFails(w.mem.workers, plans, a.made, 0, 0, []);
    if placed.Success? {
      CapacitiesArePlanned(w, plans, a);
      StatusesBuild(plans);
      RoutersBuildIff(StatusDaos(plans), placed.value);
      if BuildAll(StatusDaos(plans) + RouterDaos(placed.value)).Success? {
        Failures.PanicsWithoutConnection(w.db, BuildAll(StatusDaos(plans) + RouterDaos(placed.value)).value, true,
                                         a.link);
      }
    }
    hide PlacePlans, BuildAll, RouterDaos, Transact, StatusDaos, StopsAtWorker, CapacityOf;
  }

  lemma StatusesBuild(plans: seq<MeetingPlan>)
    ensures forall i :: 0 <= i < |StatusDaos(plans)| ==> BuildStatement(StatusDaos(plans)[i]).Success?
  {
  }

  lemma CapacitiesArePlanned(w: World, plans: seq<MeetingPlan>, a: RouterAnswers)
    requires PlacePlans(w.mem.workers, plans, a.made, 0, 0, []).Success?
    ensures var ps := PlacePlans(w.mem.workers, plans, a.made, 0, 0, []).value;
            (forall i :: 0 <= i < |ps| ==> CapacityOf(ps[i].capacities).Some?) <==>
            forall k, l :: 0 <= k < |plans| && 0 <= l < |plans[k].routers| ==>
              plans[k].routers[l].1 != Capacities(None, None, None)
  {
    hide PlacePlans, Plans;
    var ps := PlacePlans(w.mem.workers, plans, a.made, 0, 0, []).value;
    PlansArePlaced(w.mem.workers, plans, a.made, 0, 0, []);
    if forall i :: 0 <= i < |ps| ==> CapacityOf(ps[i].capacities).Some? {
      forall k: nat, l: nat | k < |plans| && l < |plans[k].routers|
        ensures plans[k].routers[l].1 != Capacities(None, None, None)
      {
        EntryIsPlanned(plans, a.made, k, l);
        var i :| 0 <= i < |ps| && ps[i].capacities == plans[k].routers[l].1;
      }
    }
    if forall k, l :: 0 <= k < |plans| && 0 <= l < |plans[k].routers| ==>
         plans[k].routers[l].1 != Capacities(None, None, None)
    {
      forall i | 0 <= i < |ps| ensures CapacityOf(ps[i].capacities).Some? {
        assert ps[i] in ps;
        var k, l := PlannedEntry(plans, a.made, ps[i]);
      }
    }
  }

  lemma PlannedEntry(plans: seq<MeetingPlan>, made: (nat, nat) -> Option<Id>, p: Placement) returns (k: nat, l: nat)
    requires Plans(plans, made, 0, 0, p)
    ensures k < |plans| && l < |plans[k].routers| && p.capacities == plans[k].routers[l].1
  {
    k, l :| k < |plans| && l < |plans[k].routers| && made(k, l).Some?
            && p == Placement(plans[k].meeting, plans[k].container, plans[k].routers[l].0, made(k, l).value,
                              plans[k].routers[l].1);
  }
}
