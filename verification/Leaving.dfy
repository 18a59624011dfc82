/** Leaving and ending a meeting: what disappears, and that nothing else does. */
module Leaving {
  import opened Common
  import opened Schema
  import opened Cascade
  import opened Dao
  import opened Executor
  import opened Erasure
  import opened Session
  import opened Outcomes
  import opened Invariants
  import opened Joining

  // ----- Leaving -----

  lemma LeaveDeletes(db: Table, q: LeaveRequest)
    requires Consistent(db) && OwnTransports(db.Keys)
    ensures var w := MemberInstance(q.meeting, q.participant, q.instance);
            var present := Member(q.meeting, q.participant, q.instance) in db;
            && DeleteRows(db, w).Applied?
            && DeleteRows(db, w).db == (if present then Without(db, q.participant) else db)
            && (DeleteRows(db, w).affected == 0 <==> !present)
  {
    var w := MemberInstance(q.meeting, q.participant, q.instance);
    DeleteApplies(db, w);
    MemberDeletion(db, w, q.participant);
    AffectedIffMatching(db, w);
    if Member(q.meeting, q.participant, q.instance) in db {
      assert Member(q.meeting, q.participant, q.instance) in Matching(db, w);
    }
  }

  /** The recording pipeline refuses to let go of the leaver's elements. */
  predicate LeaveObstructed(mem: Memory, q: LeaveRequest, removed: bool) {
    !removed && LeaverStale(mem, q) != {}
  }

  /** A leave acts exactly when the named instance is the member; a stale or repeated one is a no-op.
      It fails without effect in the transaction, or later when the recording pipeline refuses. */
  lemma LeaveOutcome(w: World, q: LeaveRequest, link: Link, removed: bool)
    requires Consistent(w.db) && OwnTransports(w.db.Keys)
    ensures var (after, reply) := Left(w, q, link, removed);
            var present := Member(q.meeting, q.participant, q.instance) in w.db;
            && (reply.Success? ==> reply.value == present)
            && (reply.Success? && present ==> after == World(Without(w.db, q.participant), ForgetInstance(w.mem, q)))
            && (reply.Success? && !present ==> after == w)
            && (reply.Failure? ==>
                  after == w ||
                  (present && LeaveObstructed(w.mem, q, removed)
                   && after == World(Without(w.db, q.participant), ForgetUntilRefused(w.mem, q))))
            && (Reliable(link) ==>
                  (reply.Success? <==> !present || !LeaveObstructed(w.mem, q, removed)))
            && (present && LeaveObstructed(w.mem, q, removed) ==> reply.Failure?)
  {
    LeaveDeletes(w.db, q);
    SingleDeletion(w.db, MemberInstance(q.meeting, q.participant, q.instance), link);
  }

  lemma LeaverIsTheMember(db: Table, q: LeaveRequest)
    requires Consistent(db) && Member(q.meeting, q.participant, q.instance) in db
    ensures forall r :: r in db && r.Member? && r.participant == q.participant ==>
              r == Member(q.meeting, q.participant, q.instance)
  {
    OneMembership(db, q.participant);
  }

  lemma LeaverProducers(db: Table, producers: map<Id, ProducerEntry>, q: LeaveRequest)
    requires Consistent(db) && ProducersAgree(db, producers) && Member(q.meeting, q.participant, q.instance) in db
    ensures forall x :: x in producers ==>
              (x in ProducersForInstance(producers, q.participant, q.meeting, q.instance) <==>
               producers[x].participant == q.participant)
  {
    LeaverIsTheMember(db, q);
    forall x | x in producers ensures producers[x].participant == q.participant ==>
      producers[x].meeting == q.meeting && producers[x].instance == q.instance
    {
      ProducerIsMembers(db, producers, x);
    }
  }

  lemma LeaverConsumers(db: Table, mem: Memory, q: LeaveRequest)
    requires Consistent(db) && ProducersAgree(db, mem.producers) && ConsumersOwned(db, mem)
    requires Placed(mem) && FedByTarget(mem)
    requires Member(q.meeting, q.participant, q.instance) in db
    ensures var left := ForgetInstance(mem, q);
            && Shrinks(mem, left)
            && forall j, c :: 0 <= j < |mem.shards| && c in mem.shards[j] ==>
                 (c in left.shards[j] <==> StaysAfterLeave(mem, mem.shards[j][c], q.participant))
  {
    var left := ForgetInstance(mem, q);
    var p, m, i := q.participant, q.meeting, q.instance;
    var k := ShardIndex(mem.hash, |mem.shards|, m);
    var own := ConsumersForInstance(mem.shards[k], p, m, i);
    var stale := ProducersForInstance(mem.producers, p, m, i);
    var fed := ConsumersFedBy(mem.shards[k] - own, stale);
    assert left.shards == mem.shards[k := mem.shards[k] - own - fed];
    LeaverIsTheMember(db, q);
    LeaverProducers(db, mem.producers, q);
    forall j, c | 0 <= j < |mem.shards| && c in mem.shards[j]
      ensures c in left.shards[j] <==> StaysAfterLeave(mem, mem.shards[j][c], p)
    {
      var e := mem.shards[j][c];
      assert Member(e.meeting, e.participant, e.instance) in db;
      if e.producer in mem.producers && mem.producers[e.producer].participant == p {
        ProducerIsMembers(db, mem.producers, e.producer);
        assert e.meeting == m;
      }
    }
  }

  lemma LeaveKeepsConstraints(db: Table, q: LeaveRequest)
    requires Consistent(db) && OwnTransports(db.Keys) && Member(q.meeting, q.participant, q.instance) in db
    ensures Consistent(Without(db, q.participant))
  {
    LeaveDeletes(db, q);
    DeleteKeepsConstraints(db, MemberInstance(q.meeting, q.participant, q.instance));
  }

  lemma LeaverErases(db: Table, p: Id)
    ensures Erases(db, Without(db, p), {p})
  {
  }

  lemma LeaverKeeps(db: Table, mem: Memory, q: LeaveRequest)
    requires Consistent(db) && ProducersAgree(db, mem.producers) && Member(q.meeting, q.participant, q.instance) in db
    ensures Keeps(mem.producers, ForgetInstance(mem, q).producers, {q.participant})
  {
    LeaverProducers(db, mem.producers, q);
  }

  lemma LeaveKeepsTables(db: Table, mem: Memory, issued: map<Id, Grant>, q: LeaveRequest)
    requires TablesAgree(db, mem, issued) && MemoryAgrees(mem)
    requires Member(q.meeting, q.participant, q.instance) in db
    ensures TablesAgree(Without(db, q.participant), ForgetInstance(mem, q), issued)
  {
    LeaveKeepsConstraints(db, q);
    LeaverErases(db, q.participant);
    LeaverKeeps(db, mem, q);
    LeaverDropsAbout(db, mem, q);
    ErasureKeepsTables(db, mem, issued, Without(db, q.participant), ForgetInstance(mem, q), {q.participant});
  }

  lemma LeaverDropsAbout(db: Table, mem: Memory, q: LeaveRequest)
    requires Consistent(db) && ProducersAgree(db, mem.producers) && ConsumersOwned(db, mem)
    requires Placed(mem) && FedByTarget(mem)
    requires Member(q.meeting, q.participant, q.instance) in db
    ensures DropsAbout(mem, ForgetInstance(mem, q), {q.participant})
  {
    LeaverConsumers(db, mem, q);
  }

  lemma LeaveKeepsMemory(db: Table, mem: Memory, q: LeaveRequest)
    requires Consistent(db) && ProducersAgree(db, mem.producers) && ConsumersOwned(db, mem) && MemoryAgrees(mem)
    requires Member(q.meeting, q.participant, q.instance) in db
    ensures MemoryAgrees(ForgetInstance(mem, q))
  {
    LeaverConsumers(db, mem, q);
    MemoryAgreesAfterDrop(mem, ForgetInstance(mem, q));
  }

  function AfterLeave(s: System, q: LeaveRequest, link: Link, removed: bool): System {
    s.(world := Left(s.world, q, link, removed).0)
  }

  /** When the recording pipeline refuses, of the consumers only the leaver's own are gone. */
  lemma RefusedConsumers(db: Table, mem: Memory, q: LeaveRequest)
    requires Consistent(db) && ConsumersOwned(db, mem) && Placed(mem)
    requires Member(q.meeting, q.participant, q.instance) in db
    ensures var left := ForgetUntilRefused(mem, q);
            && Shrinks(mem, left)
            && forall j, c :: 0 <= j < |mem.shards| && c in mem.shards[j] ==>
                 (c in left.shards[j] <==> mem.shards[j][c].participant != q.participant)
  {
    var left, k := ForgetUntilRefused(mem, q), ShardIndex(mem.hash, |mem.shards|, q.meeting);
    var own := ConsumersForInstance(mem.shards[k], q.participant, q.meeting, q.instance);
    assert left.shards == mem.shards[k := mem.shards[k] - own];
    LeaverIsTheMember(db, q);
    hide Consistent, ForgetUntilRefused;
    forall j, c | 0 <= j < |mem.shards| && c in mem.shards[j]
      ensures c in left.shards[j] <==> mem.shards[j][c].participant != q.participant
    {
      var e := mem.shards[j][c];
      assert Member(e.meeting, e.participant, e.instance) in db;
    }
  }

  lemma RefusedDropsAbout(db: Table, mem: Memory, q: LeaveRequest)
    requires Consistent(db) && ConsumersOwned(db, mem) && Placed(mem)
    requires Member(q.meeting, q.participant, q.instance) in db
    ensures DropsAbout(mem, ForgetUntilRefused(mem, q), {q.participant})
  {
    RefusedConsumers(db, mem, q);
    hide ForgetUntilRefused, Consistent, ConsumersOwned, Placed;
  }

  lemma RefusedLeaveKeepsInv(s: System, q: LeaveRequest)
    requires Inv(s) && Member(q.meeting, q.participant, q.instance) in s.world.db
    ensures Inv(s.(world := World(Without(s.world.db, q.participant), ForgetUntilRefused(s.world.mem, q))))
  {
    var db, mem, left := s.world.db, s.world.mem, ForgetUntilRefused(s.world.mem, q);
    LeaveKeepsConstraints(db, q);
    LeaverErases(db, q.participant);
    LeaverKeeps(db, mem, q);
    RefusedDropsAbout(db, mem, q);
    RefusedParts(mem, q);
    hide ForgetUntilRefused, Consistent, Erases, Keeps, ProducersAgree, ConsumersOwned;
    ErasureKeepsTables(db, mem, s.issued, Without(db, q.participant), left, {q.participant});
    FewerAgree(s, left, Without(db, q.participant));
  }

  lemma RefusedParts(mem: Memory, q: LeaveRequest)
    ensures var left := ForgetUntilRefused(mem, q);
            && left.producers == ForgetInstance(mem, q).producers == mem.producers - LeaverStale(mem, q)
            && left.transports.Keys <= mem.transports.Keys && (PlainTracked(mem) ==> PlainTracked(left))
  {
  }

  /** Fewer consumers, producers and transports keep the rest of the invariant. */
  lemma FewerAgree(s: System, left: Memory, after: Table)
    requires MemoryAgrees(s.world.mem) && MintedIds(s) && Shrinks(s.world.mem, left) && PlainTracked(left)
    requires left.transports.Keys <= s.world.mem.transports.Keys
    requires forall x :: x in left.producers ==>
             x in s.world.mem.producers && left.producers[x] == s.world.mem.producers[x]
    ensures MemoryAgrees(left) && MintedIds(s.(world := World(after, left)))
  {
    MemoryAgreesAfterDrop(s.world.mem, left);
  }

  lemma LeaveKeepsInv(s: System, q: LeaveRequest, link: Link, removed: bool)
    requires Inv(s)
    ensures Inv(AfterLeave(s, q, link, removed))
  {
    LeaveOutcome(s.world, q, link, removed);
    if AfterLeave(s, q, link, removed).world != s.world {
      if LeaveObstructed(s.world.mem, q, removed) {
        RefusedLeaveKeepsInv(s, q);
      } else {
        LeaveKeepsTables(s.world.db, s.world.mem, s.issued, q);
        LeaveKeepsMemory(s.world.db, s.world.mem, q);
        LeaverConsumers(s.world.db, s.world.mem, q);
      }
    }
  }

  /** A leave of the current instance over a healthy connection leaves nobody with a consumer fed by the
      leaver, exactly when the recording pipeline lets go of the leaver's producers or these feed nobody. */
  lemma LeaveForgetsFedIff(s: System, q: LeaveRequest, link: Link, removed: bool)
    requires Inv(s) && Member(q.meeting, q.participant, q.instance) in s.world.db
    requires Reliable(link)
    ensures var mem, left := s.world.mem, Left(s.world, q, link, removed).0.mem;
            && Shrinks(mem, left)
            && ((forall j, c :: 0 <= j < |mem.shards| && c in left.shards[j] ==>
                   StaysAfterLeave(mem, left.shards[j][c], q.participant))
                <==> !LeaveObstructed(mem, q, removed) || FeedsNobody(mem, q.participant))
  {
    LeaveOutcome(s.world, q, link, removed);
    LeaverConsumers(s.world.db, s.world.mem, q);
    RefusedConsumers(s.world.db, s.world.mem, q);
    DeletionHappens(s, q, link, removed);
    hide Inv, Left, ForgetUntilRefused, ForgetInstance, StaysAfterLeave, LeaveObstructed, Without;
    var mem, left := s.world.mem, Left(s.world, q, link, removed).0.mem;
    if LeaveObstructed(mem, q, removed) {
      assert left == ForgetUntilRefused(mem, q);
      if FeedsNobody(mem, q.participant) {
        forall j, c | 0 <= j < |mem.shards| && c in left.shards[j]
          ensures StaysAfterLeave(mem, mem.shards[j][c], q.participant)
        {
          assert c in mem.shards[j];
        }
      }
    } else {
      assert left == ForgetInstance(mem, q);
    }
  }

  lemma DeletionHappens(s: System, q: LeaveRequest, link: Link, removed: bool)
    requires Inv(s) && Member(q.meeting, q.participant, q.instance) in s.world.db
    requires Reliable(link)
    ensures Left(s.world, q, link, removed).0.db == Without(s.world.db, q.participant) != s.world.db
  {
    LeaveDeletes(s.world.db, q);
    SingleDeletion(s.world.db, MemberInstance(q.meeting, q.participant, q.instance), link);
    hide Inv, DeleteFrom, DeleteRows, ForgetInstance, ForgetUntilRefused, Consistent;
    assert About(Member(q.meeting, q.participant, q.instance), q.participant);
  }

  /** An effective leave removes everything of the leaver and nothing of anyone else: no row mentions
      the participant and all other rows stay; its producers and their plain transports are gone and
      the others' stay; its consumers and those its producers fed are gone and the others stay. */
  lemma LeaveErasesExactlyTheLeaver(s: System, q: LeaveRequest, link: Link, removed: bool)
    requires Inv(s) && Left(s.world, q, link, removed).1 == Success(true)
    ensures var (before, after) := (s.world, Left(s.world, q, link, removed).0);
            && after.db == Without(before.db, q.participant)
            && after.mem.transports == before.mem.transports - (Ids(q.producerTransport) + Ids(q.consumerTransport))
            && after.mem.routers == before.mem.routers
            && after.mem.producers == OthersProducers(before.mem.producers, q.participant)
            && after.mem.plainTransports == OnlyFor(before.mem.plainTransports, after.mem.producers.Keys)
            && after.mem.plainConsumers == OnlyFor(before.mem.plainConsumers, after.mem.producers.Keys)
            && Shrinks(before.mem, after.mem)
            && forall j, c :: 0 <= j < |before.mem.shards| && c in before.mem.shards[j] ==>
                 (c in after.mem.shards[j] <==> StaysAfterLeave(before.mem, before.mem.shards[j][c], q.participant))
  {
    LeaveOutcome(s.world, q, link, removed);
    LeaverRegistry(s.world.db, s.world.mem, q);
    LeaverConsumers(s.world.db, s.world.mem, q);
  }

  lemma LeaverRegistry(db: Table, mem: Memory, q: LeaveRequest)
    requires Consistent(db) && ProducersAgree(db, mem.producers) && PlainTracked(mem)
    requires Member(q.meeting, q.participant, q.instance) in db
    ensures var left := ForgetInstance(mem, q);
            && left.producers == OthersProducers(mem.producers, q.participant)
            && left.plainTransports == OnlyFor(mem.plainTransports, left.producers.Keys)
            && left.plainConsumers == OnlyFor(mem.plainConsumers, left.producers.Keys)
  {
    var stale := ProducersForInstance(mem.producers, q.participant, q.meeting, q.instance);
    LeaverProducers(db, mem.producers, q);
    PlainFollow(mem, stale);
    assert mem.producers - stale == OthersProducers(mem.producers, q.participant);
  }

  lemma PlainFollow(mem: Memory, ids: set<Id>)
    requires PlainTracked(mem)
    ensures DropProducers(mem, ids).plainTransports == OnlyFor(mem.plainTransports, mem.producers.Keys - ids)
    ensures DropProducers(mem, ids).plainConsumers == OnlyFor(mem.plainConsumers, mem.producers.Keys - ids)
  {
  }

  function OnlyFor(plain: map<Id, Id>, producers: set<Id>): map<Id, Id> {
    map x | x in plain && x in producers :: plain[x]
  }

  function OthersProducers(producers: map<Id, ProducerEntry>, p: Id): map<Id, ProducerEntry> {
    map x | x in producers && producers[x].participant != p :: producers[x]
  }

  // ----- Ending -----

  function Members(db: Table, m: Id): set<Id> {
    set r | r in db && r.Member? && r.meeting == m :: r.participant
  }

  function WithoutMeeting(db: Table, m: Id): Table {
    map r | r in db && !InMeeting(db.Keys, r, m) :: db[r]
  }

  lemma MembersNeedTheMeeting(db: Table, m: Id, r: Row)
    requires Consistent(db) && r in db && InMeeting(db.Keys, r, m)
    ensures Matching(db, MeetingStatusOf(m)) != {}
  {
    var needing := if MeetingRow(r, m) then r
                   else var s :| s in db && s.Member? && s.meeting == m && About(r, s.participant); s;
    if needing.MeetingStatus? {
      assert needing in Matching(db, MeetingStatusOf(m));
    } else {
      assert MeetingKey(m) in References(needing);
      assert Provided(db.Keys, MeetingKey(m));
      var s :| s in db && MeetingKey(m) in Provides(s);
      assert s in Matching(db, MeetingStatusOf(m));
    }
  }

  lemma MeetingDeletion(db: Table, m: Id)
    requires Consistent(db) && OwnTransports(db.Keys)
    ensures DeleteRows(db, MeetingStatusOf(m)).Applied?
    ensures DeleteRows(db, MeetingStatusOf(m)).db == WithoutMeeting(db, m)
  {
    var w := MeetingStatusOf(m);
    var matched := Matching(db, w);
    DeleteApplies(db, w);
    if matched == {} {
      ClosureOfNothing(db.Keys);
      forall r | r in db ensures !InMeeting(db.Keys, r, m) {
        if InMeeting(db.Keys, r, m) {
          MembersNeedTheMeeting(db, m, r);
        }
      }
    } else {
      var status :| status in matched;
      OnlyStatus(db, m, status);
      MeetingClosure(db.Keys, status);
    }
  }

  lemma OnlyStatus(db: Table, m: Id, status: Row)
    requires Consistent(db) && status in Matching(db, MeetingStatusOf(m))
    ensures Matching(db, MeetingStatusOf(m)) == {status}
  {
    forall r | r in Matching(db, MeetingStatusOf(m)) ensures r == status {
      assert MeetingKey(m) in Provides(r) && MeetingKey(m) in Provides(status);
    }
  }

  lemma EndOutcome(w: World, q: EndRequest, link: Link)
    requires Consistent(w.db) && OwnTransports(w.db.Keys)
    ensures Ended(w, q, link) == w ||
            Ended(w, q, link) == World(WithoutMeeting(w.db, q.meeting), ForgetMeeting(w.mem, q))
    ensures Transact(w.db, [Delete(MeetingStatusOf(q.meeting))], true, link).1.Success? ==>
              Ended(w, q, link) == World(WithoutMeeting(w.db, q.meeting), ForgetMeeting(w.mem, q))
  {
    MeetingDeletion(w.db, q.meeting);
    SingleStatement(w.db, Delete(MeetingStatusOf(q.meeting)), link);
  }

  lemma MeetingProducers(db: Table, producers: map<Id, ProducerEntry>, m: Id)
    requires Consistent(db) && ProducersAgree(db, producers)
    ensures Keeps(producers, producers - ProducersOfMeeting(producers, m), Members(db, m))
  {
    forall x | x in producers
      ensures x in ProducersOfMeeting(producers, m) <==> producers[x].participant in Members(db, m)
    {
      ProducerIsMembers(db, producers, x);
      OneMembership(db, producers[x].participant);
    }
  }

  lemma MeetingErases(db: Table, m: Id)
    ensures Erases(db, WithoutMeeting(db, m), Members(db, m))
  {
  }

  lemma MeetingConsumers(db: Table, mem: Memory, q: EndRequest)
    requires Consistent(db) && ConsumersOwned(db, mem) && Placed(mem)
    ensures var left := ForgetMeeting(mem, q);
            && DropsAbout(mem, left, Members(db, q.meeting))
            && forall j, c :: 0 <= j < |mem.shards| && c in mem.shards[j] ==>
                 (c in left.shards[j] <==> mem.shards[j][c].meeting != q.meeting)
  {
    var left, m := ForgetMeeting(mem, q), q.meeting;
    var k := ShardIndex(mem.hash, |mem.shards|, m);
    assert left.shards == mem.shards[k := mem.shards[k] - ConsumersOfMeeting(mem.shards[k], m)];
    forall j, c | 0 <= j < |mem.shards| && c in mem.shards[j]
      ensures mem.shards[j][c].meeting == m <==> mem.shards[j][c].participant in Members(db, m)
    {
      var e := mem.shards[j][c];
      assert Member(e.meeting, e.participant, e.instance) in db;
      OneMembership(db, e.participant);
    }
  }

  lemma EndKeepsTables(db: Table, mem: Memory, issued: map<Id, Grant>, q: EndRequest)
    requires TablesAgree(db, mem, issued) && MemoryAgrees(mem)
    ensures TablesAgree(WithoutMeeting(db, q.meeting), ForgetMeeting(mem, q), issued)
  {
    var after, left, gone := WithoutMeeting(db, q.meeting), ForgetMeeting(mem, q), Members(db, q.meeting);
    MeetingDeletion(db, q.meeting);
    DeleteKeepsConstraints(db, MeetingStatusOf(q.meeting));
    MeetingErases(db, q.meeting);
    MeetingProducers(db, mem.producers, q.meeting);
    MeetingConsumers(db, mem, q);
    ErasureKeepsTables(db, mem, issued, after, left, gone);
  }

  function AfterEnd(s: System, q: EndRequest, link: Link): System {
    s.(world := Ended(s.world, q, link))
  }

  lemma EndKeepsInv(s: System, q: EndRequest, link: Link)
    requires Inv(s)
    ensures Inv(AfterEnd(s, q, link))
  {
    EndOutcome(s.world, q, link);
    if AfterEnd(s, q, link).world != s.world {
      MeetingEnds(s, q);
    }
  }

  // ----- Ending without naming a participant -----

  /** The panic leaves the tables and memory apart, unless the meeting had a single producer that was
      not recorded. */
  lemma UnlistedEndAgreesIff(s: System, q: EndRequest, x: Id)
    requires Inv(s) && x in ProducersOfMeeting(s.world.mem.producers, q.meeting)
    ensures Inv(s.(world := World(WithoutMeeting(s.world.db, q.meeting), EndUnwound(s.world.mem, q, x)))) <==>
            ProducersOfMeeting(s.world.mem.producers, q.meeting) == {x} && x !in s.world.mem.plainTransports
  {
    var db, mem, stale := s.world.db, s.world.mem, ProducersOfMeeting(s.world.mem.producers, q.meeting);
    var after, left := WithoutMeeting(db, q.meeting), EndUnwound(mem, q, x);
    if stale == {x} && x !in mem.plainTransports {
      UnwoundIsForgotten(mem, q, x);
      MeetingEnds(s, q);
    } else if Inv(s.(world := World(after, left))) {
      UnwoundDisagrees(db, mem, q, x);
      assert false;
    }
  }

  /** Over a healthy connection an end without participants does panic. */
  lemma UnlistedEndPanics(w: World, q: EndRequest, x: Id)
    requires Consistent(w.db) && OwnTransports(w.db.Keys) && x in ProducersOfMeeting(w.mem.producers, q.meeting)
    ensures Ends(w, q, [], HEALTHY, World(WithoutMeeting(w.db, q.meeting), EndUnwound(w.mem, q, x)), Failure(Unwound))
  {
    MeetingDeletion(w.db, q.meeting);
    SingleStatement(w.db, Delete(MeetingStatusOf(q.meeting)), HEALTHY);
    hide Transact, DeleteRows, Consistent, OwnTransports, WithoutMeeting, EndUnwound;
  }

  lemma UnwoundIsForgotten(mem: Memory, q: EndRequest, x: Id)
    requires PlainTracked(mem) && ProducersOfMeeting(mem.producers, q.meeting) == {x} && x !in mem.plainTransports
    ensures EndUnwound(mem, q, x) == ForgetMeeting(mem, q)
  {
  }

  lemma UnwoundDisagrees(db: Table, mem: Memory, q: EndRequest, x: Id)
    requires ProducersAgree(db, mem.producers) && x in mem.producers
    requires ProducersOfMeeting(mem.producers, q.meeting) != {x} || x in mem.plainTransports
    requires x in ProducersOfMeeting(mem.producers, q.meeting)
    ensures !(&& ProducersAgree(WithoutMeeting(db, q.meeting), EndUnwound(mem, q, x).producers)
              && PlainTracked(EndUnwound(mem, q, x)))
  {
    hide ProducersAgree, WithoutMeeting;
    if x !in mem.plainTransports {
      var y :| y in ProducersOfMeeting(mem.producers, q.meeting) && y != x;
      OrphanDisagrees(db, q.meeting, EndUnwound(mem, q, x).producers, y);
    }
  }

  /** A producer of the meeting cannot stay without its rows. */
  lemma OrphanDisagrees(db: Table, m: Id, left: map<Id, ProducerEntry>, y: Id)
    requires y in left && left[y].meeting == m
    ensures !ProducersAgree(WithoutMeeting(db, m), left)
  {
    if ProducersAgree(WithoutMeeting(db, m), left) {
      ProducerIsMembers(WithoutMeeting(db, m), left, y);
      hide ProducersAgree;
      assert false;
    }
  }

  lemma MeetingEnds(s: System, q: EndRequest)
    requires Inv(s)
    ensures Inv(s.(world := World(WithoutMeeting(s.world.db, q.meeting), ForgetMeeting(s.world.mem, q))))
  {
    EndKeepsTables(s.world.db, s.world.mem, s.issued, q);
    MeetingConsumers(s.world.db, s.world.mem, q);
    MemoryAgreesAfterDrop(s.world.mem, ForgetMeeting(s.world.mem, q));
  }

  /** Whether ending keeps tables and memory in agreement, for every request: it does exactly when the
      transaction fails, or the request lists a participant, or the meeting has at most one producer
      and that one is not recorded. */
  lemma EndAgreesIff(s: System, q: EndRequest, participants: seq<Id>, link: Link, after: World, reply: Reply<()>)
    requires Inv(s) && Ends(s.world, q, participants, link, after, reply)
    ensures var stale := ProducersOfMeeting(s.world.mem.producers, q.meeting);
            Inv(s.(world := after)) <==>
            Transact(s.world.db, [Delete(MeetingStatusOf(q.meeting))], true, link).1.Failure?
            || participants != [] || (|stale| <= 1 && stale !! s.world.mem.plainTransports.Keys)
  {
    AgreeIsConsistent(s);
    EndsHow(s.world, q, participants, link, after, reply);
    hide Inv, Ends, EndUnwound, ForgetMeeting, WithoutMeeting, ProducersOfMeeting, Transact, Consistent, OwnTransports;
    var stale := ProducersOfMeeting(s.world.mem.producers, q.meeting);
    if Transact(s.world.db, [Delete(MeetingStatusOf(q.meeting))], true, link).1.Failure? {
      assert s.(world := after) == s;
    } else if participants == [] && stale != {} {
      var x :| x in stale && after == World(WithoutMeeting(s.world.db, q.meeting), EndUnwound(s.world.mem, q, x));
      UnlistedEndAgreesIff(s, q, x);
      AtMost(stale, x);
    } else {
      MeetingEnds(s, q);
    }
  }

  /** The three ways an end can go, with the table that a successful transaction leaves. */
  lemma EndsHow(w: World, q: EndRequest, participants: seq<Id>, link: Link, after: World, reply: Reply<()>)
    requires Consistent(w.db) && OwnTransports(w.db.Keys) && Ends(w, q, participants, link, after, reply)
    ensures var stale, without := ProducersOfMeeting(w.mem.producers, q.meeting), WithoutMeeting(w.db, q.meeting);
            if Transact(w.db, [Delete(MeetingStatusOf(q.meeting))], true, link).1.Failure? then after == w
            else if participants == [] && stale != {} then
              exists x :: x in stale && after == World(without, EndUnwound(w.mem, q, x))
            else after == World(without, ForgetMeeting(w.mem, q))
  {
    EndedTable(w.db, q, link);
    EndOutcome(w, q, link);
    hide Transact, Consistent, OwnTransports, WithoutMeeting, EndUnwound, ForgetMeeting, ProducersOfMeeting;
  }

  lemma AgreeIsConsistent(s: System)
    requires Inv(s)
    ensures Consistent(s.world.db) && OwnTransports(s.world.db.Keys)
  {
  }

  lemma EndedTable(db: Table, q: EndRequest, link: Link)
    requires Consistent(db) && OwnTransports(db.Keys)
    ensures var deleted := Transact(db, [Delete(MeetingStatusOf(q.meeting))], true, link);
            deleted.1.Success? ==> deleted.0 == WithoutMeeting(db, q.meeting)
  {
    MeetingDeletion(db, q.meeting);
    SingleStatement(db, Delete(MeetingStatusOf(q.meeting)), link);
  }

  lemma AtMost(ids: set<Id>, x: Id)
    requires x in ids
    ensures |ids| <= 1 <==> ids == {x}
  {
    if |ids| <= 1 {
      assert |ids - {x}| == 0;
    }
  }

  /** A row belongs to the meeting: it names the meeting, or it is about one of its members. */
  predicate NamesMeeting(r: Row, m: Id) {
    match r
    case MeetingStatus(n, _) => n == m
    case RouterMeeting(_, n, _, _, _, _) => n == m
    case Member(n, _, _) => n == m
    case Producer(_, _, _, _, n, _) => n == m
    case Consumer(_, _, _, _, _, n, _) => n == m
    case _ => false
  }

  /** Ending a meeting erases exactly that meeting: no row that names it or is about one of its
      members survives, nor any of its producers, plain transports and consumers in any shard; all
      other rows, producers and consumers are unchanged. */
  lemma EndErasesExactlyTheMeeting(s: System, q: EndRequest, link: Link)
    requires Inv(s) && Transact(s.world.db, [Delete(MeetingStatusOf(q.meeting))], true, link).1.Success?
    ensures var (before, after) := (s.world, Ended(s.world, q, link));
            && (forall r :: r in before.db ==>
                  (r in after.db <==> !NamesMeeting(r, q.meeting) && !AboutAny(r, Members(before.db, q.meeting))))
            && (forall r :: r in after.db ==> r in before.db && after.db[r] == before.db[r])
            && after.mem.producers == (map x | x in before.mem.producers && before.mem.producers[x].meeting != q.meeting
                                         :: before.mem.producers[x])
            && after.mem.plainTransports == OnlyFor(before.mem.plainTransports, after.mem.producers.Keys)
            && after.mem.plainConsumers == OnlyFor(before.mem.plainConsumers, after.mem.producers.Keys)
            && after.mem.transports == before.mem.transports - q.transports
            && after.mem.routers == before.mem.routers - q.routers
            && Shrinks(before.mem, after.mem)
            && forall j, c :: 0 <= j < |before.mem.shards| && c in before.mem.shards[j] ==>
                 (c in after.mem.shards[j] <==> before.mem.shards[j][c].meeting != q.meeting)
  {
    var db, m := s.world.db, q.meeting;
    EndOutcome(s.world, q, link);
    MeetingConsumers(db, s.world.mem, q);
    EndRegistry(s.world.mem, q);
    forall r | r in db ensures InMeeting(db.Keys, r, m) <==> NamesMeeting(r, m) || AboutAny(r, Members(db, m)) {
      RowsOfTheMeeting(db, s.world.mem, r, m);
    }
  }

  predicate AboutAny(r: Row, people: set<Id>) {
    exists p :: p in people && About(r, p)
  }

  lemma EndRegistry(mem: Memory, q: EndRequest)
    requires PlainTracked(mem)
    ensures var left := ForgetMeeting(mem, q);
            && left.producers ==
                (map x | x in mem.producers && mem.producers[x].meeting != q.meeting :: mem.producers[x])
            && left.plainTransports == OnlyFor(mem.plainTransports, left.producers.Keys)
            && left.plainConsumers == OnlyFor(mem.plainConsumers, left.producers.Keys)
  {
  }

  lemma RowsOfTheMeeting(db: Table, mem: Memory, r: Row, m: Id)
    requires ProducersAgree(db, mem.producers) && ConsumersBacked(db, mem) && r in db
    ensures InMeeting(db.Keys, r, m) <==> NamesMeeting(r, m) || AboutAny(r, Members(db, m))
  {
  }
}
