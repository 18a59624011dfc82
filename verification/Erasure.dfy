/** What deleting a membership or a meeting removes, row by row. */
module Erasure {
  import opened Common
  import opened Schema
  import opened Cascade
  import opened Dao
  import opened Executor

  /** The row names the participant as its owner or as the target it consumes. */
  predicate About(r: Row, p: Id) {
    match r
    case Member(_, q, _) => q == p
    case ProducerRouter(q, _) => q == p
    case ConsumerRouter(q, _) => q == p
    case ProducerTransport(q, _) => q == p
    case ConsumerTransport(q, _) => q == p
    case Producer(q, _, _, _, _, _) => q == p
    case Consumer(q, _, target, _, _, _, _) => q == p || target == p
    case _ => false
  }

  /** Producers and consumers are attached to their own participant's transports. */
  ghost predicate OwnTransports(rows: set<Row>) {
    && (forall r, s :: r in rows && s in rows && r.Producer? && s.ProducerTransport? && r.transport == s.transport ==>
          r.participant == s.participant)
    && (forall r, s :: r in rows && s in rows && r.Consumer? && s.ConsumerTransport? && r.transport == s.transport ==>
          r.participant == s.participant)
  }

  predicate MeetingRow(r: Row, m: Id) {
    (r.MeetingStatus? || r.RouterMeeting?) && r.meeting == m
  }

  /** The row disappears with the meeting: it describes the meeting, or it is about a member. */
  predicate InMeeting(rows: set<Row>, r: Row, m: Id) {
    MeetingRow(r, m) || exists s :: s in rows && s.Member? && s.meeting == m && About(r, s.participant)
  }

  lemma AboutDependsOnMember(r: Row, member: Row)
    requires member.Member? && About(r, member.participant) && !r.Member?
    ensures DependsOn(r, member)
  {
    var k := MemberKey(member.participant);
    assert k in CascadeRefs(r) && k in Provides(member);
  }

  lemma DependentIsAbout(rows: set<Row>, r: Row, d: Row, p: Id)
    requires OwnTransports(rows) && r in rows && d in rows && About(d, p) && DependsOn(r, d)
    ensures About(r, p)
  {
  }

  /** Deleting a membership removes exactly the rows about its participant. */
  lemma MemberClosure(rows: set<Row>, member: Row)
    requires UniqueKeys(rows) && OwnTransports(rows) && member in rows && member.Member?
    ensures Closure(rows, {member}) == set r | r in rows && About(r, member.participant)
  {
    var p := member.participant;
    var about := set r | r in rows && About(r, p);
    ClosureGrows(rows, {member});
    forall r, d | r in rows && d in about && DependsOn(r, d) ensures r in about {
      DependentIsAbout(rows, r, d, p);
    }
    ClosureIsLeast(rows, {member}, about);
    forall r | r in about ensures r in Closure(rows, {member}) {
      if r.Member? {
        assert MemberKey(p) in Provides(r) && MemberKey(p) in Provides(member);
      } else {
        AboutDependsOnMember(r, member);
      }
    }
  }

  lemma DependentInMeeting(rows: set<Row>, r: Row, d: Row, m: Id)
    requires OwnTransports(rows) && r in rows && d in rows && InMeeting(rows, d, m) && DependsOn(r, d)
    ensures InMeeting(rows, r, m)
  {
  }

  /** Deleting a meeting removes exactly its own rows and the rows about its members. */
  lemma MeetingClosure(rows: set<Row>, status: Row)
    requires UniqueKeys(rows) && OwnTransports(rows) && status in rows && status.MeetingStatus?
    ensures Closure(rows, {status}) == set r | r in rows && InMeeting(rows, r, status.meeting)
  {
    var m := status.meeting;
    var gone := set r | r in rows && InMeeting(rows, r, m);
    var closure := Closure(rows, {status});
    ClosureGrows(rows, {status});
    forall r, d | r in rows && d in gone && DependsOn(r, d) ensures r in gone {
      DependentInMeeting(rows, r, d, m);
    }
    ClosureIsLeast(rows, {status}, gone);
    forall r | r in rows && (MeetingRow(r, m) || (r.Member? && r.meeting == m)) ensures r in closure {
      assert MeetingKey(m) in Provides(status);
      assert r.MeetingStatus? ==> MeetingKey(m) in Provides(r);
      assert !r.MeetingStatus? ==> MeetingKey(m) in CascadeRefs(r) && DependsOn(r, status);
    }
    forall r | r in gone ensures r in closure {
      if !MeetingRow(r, m) {
        var s :| s in rows && s.Member? && s.meeting == m && About(r, s.participant);
        if r.Member? {
          assert MemberKey(s.participant) in Provides(r) && MemberKey(s.participant) in Provides(s);
        } else {
          AboutDependsOnMember(r, s);
        }
      }
    }
  }

  /** Nothing references a leaf row, so deleting leaves removes nothing else. */
  lemma LeafClosure(rows: set<Row>, leaves: set<Row>)
    requires leaves <= rows && forall r :: r in leaves ==> r.Producer? || r.Consumer?
    ensures Closure(rows, leaves) == leaves
  {
  }
}
