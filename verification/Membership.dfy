/** The membership transaction that fences stale instances out: delete the participant's other
    instances, then insert the membership and the router rows. */
module Membership {
  import opened Common
  import opened Schema
  import opened Cascade
  import opened Dao
  import opened Executor
  import opened Erasure
  import opened Session
  import opened Outcomes

  /** The table without the participant's other instances in the meeting and all that hangs on them. */
  function Evicted(db: Table, p: Id, m: Id, i: Id): Table {
    db - Closure(db.Keys, Matching(db, MemberOtherInstance(m, p, i)))
  }

  /** Evicting a superseded instance removes everything about the participant, and nothing else. */
  lemma EvictionEffect(db: Table, p: Id, m: Id, i: Id)
    requires Consistent(db) && OwnTransports(db.Keys)
    ensures Evicted(db, p, m, i) == if Superseded(db, p, m, i) then Without(db, p) else db
  {
    var w := MemberOtherInstance(m, p, i);
    MemberDeletion(db, w, p);
    OthersMatch(db, p, m, i);
    hide Consistent, OwnTransports, Closure, Without, Superseded, Matching;
  }

  lemma OthersMatch(db: Table, p: Id, m: Id, i: Id)
    ensures Matching(db, MemberOtherInstance(m, p, i)) != {} <==> Superseded(db, p, m, i)
  {
    if Superseded(db, p, m, i) {
      var r :| r in db && r.Member? && r.participant == p && r.meeting == m && r.instance != i;
      assert r in Matching(db, MemberOtherInstance(m, p, i));
    }
  }

  /** Inserting with duplicates skipped. */
  function Ensured(db: Table, row: Row): Table {
    if Conflicts(db, row) then db else db[row := Copies(db, row) + 1]
  }

  function EnsuredRouter(db: Table, side: Side, p: Id, router: Option<Id>): Table {
    if router.Some? then Ensured(db, RouterRow(side, p, router.value)) else db
  }

  function Admitted(db: Table, p: Id, m: Id, i: Id): Table {
    Ensured(Evicted(db, p, m, i), Member(m, p, i))
  }

  function Registered(db: Table, p: Id, m: Id, i: Id, producing: Option<Id>, consuming: Option<Id>): Table {
    EnsuredRouter(EnsuredRouter(Admitted(db, p, m, i), Producing, p, producing), Consuming, p, consuming)
  }

  lemma MemberConflict(db: Table, p: Id, m: Id, i: Id)
    ensures Conflicts(db, Member(m, p, i)) <==> HasMember(db, p)
  {
    if HasMember(db, p) {
      var r :| r in db && r.Member? && r.participant == p;
      assert MemberKey(p) in Provides(r) && MemberKey(p) in Provides(Member(m, p, i));
    }
  }

  /** A router row can only be a duplicate for a participant who is a member. */
  lemma RouterConflict(db: Table, side: Side, p: Id, router: Id)
    requires Consistent(db) && Conflicts(db, RouterRow(side, p, router))
    ensures HasMember(db, p)
  {
    var r, k :| r in db && k in Provides(RouterRow(side, p, router)) && k in Provides(r);
    assert About(r, p);
    NobodyWithoutMembership(db, p, r);
  }

  /** One step of a transaction that skips duplicates. */
  lemma SkippingStep(db: Table, stmts: seq<Statement>, n: nat, duplicate: bool, link: Link)
    requires n < |stmts| && RunFrom(db, stmts, n, duplicate, false, link).Success?
    ensures var e := Execute(db, stmts[n]);
            && (e.Applied? || IsDuplicate(e))
            && RunFrom(db, stmts, n, duplicate, false, link) ==
               RunFrom(if e.Applied? then e.db else db, stmts, n + 1, duplicate || e.Rejected?, false, link)
  {
  }

  /** An insertion that skips duplicates. */
  lemma SkippingInsert(db: Table, row: Row)
    requires InsertRow(db, row).Applied? || IsDuplicate(InsertRow(db, row))
    ensures InsertRow(db, row).Rejected? == Conflicts(db, row)
    ensures (if InsertRow(db, row).Applied? then InsertRow(db, row).db else db) == Ensured(db, row)
  {
  }

  /** The first two statements of a successful membership transaction. */
  lemma AdmissionSteps(db: Table, stmts: seq<Statement>, p: Id, m: Id, i: Id, link: Link)
    requires Consistent(db)
    requires |stmts| >= 2 && stmts[0] == Delete(MemberOtherInstance(m, p, i)) && stmts[1] == Insert(Member(m, p, i))
    requires RunFrom(db, stmts, 0, false, false, link).Success?
    ensures RunFrom(db, stmts, 0, false, false, link) ==
            RunFrom(Admitted(db, p, m, i), stmts, 2, HasMember(Evicted(db, p, m, i), p), false, link)
  {
    SkippingStep(db, stmts, 0, false, link);
    DeleteApplies(db, MemberOtherInstance(m, p, i));
    var evicted := Evicted(db, p, m, i);
    SkippingStep(evicted, stmts, 1, false, link);
    SkippingInsert(evicted, Member(m, p, i));
    MemberConflict(evicted, p, m, i);
  }

  lemma RouterSteps(db: Table, stmts: seq<Statement>, n: nat, duplicate: bool, side: Side, p: Id, router: Option<Id>,
                    link: Link)
    requires n <= |stmts| && (router.Some? ==> n < |stmts| && stmts[n] == Insert(RouterRow(side, p, router.value)))
    requires RunFrom(db, stmts, n, duplicate, false, link).Success?
    ensures RunFrom(db, stmts, n, duplicate, false, link) ==
            RunFrom(EnsuredRouter(db, side, p, router), stmts, n + (if router.Some? then 1 else 0),
                    duplicate || (router.Some? && Conflicts(db, RouterRow(side, p, router.value))), false, link)
  {
  }

  lemma EvictionKeepsConstraints(db: Table, p: Id, m: Id, i: Id)
    requires Consistent(db)
    ensures Consistent(Evicted(db, p, m, i))
  {
    DeleteApplies(db, MemberOtherInstance(m, p, i));
    DeleteKeepsConstraints(db, MemberOtherInstance(m, p, i));
  }

  /** A participant admitted as new has no router row yet. */
  lemma NewcomerHasNoRouter(db: Table, p: Id, m: Id, i: Id, side: Side, router: Id)
    requires Consistent(db) && !HasMember(Evicted(db, p, m, i), p)
    ensures !Conflicts(Admitted(db, p, m, i), RouterRow(side, p, router))
  {
    var evicted, admitted := Evicted(db, p, m, i), Admitted(db, p, m, i);
    EvictionKeepsConstraints(db, p, m, i);
    MemberConflict(evicted, p, m, i);
    if Conflicts(admitted, RouterRow(side, p, router)) {
      var r, k :| r in admitted && k in Provides(RouterRow(side, p, router)) && k in Provides(r);
      assert r in evicted;
      assert Conflicts(evicted, RouterRow(side, p, router));
      RouterConflict(evicted, side, p, router);
    }
  }

  lemma OtherSideConflict(db: Table, p: Id, first: Option<Id>, second: Id)
    requires Conflicts(EnsuredRouter(db, Producing, p, first), RouterRow(Consuming, p, second))
    ensures Conflicts(db, RouterRow(Consuming, p, second))
  {
  }

  /** Whether a router insert of the membership transaction is a duplicate. */
  ghost predicate RouterDuplicate(db: Table, p: Id, producing: Option<Id>, consuming: Option<Id>) {
    || (producing.Some? && Conflicts(db, RouterRow(Producing, p, producing.value)))
    || (consuming.Some? &&
        Conflicts(EnsuredRouter(db, Producing, p, producing), RouterRow(Consuming, p, consuming.value)))
  }

  lemma NewcomerHasNoDuplicate(db: Table, p: Id, m: Id, i: Id, producing: Option<Id>, consuming: Option<Id>)
    requires Consistent(db) && RouterDuplicate(Admitted(db, p, m, i), p, producing, consuming)
    ensures HasMember(Evicted(db, p, m, i), p)
  {
    hide Consistent, Evicted, Conflicts, HasMember;
    var admitted := Admitted(db, p, m, i);
    if !HasMember(Evicted(db, p, m, i), p) {
      if producing.Some? {
        NewcomerHasNoRouter(db, p, m, i, Producing, producing.value);
      }
      if consuming.Some? {
        if Conflicts(EnsuredRouter(admitted, Producing, p, producing), RouterRow(Consuming, p, consuming.value)) {
          OtherSideConflict(admitted, p, producing, consuming.value);
        }
        NewcomerHasNoRouter(db, p, m, i, Consuming, consuming.value);
      }
    }
  }

  lemma RegisterRun(db: Table, p: Id, m: Id, i: Id, producing: Option<Id>, consuming: Option<Id>, link: Link)
    requires Consistent(db)
    requires RunFrom(db, MembershipStatements(p, m, i, producing, consuming), 0, false, false, link).Success?
    ensures RunFrom(db, MembershipStatements(p, m, i, producing, consuming), 0, false, false, link) ==
            Success((Registered(db, p, m, i, producing, consuming),
                     HasMember(Evicted(db, p, m, i), p)
                     || RouterDuplicate(Admitted(db, p, m, i), p, producing, consuming)))
  {
    hide Consistent, Evicted, Admitted, Conflicts, HasMember, EnsuredRouter;
    var stmts := MembershipStatements(p, m, i, producing, consuming);
    var known := HasMember(Evicted(db, p, m, i), p);
    var admitted := Admitted(db, p, m, i);
    AdmissionSteps(db, stmts, p, m, i, link);
    RouterSteps(admitted, stmts, 2, known, Producing, p, producing, link);
    var one := EnsuredRouter(admitted, Producing, p, producing);
    var n := 2 + (if producing.Some? then 1 else 0);
    var flag := known || (producing.Some? && Conflicts(admitted, RouterRow(Producing, p, producing.value)));
    RouterSteps(one, stmts, n, flag, Consuming, p, consuming, link);
  }

  /** What a successful membership transaction commits, and what its flag says. */
  lemma RegisterEffect(db: Table, p: Id, m: Id, i: Id, producing: Option<Id>, consuming: Option<Id>, link: Link)
    requires Consistent(db)
    requires Register(db, p, m, i, producing, consuming, link).1.Success?
    ensures Register(db, p, m, i, producing, consuming, link) ==
            (Registered(db, p, m, i, producing, consuming), Success(!HasMember(Evicted(db, p, m, i), p)))
  {
    hide Consistent, Evicted, Admitted, Registered, HasMember, RouterDuplicate, MembershipStatements, RunFrom;
    RegisterRun(db, p, m, i, producing, consuming, link);
    if RouterDuplicate(Admitted(db, p, m, i), p, producing, consuming) {
      NewcomerHasNoDuplicate(db, p, m, i, producing, consuming);
    }
  }

  ghost predicate Insertable(db: Table, row: Row) {
    InsertRow(db, row).Applied? || Conflicts(db, row)
  }

  /** Each insert of a successful membership transaction was applied, or was a duplicate. */
  lemma RegisterInserts(db: Table, p: Id, m: Id, i: Id, producing: Option<Id>, consuming: Option<Id>, link: Link)
    requires Consistent(db)
    requires Register(db, p, m, i, producing, consuming, link).1.Success?
    ensures Insertable(Evicted(db, p, m, i), Member(m, p, i))
    ensures producing.Some? ==> Insertable(Admitted(db, p, m, i), RouterRow(Producing, p, producing.value))
    ensures consuming.Some? ==>
              Insertable(EnsuredRouter(Admitted(db, p, m, i), Producing, p, producing),
                         RouterRow(Consuming, p, consuming.value))
  {
    var stmts := MembershipStatements(p, m, i, producing, consuming);
    var admitted := Admitted(db, p, m, i);
    var known := HasMember(Evicted(db, p, m, i), p);
    DeleteApplies(db, MemberOtherInstance(m, p, i));
    SkippingStep(db, stmts, 0, false, link);
    SkippingStep(Evicted(db, p, m, i), stmts, 1, false, link);
    AdmissionSteps(db, stmts, p, m, i, link);
    if producing.Some? {
      SkippingStep(admitted, stmts, 2, known, link);
    }
    RouterSteps(admitted, stmts, 2, known, Producing, p, producing, link);
    if consuming.Some? {
      var n := 2 + (if producing.Some? then 1 else 0);
      var flag := known || (producing.Some? && Conflicts(admitted, RouterRow(Producing, p, producing.value)));
      SkippingStep(EnsuredRouter(admitted, Producing, p, producing), stmts, n, flag, link);
    }
  }

  /** After an eviction the participant is a member exactly when it was one that the join did not supersede. */
  lemma MemberAfterEviction(db: Table, p: Id, m: Id, i: Id)
    requires Consistent(db)
    ensures HasMember(Evicted(db, p, m, i), p) <==> HasMember(db, p) && !Superseded(db, p, m, i)
  {
    var matched := Matching(db, MemberOtherInstance(m, p, i));
    ClosureGrows(db.Keys, matched);
    OneMembership(db, p);
    if Superseded(db, p, m, i) {
      var r :| r in db && r.Member? && r.participant == p && r.meeting == m && r.instance != i;
      assert r in matched;
    } else {
      assert matched == {};
      ClosureOfNothing(db.Keys);
    }
  }

  /** The `new_user` flag is exact: on success it is true iff the participant had no membership, or
      had one in this meeting under a different instance. */
  lemma NewUserIsExact(db: Table, p: Id, m: Id, i: Id, producing: Option<Id>, consuming: Option<Id>, link: Link)
    requires Consistent(db)
    requires Register(db, p, m, i, producing, consuming, link).1.Success?
    ensures Register(db, p, m, i, producing, consuming, link).1.value <==>
            !HasMember(db, p) || Superseded(db, p, m, i)
  {
    RegisterEffect(db, p, m, i, producing, consuming, link);
    MemberAfterEviction(db, p, m, i);
  }
}
