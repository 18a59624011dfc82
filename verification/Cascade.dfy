/** ON DELETE CASCADE as a closure over the foreign-key graph. */
module Cascade {
  import opened Common
  import opened Schema

  predicate DependsOn(child: Row, parent: Row) {
    exists k :: k in CascadeRefs(child) && k in Provides(parent)
  }

  /** The rows that reference a doomed row through a cascading foreign key. */
  function Dependents(rows: set<Row>, doomed: set<Row>): set<Row> {
    set r | r in rows && exists d :: d in doomed && DependsOn(r, d)
  }

  /** Deleting `doomed` together with everything that cascades from it. */
  function Closure(rows: set<Row>, doomed: set<Row>): (all: set<Row>)
    decreases rows - doomed
  {
    var more := Dependents(rows, doomed) - doomed;
    if more == {} then doomed
    else
      assert exists r :: r in more;
      Closure(rows, doomed + more)
  }

  /** No surviving row references a doomed one. */
  ghost predicate Closed(rows: set<Row>, doomed: set<Row>) {
    forall r, d :: r in rows && d in doomed && DependsOn(r, d) ==> r in doomed
  }

  /** A chain of foreign keys leads from `path[0]` down to `path[|path| - 1]`. */
  ghost predicate Chain(rows: set<Row>, path: seq<Row>) {
    && |path| > 0
    && (forall i :: 0 <= i < |path| ==> path[i] in rows)
    && (forall i :: 0 < i < |path| ==> DependsOn(path[i], path[i - 1]))
  }

  ghost predicate Reachable(rows: set<Row>, from: set<Row>, r: Row) {
    exists path :: Chain(rows, path) && path[0] in from && path[|path| - 1] == r
  }

  lemma {:induction false} ClosureGrows(rows: set<Row>, doomed: set<Row>)
    requires doomed <= rows
    ensures doomed <= Closure(rows, doomed) <= rows
    ensures Closed(rows, Closure(rows, doomed))
    decreases rows - doomed
  {
    var more := Dependents(rows, doomed) - doomed;
    if more == {} {
      forall r, d | r in rows && d in doomed && DependsOn(r, d) ensures r in doomed {
        assert r in Dependents(rows, doomed);
        assert r !in more;
      }
    } else {
      assert exists r :: r in more;
      ClosureGrows(rows, doomed + more);
    }
  }

  /** The closure is the least closed superset of the matched rows. */
  lemma {:induction false} ClosureIsLeast(rows: set<Row>, doomed: set<Row>, other: set<Row>)
    requires doomed <= other && Closed(rows, other)
    ensures Closure(rows, doomed) <= other
    decreases rows - doomed
  {
    var more := Dependents(rows, doomed) - doomed;
    if more != {} {
      assert exists r :: r in more;
      ClosureIsLeast(rows, doomed + more, other);
    }
  }

  /** A row is in the closure exactly when a chain of foreign keys leads to it from a matched row. */
  lemma ClosureIsReachability(rows: set<Row>, matched: set<Row>, r: Row)
    requires matched <= rows
    ensures r in Closure(rows, matched) <==> Reachable(rows, matched, r)
  {
    ClosureGrows(rows, matched);
    if Reachable(rows, matched, r) {
      var path :| Chain(rows, path) && path[0] in matched && path[|path| - 1] == r;
      ChainStaysInside(rows, Closure(rows, matched), path);
    }
    var reached := set s | s in rows && Reachable(rows, matched, s);
    forall s | s in matched ensures s in reached {
      ReachedDirectly(rows, matched, s);
    }
    forall s, d | s in rows && d in reached && DependsOn(s, d) ensures s in reached {
      ReachedThrough(rows, matched, d, s);
    }
    ClosureIsLeast(rows, matched, reached);
  }

  lemma ReachedDirectly(rows: set<Row>, from: set<Row>, r: Row)
    requires r in from && r in rows
    ensures Reachable(rows, from, r)
  {
    var path := [r];
    assert Chain(rows, path) && path[0] in from && path[|path| - 1] == r;
  }

  lemma ReachedThrough(rows: set<Row>, from: set<Row>, parent: Row, child: Row)
    requires Reachable(rows, from, parent) && child in rows && DependsOn(child, parent)
    ensures Reachable(rows, from, child)
  {
    var path :| Chain(rows, path) && path[0] in from && path[|path| - 1] == parent;
    var longer := path + [child];
    assert Chain(rows, longer) && longer[0] in from && longer[|longer| - 1] == child;
  }

  lemma {:induction false} ChainStaysInside(rows: set<Row>, inside: set<Row>, path: seq<Row>)
    requires Chain(rows, path) && path[0] in inside && Closed(rows, inside)
    ensures path[|path| - 1] in inside
    decreases |path|
  {
    if |path| > 1 {
      ChainStaysInside(rows, inside, path[..|path| - 1]);
    }
  }

  /** Among the supersets of the matched rows, exactly the closed ones can be removed without
      breaking a cascading foreign key; so the closure is the least removal that keeps them. */
  lemma RemovalKeepsReferences(rows: set<Row>, removed: set<Row>)
    requires UniqueKeys(rows) && ForeignKeys(rows) && removed <= rows
    ensures Closed(rows, removed) <==>
            forall r, k :: r in rows - removed && k in CascadeRefs(r) ==> Provided(rows - removed, k)
  {
    if Closed(rows, removed) {
      forall r, k | r in rows - removed && k in CascadeRefs(r) ensures Provided(rows - removed, k) {
        assert k in References(r);
        assert Provided(rows, k);
        var s :| s in rows && k in Provides(s);
        assert DependsOn(r, s);
        assert s in rows - removed;
      }
    } else {
      var r, d :| r in rows && d in removed && DependsOn(r, d) && r !in removed;
      var k :| k in CascadeRefs(r) && k in Provides(d);
      assert !Provided(rows - removed, k);
    }
  }

  /** Visiting the rows one at a time, in any order, computes the same closure. */
  method CascadeInAnyOrder(rows: set<Row>, matched: set<Row>) returns (doomed: set<Row>)
    requires matched <= rows
    ensures doomed == Closure(rows, matched)
  {
    ClosureGrows(rows, matched);
    doomed := matched;
    var pending := matched;
    while pending != {}
      invariant matched <= doomed <= Closure(rows, matched) <= rows
      invariant pending <= doomed
      invariant forall r, d :: r in rows && d in doomed - pending && DependsOn(r, d) ==> r in doomed
      decreases rows - doomed, pending
    {
      var d :| d in pending;
      var found := set r | r in rows && DependsOn(r, d) && r !in doomed;
      assert found != {} ==> exists r :: r in found;
      assert forall r :: r in rows && DependsOn(r, d) ==> r in doomed || r in found;
      doomed := doomed + found;
      pending := pending - {d} + found;
    }
    ClosureIsLeast(rows, matched, doomed);
  }
}
