/** The supersession graph: following successor pointers, and what a lifecycle
    transition does to where every document resolves. */
module Supersession {
  import opened Records
  import opened Transitions
  import opened CustodyInvariants
  import opened Histories

  datatype Resolution = Resolved(current: Document) | CycleDetected | SuccessorMissing

  /** `service._resolve_current_document`, as the loop runs it: `visited` grows, so the
      documents not yet visited shrink. */
  function Walk(s: Store, current: Document, visited: set<DocumentId>): Resolution
    decreases s.docs.Keys - visited
  {
    if current.supersededBy.None? then Resolved(current)
    else
      var next := current.supersededBy.value;
      if next in visited then CycleDetected
      else if next !in s.docs then SuccessorMissing
      else Walk(s, s.docs[next], visited + {next})
  }

  /** The document `n` successor pointers away from `d`, if the chain is that long. */
  ghost function Follow(s: Store, d: DocumentId, n: nat): Option<DocumentId>
    decreases n
  {
    if n == 0 then Some(d)
    else if d in s.docs && s.docs[d].supersededBy.Some? then Follow(s, s.docs[d].supersededBy.value, n - 1)
    else None
  }

  ghost predicate IsCurrent(s: Store, d: DocumentId) {
    d in s.docs && s.docs[d].supersededBy.None?
  }

  ghost predicate EndsAt(s: Store, d: DocumentId, e: DocumentId) {
    IsCurrent(s, e) && exists n: nat :: Follow(s, d, n) == Some(e)
  }

  ghost predicate Dangles(s: Store, d: DocumentId) {
    exists n: nat :: Follow(s, d, n).Some? && Follow(s, d, n).value !in s.docs
  }

  ghost predicate Revisits(s: Store, d: DocumentId) {
    exists i: nat, j: nat :: i < j && Follow(s, d, i).Some? && Follow(s, d, i) == Follow(s, d, j)
  }

  lemma {:induction false} FollowSplits(s: Store, d: DocumentId, i: nat, k: nat)
    requires Follow(s, d, i).Some?
    ensures Follow(s, d, i + k) == Follow(s, Follow(s, d, i).value, k)
    decreases i
  {
    if i > 0 { FollowSplits(s, s.docs[d].supersededBy.value, i - 1, k); }
  }

  lemma {:induction false} FollowStaysNone(s: Store, d: DocumentId, n: nat, m: nat)
    requires n <= m && Follow(s, d, n).None?
    ensures Follow(s, d, m).None?
    decreases n
  {
    if n > 0 && d in s.docs && s.docs[d].supersededBy.Some? {
      FollowStaysNone(s, s.docs[d].supersededBy.value, n - 1, m - 1);
    }
  }

  /** A chain that stops never revisits a document, and it stops in one place. */
  lemma StoppedChains(s: Store, d: DocumentId, n: nat)
    requires Follow(s, d, n).Some? && Follow(s, d, n + 1).None?
    ensures !Revisits(s, d)
    ensures forall m: nat :: Follow(s, d, m).Some? && Follow(s, d, m + 1).None? ==> m == n
  {
    forall i: nat, j: nat | i < j && Follow(s, d, i).Some? && Follow(s, d, i) == Follow(s, d, j) ensures false {
      if j > n { FollowStaysNone(s, d, n + 1, j); assert false; }
      var a := Follow(s, d, i).value;
      FollowSplits(s, d, j, n + 1 - j);
      FollowSplits(s, d, i, n - i);
      FollowStaysNone(s, a, n + 1 - j, n - i);
    }
    forall m: nat | Follow(s, d, m).Some? && Follow(s, d, m + 1).None? ensures m == n {
      if m < n { FollowStaysNone(s, d, m + 1, n); }
      if n < m { FollowStaysNone(s, d, n + 1, m); }
    }
  }

  lemma FollowStops(s: Store, d: DocumentId, n: nat)
    requires Follow(s, d, n).Some?
    requires Follow(s, d, n).value !in s.docs || s.docs[Follow(s, d, n).value].supersededBy.None?
    ensures Follow(s, d, n + 1).None?
  {
    FollowSplits(s, d, n, 1);
  }

  /** The three outcomes exclude one another, and a chain has one end. */
  lemma OutcomesExclude(s: Store, d: DocumentId)
    ensures !(Revisits(s, d) && Dangles(s, d))
    ensures forall e :: EndsAt(s, d, e) ==> !Revisits(s, d) && !Dangles(s, d)
    ensures forall e, f :: EndsAt(s, d, e) && EndsAt(s, d, f) ==> e == f
  {
    if Dangles(s, d) {
      var n: nat :| Follow(s, d, n).Some? && Follow(s, d, n).value !in s.docs;
      FollowStops(s, d, n);
      StoppedChains(s, d, n);
    }
    forall e | EndsAt(s, d, e)
      ensures !Revisits(s, d) && !Dangles(s, d) && forall f :: EndsAt(s, d, f) ==> e == f
    {
      var n: nat :| Follow(s, d, n) == Some(e);
      FollowStops(s, d, n);
      StoppedChains(s, d, n);
      forall m: nat | Follow(s, d, m).Some? && (Follow(s, d, m).value !in s.docs || IsCurrent(s, Follow(s, d, m).value))
        ensures m == n
      {
        FollowStops(s, d, m);
      }
    }
  }

  /** The walk from a path already travelled reports what the pointers say. */
  lemma {:induction false} WalkReports(s: Store, path: seq<DocumentId>, visited: set<DocumentId>)
    requires |path| > 0 && visited == (set k | 0 <= k < |path| :: path[k])
    requires forall k :: 0 <= k < |path| ==> path[k] in s.docs && Follow(s, path[0], k) == Some(path[k])
    ensures var x := s.docs[path[|path| - 1]];
            match Walk(s, x, visited)
            case Resolved(e) => exists id :: EndsAt(s, path[0], id) && e == s.docs[id]
            case CycleDetected => Revisits(s, path[0])
            case SuccessorMissing => Dangles(s, path[0])
    decreases s.docs.Keys - visited
  {
    var n := |path| - 1;
    var x := s.docs[path[n]];
    if x.supersededBy.None? {
      assert EndsAt(s, path[0], path[n]);
    } else {
      var next := x.supersededBy.value;
      FollowSplits(s, path[0], n, 1);
      assert Follow(s, path[0], n + 1) == Some(next);
      if next in visited {
        var k: nat :| 0 <= k <= n && path[k] == next;
        assert Follow(s, path[0], k) == Follow(s, path[0], n + 1);
      } else if next in s.docs {
        var longer := path + [next];
        assert longer[0] == path[0];
        assert visited + {next} == (set k | 0 <= k < |longer| :: longer[k]) by {
          assert forall k :: 0 <= k < |path| ==> longer[k] == path[k];
          assert longer[n + 1] == next;
          forall y | y in visited + {next} ensures exists k :: 0 <= k < |longer| && longer[k] == y {
            if y == next { assert longer[n + 1] == y; }
            else { var k: nat :| 0 <= k < |path| && path[k] == y; assert longer[k] == y; }
          }
        }
        WalkReports(s, longer, visited + {next});
      } else {
        assert Follow(s, path[0], n + 1).value !in s.docs;
      }
    }
  }

  /** Resolution terminates on any repository, cyclic seeded ones included, and its three
      outcomes are exactly: the chain ends, the chain revisits, the chain dangles. */
  lemma ResolutionIsExact(s: Store, d: DocumentId)
    requires d in s.docs
    ensures Walk(s, s.docs[d], {d}).Resolved? <==> exists e :: EndsAt(s, d, e)
    ensures forall e :: EndsAt(s, d, e) ==> Walk(s, s.docs[d], {d}) == Resolved(s.docs[e])
    ensures Walk(s, s.docs[d], {d}).CycleDetected? <==> Revisits(s, d)
    ensures Walk(s, s.docs[d], {d}).SuccessorMissing? <==> Dangles(s, d)
  {
    assert {d} == (set k | 0 <= k < |[d]| :: [d][k]) by { assert [d][0] == d; }
    WalkReports(s, [d], {d});
    OutcomesExclude(s, d);
  }

  lemma {:induction false} FollowClimbs(s: Store, rank: map<DocumentId, nat>, d: DocumentId, n: nat)
    requires PointersInverse(s) && Ranked(s, rank) && d in s.docs
    requires Follow(s, d, n).Some?
    ensures Follow(s, d, n).value in s.docs
    ensures Follow(s, d, n).value in rank && d in rank && rank[Follow(s, d, n).value] >= rank[d] + n
    decreases n
  {
    assert PointersInverseAt(s, d) && Ascends(s, rank, d);
    if n > 0 { FollowClimbs(s, rank, s.docs[d].supersededBy.value, n - 1); }
  }

  /** On every sound store, resolution raises neither a cycle nor a missing document: it
      returns the one current document at the end of the path. */
  lemma SoundStoresResolve(s: Store, d: DocumentId)
    requires GraphInv(s) && d in s.docs
    ensures Walk(s, s.docs[d], {d}).Resolved?
    ensures !Revisits(s, d) && !Dangles(s, d)
    ensures forall n: nat :: n > 0 ==> Follow(s, d, n) != Some(d)
  {
    var rank :| Ranked(s, rank);
    forall n: nat | Follow(s, d, n).Some?
      ensures Follow(s, d, n).value in s.docs && d in rank && Follow(s, d, n).value in rank
      ensures rank[Follow(s, d, n).value] >= rank[d] + n
    {
      FollowClimbs(s, rank, d, n);
    }
    forall i: nat, j: nat | i < j && Follow(s, d, i).Some? && Follow(s, d, i) == Follow(s, d, j) ensures false {
      var a := Follow(s, d, i).value;
      FollowSplits(s, d, i, j - i);
      FollowClimbs(s, rank, a, j - i);
    }
    ResolutionIsExact(s, d);
  }

  ghost function CurrentOf(s: Store, d: DocumentId): DocumentId
    requires GraphInv(s) && d in s.docs
  {
    SoundStoresResolve(s, d);
    ResolutionIsExact(s, d);
    var e :| EndsAt(s, d, e);
    e
  }

  lemma CurrentOfIsTheEnd(s: Store, d: DocumentId, e: DocumentId)
    requires GraphInv(s) && d in s.docs && EndsAt(s, d, e)
    ensures CurrentOf(s, d) == e && Walk(s, s.docs[d], {d}) == Resolved(s.docs[e])
  {
    SoundStoresResolve(s, d);
    ResolutionIsExact(s, d);
    OutcomesExclude(s, d);
  }

  lemma {:induction false} LinkedChains(s: Store, r: Relationship, now: Instant, x: DocumentId, n: nat)
    requires Linkable(s, r) && x in s.docs
    requires Follow(s, x, n).Some? && IsCurrent(s, Follow(s, x, n).value)
    ensures var e := Follow(s, x, n).value;
            Follow(Link(s, r, now), x, n) == Some(e)
            && (e == r.source ==> Follow(Link(s, r, now), x, n + 1) == Some(r.target))
    decreases n
  {
    if n > 0 { LinkedChains(s, r, now, s.docs[x].supersededBy.value, n - 1); }
  }

  lemma OnlyTargetEndsAtTarget(s: Store, t: DocumentId, x: DocumentId)
    requires PointersInverse(s) && t in s.docs && ExistingOrigin(s.docs[t]).None? && x in s.docs && EndsAt(s, x, t)
    ensures x == t
  {
    var n: nat :| Follow(s, x, n) == Some(t);
    if n > 0 { ReachedHasOrigin(s, x, n); }
  }

  lemma ReachedHasOrigin(s: Store, x: DocumentId, n: nat)
    requires PointersInverse(s) && n > 0 && Follow(s, x, n).Some? && Follow(s, x, n).value in s.docs
    ensures ExistingOrigin(s.docs[Follow(s, x, n).value]).Some?
  {
    FollowSplitsBefore(s, x, n);
    FollowSplits(s, x, n - 1, 1);
    assert PointersInverseAt(s, Follow(s, x, n - 1).value);
  }

  lemma FollowSplitsBefore(s: Store, d: DocumentId, n: nat)
    requires n > 0 && Follow(s, d, n).Some?
    ensures Follow(s, d, n - 1).Some?
  {
    if Follow(s, d, n - 1).None? { FollowStaysNone(s, d, n - 1, n); }
  }

  /** A transition redirects exactly the documents on the source's path, and the target
      itself, to the target; every other document resolves where it did. */
  lemma TransitionRedirectsExactly(s: Store, r: Relationship, now: Instant, x: DocumentId)
    requires GraphInv(s) && Linkable(s, r) && x in s.docs && GraphInv(Link(s, r, now))
    ensures CurrentOf(Link(s, r, now), x)
            == if CurrentOf(s, x) == r.source || x == r.target then r.target else CurrentOf(s, x)
    ensures CurrentOf(s, x) == r.target <==> x == r.target
  {
    var s' := Link(s, r, now);
    var e := CurrentOf(s, x);
    var n: nat :| Follow(s, x, n) == Some(e);
    LinkedChains(s, r, now, x, n);
    if e == r.target { OnlyTargetEndsAtTarget(s, r.target, x); }
    if x == r.target {
      assert Follow(s, x, 0) == Some(x);
      assert EndsAt(s, x, r.target);
      CurrentOfIsTheEnd(s, x, r.target);
    }
    if e == r.source {
      assert EndsAt(s', x, r.target);
      CurrentOfIsTheEnd(s', x, r.target);
    } else {
      assert EndsAt(s', x, e);
      CurrentOfIsTheEnd(s', x, e);
    }
  }

  lemma {:induction false} ChainsMeetInOrder(s: Store, x: DocumentId, n: nat, y: DocumentId, m: nat)
    requires PointersInverse(s) && n <= m
    requires Follow(s, x, n).Some? && Follow(s, x, n) == Follow(s, y, m) && Follow(s, x, n).value in s.docs
    ensures Follow(s, y, m - n) == Some(x)
    decreases n
  {
    if n > 0 {
      FollowSplitsBefore(s, x, n);
      FollowSplitsBefore(s, y, m);
      FollowSplits(s, x, n - 1, 1);
      FollowSplits(s, y, m - 1, 1);
      assert PointersInverseAt(s, Follow(s, x, n - 1).value) && PointersInverseAt(s, Follow(s, y, m - 1).value);
      ChainsMeetInOrder(s, x, n - 1, y, m - 1);
    }
  }

  ghost predicate OnPathOf(s: Store, x: DocumentId, y: DocumentId) {
    exists n: nat :: Follow(s, x, n) == Some(y)
  }

  /** In every reachable store the pointers form disjoint simple paths: no document reaches
      itself, two documents with the same current document lie on one path, one after the
      other, each has at most one origin, and there are as many paths as documents less
      relationships. */
  lemma ReachableGraphsArePaths(cs: seq<Command>, x: DocumentId, y: DocumentId)
    requires AdmissibleAll(EMPTY_STORE, cs)
    requires x in PerformAll(EMPTY_STORE, cs).docs && y in PerformAll(EMPTY_STORE, cs).docs
    ensures var s := PerformAll(EMPTY_STORE, cs);
            && GraphInv(s) && PointersInverseAt(s, x) && !Revisits(s, x)
            && (CurrentOf(s, x) == CurrentOf(s, y) <==> OnPathOf(s, x, y) || OnPathOf(s, y, x))
            && |Current(s)| == |s.docs| - |s.relationships|
  {
    EmptyStoreIsSound();
    RunsKeepInvariants(EMPTY_STORE, cs);
    var s := PerformAll(EMPTY_STORE, cs);
    assert PointersInverseAt(s, x);
    SoundStoresResolve(s, x);
    SamePathSameEnd(s, x, y);
  }

  lemma SamePathSameEnd(s: Store, x: DocumentId, y: DocumentId)
    requires GraphInv(s) && x in s.docs && y in s.docs
    ensures CurrentOf(s, x) == CurrentOf(s, y) <==> OnPathOf(s, x, y) || OnPathOf(s, y, x)
  {
    var n: nat :| Follow(s, x, n) == Some(CurrentOf(s, x));
    var m: nat :| Follow(s, y, m) == Some(CurrentOf(s, y));
    if CurrentOf(s, x) == CurrentOf(s, y) {
      if n <= m { ChainsMeetInOrder(s, x, n, y, m); assert OnPathOf(s, y, x); }
      else { ChainsMeetInOrder(s, y, m, x, n); assert OnPathOf(s, x, y); }
    }
    if OnPathOf(s, x, y) { ReachedEndsAlike(s, x, y); }
    if OnPathOf(s, y, x) { ReachedEndsAlike(s, y, x); }
  }

  lemma ReachedEndsAlike(s: Store, x: DocumentId, y: DocumentId)
    requires GraphInv(s) && x in s.docs && y in s.docs && OnPathOf(s, x, y)
    ensures CurrentOf(s, x) == CurrentOf(s, y)
  {
    var k: nat :| Follow(s, x, k) == Some(y);
    var m: nat :| Follow(s, y, m) == Some(CurrentOf(s, y));
    FollowSplits(s, x, k, m);
    assert EndsAt(s, x, CurrentOf(s, y));
    CurrentOfIsTheEnd(s, x, CurrentOf(s, y));
  }

  // ---- replay -------------------------------------------------------------------

  lemma SameSourceSameRow(s: Store, a: Relationship, b: Relationship)
    requires RelationshipsAreEdges(s) && a in s.relationships && b in s.relationships && a.source == b.source
    ensures a == b
  {
    var i :| 0 <= i < |s.relationships| && s.relationships[i] == a;
    var j :| 0 <= j < |s.relationships| && s.relationships[j] == b;
    assert i == j;
  }

  /** Repeating a recorded transition after any later history returns the recorded
      relationship and changes nothing. */
  lemma ReplayConverges(s: Store, r: Relationship, later: seq<Command>, retry: Relationship, now: Instant)
    requires StoreInv(s) && r in s.relationships && AdmissibleAll(s, later)
    ensures var s' := PerformAll(s, later);
            r.source in s'.docs && r.target in s'.docs
            && ApplyTransition(s', r.source, r.target, r.kind, retry, now)
               == Answer(s', Ok(Linked(r, s'.docs[r.source], s'.docs[r.target])))
  {
    RunsKeepInvariants(s, later);
    var s' := PerformAll(s, later);
    var i :| 0 <= i < |s.relationships| && s.relationships[i] == r;
    assert s'.relationships[i] == r;
    assert r in s'.relationships && Describes(s', r);
    assert RowInv(s', r.source) && RowInv(s', r.target);
    var found := FindRelationship(s'.relationships, r.source, r.target, r.kind);
    SameSourceSameRow(s', r, found.value);
  }

  lemma AnsweredTransitionIsRecorded(s: Store, source: DocumentId, target: DocumentId, kind: TransitionKind,
                                     r: Relationship, now: Instant)
    requires RecordsTransition(r, source, target, kind)
    requires ApplyTransition(s, source, target, kind, r, now).value.Ok?
    ensures var a := ApplyTransition(s, source, target, kind, r, now);
            a.value.value.relationship in a.store.relationships && a.value.value.relationship.source == source
  {
  }

  /** Of all the transitions ever attempted from one source, whatever their targets and
      whatever runs between them, at most one distinct relationship is ever returned. */
  lemma OneSuccessorEver(s: Store, c1: Command, between: seq<Command>, c2: Command)
    requires StoreInv(s) && Admissible(s, c1) && c1.DoApply? && c2.DoApply? && c1.source == c2.source
    requires AdmissibleAll(Perform(s, c1).store, between)
    requires Admissible(PerformAll(Perform(s, c1).store, between), c2)
    requires Perform(s, c1).value.linked.Ok?
    requires Perform(PerformAll(Perform(s, c1).store, between), c2).value.linked.Ok?
    ensures Perform(s, c1).value.linked.value.relationship
            == Perform(PerformAll(Perform(s, c1).store, between), c2).value.linked.value.relationship
  {
    var s1 := Perform(s, c1).store;
    TransitionsKeepInvariants(s, c1);
    AnsweredTransitionIsRecorded(s, c1.source, c1.target, c1.kind, c1.relationship, c1.now);
    RunsKeepInvariants(s1, between);
    var s2 := PerformAll(s1, between);
    TransitionsKeepInvariants(s2, c2);
    TransitionsOnlyAccumulate(s2, c2);
    AnsweredTransitionIsRecorded(s2, c2.source, c2.target, c2.kind, c2.relationship, c2.now);
    SameSourceSameRow(Perform(s2, c2).store, Perform(s, c1).value.linked.value.relationship,
                      Perform(s2, c2).value.linked.value.relationship);
  }
}
