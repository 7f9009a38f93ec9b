/** What every guarded transition keeps true of a store, whoever runs it and in what order. */
module CustodyInvariants {
  import opened Records
  import opened Transitions

  /** Everything but document `d`'s own row is as it was. */
  ghost predicate OnlyRow(s: Store, s': Store, d: DocumentId) {
    d in s.docs && d in s'.docs && s' == s.(docs := s.docs[d := s'.docs[d]])
  }

  /** One document's row: keyed by its own id, owned by exactly one archive request, with
      a summary that agrees with the hold rows, no hold under a destruction intent, and a
      purge recorded completely or not at all. */
  ghost predicate RowInv(s: Store, d: DocumentId) {
    && d in s.docs
    && s.docs[d].documentId == d
    && s.docs[d].input.archiveRequestId in s.byRequest
    && s.byRequest[s.docs[d].input.archiveRequestId] == d
    && SummaryAgrees(s, d)
    && (s.docs[d].purgeStartedAt.Some? ==> ActiveHolds(s.holds, d) == {})
    && (s.docs[d].purgeStatus == Purged <==> s.docs[d].purgedAt.Some?)
    && (s.docs[d].purgeStatus == Purged ==> s.docs[d].purgeStartedAt.Some?)
  }

  ghost predicate RowsInv(s: Store) {
    && (forall d {:trigger RowInv(s, d)} :: d in s.docs ==> RowInv(s, d))
    && (forall h :: h in s.holds ==> s.holds[h].documentId in s.docs)
    && (forall r {:trigger r in s.byRequest} :: r in s.byRequest ==> RequestInv(s, r))
  }

  ghost predicate RequestInv(s: Store, r: string)
    requires r in s.byRequest
  {
    s.byRequest[r] in s.docs && s.docs[s.byRequest[r]].input.archiveRequestId == r
  }

  // ---- the supersession graph ---------------------------------------------------

  ghost predicate OneOrigin(x: Document) {
    && (x.supersedes.Some? ==> x.correctionOf.None? && x.reissueOf.None?)
    && (x.correctionOf.Some? ==> x.reissueOf.None?)
  }

  /** `d`'s successor points back at it, and its origin points at it. */
  ghost predicate PointersInverseAt(s: Store, d: DocumentId) {
    && d in s.docs
    && OneOrigin(s.docs[d])
    && (s.docs[d].supersededBy.Some? ==>
          s.docs[d].supersededBy.value in s.docs && ExistingOrigin(s.docs[s.docs[d].supersededBy.value]) == Some(d))
    && (ExistingOrigin(s.docs[d]).Some? ==>
          ExistingOrigin(s.docs[d]).value in s.docs && s.docs[ExistingOrigin(s.docs[d]).value].supersededBy == Some(d))
  }

  /** Successor and origin pointers are mutual inverses. */
  ghost predicate PointersInverse(s: Store) {
    forall d {:trigger PointersInverseAt(s, d)} :: d in s.docs ==> PointersInverseAt(s, d)
  }

  ghost predicate Describes(s: Store, r: Relationship) {
    r.source in s.docs && r.target in s.docs && PointersAgree(s.docs[r.source], s.docs[r.target], r.kind)
  }

  ghost predicate HasRow(s: Store, d: DocumentId) {
    exists i :: 0 <= i < |s.relationships| && s.relationships[i].source == d
  }

  /** Relationship rows and edges correspond one to one. */
  ghost predicate RelationshipsAreEdges(s: Store) {
    && (forall i {:trigger s.relationships[i]} :: 0 <= i < |s.relationships| ==> Describes(s, s.relationships[i]))
    && (forall i, j :: 0 <= i < j < |s.relationships| ==> s.relationships[i].source != s.relationships[j].source)
    && (forall d {:trigger HasRow(s, d)} :: d in s.docs && s.docs[d].supersededBy.Some? ==> HasRow(s, d))
  }

  ghost predicate Ascends(s: Store, rank: map<DocumentId, nat>, d: DocumentId) {
    && d in s.docs && d in rank
    && (s.docs[d].supersededBy.Some? ==>
          s.docs[d].supersededBy.value in rank && rank[d] < rank[s.docs[d].supersededBy.value])
  }

  ghost predicate Ranked(s: Store, rank: map<DocumentId, nat>) {
    forall d {:trigger Ascends(s, rank, d)} :: d in s.docs ==> Ascends(s, rank, d)
  }

  /** No document supersedes itself through any number of steps: successors can be ranked. */
  ghost predicate Acyclic(s: Store) {
    exists rank :: Ranked(s, rank)
  }

  ghost function Current(s: Store): set<DocumentId> {
    set d | d in s.docs && s.docs[d].supersededBy.None?
  }

  ghost predicate GraphInv(s: Store) {
    && PointersInverse(s)
    && RelationshipsAreEdges(s)
    && Acyclic(s)
    && |Current(s)| == |s.docs| - |s.relationships|
  }

  ghost predicate StoreInv(s: Store) {
    RowsInv(s) && GraphInv(s)
  }

  lemma EmptyStoreIsSound()
    ensures StoreInv(EMPTY_STORE)
  {
    assert Ranked(EMPTY_STORE, map[]);
  }

  // ---- preservation, one concern at a time --------------------------------------

  ghost predicate SamePointers(x: Document, y: Document) {
    && x.documentId == y.documentId
    && x.supersededBy == y.supersededBy
    && x.supersedes == y.supersedes
    && x.correctionOf == y.correctionOf
    && x.reissueOf == y.reissueOf
  }

  /** A transition that leaves every pointer and every relationship row alone. */
  ghost predicate SameGraph(s: Store, s': Store) {
    && s'.docs.Keys == s.docs.Keys
    && s'.relationships == s.relationships
    && forall d :: d in s.docs ==> SamePointers(s.docs[d], s'.docs[d])
  }

  lemma SameGraphKeepsGraph(s: Store, s': Store)
    requires GraphInv(s) && SameGraph(s, s')
    ensures GraphInv(s')
  {
    SameGraphKeepsAcyclic(s, s');
    SameGraphKeepsEdges(s, s');
    assert Current(s') == Current(s);
    forall d | d in s'.docs ensures PointersInverseAt(s', d) { assert PointersInverseAt(s, d); }
    assert |s'.docs.Keys| == |s.docs.Keys|;
  }

  lemma SameGraphKeepsAcyclic(s: Store, s': Store)
    requires Acyclic(s) && SameGraph(s, s')
    ensures Acyclic(s')
  {
    var rank :| Ranked(s, rank);
    forall d | d in s'.docs ensures Ascends(s', rank, d) { assert Ascends(s, rank, d); }
    assert Ranked(s', rank);
  }

  lemma SameGraphKeepsEdges(s: Store, s': Store)
    requires RelationshipsAreEdges(s) && SameGraph(s, s')
    ensures RelationshipsAreEdges(s')
  {
    forall i | 0 <= i < |s'.relationships|
        ensures Describes(s', s'.relationships[i]) { assert Describes(s, s.relationships[i]); }
    forall d | d in s'.docs && s'.docs[d].supersededBy.Some? ensures HasRow(s', d) { assert HasRow(s, d); }
  }

  lemma NewDocumentKeepsGraph(s: Store, s': Store, x: Document)
    requires GraphInv(s) && x.documentId !in s.docs
    requires OneOrigin(x) && x.supersededBy.None? && ExistingOrigin(x).None?
    requires s'.docs == s.docs[x.documentId := x] && s'.relationships == s.relationships
    ensures GraphInv(s')
  {
    NewDocumentKeepsAcyclic(s, s', x);
    NewDocumentKeepsEdges(s, s', x);
    NewDocumentKeepsPointers(s, s', x);
    NewDocumentCounts(s, s', x);
  }

  lemma NewDocumentCounts(s: Store, s': Store, x: Document)
    requires x.documentId !in s.docs && x.supersededBy.None? && s'.docs == s.docs[x.documentId := x]
    ensures |Current(s')| == |Current(s)| + 1 && |s'.docs| == |s.docs| + 1
  {
    assert Current(s') == Current(s) + {x.documentId};
    assert s'.docs.Keys == s.docs.Keys + {x.documentId};
  }

  lemma NewDocumentKeepsPointers(s: Store, s': Store, x: Document)
    requires PointersInverse(s) && x.documentId !in s.docs && s'.docs == s.docs[x.documentId := x]
    requires OneOrigin(x) && x.supersededBy.None? && ExistingOrigin(x).None?
    ensures PointersInverse(s')
  {
    forall d | d in s'.docs ensures PointersInverseAt(s', d) {
      if d != x.documentId { assert PointersInverseAt(s, d); }
    }
  }

  lemma NewDocumentKeepsAcyclic(s: Store, s': Store, x: Document)
    requires Acyclic(s) && x.documentId !in s.docs && x.supersededBy.None? && s'.docs == s.docs[x.documentId := x]
    requires PointersInverse(s)
    ensures Acyclic(s')
  {
    var rank :| Ranked(s, rank);
    var rank' := rank[x.documentId := 0];
    forall d | d in s'.docs ensures Ascends(s', rank', d) {
      if d != x.documentId { assert Ascends(s, rank, d) && PointersInverseAt(s, d); }
    }
    assert Ranked(s', rank');
  }

  lemma NewDocumentKeepsEdges(s: Store, s': Store, x: Document)
    requires RelationshipsAreEdges(s) && x.documentId !in s.docs && x.supersededBy.None?
    requires s'.docs == s.docs[x.documentId := x] && s'.relationships == s.relationships
    ensures RelationshipsAreEdges(s')
  {
    forall i | 0 <= i < |s'.relationships|
        ensures Describes(s', s'.relationships[i]) { assert Describes(s, s.relationships[i]); }
    forall d | d in s'.docs && s'.docs[d].supersededBy.Some? ensures HasRow(s', d) { assert HasRow(s, d); }
  }

  ghost function Link(s: Store, r: Relationship, now: Instant): Store
    requires r.source in s.docs && r.target in s.docs
  {
    s.(docs := s.docs[r.source := s.docs[r.source].(supersededBy := Some(r.target), updatedAt := now)]
                     [r.target := WithOrigin(s.docs[r.target], r.kind, r.source).(updatedAt := now)],
       relationships := s.relationships + [r])
  }

  /** The guards: two different documents, neither superseded, the target without origin. */
  ghost predicate Linkable(s: Store, r: Relationship) {
    && r.source in s.docs && r.target in s.docs && r.source != r.target
    && s.docs[r.source].supersededBy.None? && s.docs[r.target].supersededBy.None?
    && ExistingOrigin(s.docs[r.target]).None?
    && s.docs[r.source].documentId == r.source && s.docs[r.target].documentId == r.target
  }

  lemma LinkKeepsPointers(s: Store, r: Relationship, now: Instant)
    requires PointersInverse(s) && Linkable(s, r)
    ensures PointersInverse(Link(s, r, now))
  {
    var s' := Link(s, r, now);
    assert PointersInverseAt(s, r.source) && PointersInverseAt(s, r.target);
    forall d | d in s'.docs ensures PointersInverseAt(s', d) { assert PointersInverseAt(s, d); }
  }

  /** The guards leave the target without edges, so it can be ranked anew above its source. */
  lemma LinkKeepsAcyclic(s: Store, r: Relationship, now: Instant)
    requires PointersInverse(s) && Acyclic(s) && Linkable(s, r)
    ensures Acyclic(Link(s, r, now))
  {
    var s' := Link(s, r, now);
    var rank :| Ranked(s, rank);
    assert Ascends(s, rank, r.source);
    var rank' := rank[r.target := rank[r.source] + 1];
    forall d | d in s'.docs ensures Ascends(s', rank', d) {
      assert Ascends(s, rank, d) && PointersInverseAt(s, d);
    }
    assert Ranked(s', rank');
  }

  lemma LinkCounts(s: Store, r: Relationship, now: Instant)
    requires Linkable(s, r) && |Current(s)| == |s.docs| - |s.relationships|
    ensures var s' := Link(s, r, now); |Current(s')| == |s'.docs| - |s'.relationships|
  {
    var s' := Link(s, r, now);
    assert Current(s') == Current(s) - {r.source};
    assert s'.docs.Keys == s.docs.Keys;
  }

  lemma LinkKeepsRows(s: Store, r: Relationship, now: Instant)
    requires RelationshipsAreEdges(s) && Linkable(s, r)
    ensures RelationshipsAreEdges(Link(s, r, now))
  {
    var s' := Link(s, r, now);
    var n := |s.relationships|;
    assert s'.relationships[n] == r;
    forall i | 0 <= i < n
      ensures s.relationships[i].source != r.source && Describes(s', s.relationships[i])
    {
      assert Describes(s, s.relationships[i]);
    }
    forall d | d in s'.docs && s'.docs[d].supersededBy.Some? ensures HasRow(s', d) {
      if d != r.source {
        assert HasRow(s, d);
        var i :| 0 <= i < n && s.relationships[i].source == d;
        assert s'.relationships[i].source == d;
      }
    }
  }

  lemma AdmittedHolds(holds: map<HoldId, Hold>, id: HoldId, hold: Hold, d: DocumentId)
    requires id !in holds && hold.status == Active
    ensures ActiveHolds(holds[id := hold], d) == ActiveHolds(holds, d) + (if hold.documentId == d then {id} else {})
    ensures |ActiveHolds(holds[id := hold], d)| == |ActiveHolds(holds, d)| + (if hold.documentId == d then 1 else 0)
  {
    assert ActiveHolds(holds[id := hold], d) == ActiveHolds(holds, d) + (if hold.documentId == d then {id} else {});
  }

  lemma ReleasedHolds(holds: map<HoldId, Hold>, id: HoldId, release: Release, d: DocumentId)
    requires id in holds
    ensures ActiveHolds(holds[id := Released(holds[id], release)], d) == ActiveHolds(holds, d) - {id}
  {
  }

  /** A transition that rewrites one existing row, and hold rows of that document at most. */
  lemma OneRowKeepsInv(s: Store, s': Store, d: DocumentId)
    requires StoreInv(s) && d in s.docs && RowInv(s', d)
    requires s'.docs == s.docs[d := s'.docs[d]] && SamePointers(s.docs[d], s'.docs[d])
    requires s'.docs[d].input == s.docs[d].input
    requires s'.byRequest == s.byRequest && s'.relationships == s.relationships
    requires forall h :: h in s'.holds ==> s'.holds[h].documentId in s.docs
    requires forall e :: e in s.docs && e != d ==> ActiveHolds(s'.holds, e) == ActiveHolds(s.holds, e)
    ensures StoreInv(s')
  {
    SameGraphKeepsGraph(s, s');
    forall e | e in s'.docs ensures RowInv(s', e) {
      if e != d { assert RowInv(s, e); }
    }
    forall r | r in s'.byRequest ensures RequestInv(s', r) { assert RequestInv(s, r); }
  }

  lemma SaveKeepsInv(s: Store, x: Document)
    requires StoreInv(s) && Admissible(s, DoSave(x))
    ensures StoreInv(Save(s, x).store)
  {
    var s' := Save(s, x).store;
    var id := x.documentId;
    if id in s.docs {
      assert RowInv(s, id);
      if s' != s { OneRowKeepsInv(s, s', id); }
    } else if s' != s {
      NewDocumentKeepsGraph(s, s', x);
      NewDocumentKeepsRows(s, x);
    }
  }

  lemma NewDocumentKeepsRows(s: Store, x: Document)
    requires StoreInv(s) && Admissible(s, DoSave(x)) && x.documentId !in s.docs
    ensures RowsInv(Save(s, x).store)
  {
    var s', id := Save(s, x).store, x.documentId;
    assert ActiveHolds(s.holds, id) == {};
    assert x.input.archiveRequestId !in s.byRequest || RequestInv(s, x.input.archiveRequestId);
    forall d | d in s'.docs ensures RowInv(s', d) {
      if d in s.docs { assert RowInv(s, d); }
    }
    forall r | r in s'.byRequest ensures RequestInv(s', r) {
      if r in s.byRequest { assert RequestInv(s, r); }
    }
  }

  lemma AdmitRewritesOneRow(s: Store, d: DocumentId, id: HoldId, hold: Hold, now: Instant)
    requires RowInv(s, d) && Admissible(s, DoAdmit(d, id, hold, now)) && s.docs[d].purgeStartedAt.None?
    ensures var s' := AdmitHold(s, d, id, hold, now).store;
            && d in s'.docs && s' == s.(docs := s.docs[d := s'.docs[d]], holds := s.holds[id := hold])
            && RowInv(s', d) && SamePointers(s.docs[d], s'.docs[d]) && s'.docs[d].input == s.docs[d].input
  {
    AdmittedHolds(s.holds, id, hold, d);
  }

  lemma AdmitKeepsInv(s: Store, d: DocumentId, id: HoldId, hold: Hold, now: Instant)
    requires StoreInv(s) && Admissible(s, DoAdmit(d, id, hold, now))
    ensures StoreInv(AdmitHold(s, d, id, hold, now).store)
  {
    var s' := AdmitHold(s, d, id, hold, now).store;
    if d in s.docs && s.docs[d].purgeStartedAt.None? {
      AdmitRewritesOneRow(s, d, id, hold, now);
      forall e | e in s.docs && e != d ensures ActiveHolds(s'.holds, e) == ActiveHolds(s.holds, e) {
        AdmittedHolds(s.holds, id, hold, e);
      }
      OneRowKeepsInv(s, s', d);
    }
  }

  /** On a store whose summaries agree, refreshing a summary changes nothing. */
  lemma RefreshIsIdentity(s: Store, d: DocumentId, now: Instant)
    requires d in s.docs && SummaryAgrees(s, d)
    ensures RefreshSummary(s, d, now) == Answer(s, Some(s.docs[d]))
  {
  }

  lemma ReleaseKeepsInv(s: Store, d: DocumentId, id: HoldId, release: Release, now: Instant)
    requires StoreInv(s)
    ensures StoreInv(ReleaseHold(s, d, id, release, now).store)
  {
    if d in s.docs && id in s.holds && s.holds[id].documentId == d {
      var s' := ReleaseHold(s, d, id, release, now).store;
      ReleaseRewritesOneRow(s, d, id, release, now);
      forall e | e in s.docs && e != d ensures ActiveHolds(s'.holds, e) == ActiveHolds(s.holds, e) {
        ReleasedHolds(s.holds, id, release, e);
      }
      OneRowKeepsInv(s, s', d);
    }
  }

  lemma ReleaseRewritesOneRow(s: Store, d: DocumentId, id: HoldId, release: Release, now: Instant)
    requires RowInv(s, d) && id in s.holds && s.holds[id].documentId == d
    ensures var s' := ReleaseHold(s, d, id, release, now).store;
            && d in s'.docs
            && s' == s.(docs := s.docs[d := s'.docs[d]], holds := s.holds[id := Released(s.holds[id], release)])
            && RowInv(s', d) && SamePointers(s.docs[d], s'.docs[d]) && s'.docs[d].input == s.docs[d].input
  {
    ReleasedHolds(s.holds, id, release, d);
    assert s.docs[d := s.docs[d]] == s.docs;
  }

  lemma LinkKeepsRowInv(s: Store, r: Relationship, now: Instant)
    requires RowsInv(s) && Linkable(s, r)
    ensures RowsInv(Link(s, r, now))
  {
    var s' := Link(s, r, now);
    forall e | e in s'.docs ensures RowInv(s', e) { assert RowInv(s, e); }
    forall q | q in s'.byRequest ensures RequestInv(s', q) { assert RequestInv(s, q); }
  }

  /** Either nothing changes, or the transition is a link between linkable documents. */
  lemma ApplyLinksOrLeaves(s: Store, f: DocumentId, t: DocumentId, kind: TransitionKind, r: Relationship, now: Instant)
    requires RowsInv(s) && RecordsTransition(r, f, t, kind)
    ensures var s' := ApplyTransition(s, f, t, kind, r, now).store;
            s' == s || (Linkable(s, r) && s' == Link(s, r, now))
  {
    if f in s.docs && t in s.docs { assert RowInv(s, f) && RowInv(s, t); }
  }

  lemma ApplyKeepsInv(s: Store, f: DocumentId, t: DocumentId, kind: TransitionKind, r: Relationship, now: Instant)
    requires StoreInv(s) && RecordsTransition(r, f, t, kind)
    ensures StoreInv(ApplyTransition(s, f, t, kind, r, now).store)
  {
    ApplyLinksOrLeaves(s, f, t, kind, r, now);
    if Linkable(s, r) {
      LinkKeepsPointers(s, r, now);
      LinkKeepsAcyclic(s, r, now);
      LinkKeepsRows(s, r, now);
      LinkCounts(s, r, now);
      LinkKeepsRowInv(s, r, now);
    }
  }

  lemma PurgeStepsKeepInv(s: Store, c: Command)
    requires StoreInv(s) && (c.DoBeginPurge? || c.DoMarkEligible? || c.DoMarkNotEligible? || c.DoComplete?
        || c.DoRefresh?)
    ensures StoreInv(Perform(s, c).store)
  {
    var s' := Perform(s, c).store;
    if c.d in s.docs {
      assert RowInv(s, c.d);
      if s' != s { OneRowKeepsInv(s, s', c.d); }
    }
  }

  /** Every production transition keeps every invariant of the store. */
  lemma TransitionsKeepInvariants(s: Store, c: Command)
    requires StoreInv(s) && Admissible(s, c)
    ensures StoreInv(Perform(s, c).store)
  {
    match c
    case DoSave(x) => SaveKeepsInv(s, x);
    case DoAdmit(d, id, h, now) => AdmitKeepsInv(s, d, id, h, now);
    case DoRelease(d, id, r, now) => ReleaseKeepsInv(s, d, id, r, now);
    case DoApply(f, t, k, r, now) => ApplyKeepsInv(s, f, t, k, r, now);
    case _ => PurgeStepsKeepInv(s, c);
  }

  // ---- what never reverts -------------------------------------------------------

  ghost predicate RowEvolves(x: Document, y: Document) {
    && y.input == x.input && y.documentId == x.documentId && y.storageKey == x.storageKey
    && y.checksum == x.checksum && y.sizeBytes == x.sizeBytes && y.createdAt == x.createdAt
    && (x.purgeStartedAt.Some? ==> y.purgeStartedAt == x.purgeStartedAt)
    && (x.purgedAt.Some? ==> y.purgedAt == x.purgedAt)
    && (x.purgeStatus == Purged ==> y.purgeStatus == Purged)
    && (x.purgeEligibleAt.Some? ==> y.purgeEligibleAt == x.purgeEligibleAt)
    && (x.supersededBy.Some? ==> y.supersededBy == x.supersededBy)
    && (x.supersedes.Some? ==> y.supersedes == x.supersedes)
    && (x.correctionOf.Some? ==> y.correctionOf == x.correctionOf)
    && (x.reissueOf.Some? ==> y.reissueOf == x.reissueOf)
  }

  ghost predicate HoldEvolves(x: Hold, y: Hold) {
    && y.documentId == x.documentId && y.authority == x.authority && y.reason == x.reason
    && y.requestedBy == x.requestedBy && y.requestedAt == x.requestedAt
    && (x.status == Clear || y.status == Active ==> y == x)
  }

  ghost predicate DocumentEvolves(s: Store, s': Store, d: DocumentId) {
    d in s.docs && d in s'.docs && RowEvolves(s.docs[d], s'.docs[d])
  }

  ghost predicate HoldRowEvolves(s: Store, s': Store, h: HoldId) {
    h in s.holds && h in s'.holds && HoldEvolves(s.holds[h], s'.holds[h])
  }

  /** Archived facts, destruction and lineage only ever accumulate. */
  ghost predicate StoreEvolves(s: Store, s': Store) {
    && (forall d {:trigger DocumentEvolves(s, s', d)} :: d in s.docs ==> DocumentEvolves(s, s', d))
    && (forall h {:trigger HoldRowEvolves(s, s', h)} :: h in s.holds ==> HoldRowEvolves(s, s', h))
    && (forall r {:trigger r in s.byRequest} :: r in s.byRequest ==> r in s'.byRequest
                                                                     && s'.byRequest[r] == s.byRequest[r])
    && s.relationships <= s'.relationships
  }

  lemma StoreIsItself(s: Store)
    ensures StoreEvolves(s, s)
  {
  }

  lemma OneRowEvolves(s: Store, s': Store, d: DocumentId)
    requires d in s.docs && d in s'.docs && s'.docs == s.docs[d := s'.docs[d]] && RowEvolves(s.docs[d], s'.docs[d])
    requires s'.byRequest == s.byRequest && s'.relationships == s.relationships
    requires forall h :: h in s.holds ==> HoldRowEvolves(s, s', h)
    ensures StoreEvolves(s, s')
  {
  }

  lemma HoldStepsAccumulate(s: Store, c: Command)
    requires RowsInv(s) && Admissible(s, c) && (c.DoAdmit? || c.DoRelease?)
    ensures StoreEvolves(s, Perform(s, c).store)
  {
    var s' := Perform(s, c).store;
    if s' != s {
      assert RowInv(s, c.d);
      if c.DoAdmit? { AdmitRewritesOneRow(s, c.d, c.holdId, c.hold, c.now); }
      else { ReleaseRewritesOneRow(s, c.d, c.holdId, c.release, c.now); }
      OneRowEvolves(s, s', c.d);
    }
  }

  lemma SaveAccumulates(s: Store, x: Document)
    requires RowsInv(s)
    ensures StoreEvolves(s, Save(s, x).store)
  {
    if x.documentId in s.docs { assert RowInv(s, x.documentId); }
  }

  lemma PurgeStepsAccumulate(s: Store, c: Command)
    requires RowsInv(s) && (c.DoBeginPurge? || c.DoMarkEligible? || c.DoMarkNotEligible? || c.DoComplete?
        || c.DoRefresh?)
    ensures StoreEvolves(s, Perform(s, c).store)
  {
    var s' := Perform(s, c).store;
    if c.d in s.docs {
      assert RowInv(s, c.d);
      if s' != s { OneRowEvolves(s, s', c.d); }
    }
  }

  lemma LinkAccumulates(s: Store, r: Relationship, now: Instant)
    requires Linkable(s, r)
    ensures StoreEvolves(s, Link(s, r, now))
  {
  }

  lemma TransitionsOnlyAccumulate(s: Store, c: Command)
    requires RowsInv(s) && Admissible(s, c)
    ensures StoreEvolves(s, Perform(s, c).store)
  {
    match c
    case DoApply(f, t, k, r, now) =>
      ApplyLinksOrLeaves(s, f, t, k, r, now);
      if Linkable(s, r) { LinkAccumulates(s, r, now); }
    case DoAdmit(_, _, _, _) => HoldStepsAccumulate(s, c);
    case DoRelease(_, _, _, _) => HoldStepsAccumulate(s, c);
    case DoSave(x) => SaveAccumulates(s, x);
    case _ => PurgeStepsAccumulate(s, c);
  }

  lemma EvolutionComposes(a: Store, b: Store, c: Store)
    requires StoreEvolves(a, b) && StoreEvolves(b, c)
    ensures StoreEvolves(a, c)
  {
    forall d | d in a.docs ensures DocumentEvolves(a, c, d) {
      assert DocumentEvolves(a, b, d) && DocumentEvolves(b, c, d);
    }
    forall h | h in a.holds ensures HoldRowEvolves(a, c, h) {
      assert HoldRowEvolves(a, b, h) && HoldRowEvolves(b, c, h);
    }
  }

  /** Even on a store that breaks every invariant above, an active hold row vetoes destruction
      and eligibility alike. */
  lemma HoldRowVetoesOnAnyStore(s: Store, d: DocumentId, at: Instant, now: Instant)
    requires d in s.docs && s.docs[d].purgeStartedAt.None? && ActiveHolds(s.holds, d) != {}
    ensures BeginPurge(s, d, at) == Answer(s, None)
    ensures MarkEligible(s, d, at, now) == Answer(s, None)
  {
    assert |ActiveHolds(s.holds, d)| != 0;
  }
}
