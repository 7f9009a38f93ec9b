/** What each guarded transition answers and writes, stated of the rows and not of the
    functions: exactly when it succeeds, which columns it sets to what, and that every other
    column, row and table is left alone. */
module TransitionLaws {
  import opened Records
  import opened Transitions
  import opened CustodyInvariants

  ghost predicate NoActiveRow(s: Store, d: DocumentId) {
    forall h :: h in s.holds && s.holds[h].documentId == d ==> s.holds[h].status == Clear
  }

  lemma CountsActiveRows(s: Store, d: DocumentId)
    ensures |ActiveHolds(s.holds, d)| == 0 <==> NoActiveRow(s, d)
  {
    assert |ActiveHolds(s.holds, d)| == 0 <==> ActiveHolds(s.holds, d) == {};
    if !NoActiveRow(s, d) {
      var h :| h in s.holds && s.holds[h].documentId == d && s.holds[h].status != Clear;
      assert h in ActiveHolds(s.holds, d);
    }
  }

  // ---- saving -------------------------------------------------------------------

  /** A save succeeds for a document nobody else's request owns, if it is new or differs from
      its record in `updated_at` alone; it then records the document as given. */
  lemma SavingIsExact(s: Store, x: Document)
    ensures var a := Save(s, x);
            var request, id := x.input.archiveRequestId, x.documentId;
            var owned := request in s.byRequest && s.byRequest[request] != id;
            && (a.value == Err(DuplicateArchiveRequest) <==> owned)
            && (a.value == Err(HistoricalIntegrity) <==>
                  !owned && id in s.docs && s.docs[id] != x.(updatedAt := s.docs[id].updatedAt))
            && (a.value.Err? ==> a.store == s && a.value.error in {DuplicateArchiveRequest, HistoricalIntegrity})
            && (a.value.Ok? ==>
                  && a.value.value == x && id in a.store.docs && a.store.docs[id] == x
                  && a.store.docs == s.docs[id := x]
                  && a.store.holds == s.holds && a.store.relationships == s.relationships
                  && a.store.byRequest == (if id in s.docs then s.byRequest else s.byRequest[request := id]))
  {
  }

  // ---- destruction --------------------------------------------------------------

  /** A claim is granted when an intent exists already, and then changes nothing, or when the
      document shows no active hold, neither in its summary nor in any row; it then records
      the instant given, once. */
  lemma ClaimingIsExact(s: Store, d: DocumentId, startedAt: Instant)
    ensures var a := BeginPurge(s, d, startedAt);
            && (a.value.Some? <==>
                  && d in s.docs
                  && (s.docs[d].purgeStartedAt.Some? || (s.docs[d].holdStatus == Clear && NoActiveRow(s, d))))
            && (a.value.None? ==> a.store == s)
            && (a.value.Some? ==> d in a.store.docs && a.value.value == a.store.docs[d])
            && (a.value.Some? && s.docs[d].purgeStartedAt.Some? ==> a.store == s)
            && (a.value.Some? && s.docs[d].purgeStartedAt.None? ==>
                  var x, x' := s.docs[d], a.store.docs[d];
                  && OnlyRow(s, a.store, d) && x'.purgeStartedAt == Some(startedAt) && x'.updatedAt == startedAt
                  && x'.(purgeStartedAt := x.purgeStartedAt, updatedAt := x.updatedAt) == x)
  {
    CountsActiveRows(s, d);
  }

  lemma GrantingIsExact(s: Store, d: DocumentId, eligibleAt: Instant, now: Instant)
    ensures var a := MarkEligible(s, d, eligibleAt, now);
            && (a.value.Some? <==>
                  && d in s.docs && s.docs[d].purgeStartedAt.None? && s.docs[d].purgeStatus != Purged
                  && s.docs[d].holdStatus == Clear && NoActiveRow(s, d))
            && (a.value.None? ==> a.store == s)
            && (a.value.Some? ==>
                  var x := s.docs[d];
                  && OnlyRow(s, a.store, d) && a.value.value == a.store.docs[d]
                  && var x' := a.store.docs[d];
                     && x'.purgeStatus == Eligible && x'.updatedAt == now
                     && (x.purgeEligibleAt.Some? ==> x'.purgeEligibleAt == x.purgeEligibleAt)
                     && (x.purgeEligibleAt.None? ==> x'.purgeEligibleAt == Some(eligibleAt))
                     && x'.(purgeStatus := x.purgeStatus, purgeEligibleAt := x.purgeEligibleAt,
                            updatedAt := x.updatedAt) == x)
  {
    CountsActiveRows(s, d);
  }

  lemma WithdrawingIsExact(s: Store, d: DocumentId, now: Instant)
    ensures var a := MarkNotEligible(s, d, now);
            && (a.value.Some? <==> d in s.docs && s.docs[d].purgeStartedAt.None? && s.docs[d].purgeStatus != Purged)
            && (a.value.None? ==> a.store == s)
            && (a.value.Some? && s.docs[d].purgeStatus == NotEligible ==> a.store == s && a.value.value == s.docs[d])
            && (a.value.Some? && s.docs[d].purgeStatus == Eligible ==>
                  var x := s.docs[d];
                  && OnlyRow(s, a.store, d) && a.value.value == a.store.docs[d]
                  && var x' := a.store.docs[d];
                     && x'.purgeStatus == NotEligible && x'.updatedAt == now
                     && x'.(purgeStatus := x.purgeStatus, updatedAt := x.updatedAt) == x)
  {
  }

  lemma CompletingIsExact(s: Store, d: DocumentId, purgedAt: Instant, now: Instant)
    ensures var a := CompletePurge(s, d, purgedAt, now);
            && (a.value.Some? <==> d in s.docs && s.docs[d].purgeStartedAt.Some?)
            && (a.value.None? ==> a.store == s)
            && (a.value.Some? && s.docs[d].purgeStatus == Purged ==> a.store == s && a.value.value == s.docs[d])
            && (a.value.Some? && s.docs[d].purgeStatus != Purged ==>
                  var x := s.docs[d];
                  && OnlyRow(s, a.store, d) && a.value.value == a.store.docs[d]
                  && var x' := a.store.docs[d];
                     && x'.purgeStatus == Purged && x'.purgedAt == Some(purgedAt) && x'.updatedAt == now
                     && x'.(purgeStatus := x.purgeStatus, purgedAt := x.purgedAt, updatedAt := x.updatedAt) == x)
  {
  }

  // ---- holds --------------------------------------------------------------------

  /** The summary columns of a row state what its hold rows are, and no other column moved. */
  ghost predicate Recounted(s: Store, s': Store, d: DocumentId)
    requires d in s.docs
  {
    && d in s'.docs && SummaryAgrees(s', d)
    && var x, x' := s.docs[d], s'.docs[d];
       x'.(holdStatus := x.holdStatus, holdCount := x.holdCount, updatedAt := x.updatedAt) == x
  }

  /** A hold is admitted unless the document is missing or its destruction has begun; its row
      is recorded as given. */
  lemma AdmittingIsExact(s: Store, d: DocumentId, id: HoldId, hold: Hold, now: Instant)
    requires id !in s.holds && hold.documentId == d && hold.status == Active
    ensures var a := AdmitHold(s, d, id, hold, now);
            && (a.value.Some? <==> d in s.docs && s.docs[d].purgeStartedAt.None?)
            && (a.value.None? ==> a.store == s)
            && (a.value.Some? ==>
                  && a.store.holds == s.holds[id := hold]
                  && Recounted(s, a.store, d) && a.value.value == a.store.docs[d]
                  && OnlyRow(s.(holds := a.store.holds), a.store, d)
                  && a.store.docs[d].holdStatus == Active && a.store.docs[d].updatedAt == now)
  {
    AdmittedHolds(s.holds, id, hold, d);
  }

  lemma RefreshingIsExact(s: Store, d: DocumentId, now: Instant)
    ensures var a := RefreshSummary(s, d, now);
            && (a.value.Some? <==> d in s.docs)
            && (a.value.None? ==> a.store == s)
            && (a.value.Some? ==>
                  && OnlyRow(s, a.store, d) && Recounted(s, a.store, d) && a.value.value == a.store.docs[d]
                  && (SummaryAgrees(s, d) ==> a.store == s)
                  && (!SummaryAgrees(s, d) ==> a.store.docs[d].updatedAt == now))
  {
    if d in s.docs { assert s.docs[d := s.docs[d]] == s.docs; }
  }

  /** What a released row records: the caller's actor, instant and reason; everything the
      request recorded stays. */
  ghost predicate ReleasedBy(x: Hold, y: Hold, actor: string, at: Instant, reason: string) {
    && y.status == Clear && y.releasedBy == Some(actor) && y.releasedAt == Some(at) && y.releaseReason == Some(reason)
    && y.documentId == x.documentId && y.reason == x.reason && y.authority == x.authority
    && y.requestedBy == x.requestedBy && y.requestedAt == x.requestedAt
  }

  /** A release finds the hold of this document or refuses; an active row is released with
      the caller's facts, a released one keeps the facts of its first release. */
  lemma ReleasingIsExact(s: Store, d: DocumentId, id: HoldId, release: Release, now: Instant)
    ensures var a := ReleaseHold(s, d, id, release, now);
            && (a.value.Some? <==> d in s.docs && id in s.holds && s.holds[id].documentId == d)
            && (a.value.None? ==> a.store == s)
            && (a.value.Some? ==>
                  && id in a.store.holds && a.value.value == (a.store.holds[id], a.store.docs[d])
                  && a.store.holds == s.holds[id := a.store.holds[id]]
                  && (s.holds[id].status == Active ==>
                        ReleasedBy(s.holds[id], a.store.holds[id], release.actor, release.at, release.reason))
                  && (s.holds[id].status == Clear ==> a.store.holds == s.holds)
                  && OnlyRow(s.(holds := a.store.holds), a.store, d) && Recounted(s, a.store, d))
  {
    if d in s.docs && id in s.holds && s.holds[id].documentId == d {
      RefreshingIsExact(s.(holds := s.holds[id := Released(s.holds[id], release)]), d, now);
      assert s.holds[id].status == Clear ==> s.holds[id := s.holds[id]] == s.holds;
    }
  }

  /** An active row as its request wrote it: the caller's words, and no release. */
  ghost predicate RequestedBy(x: Hold, d: DocumentId, reason: string, authority: string, actor: string, at: Instant) {
    && x.documentId == d && x.status == Active && x.reason == reason && x.authority == authority
    && x.requestedBy == actor && x.requestedAt == at
    && x.releasedBy.None? && x.releasedAt.None? && x.releaseReason.None?
  }

  // ---- lifecycle transitions ----------------------------------------------------

  /** A relationship row as its caller asked for it, with the reason code of its kind. */
  ghost predicate Requests(r: Relationship, id: string, source: DocumentId, target: DocumentId, kind: TransitionKind,
                           why: Grounds, at: Instant)
  {
    && r.id == id && r.source == source && r.target == target && r.kind == kind
    && r.reason == why.reason && r.requestedBy == why.actor && r.requestedAt == at
    && r.reasonCode == (match kind
                        case Supersede => "archive_document_supersession_requested"
                        case Correct => "archive_document_correction_requested"
                        case Reissue => "client_delivery_reissue_requested")
  }

  /** The origin field each kind of transition writes, and the two it leaves alone. */
  ghost predicate OriginRecorded(x: Document, x': Document, kind: TransitionKind, source: DocumentId) {
    match kind
    case Supersede => x'.supersedes == Some(source) && x'.correctionOf == x.correctionOf && x'.reissueOf == x.reissueOf
    case Correct => x'.correctionOf == Some(source) && x'.supersedes == x.supersedes && x'.reissueOf == x.reissueOf
    case Reissue => x'.reissueOf == Some(source) && x'.supersedes == x.supersedes && x'.correctionOf == x.correctionOf
  }

  /** Two documents a transition may link: different, neither purged, neither superseded, the
      target without an origin of any kind. */
  ghost predicate MayLink(s: Store, source: DocumentId, target: DocumentId) {
    && source in s.docs && target in s.docs && source != target
    && s.docs[source].purgeStatus != Purged && s.docs[target].purgeStatus != Purged
    && s.docs[source].supersededBy.None? && s.docs[target].supersededBy.None?
    && s.docs[target].supersedes.None? && s.docs[target].correctionOf.None? && s.docs[target].reissueOf.None?
  }

  ghost predicate Recorded(s: Store, source: DocumentId, target: DocumentId, kind: TransitionKind) {
    exists r :: r in s.relationships && r.source == source && r.target == target && r.kind == kind
  }

  /** On a sound store a transition succeeds exactly when it is recorded already, and then
      changes nothing, or when its documents may be linked; each refusal has its condition. */
  lemma LinkingIsExact(s: Store, source: DocumentId, target: DocumentId, kind: TransitionKind, r: Relationship,
                       now: Instant)
    requires StoreInv(s)
    ensures var a := ApplyTransition(s, source, target, kind, r, now);
            var recorded := Recorded(s, source, target, kind);
            && (a.value.Ok? <==> recorded || MayLink(s, source, target))
            && (a.value == Err(DocumentNotFound) <==> source !in s.docs || target !in s.docs)
            && (a.value == Err(UnsupportedTransition) <==>
                  && source in s.docs && target in s.docs && !recorded
                  && (source == target || s.docs[source].purgeStatus == Purged || s.docs[target].purgeStatus == Purged))
            && (a.value.Err? ==> a.value.error in {DocumentNotFound, UnsupportedTransition, SupersessionConflict})
            && (a.value.Err? || recorded ==> a.store == s)
  {
    RecordedExist(s, source, target, kind);
    if source in s.docs && target in s.docs {
      assert RowInv(s, source) && RowInv(s, target);
      RecordedIsReplayed(s, source, target, kind);
    }
  }

  lemma RecordedExist(s: Store, source: DocumentId, target: DocumentId, kind: TransitionKind)
    requires StoreInv(s)
    ensures Recorded(s, source, target, kind) ==> source in s.docs && target in s.docs
  {
    if r :| r in s.relationships && r.source == source && r.target == target && r.kind == kind {
      assert Describes(s, r);
    }
  }

  /** On a sound store the pointers agree exactly where a row is recorded, and then the
      documents could not be linked again. */
  lemma RecordedIsReplayed(s: Store, source: DocumentId, target: DocumentId, kind: TransitionKind)
    requires StoreInv(s) && source in s.docs && target in s.docs
    ensures Recorded(s, source, target, kind) <==>
              PointersAgree(s.docs[source], s.docs[target], kind)
              && FindRelationship(s.relationships, source, target, kind).Some?
    ensures Recorded(s, source, target, kind) ==> !MayLink(s, source, target)
  {
    if r :| r in s.relationships && r.source == source && r.target == target && r.kind == kind {
      assert Describes(s, r) && RecordsTransition(r, source, target, kind);
    }
  }

  /** A transition that changes the store links two documents that may be linked, records
      exactly the row it was given, and writes three pointers' worth of columns. */
  lemma LinkingWritesExactly(s: Store, source: DocumentId, target: DocumentId, kind: TransitionKind, r: Relationship,
                             now: Instant)
    requires StoreInv(s) && MayLink(s, source, target)
    ensures var a := ApplyTransition(s, source, target, kind, r, now);
            var s' := a.store;
            && source in s'.docs && target in s'.docs
            && s'.docs == s.docs[source := s'.docs[source]][target := s'.docs[target]]
            && s'.relationships == s.relationships + [r] && s'.holds == s.holds && s'.byRequest == s.byRequest
            && a.value == Ok(Linked(r, s'.docs[source], s'.docs[target]))
            && var from, from', to, to' := s.docs[source], s'.docs[source], s.docs[target], s'.docs[target];
               && from'.supersededBy == Some(target) && from'.updatedAt == now
               && from'.(supersededBy := from.supersededBy, updatedAt := from.updatedAt) == from
               && OriginRecorded(to, to', kind, source) && to'.updatedAt == now
               && to'.(supersedes := to.supersedes, correctionOf := to.correctionOf, reissueOf := to.reissueOf,
                       updatedAt := to.updatedAt) == to
  {
    assert RowInv(s, source) && RowInv(s, target);
  }

  /** No relationship row is ever added for a document that is purged at that moment. */
  lemma RowsAreNeverAddedForPurged(s: Store, c: Command)
    requires StoreInv(s) && Admissible(s, c) && Perform(s, c).store.relationships != s.relationships
    ensures c.DoApply? && MayLink(s, c.source, c.target)
    ensures Perform(s, c).store.relationships == s.relationships + [c.relationship]
    ensures c.relationship.source == c.source && c.relationship.target == c.target
  {
    if c.DoApply? { LinkingIsExact(s, c.source, c.target, c.kind, c.relationship, c.now); }
  }
}
