/** `InMemoryArchiveDocumentRepository`: four tables that only the guarded transitions change. */
module Repository {
  import opened Records
  import opened Transitions

  class InMemoryRepository {
    var byDocumentId: map<DocumentId, Document>
    var byArchiveRequestId: map<string, DocumentId>
    var legalHolds: map<HoldId, Hold>
    var lifecycleRelationships: seq<Relationship>

    ghost function State(): Store
      reads this
    {
      Store(byDocumentId, byArchiveRequestId, legalHolds, lifecycleRelationships)
    }

    constructor ()
      ensures State() == EMPTY_STORE
    {
      byDocumentId, byArchiveRequestId, legalHolds, lifecycleRelationships := map[], map[], map[], [];
    }

    method GetByDocumentId(d: DocumentId) returns (x: Option<Document>)
      ensures x.Some? <==> d in State().docs
      ensures x.Some? ==> x.value == State().docs[d]
    {
      x := if d in byDocumentId then Some(byDocumentId[d]) else None;
    }

    method ActiveHoldCount(d: DocumentId) returns (count: nat)
      ensures count == |ActiveHolds(State().holds, d)|
    {
      count := 0;
      var remaining := legalHolds.Keys;
      ghost var counted := {};
      while remaining != {}
        invariant remaining <= legalHolds.Keys
        invariant counted == set h | h in ActiveHolds(legalHolds, d) && h !in remaining
        invariant count == |counted|
        decreases remaining
      {
        var h :| h in remaining;
        remaining := remaining - {h};
        if legalHolds[h].documentId == d && legalHolds[h].status == Active {
          count := count + 1;
          counted := counted + {h};
        }
      }
      assert counted == ActiveHolds(legalHolds, d);
    }

    method FindRecorded(source: DocumentId, target: DocumentId, kind: TransitionKind) returns (r: Option<Relationship>)
      ensures r == FindRelationship(State().relationships, source, target, kind)
    {
      var i := 0;
      while i < |lifecycleRelationships|
        invariant 0 <= i <= |lifecycleRelationships|
        invariant FindRelationship(lifecycleRelationships, source, target, kind)
                  == FindRelationship(lifecycleRelationships[i..], source, target, kind)
      {
        if RecordsTransition(lifecycleRelationships[i], source, target, kind) {
          return Some(lifecycleRelationships[i]);
        }
        assert lifecycleRelationships[i..][1..] == lifecycleRelationships[i + 1..];
        i := i + 1;
      }
      r := None;
    }

    method Save(x: Document) returns (saved: Result<Document, ArchiveError>)
      modifies this
      ensures Answer(State(), saved) == Transitions.Save(old(State()), x)
    {
      var request := x.input.archiveRequestId;
      if request in byArchiveRequestId && byArchiveRequestId[request] != x.documentId {
        return Err(DuplicateArchiveRequest);
      }
      if x.documentId in byDocumentId {
        var existing := byDocumentId[x.documentId];
        if Untouched(existing) != Untouched(x) {
          return Err(HistoricalIntegrity);
        }
        var touched := existing.(updatedAt := x.updatedAt);
        byDocumentId := byDocumentId[x.documentId := touched];
        return Ok(touched);
      }
      byDocumentId := byDocumentId[x.documentId := x];
      byArchiveRequestId := byArchiveRequestId[request := x.documentId];
      saved := Ok(x);
    }

    method BeginPurge(d: DocumentId, startedAt: Instant) returns (claimed: Option<Document>)
      modifies this
      ensures Answer(State(), claimed) == Transitions.BeginPurge(old(State()), d, startedAt)
    {
      if d !in byDocumentId { return None; }
      var existing := byDocumentId[d];
      if existing.purgeStartedAt.Some? { return Some(existing); }
      if existing.holdStatus == Active { return None; }
      var rows := ActiveHoldCount(d);
      if rows != 0 { return None; }
      var updated := existing.(purgeStartedAt := Some(startedAt), updatedAt := startedAt);
      byDocumentId := byDocumentId[d := updated];
      claimed := Some(updated);
    }

    method AdmitAndRecordLegalHold(d: DocumentId, id: HoldId, hold: Hold,
                                   now: Instant) returns (admitted: Option<Document>)
      modifies this
      ensures Answer(State(), admitted) == AdmitHold(old(State()), d, id, hold, now)
    {
      if d !in byDocumentId || byDocumentId[d].purgeStartedAt.Some? { return None; }
      legalHolds := legalHolds[id := hold];
      var rows := ActiveHoldCount(d);
      var updated := byDocumentId[d].(holdStatus := Active, holdCount := rows, updatedAt := now);
      byDocumentId := byDocumentId[d := updated];
      admitted := Some(updated);
    }

    method RefreshLegalHoldSummary(d: DocumentId, now: Instant) returns (refreshed: Option<Document>)
      modifies this
      ensures Answer(State(), refreshed) == RefreshSummary(old(State()), d, now)
    {
      if d !in byDocumentId { return None; }
      var existing := byDocumentId[d];
      var rows := ActiveHoldCount(d);
      var status := if rows != 0 then Active else Clear;
      if existing.holdStatus == status && existing.holdCount == rows { return Some(existing); }
      var updated := existing.(holdStatus := status, holdCount := rows, updatedAt := now);
      byDocumentId := byDocumentId[d := updated];
      refreshed := Some(updated);
    }

    method ReleaseAndRecordLegalHold(d: DocumentId, id: HoldId, release: Release, now: Instant)
      returns (released: Option<(Hold, Document)>)
      modifies this
      ensures Answer(State(), released) == ReleaseHold(old(State()), d, id, release, now)
    {
      if d !in byDocumentId || id !in legalHolds || legalHolds[id].documentId != d { return None; }
      var hold := legalHolds[id];
      if hold.status == Active {
        hold := hold.(status := Clear, releasedBy := Some(release.actor), releasedAt := Some(release.at),
                      releaseReason := Some(release.reason));
        legalHolds := legalHolds[id := hold];
      }
      assert legalHolds == old(legalHolds)[id := hold];
      var metadata := RefreshLegalHoldSummary(d, now);
      released := Some((hold, metadata.value));
    }

    method MarkPurgeEligible(d: DocumentId, eligibleAt: Instant, now: Instant) returns (granted: Option<Document>)
      modifies this
      ensures Answer(State(), granted) == MarkEligible(old(State()), d, eligibleAt, now)
    {
      if d !in byDocumentId { return None; }
      var existing := byDocumentId[d];
      if existing.purgeStartedAt.Some? || existing.purgeStatus == Purged { return None; }
      if existing.holdStatus == Active { return None; }
      var rows := ActiveHoldCount(d);
      if rows != 0 { return None; }
      var first := if existing.purgeEligibleAt.Some? then existing.purgeEligibleAt else Some(eligibleAt);
      var updated := existing.(purgeStatus := Eligible, purgeEligibleAt := first, updatedAt := now);
      byDocumentId := byDocumentId[d := updated];
      granted := Some(updated);
    }

    method MarkPurgeNotEligible(d: DocumentId, now: Instant) returns (withdrawn: Option<Document>)
      modifies this
      ensures Answer(State(), withdrawn) == MarkNotEligible(old(State()), d, now)
    {
      if d !in byDocumentId { return None; }
      var existing := byDocumentId[d];
      if existing.purgeStartedAt.Some? || existing.purgeStatus == Purged { return None; }
      if existing.purgeStatus == NotEligible { return Some(existing); }
      var updated := existing.(purgeStatus := NotEligible, updatedAt := now);
      byDocumentId := byDocumentId[d := updated];
      withdrawn := Some(updated);
    }

    method CompletePurge(d: DocumentId, purgedAt: Instant, now: Instant) returns (completed: Option<Document>)
      modifies this
      ensures Answer(State(), completed) == Transitions.CompletePurge(old(State()), d, purgedAt, now)
    {
      if d !in byDocumentId || byDocumentId[d].purgeStartedAt.None? { return None; }
      var existing := byDocumentId[d];
      if existing.purgeStatus == Purged { return Some(existing); }
      var updated := existing.(purgeStatus := Purged, purgedAt := Some(purgedAt), updatedAt := now);
      byDocumentId := byDocumentId[d := updated];
      completed := Some(updated);
    }

    method ApplyLifecycleTransition(source: DocumentId, target: DocumentId, kind: TransitionKind,
                                    relationship: Relationship, now: Instant)
      returns (linked: Result<Linked, ArchiveError>)
      modifies this
      ensures Answer(State(), linked) == ApplyTransition(old(State()), source, target, kind, relationship, now)
    {
      if source !in byDocumentId || target !in byDocumentId { return Err(DocumentNotFound); }
      var from, to := byDocumentId[source], byDocumentId[target];
      if PointersAgree(from, to, kind) {
        var recorded := FindRecorded(source, target, kind);
        if recorded.Some? { return Ok(Linked(recorded.value, from, to)); }
      }
      var refusal := LifecycleRefusal(from, to);
      if refusal.Some? { return Err(refusal.value); }
      from := from.(supersededBy := Some(target), updatedAt := now);
      to := WithOrigin(to, kind, source).(updatedAt := now);
      byDocumentId := byDocumentId[source := from][target := to];
      lifecycleRelationships := lifecycleRelationships + [relationship];
      linked := Ok(Linked(relationship, from, to));
    }
  }
}
