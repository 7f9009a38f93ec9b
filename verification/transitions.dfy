/** The repository contract as atomic steps on a store: what each guarded transition
    decides, and exactly which columns it writes. `InMemoryRepository` implements these
    one method each; the PostgreSQL transactions are proved to refine them. */
module Transitions {
  import opened Records

  datatype Answer<+T> = Answer(store: Store, value: T)

  // ---- lifecycle_transitions.py -------------------------------------------------

  function OriginField(x: Document, kind: TransitionKind): Option<DocumentId> {
    match kind
    case Supersede => x.supersedes
    case Correct => x.correctionOf
    case Reissue => x.reissueOf
  }

  function WithOrigin(x: Document, kind: TransitionKind, source: DocumentId): Document {
    match kind
    case Supersede => x.(supersedes := Some(source))
    case Correct => x.(correctionOf := Some(source))
    case Reissue => x.(reissueOf := Some(source))
  }

  function ExistingOrigin(x: Document): Option<DocumentId> {
    if x.supersedes.Some? then x.supersedes
    else if x.correctionOf.Some? then x.correctionOf
    else x.reissueOf
  }

  predicate PointersAgree(source: Document, target: Document, kind: TransitionKind) {
    && source.supersededBy == Some(target.documentId)
    && OriginField(target, kind) == Some(source.documentId)
  }

  function LifecycleRefusal(source: Document, target: Document): Option<ArchiveError> {
    if source.documentId == target.documentId then Some(UnsupportedTransition)
    else if source.purgeStatus == Purged || target.purgeStatus == Purged then Some(UnsupportedTransition)
    else if source.supersededBy.Some? then Some(SupersessionConflict)
    else if target.supersededBy.Some? then Some(SupersessionConflict)
    else if ExistingOrigin(target).Some? then Some(SupersessionConflict)
    else None
  }

  predicate RecordsTransition(r: Relationship, source: DocumentId, target: DocumentId, kind: TransitionKind) {
    r.source == source && r.target == target && r.kind == kind
  }

  function FindRelationship(rs: seq<Relationship>, source: DocumentId, target: DocumentId,
                            kind: TransitionKind): (r: Option<Relationship>)
    ensures r.Some? ==> r.value in rs && RecordsTransition(r.value, source, target, kind)
    ensures r.None? ==> forall x :: x in rs ==> !RecordsTransition(x, source, target, kind)
  {
    if rs == [] then None
    else if RecordsTransition(rs[0], source, target, kind) then Some(rs[0])
    else FindRelationship(rs[1..], source, target, kind)
  }

  // ---- the transitions ----------------------------------------------------------

  function Save(s: Store, x: Document): Answer<Result<Document, ArchiveError>> {
    var request := x.input.archiveRequestId;
    if request in s.byRequest && s.byRequest[request] != x.documentId then
      Answer(s, Err(DuplicateArchiveRequest))
    else if x.documentId in s.docs then
      var existing := s.docs[x.documentId];
      if Untouched(existing) != Untouched(x) then Answer(s, Err(HistoricalIntegrity))
      else Answer(s.(docs := s.docs[x.documentId := existing.(updatedAt := x.updatedAt)]),
                  Ok(existing.(updatedAt := x.updatedAt)))
    else
      Answer(s.(docs := s.docs[x.documentId := x], byRequest := s.byRequest[request := x.documentId]), Ok(x))
  }

  function BeginPurge(s: Store, d: DocumentId, startedAt: Instant): Answer<Option<Document>> {
    if d !in s.docs then Answer(s, None)
    else
      var existing := s.docs[d];
      if existing.purgeStartedAt.Some? then Answer(s, Some(existing))
      else if existing.holdStatus == Active then Answer(s, None)
      else if |ActiveHolds(s.holds, d)| != 0 then Answer(s, None)
      else
        var claimed := existing.(purgeStartedAt := Some(startedAt), updatedAt := startedAt);
        Answer(s.(docs := s.docs[d := claimed]), Some(claimed))
  }

  function AdmitHold(s: Store, d: DocumentId, id: HoldId, hold: Hold, now: Instant): Answer<Option<Document>> {
    if d !in s.docs || s.docs[d].purgeStartedAt.Some? then Answer(s, None)
    else
      var holds := s.holds[id := hold];
      var admitted := s.docs[d].(holdStatus := Active, holdCount := |ActiveHolds(holds, d)|, updatedAt := now);
      Answer(s.(docs := s.docs[d := admitted], holds := holds), Some(admitted))
  }

  function RefreshSummary(s: Store, d: DocumentId, now: Instant): Answer<Option<Document>> {
    if d !in s.docs then Answer(s, None)
    else
      var count := |ActiveHolds(s.holds, d)|;
      var status := if count != 0 then Active else Clear;
      if s.docs[d].holdStatus == status && s.docs[d].holdCount == count then Answer(s, Some(s.docs[d]))
      else
        var updated := s.docs[d].(holdStatus := status, holdCount := count, updatedAt := now);
        Answer(s.(docs := s.docs[d := updated]), Some(updated))
  }

  datatype Release = Release(actor: string, at: Instant, reason: string)

  function Released(hold: Hold, release: Release): Hold {
    if hold.status == Active then
      hold.(status := Clear, releasedBy := Some(release.actor), releasedAt := Some(release.at),
            releaseReason := Some(release.reason))
    else hold
  }

  function ReleaseHold(s: Store, d: DocumentId, id: HoldId, release: Release, now: Instant)
    : Answer<Option<(Hold, Document)>>
  {
    if d !in s.docs || id !in s.holds || s.holds[id].documentId != d then Answer(s, None)
    else
      var hold := Released(s.holds[id], release);
      var refreshed := RefreshSummary(s.(holds := s.holds[id := hold]), d, now);
      Answer(refreshed.store, Some((hold, refreshed.value.value)))
  }

  function MarkEligible(s: Store, d: DocumentId, eligibleAt: Instant, now: Instant): Answer<Option<Document>> {
    if d !in s.docs then Answer(s, None)
    else
      var existing := s.docs[d];
      if existing.purgeStartedAt.Some? || existing.purgeStatus == Purged then Answer(s, None)
      else if existing.holdStatus == Active then Answer(s, None)
      else if |ActiveHolds(s.holds, d)| != 0 then Answer(s, None)
      else
        var first := if existing.purgeEligibleAt.Some? then existing.purgeEligibleAt else Some(eligibleAt);
        var updated := existing.(purgeStatus := Eligible, purgeEligibleAt := first, updatedAt := now);
        Answer(s.(docs := s.docs[d := updated]), Some(updated))
  }

  function MarkNotEligible(s: Store, d: DocumentId, now: Instant): Answer<Option<Document>> {
    if d !in s.docs then Answer(s, None)
    else
      var existing := s.docs[d];
      if existing.purgeStartedAt.Some? || existing.purgeStatus == Purged then Answer(s, None)
      else if existing.purgeStatus == NotEligible then Answer(s, Some(existing))
      else
        var updated := existing.(purgeStatus := NotEligible, updatedAt := now);
        Answer(s.(docs := s.docs[d := updated]), Some(updated))
  }

  function CompletePurge(s: Store, d: DocumentId, purgedAt: Instant, now: Instant): Answer<Option<Document>> {
    if d !in s.docs || s.docs[d].purgeStartedAt.None? then Answer(s, None)
    else if s.docs[d].purgeStatus == Purged then Answer(s, Some(s.docs[d]))
    else
      var updated := s.docs[d].(purgeStatus := Purged, purgedAt := Some(purgedAt), updatedAt := now);
      Answer(s.(docs := s.docs[d := updated]), Some(updated))
  }

  datatype Linked = Linked(relationship: Relationship, source: Document, target: Document)

  function ApplyTransition(s: Store, source: DocumentId, target: DocumentId, kind: TransitionKind,
                           relationship: Relationship, now: Instant): Answer<Result<Linked, ArchiveError>>
  {
    if source !in s.docs || target !in s.docs then Answer(s, Err(DocumentNotFound))
    else
      var from, to := s.docs[source], s.docs[target];
      var recorded := FindRelationship(s.relationships, source, target, kind);
      if PointersAgree(from, to, kind) && recorded.Some? then
        Answer(s, Ok(Linked(recorded.value, from, to)))
      else
        match LifecycleRefusal(from, to)
        case Some(error) => Answer(s, Err(error))
        case None =>
          var from' := from.(supersededBy := Some(target), updatedAt := now);
          var to' := WithOrigin(to, kind, source).(updatedAt := now);
          Answer(s.(docs := s.docs[source := from'][target := to'],
                    relationships := s.relationships + [relationship]),
                 Ok(Linked(relationship, from', to')))
  }

  // ---- one vocabulary for all of them -------------------------------------------

  datatype Command =
    | DoSave(document: Document)
    | DoBeginPurge(d: DocumentId, startedAt: Instant)
    | DoAdmit(d: DocumentId, holdId: HoldId, hold: Hold, now: Instant)
    | DoRelease(d: DocumentId, holdId: HoldId, release: Release, now: Instant)
    | DoRefresh(d: DocumentId, now: Instant)
    | DoMarkEligible(d: DocumentId, eligibleAt: Instant, now: Instant)
    | DoMarkNotEligible(d: DocumentId, now: Instant)
    | DoComplete(d: DocumentId, purgedAt: Instant, now: Instant)
    | DoApply(source: DocumentId, target: DocumentId, kind: TransitionKind, relationship: Relationship, now: Instant)

  datatype Reply =
    | SaveReply(saved: Result<Document, ArchiveError>)
    | DocumentReply(document: Option<Document>)
    | ReleaseReply(released: Option<(Hold, Document)>)
    | LinkReply(linked: Result<Linked, ArchiveError>)

  function Perform(s: Store, c: Command): Answer<Reply> {
    match c
    case DoSave(x) => var a := Save(s, x); Answer(a.store, SaveReply(a.value))
    case DoBeginPurge(d, at) => var a := BeginPurge(s, d, at); Answer(a.store, DocumentReply(a.value))
    case DoAdmit(d, id, h, now) => var a := AdmitHold(s, d, id, h, now); Answer(a.store, DocumentReply(a.value))
    case DoRelease(d, id, r, now) => var a := ReleaseHold(s, d, id, r, now); Answer(a.store, ReleaseReply(a.value))
    case DoRefresh(d, now) => var a := RefreshSummary(s, d, now); Answer(a.store, DocumentReply(a.value))
    case DoMarkEligible(d, at, now) => var a := MarkEligible(s, d, at, now); Answer(a.store, DocumentReply(a.value))
    case DoMarkNotEligible(d, now) => var a := MarkNotEligible(s, d, now); Answer(a.store, DocumentReply(a.value))
    case DoComplete(d, at, now) => var a := CompletePurge(s, d, at, now); Answer(a.store, DocumentReply(a.value))
    case DoApply(f, t, k, r, now) => var a := ApplyTransition(s, f, t, k, r, now); Answer(a.store, LinkReply(a.value))
  }

  /** What the production callers hand over: fresh identifiers, an active hold row for
      the named document, a relationship row for the named transition, and either a newly
      archived document or one the store already holds. */
  ghost predicate Admissible(s: Store, c: Command) {
    match c
    case DoSave(x) =>
      x.documentId in s.docs
      || x == NewDocument(x.input, x.documentId, x.storageKey, x.checksum, x.sizeBytes, x.createdAt)
    case DoAdmit(d, id, h, _) => id !in s.holds && h.documentId == d && h.status == Active
    case DoApply(f, t, k, r, _) => RecordsTransition(r, f, t, k) && (forall x :: x in s.relationships ==> x.id != r.id)
    case _ => true
  }
}
