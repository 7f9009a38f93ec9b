/** The archive's records: documents, legal holds, lifecycle relationships, and the
    keyed store a repository keeps them in. */
module Records {

  datatype Option<+T> = None | Some(value: T)

  datatype Result<+T, +E> = Ok(value: T) | Err(error: E)

  type DocumentId = string
  type HoldId = string
  type StorageKey = string
  type Bytes = seq<bv8>
  /** An instant and a calendar day, counted from a fixed origin. */
  type Instant = int
  type Day = int

  datatype PurgeStatus = NotEligible | Eligible | Purged

  datatype HoldStatus = Clear | Active

  datatype TransitionKind = Supersede | Correct | Reissue

  datatype ArchiveError =
    | DocumentNotFound
    | SupersessionConflict
    | UnsupportedTransition
    | LegalHoldActive
    | LegalHoldNotFound
    | PurgeNotEligible
    | PurgeAlreadyStarted
    | DuplicateArchiveRequest
    | HistoricalIntegrity
    | InvalidArtifactFormat
    | DeclaredChecksumMismatch
    | ArtifactIdentityCollision
    | ChecksumMismatch
    | StorageFailure
    | RepositoryFailure

  /** What a caller supplies. `otherFields` holds the remaining fields by name; apart from
      the presence of a retention policy they take part in comparisons only. */
  datatype DocumentInput = DocumentInput(
    archiveRequestId: string,
    tenantId: string,
    region: string,
    reportType: string,
    outputFormat: string,
    mimeType: string,
    retainUntil: Option<Day>,
    documentReference: Option<string>,
    declaredSha256: Option<string>,
    otherFields: map<string, string>)

  datatype Document = Document(
    input: DocumentInput,
    documentId: DocumentId,
    storageKey: StorageKey,
    checksum: string,
    sizeBytes: nat,
    createdAt: Instant,
    updatedAt: Instant,
    purgeStatus: PurgeStatus,
    purgeEligibleAt: Option<Instant>,
    purgeStartedAt: Option<Instant>,
    purgedAt: Option<Instant>,
    holdStatus: HoldStatus,
    holdCount: nat,
    supersededBy: Option<DocumentId>,
    supersedes: Option<DocumentId>,
    correctionOf: Option<DocumentId>,
    reissueOf: Option<DocumentId>)

  /** A document as the writer first records it: no retention, hold or lifecycle history. */
  function NewDocument(input: DocumentInput, id: DocumentId, key: StorageKey,
                       checksum: string, size: nat, now: Instant): Document
  {
    Document(input, id, key, checksum, size, now, now,
             NotEligible, None, None, None, Clear, 0, None, None, None, None)
  }

  datatype Hold = Hold(
    documentId: DocumentId,
    status: HoldStatus,
    reason: string,
    authority: string,
    requestedBy: string,
    requestedAt: Instant,
    releasedBy: Option<string>,
    releasedAt: Option<Instant>,
    releaseReason: Option<string>)

  datatype Relationship = Relationship(
    id: string,
    source: DocumentId,
    target: DocumentId,
    kind: TransitionKind,
    reason: string,
    reasonCode: string,
    requestedBy: string,
    requestedAt: Instant)

  /** Why a caller asks for a lifecycle transition, and who the caller is. */
  datatype Grounds = Grounds(reason: string, actor: string)

  function ReasonCode(kind: TransitionKind): string {
    match kind
    case Supersede => "archive_document_supersession_requested"
    case Correct => "archive_document_correction_requested"
    case Reissue => "client_delivery_reissue_requested"
  }

  /** The rows the service hands to the repository. */
  function NewHold(d: DocumentId, reason: string, authority: string, actor: string, requestedAt: Instant): Hold {
    Hold(d, Active, reason, authority, actor, requestedAt, None, None, None)
  }

  function NewRelationship(id: string, source: DocumentId, target: DocumentId, kind: TransitionKind, grounds: Grounds,
                           requestedAt: Instant): Relationship
  {
    Relationship(id, source, target, kind, grounds.reason, ReasonCode(kind), grounds.actor, requestedAt)
  }

  /** The repository's four tables. Relationship rows are kept in insertion order. */
  datatype Store = Store(
    docs: map<DocumentId, Document>,
    byRequest: map<string, DocumentId>,
    holds: map<HoldId, Hold>,
    relationships: seq<Relationship>)

  const EMPTY_STORE := Store(map[], map[], map[], [])

  function ActiveHolds(holds: map<HoldId, Hold>, d: DocumentId): set<HoldId> {
    set h | h in holds && holds[h].documentId == d && holds[h].status == Active
  }

  /** The active holds of a document that a new request would repeat. */
  function MatchingHolds(holds: map<HoldId, Hold>, d: DocumentId, reason: string, authority: string): set<HoldId> {
    set h | h in ActiveHolds(holds, d) && holds[h].reason == reason && holds[h].authority == authority
  }

  /** The legacy and corrupted states the production writers refuse may still break this;
      every other module says which of these facts it needs. */
  ghost predicate SummaryAgrees(s: Store, d: DocumentId)
    requires d in s.docs
  {
    && s.docs[d].holdCount == |ActiveHolds(s.holds, d)|
    && (s.docs[d].holdStatus == Active <==> s.docs[d].holdCount > 0)
  }

  /** Everything about a document except the instant it was last touched. */
  function Untouched(x: Document): Document {
    x.(updatedAt := 0)
  }
}
