/** `ArchiveWriter`: a delivery is recorded once, its redelivery answers the original record
    for the rest of the document's life, and a failed delivery leaves nothing behind. */
module ArchiveWriters {
  import opened Records
  import opened Transitions
  import opened CustodyInvariants
  import opened Histories
  import opened Platforms
  import opened CustodyThreads
  import Repository
  import Storage

  datatype World = World(store: Store, objects: map<StorageKey, Bytes>)

  /** `fault` is a failure raised after the bytes were stored: metadata that does not
      validate, or a repository that is down. */
  datatype Delivery = Delivery(input: DocumentInput, content: Bytes, minted: DocumentId, now: Instant,
                               fault: Option<ArchiveError>)

  datatype Delivered = Delivered(world: World, reply: Result<Document, ArchiveError>)

  function Recorded(s: Store, request: string): Option<Document> {
    if request in s.byRequest && s.byRequest[request] in s.docs then Some(s.docs[s.byRequest[request]]) else None
  }

  /** Why the writer refuses before looking for an earlier delivery. */
  function AdmissionRefusal(p: Platform, s: Store, v: Delivery): Option<ArchiveError> {
    var checksum := p.checksum(v.content);
    if !p.acceptsFormat(v.input.outputFormat, v.input.mimeType, v.content) then Some(InvalidArtifactFormat)
    else if v.input.declaredSha256.Some? && v.input.declaredSha256.value != checksum then Some(DeclaredChecksumMismatch)
    else if ReferenceCollides(s, checksum, v.input.documentReference) then Some(ArtifactIdentityCollision)
    else None
  }

  function ToRecord(p: Platform, v: Delivery): Document {
    NewDocument(v.input, v.minted, StorageKeyFor(p, v.input, v.minted), p.checksum(v.content), |v.content|, v.now)
  }

  function Deliver(p: Platform, unsafe: StorageKey -> bool, w: World, v: Delivery): Delivered {
    var key := StorageKeyFor(p, v.input, v.minted);
    var existing := Recorded(w.store, v.input.archiveRequestId);
    if AdmissionRefusal(p, w.store, v).Some? then Delivered(w, Err(AdmissionRefusal(p, w.store, v).value))
    else if existing.Some? then
      Delivered(w, if SameDelivery(existing.value, v.input, p.checksum(v.content), v.content) then Ok(existing.value)
                   else Err(DuplicateArchiveRequest))
    else if unsafe(key) then Delivered(w, Err(StorageFailure))
    else
      var put := w.objects[key := v.content];
      if v.fault.Some? then Delivered(World(w.store, put - {key}), Err(v.fault.value))
      else
        var saved := Save(w.store, ToRecord(p, v));
        Delivered(World(saved.store, if saved.value.Ok? then put else put - {key}), saved.value)
  }

  // ---- the program --------------------------------------------------------------

  class ArchiveWriter {
    const repository: Repository.InMemoryRepository
    const storage: Storage.ObjectStorage
    const platform: Platform

    ghost predicate Valid() {
      storage.checksum == platform.checksum
    }

    ghost function State(): World
      reads repository, storage
    {
      World(repository.State(), storage.objects)
    }

    constructor (repository: Repository.InMemoryRepository, storage: Storage.ObjectStorage, platform: Platform)
      requires storage.checksum == platform.checksum
      ensures Valid() && this.repository == repository && this.storage == storage && this.platform == platform
    {
      this.repository, this.storage, this.platform := repository, storage, platform;
    }

    /** The loop over the documents that hold the same bytes. */
    method HeldUnderAnotherReference(checksum: string, reference: Option<string>) returns (collides: bool)
      ensures collides == ReferenceCollides(repository.State(), checksum, reference)
    {
      if reference.None? { return false; }
      var docs := repository.byDocumentId;
      var remaining := docs.Keys;
      while remaining != {}
        invariant remaining <= docs.Keys
        invariant forall d :: d in docs && d !in remaining && docs[d].checksum == checksum ==>
                    docs[d].input.documentReference.None? || docs[d].input.documentReference == reference
        decreases remaining
      {
        var d :| d in remaining;
        var held := docs[d];
        var other := held.input.documentReference.Some? && held.input.documentReference != reference;
        if held.checksum == checksum && other { return true; }
        remaining := remaining - {d};
      }
      collides := false;
    }

    method Existing(request: string) returns (existing: Option<Document>)
      ensures existing == Recorded(repository.State(), request)
    {
      if request !in repository.byArchiveRequestId { return None; }
      existing := repository.GetByDocumentId(repository.byArchiveRequestId[request]);
    }

    method ArchiveDocument(v: Delivery) returns (reply: Result<Document, ArchiveError>)
      requires Valid()
      modifies repository, storage
      ensures Delivered(State(), reply) == Deliver(platform, storage.unsafe, old(State()), v)
    {
      if !platform.acceptsFormat(v.input.outputFormat, v.input.mimeType, v.content) {
        return Err(InvalidArtifactFormat);
      }
      var checksum := platform.checksum(v.content);
      if v.input.declaredSha256.Some? && v.input.declaredSha256.value != checksum {
        return Err(DeclaredChecksumMismatch);
      }
      var collides := HeldUnderAnotherReference(checksum, v.input.documentReference);
      if collides { return Err(ArtifactIdentityCollision); }
      var existing := Existing(v.input.archiveRequestId);
      if existing.Some? {
        if !SameDelivery(existing.value, v.input, checksum, v.content) { return Err(DuplicateArchiveRequest); }
        return Ok(existing.value);
      }
      var key := StorageKeyFor(platform, v.input, v.minted);
      var stored := storage.Put(key, v.content, checksum);
      if stored.Err? { return Err(stored.error); }
      if v.fault.Some? {
        var undone := storage.Delete(key);
        return Err(v.fault.value);
      }
      reply := repository.Save(ToRecord(platform, v));
      if reply.Err? {
        var undone := storage.Delete(key);
      }
    }
  }

  // ---- one artifact, one governed reference -------------------------------------

  ghost predicate Agree(s: Store, d: DocumentId, e: DocumentId)
    requires d in s.docs && e in s.docs
  {
    s.docs[d].checksum == s.docs[e].checksum
    && s.docs[d].input.documentReference.Some? && s.docs[e].input.documentReference.Some?
    ==> s.docs[d].input.documentReference == s.docs[e].input.documentReference
  }

  /** One checksum carries at most one document reference. */
  ghost predicate OneReference(s: Store) {
    forall d, e {:trigger Agree(s, d, e)} :: d in s.docs && e in s.docs ==> Agree(s, d, e)
  }

  lemma TransitionsKeepReferences(s: Store, c: Command)
    requires StoreInv(s) && Admissible(s, c) && OneReference(s) && !c.DoSave?
    ensures OneReference(Perform(s, c).store)
  {
    var s' := Perform(s, c).store;
    TransitionsOnlyAccumulate(s, c);
    assert s'.docs.Keys == s.docs.Keys;
    forall d, e | d in s'.docs && e in s'.docs ensures Agree(s', d, e) {
      assert Agree(s, d, e) && DocumentEvolves(s, s', d) && DocumentEvolves(s, s', e);
    }
  }

  lemma RecordingKeepsReferences(p: Platform, s: Store, v: Delivery)
    requires OneReference(s) && AdmissionRefusal(p, s, v).None? && v.minted !in s.docs
    ensures OneReference(Save(s, ToRecord(p, v)).store)
  {
    var s' := Save(s, ToRecord(p, v)).store;
    forall d, e | d in s'.docs && e in s'.docs ensures Agree(s', d, e) {
      if d in s.docs && e in s.docs { assert Agree(s, d, e); }
    }
  }

  /** Under that invariant the collision check never stands in the way of a redelivery. */
  lemma RedeliveriesDoNotCollide(p: Platform, s: Store, existing: DocumentId, v: Delivery)
    requires OneReference(s) && existing in s.docs
    requires SameDelivery(s.docs[existing], v.input, p.checksum(v.content), v.content)
    ensures !ReferenceCollides(s, p.checksum(v.content), v.input.documentReference)
  {
    forall d | d in s.docs && s.docs[d].checksum == p.checksum(v.content) && s.docs[d].input.documentReference.Some?
      && v.input.documentReference.Some?
      ensures s.docs[d].input.documentReference == v.input.documentReference
    { assert Agree(s, d, existing); }
  }

  // ---- histories of transitions, erasures and deliveries ------------------------

  datatype Event = Transition(command: Command) | Erase(key: StorageKey) | Arrives(delivery: Delivery)

  /** The archive and, as history, every identifier minted for a delivery. */
  datatype Past = Past(world: World, minted: set<DocumentId>)

  const NOTHING_YET := Past(World(EMPTY_STORE, map[]), {})

  function Happen(p: Platform, unsafe: StorageKey -> bool, h: Past, e: Event): Past {
    match e
    case Transition(c) => h.(world := h.world.(store := Perform(h.world.store, c).store))
    case Erase(key) => h.(world := h.world.(objects := h.world.objects - {key}))
    case Arrives(v) => Past(Deliver(p, unsafe, h.world, v).world, h.minted + {v.minted})
  }

  /** Writer calls do not overlap, saves come from the writer only, identifiers are new. */
  ghost predicate Expected(h: Past, e: Event) {
    match e
    case Transition(c) => !c.DoSave? && Admissible(h.world.store, c)
    case Erase(_) => true
    case Arrives(v) => PlainId(v.minted) && v.minted !in h.minted
  }

  ghost function HappenAll(p: Platform, unsafe: StorageKey -> bool, h: Past, es: seq<Event>): Past
    decreases |es|
  {
    if es == [] then h else HappenAll(p, unsafe, Happen(p, unsafe, h, es[0]), es[1..])
  }

  ghost predicate ExpectedAll(p: Platform, unsafe: StorageKey -> bool, h: Past, es: seq<Event>)
    decreases |es|
  {
    es == [] || (Expected(h, es[0]) && ExpectedAll(p, unsafe, Happen(p, unsafe, h, es[0]), es[1..]))
  }

  ghost predicate WorldInv(w: World) {
    StoreInv(w.store) && OneReference(w.store)
  }

  /** Every stored key was built from an identifier minted for some delivery. */
  ghost predicate KeyMinted(p: Platform, h: Past, key: StorageKey) {
    exists id :: id in h.minted && PlainId(id) && KeyNames(p, key, id)
  }

  ghost predicate PastInv(p: Platform, h: Past) {
    && WorldInv(h.world) && h.world.store.docs.Keys <= h.minted
    && forall key {:trigger KeyMinted(p, h, key)} :: key in h.world.objects ==> KeyMinted(p, h, key)
  }

  /** Neither a document nor a stored object carries the delivery's identifier. */
  ghost predicate Unused(p: Platform, w: World, v: Delivery) {
    v.minted !in w.store.docs && StorageKeyFor(p, v.input, v.minted) !in w.objects
  }

  lemma NewIdsAreUnused(p: Platform, h: Past, v: Delivery)
    requires PastInv(p, h) && Expected(h, Arrives(v))
    ensures Unused(p, h.world, v)
  {
    var key := StorageKeyFor(p, v.input, v.minted);
    if key in h.world.objects {
      assert KeyMinted(p, h, key);
      var id :| id in h.minted && PlainId(id) && KeyNames(p, key, id);
      var input :| key == StorageKeyFor(p, input, id);
      StorageKeysNameOneDocument(p, input, id, v.input, v.minted);
    }
  }

  lemma DeliveryKeeps(p: Platform, unsafe: StorageKey -> bool, w: World, v: Delivery)
    requires WorldInv(w) && v.minted !in w.store.docs
    ensures var w' := Deliver(p, unsafe, w, v).world; WorldInv(w') && StoreEvolves(w.store, w'.store)
  {
    StoreIsItself(w.store);
    if Deliver(p, unsafe, w, v).world.store != w.store {
      TransitionsKeepInvariants(w.store, DoSave(ToRecord(p, v)));
      TransitionsOnlyAccumulate(w.store, DoSave(ToRecord(p, v)));
      RecordingKeepsReferences(p, w.store, v);
    }
  }

  lemma DeliveryKeepsKeys(p: Platform, unsafe: StorageKey -> bool, h: Past, v: Delivery)
    requires PastInv(p, h) && Expected(h, Arrives(v))
    ensures PastInv(p, Happen(p, unsafe, h, Arrives(v)))
  {
    var h' := Happen(p, unsafe, h, Arrives(v));
    NewIdsAreUnused(p, h, v);
    DeliveryKeeps(p, unsafe, h.world, v);
    var own := StorageKeyFor(p, v.input, v.minted);
    forall key | key in h'.world.objects ensures KeyMinted(p, h', key) {
      if key == own {
        assert v.minted in h'.minted && KeyNames(p, own, v.minted);
      } else {
        assert KeyMinted(p, h, key);
        var id :| id in h.minted && PlainId(id) && KeyNames(p, key, id);
        assert id in h'.minted;
      }
    }
  }

  lemma OtherEventsKeepKeys(p: Platform, unsafe: StorageKey -> bool, h: Past, e: Event)
    requires PastInv(p, h) && Expected(h, e) && !e.Arrives?
    ensures PastInv(p, Happen(p, unsafe, h, e)) && StoreEvolves(h.world.store, Happen(p, unsafe, h, e).world.store)
  {
    var h' := Happen(p, unsafe, h, e);
    StoreIsItself(h.world.store);
    if e.Transition? {
      TransitionsKeepInvariants(h.world.store, e.command);
      TransitionsOnlyAccumulate(h.world.store, e.command);
      TransitionsKeepReferences(h.world.store, e.command);
      TransitionsKeepDocuments(h.world.store, e.command);
    }
    forall key | key in h'.world.objects ensures KeyMinted(p, h', key) { assert KeyMinted(p, h, key); }
  }

  lemma TransitionsKeepDocuments(s: Store, c: Command)
    requires !c.DoSave?
    ensures Perform(s, c).store.docs.Keys == s.docs.Keys
  {
  }

  /** Every event keeps the store sound and the one-reference rule, and reverts nothing. */
  lemma {:induction false} HistoriesKeepReferences(p: Platform, unsafe: StorageKey -> bool, h: Past, es: seq<Event>)
    requires PastInv(p, h) && ExpectedAll(p, unsafe, h, es)
    ensures var h' := HappenAll(p, unsafe, h, es); PastInv(p, h') && StoreEvolves(h.world.store, h'.world.store)
    decreases |es|
  {
    StoreIsItself(h.world.store);
    if es != [] {
      var next := Happen(p, unsafe, h, es[0]);
      match es[0] {
        case Arrives(v) =>
          DeliveryKeepsKeys(p, unsafe, h, v);
          NewIdsAreUnused(p, h, v);
          DeliveryKeeps(p, unsafe, h.world, v);
        case _ => OtherEventsKeepKeys(p, unsafe, h, es[0]);
      }
      HistoriesKeepReferences(p, unsafe, next, es[1..]);
      EvolutionComposes(h.world.store, next.world.store, HappenAll(p, unsafe, next, es[1..]).world.store);
    }
  }

  /** The first delivery of a request that succeeds is recorded exactly as delivered. */
  lemma FirstDeliveryIsRecorded(p: Platform, unsafe: StorageKey -> bool, w: World, v: Delivery)
    requires WorldInv(w) && Unused(p, w, v) && Deliver(p, unsafe, w, v).reply.Ok?
    ensures var t := Deliver(p, unsafe, w, v);
            && Recorded(t.world.store, v.input.archiveRequestId) == Some(t.reply.value)
            && SameDelivery(t.reply.value, v.input, p.checksum(v.content), v.content)
            && (Recorded(w.store, v.input.archiveRequestId).None? ==>
                  t.reply.value.documentId == v.minted
                  && t.world.objects == w.objects[t.reply.value.storageKey := v.content])
  {
  }

  /** Another document holds these bytes under a different reference. */
  ghost predicate HeldElsewhere(s: Store, checksum: string, reference: string) {
    exists d :: d in s.docs && s.docs[d].checksum == checksum
                && s.docs[d].input.documentReference.Some? && s.docs[d].input.documentReference.value != reference
  }

  /** What the writer checks of every delivery, in its order; `None` is a delivery it lets
      through. */
  ghost predicate Refuses(p: Platform, s: Store, v: Delivery, refusal: Option<ArchiveError>) {
    var checksum, input := p.checksum(v.content), v.input;
    var format := p.acceptsFormat(input.outputFormat, input.mimeType, v.content);
    var declared := input.declaredSha256.None? || input.declaredSha256.value == checksum;
    var elsewhere := input.documentReference.Some? && HeldElsewhere(s, checksum, input.documentReference.value);
    && (refusal == Some(InvalidArtifactFormat) <==> !format)
    && (refusal == Some(DeclaredChecksumMismatch) <==> format && !declared)
    && (refusal == Some(ArtifactIdentityCollision) <==> format && declared && elsewhere)
    && (refusal == None <==> format && declared && !elsewhere)
  }

  lemma RefusalsAreExact(p: Platform, s: Store, v: Delivery)
    ensures Refuses(p, s, v, AdmissionRefusal(p, s, v))
  {
    if v.input.documentReference.Some? {
      var checksum, reference := p.checksum(v.content), v.input.documentReference.value;
      assert ReferenceCollides(s, checksum, v.input.documentReference) <==> HeldElsewhere(s, checksum, reference);
    }
  }

  /** A new row: what was delivered, who and when, and no history of any kind. */
  ghost predicate IsNewRecord(p: Platform, x: Document, v: Delivery) {
    && x.input == v.input && x.documentId == v.minted && x.storageKey == StorageKeyFor(p, v.input, v.minted)
    && x.checksum == p.checksum(v.content) && x.sizeBytes == |v.content|
    && x.createdAt == v.now && x.updatedAt == v.now
    && x.purgeStatus == NotEligible && x.purgeEligibleAt.None? && x.purgeStartedAt.None? && x.purgedAt.None?
    && x.holdStatus == Clear && x.holdCount == 0
    && x.supersededBy.None? && x.supersedes.None? && x.correctionOf.None? && x.reissueOf.None?
  }

  /** A first delivery is accepted exactly when the format is accepted, a declared checksum
      agrees, no document holds the same bytes under another reference, its key is safe and
      nothing fails; then one new row and one object are added. Every refusal has its own
      condition, in the writer's order, and leaves nothing. */
  lemma FirstDeliveryIsExact(p: Platform, unsafe: StorageKey -> bool, w: World, v: Delivery,
                             refusal: Option<ArchiveError>)
    requires WorldInv(w) && Unused(p, w, v) && v.input.archiveRequestId !in w.store.byRequest
    requires Refuses(p, w.store, v, refusal)
    ensures var t, key := Deliver(p, unsafe, w, v), StorageKeyFor(p, v.input, v.minted);
            && (t.reply.Ok? <==> refusal.None? && !unsafe(key) && v.fault.None?)
            && (refusal.Some? ==> t.reply == Err(refusal.value))
            && (refusal.None? && unsafe(key) ==> t.reply == Err(StorageFailure))
            && (refusal.None? && !unsafe(key) && v.fault.Some? ==> t.reply == Err(v.fault.value))
            && (t.reply.Err? ==> t.world == w)
            && (t.reply.Ok? ==>
                  && IsNewRecord(p, t.reply.value, v)
                  && t.world.store == w.store.(docs := w.store.docs[v.minted := t.reply.value],
                                               byRequest := w.store.byRequest[v.input.archiveRequestId := v.minted])
                  && t.world.objects == w.objects[key := v.content])
  {
    RefusalsAreExact(p, w.store, v);
    assert AdmissionRefusal(p, w.store, v) == refusal;
    if Deliver(p, unsafe, w, v).reply.Err? { FailedDeliveriesLeaveNothing(p, unsafe, w, v); }
  }

  /** What a delivery under a recorded request id gets: the recorded document, exactly when
      format and declared checksum pass and every caller-supplied field and byte agrees; a
      refusal with its own condition otherwise. Nothing changes. */
  lemma RedeliveryIsExact(p: Platform, unsafe: StorageKey -> bool, w: World, v: Delivery)
    requires WorldInv(w) && v.input.archiveRequestId in w.store.byRequest
    ensures var existing := w.store.docs[w.store.byRequest[v.input.archiveRequestId]];
            var t, checksum := Deliver(p, unsafe, w, v), p.checksum(v.content);
            var same := existing.input == v.input && existing.checksum == checksum && existing.sizeBytes == |v.content|;
            && t.world == w
            && (t.reply == Ok(existing) <==>
                  && same
                  && p.acceptsFormat(v.input.outputFormat, v.input.mimeType, v.content)
                  && (v.input.declaredSha256.Some? ==> v.input.declaredSha256.value == checksum))
            && (t.reply.Ok? ==> t.reply.value == existing)
            && (forall refusal {:trigger Refuses(p, w.store, v, refusal)} ::
                  Refuses(p, w.store, v, refusal) && t.reply.Err? ==>
                    t.reply == Err(if refusal.Some? then refusal.value else DuplicateArchiveRequest))
  {
    var request := v.input.archiveRequestId;
    assert RequestInv(w.store, request);
    RefusalsAreExact(p, w.store, v);
    RefusalIsOne(p, w.store, v);
    var d := w.store.byRequest[request];
    if SameDelivery(w.store.docs[d], v.input, p.checksum(v.content), v.content) {
      RedeliveriesDoNotCollide(p, w.store, d, v);
    }
  }

  lemma RefusalIsOne(p: Platform, s: Store, v: Delivery)
    ensures forall r {:trigger Refuses(p, s, v, r)} :: Refuses(p, s, v, r) ==> r == AdmissionRefusal(p, s, v)
  {
    RefusalsAreExact(p, s, v);
  }

  /** Redelivery is idempotent for life: after any transitions, erasures and other
      deliveries, the same input and bytes answer the original document - as its row now
      stands - and change nothing, whatever identifier, instant or fault comes with them. */
  lemma RedeliveryIsIdempotentForLife(p: Platform, unsafe: StorageKey -> bool, before: seq<Event>, v: Delivery,
                                      after: seq<Event>, again: Delivery)
    requires ExpectedAll(p, unsafe, NOTHING_YET, before)
    requires var h := HappenAll(p, unsafe, NOTHING_YET, before);
             && Expected(h, Arrives(v)) && Deliver(p, unsafe, h.world, v).reply.Ok?
             && ExpectedAll(p, unsafe, Happen(p, unsafe, h, Arrives(v)), after)
    requires again.input == v.input && again.content == v.content
    ensures var h := HappenAll(p, unsafe, NOTHING_YET, before);
            var first := Deliver(p, unsafe, h.world, v).reply.value;
            var now := HappenAll(p, unsafe, Happen(p, unsafe, h, Arrives(v)), after).world;
            var u := Deliver(p, unsafe, now, again);
            && u.world == now && u.reply.Ok? && RowEvolves(first, u.reply.value)
            && first.documentId in now.store.docs && now.store.docs[first.documentId] == u.reply.value
  {
    EmptyStoreIsSound();
    HistoriesKeepReferences(p, unsafe, NOTHING_YET, before);
    var h := HappenAll(p, unsafe, NOTHING_YET, before);
    var t := Deliver(p, unsafe, h.world, v);
    NewIdsAreUnused(p, h, v);
    FirstDeliveryIsRecorded(p, unsafe, h.world, v);
    DeliveryKeepsKeys(p, unsafe, h, v);
    var recorded := Happen(p, unsafe, h, Arrives(v));
    HistoriesKeepReferences(p, unsafe, recorded, after);
    RecordedStays(p, unsafe, t, HappenAll(p, unsafe, recorded, after).world, v, again);
  }

  lemma RecordedStays(p: Platform, unsafe: StorageKey -> bool, t: Delivered, now: World, v: Delivery, again: Delivery)
    requires WorldInv(t.world) && WorldInv(now) && StoreEvolves(t.world.store, now.store) && t.reply.Ok?
    requires Recorded(t.world.store, v.input.archiveRequestId) == Some(t.reply.value)
    requires SameDelivery(t.reply.value, v.input, p.checksum(v.content), v.content)
    requires p.acceptsFormat(v.input.outputFormat, v.input.mimeType, v.content)
    requires v.input.declaredSha256.Some? ==> v.input.declaredSha256.value == p.checksum(v.content)
    requires again.input == v.input && again.content == v.content
    ensures var u := Deliver(p, unsafe, now, again);
            && u.world == now && u.reply.Ok? && RowEvolves(t.reply.value, u.reply.value)
            && t.reply.value.documentId in now.store.docs && now.store.docs[t.reply.value.documentId] == u.reply.value
  {
    var d := t.world.store.byRequest[v.input.archiveRequestId];
    assert DocumentEvolves(t.world.store, now.store, d) && RowInv(t.world.store, d);
    RedeliveryIsExact(p, unsafe, now, again);
  }

  /** A delivery that is refused, or fails after its bytes were stored, leaves neither a
      record nor an object. */
  lemma FailedDeliveriesLeaveNothing(p: Platform, unsafe: StorageKey -> bool, w: World, v: Delivery)
    requires Unused(p, w, v) && Deliver(p, unsafe, w, v).reply.Err?
    ensures Deliver(p, unsafe, w, v).world == w
  {
    var key := StorageKeyFor(p, v.input, v.minted);
    assert w.objects[key := v.content] - {key} == w.objects;
  }
}
