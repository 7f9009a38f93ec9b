/** What holds at every program point, and why no other thread can break it: each step
    guarantees `Evolves`, and every thread's assertion is stable under it. */
module CustodyAssertions {
  import opened Records
  import opened Transitions
  import opened CustodyInvariants
  import opened PurgeEvaluation
  import opened DecisionActions
  import opened Platforms
  import opened CustodyThreads

  /** A document's bytes are present and exactly as archived until a purge erases them; they
      are erased only under a recorded intent, and recorded PURGED only when erased; an
      intent or an eligibility exists only once the retention date has been reached. */
  ghost predicate DocOk(p: Platform, s: Shared, d: DocumentId) {
    && d in s.store.docs && d in s.placed && d in s.archived && d in s.issued
    && var x := s.store.docs[d];
    && s.placed[d] == x.storageKey
    && x.checksum == p.checksum(s.archived[d]) && x.sizeBytes == |s.archived[d]|
    && (x.storageKey in s.objects <==> d !in s.erased)
    && (d !in s.erased ==> s.objects[x.storageKey] == s.archived[d])
    && (d in s.erased ==> x.purgeStartedAt.Some?)
    && (x.purgeStatus == Purged ==> d in s.erased)
    && (x.purgeStartedAt.Some? || x.purgeStatus == Eligible ==> RetentionElapsedOn(x, s.today))
  }

  ghost predicate PlacedOk(p: Platform, s: Shared, id: DocumentId) {
    id in s.placed && id in s.issued && PlainId(id) && KeyNames(p, s.placed[id], id)
  }

  ghost predicate OrphanOk(s: Shared, id: DocumentId) {
    id in s.placed && id !in s.store.docs && s.placed[id] in s.objects
  }

  ghost predicate Traced(s: Shared, k: StorageKey) {
    exists id :: id in s.placed && s.placed[id] == k
  }

  ghost predicate SharedInv(p: Platform, s: Shared) {
    && StoreInv(s.store)
    && (forall d {:trigger DocOk(p, s, d)} :: d in s.store.docs ==> DocOk(p, s, d))
    && (forall id {:trigger PlacedOk(p, s, id)} :: id in s.placed ==> PlacedOk(p, s, id))
    && (forall id {:trigger OrphanOk(s, id)} :: id in s.orphans ==> OrphanOk(s, id))
    && (forall k {:trigger Traced(s, k)} :: k in s.objects ==> Traced(s, k))
    && s.erased <= s.store.docs.Keys && s.archived.Keys <= s.store.docs.Keys
    && s.store.holds.Keys <= s.issued
    && (forall r :: r in s.store.relationships ==> r.id in s.issued)
  }

  lemma KeysApart(p: Platform, s: Shared, a: DocumentId, b: DocumentId)
    requires PlacedOk(p, s, a) && PlacedOk(p, s, b) && s.placed[a] == s.placed[b]
    ensures a == b
  {
    var i :| s.placed[a] == StorageKeyFor(p, i, a);
    var j :| s.placed[b] == StorageKeyFor(p, j, b);
    StorageKeysNameOneDocument(p, i, a, j, b);
  }

  // ---- assertions ---------------------------------------------------------------

  /** `m` is how document `d` stood at some earlier moment. */
  ghost predicate Snapshot(s: Shared, d: DocumentId, m: Document) {
    && d in s.store.docs && m.documentId == d && RowEvolves(m, s.store.docs[d])
    && (m.purgeStatus == Purged ==> m.purgeStartedAt.Some? && m.purgedAt.Some? && d in s.erased)
    && (m.purgeStartedAt.Some? || m.purgeStatus == Eligible ==> RetentionElapsedOn(m, s.today))
  }

  ghost predicate Disposable(s: Shared, d: DocumentId) {
    d in s.store.docs && RetentionElapsedOn(s.store.docs[d], s.today)
  }

  ghost predicate PurgeInv(s: Shared, d: DocumentId, date: Option<Day>, pc: PurgePc) {
    && (date.Some? ==> date.value <= s.today)
    && match pc
       case Looking => true
       case Refreshing(m) => Snapshot(s, d, m)
       case Evaluating(m) => Snapshot(s, d, m)
       case Granting => Disposable(s, d)
       case Withdrawing(reason) => d in s.store.docs && reason != PurgeStateChanged
       case Rereading => d in s.store.docs
       case ListingHolds(m) => Snapshot(s, d, m)
       case Evaluated(e) => Snapshot(s, d, e.document) && (e.eligible ==> Disposable(s, d))
       case Claiming => Disposable(s, d)
       case Deleting(m) => Snapshot(s, d, m) && m.purgeStartedAt.Some?
       case Completing(m) => Snapshot(s, d, m) && m.purgeStartedAt.Some? && d in s.erased
       case Destroyed(m) => Snapshot(s, d, m) && m.purgeStatus == Purged
       case Answered(m) => Snapshot(s, d, m)
       case Signed(m, action) => Snapshot(s, d, m) && action == DecisionAction(m)
       case Refused(_) => true
  }

  ghost predicate HoldInv(s: Shared, d: DocumentId, pc: HoldPc) {
    match pc
    case HoldListing => d in s.store.docs
    case Admitting => d in s.store.docs
    case Held(id, hold) =>
      id in s.store.holds && hold.documentId == d && hold.status == Active && HoldEvolves(hold, s.store.holds[id])
    case _ => true
  }

  ghost predicate LinkInv(s: Shared, source: DocumentId, target: DocumentId, kind: TransitionKind, pc: LinkPc) {
    match pc
    case LinkDone(r) => r in s.store.relationships && r.source == source
    case _ => true
  }

  /** The path travelled is still a path of the store, and no longer than its pointers say. */
  ghost predicate Travelled(s: Store, path: seq<DocumentId>) {
    && |path| > 0
    && (forall k {:trigger path[k]} :: 0 <= k < |path| ==> path[k] in s.docs)
    && (forall k {:trigger path[k]} :: 0 <= k < |path| - 1 ==> s.docs[path[k]].supersededBy == Some(path[k + 1]))
  }

  ghost predicate ResolveInv(s: Shared, d: DocumentId, pc: ResolvePc) {
    match pc
    case Walking(path, current) =>
      Travelled(s.store, path) && path[0] == d && Snapshot(s, path[|path| - 1], current)
    case ResolvedTo(x) => x.documentId in s.store.docs && RowEvolves(x, s.store.docs[x.documentId])
    case _ => true
  }

  /** A writer's object stays where it put it: nobody else deletes or overwrites it. */
  ghost predicate InFlight(p: Platform, s: Shared, input: DocumentInput, content: Bytes, id: DocumentId) {
    && id in s.placed && s.placed[id] == StorageKeyFor(p, input, id)
    && id !in s.store.docs && id !in s.orphans
    && s.placed[id] in s.objects && s.objects[s.placed[id]] == content
  }

  ghost predicate WriteInv(p: Platform, s: Shared, input: DocumentInput, content: Bytes, pc: WritePc) {
    match pc
    case Saving(id) => InFlight(p, s, input, content, id)
    case Undoing(id, _) => InFlight(p, s, input, content, id)
    case Archived(x) =>
      && x.documentId in s.store.docs && RowEvolves(x, s.store.docs[x.documentId])
      && SameDelivery(x, input, p.checksum(content), content)
    case _ => true
  }

  ghost predicate CallInv(p: Platform, s: Shared, c: Call) {
    match c
    case Purging(d, date, _, pc) => PurgeInv(s, d, date, pc)
    case Holding(d, _, _, _, pc) => HoldInv(s, d, pc)
    case Releasing(_, _, _, _) => true
    case Linking(f, t, kind, _, pc) => LinkInv(s, f, t, kind, pc)
    case Resolving(d, pc) => ResolveInv(s, d, pc)
    case Archiving(input, content, pc) => WriteInv(p, s, input, content, pc)
    case Crashed => true
  }

  // ---- rely and guarantee -------------------------------------------------------

  /** A put that is neither a document's nor the acting writer's is left alone. */
  ghost predicate LeftAlone(s: Shared, s': Shared, id: DocumentId) {
    && id in s.placed && id in s'.placed && s'.placed[id] == s.placed[id]
    && id !in s'.store.docs && (id in s'.orphans ==> id in s.orphans)
    && (s.placed[id] in s.objects ==> s.placed[id] in s'.objects && s'.objects[s.placed[id]] == s.objects[s.placed[id]])
  }

  ghost predicate Evolves(s: Shared, s': Shared, own: set<DocumentId>) {
    && StoreEvolves(s.store, s'.store)
    && s.today <= s'.today
    && s.erased <= s'.erased
    && s.issued <= s'.issued
    && (forall id {:trigger LeftAlone(s, s', id)} :: id in s.placed && id !in s.store.docs && id !in own
         ==> LeftAlone(s, s', id))
    && (forall d {:trigger d in s.archived} :: d in s.archived ==> d in s'.archived && s'.archived[d] == s.archived[d])
  }

  lemma SnapshotStable(s: Shared, s': Shared, own: set<DocumentId>, d: DocumentId, m: Document)
    requires Snapshot(s, d, m) && Evolves(s, s', own)
    ensures Snapshot(s', d, m)
  {
    assert DocumentEvolves(s.store, s'.store, d);
  }

  lemma PurgeInvStable(s: Shared, s': Shared, own: set<DocumentId>, d: DocumentId, date: Option<Day>, pc: PurgePc)
    requires PurgeInv(s, d, date, pc) && Evolves(s, s', own)
    ensures PurgeInv(s', d, date, pc)
  {
    if d in s.store.docs { assert DocumentEvolves(s.store, s'.store, d); }
    match pc
    case Refreshing(m) => SnapshotStable(s, s', own, d, m);
    case Evaluating(m) => SnapshotStable(s, s', own, d, m);
    case ListingHolds(m) => SnapshotStable(s, s', own, d, m);
    case Evaluated(e) => SnapshotStable(s, s', own, d, e.document);
    case Deleting(m) => SnapshotStable(s, s', own, d, m);
    case Completing(m) => SnapshotStable(s, s', own, d, m);
    case Destroyed(m) => SnapshotStable(s, s', own, d, m);
    case Answered(m) => SnapshotStable(s, s', own, d, m);
    case Signed(m, _) => SnapshotStable(s, s', own, d, m);
    case _ =>
  }

  lemma TravelledStable(s: Store, s': Store, path: seq<DocumentId>)
    requires Travelled(s, path) && StoreEvolves(s, s')
    ensures Travelled(s', path)
  {
    forall k | 0 <= k < |path|
      ensures path[k] in s'.docs && (k < |path| - 1 ==> s'.docs[path[k]].supersededBy == Some(path[k + 1]))
    {
      assert DocumentEvolves(s, s', path[k]);
    }
  }

  /** Every thread's assertion survives every step of every other thread. */
  lemma AssertionsAreStable(p: Platform, s: Shared, s': Shared, own: set<DocumentId>, c: Call)
    requires CallInv(p, s, c) && Evolves(s, s', own) && Own(c) !! own
    ensures CallInv(p, s', c)
  {
    match c
    case Purging(d, date, _, pc) => PurgeInvStable(s, s', own, d, date, pc);
    case Holding(d, _, _, _, pc) =>
      if d in s.store.docs { assert DocumentEvolves(s.store, s'.store, d); }
      if pc.Held? { assert HoldRowEvolves(s.store, s'.store, pc.id); }
    case Linking(_, _, _, _, pc) =>
      if pc.LinkDone? { assert pc.relationship in s'.store.relationships; }
    case Resolving(_, pc) =>
      if pc.Walking? {
        TravelledStable(s.store, s'.store, pc.path);
        SnapshotStable(s, s', own, pc.path[|pc.path| - 1], pc.current);
      }
      if pc.ResolvedTo? { assert DocumentEvolves(s.store, s'.store, pc.current.documentId); }
    case Archiving(_, _, pc) =>
      match pc {
        case Saving(id) => assert LeftAlone(s, s', id);
        case Undoing(id, _) => assert LeftAlone(s, s', id);
        case Archived(x) => assert DocumentEvolves(s.store, s'.store, x.documentId);
        case _ =>
      }
    case _ =>
  }
}
