/** `ArchiveDocumentService`: the guarded transitions run as multi-step programs. Here each
    call runs undisturbed; `CustodyThreads` interleaves the same programs. */
module Service {
  import opened Records
  import opened Transitions
  import opened CustodyInvariants
  import opened TransitionLaws
  import opened Histories
  import opened Supersession
  import opened Repository
  import opened Storage
  import opened PurgeEvaluation

  ghost predicate MayDestroy(s: Store, d: DocumentId, effective: Day)
    requires d in s.docs
  {
    s.docs[d].purgeStartedAt.Some? || (ActiveHolds(s.holds, d) == {} && RetentionElapsedOn(s.docs[d], effective))
  }

  /** The instants one purge reads: the refresh's, the eligibility it offers and the mark's
      own, the intent's, the completion it offers and the completion's own. */
  datatype PurgeClock = PurgeClock(
    refreshed: Instant,
    eligible: Instant,
    marked: Instant,
    started: Instant,
    purged: Instant,
    completed: Instant)

  /** What an undisturbed purge answers, what it destroys, and what it records. */
  ghost predicate PurgeOutcome(s: Store, s': Store, objects: map<StorageKey, Bytes>, objects': map<StorageKey, Bytes>,
                               unsafe: StorageKey -> bool, d: DocumentId, effective: Day, t: PurgeClock,
                               outcome: Result<Document, ArchiveError>)
  {
    && (outcome == Err(DocumentNotFound) <==> d !in s.docs)
    && (outcome == Err(LegalHoldActive) <==> d in s.docs && ActiveHolds(s.holds, d) != {})
    && (outcome == Err(PurgeNotEligible) <==>
          d in s.docs && ActiveHolds(s.holds, d) == {} && !MayDestroy(s, d, effective))
    && (outcome == Err(StorageFailure) <==>
          d in s.docs && MayDestroy(s, d, effective) && s.docs[d].purgeStatus != Purged && unsafe(s.docs[d].storageKey))
    && (outcome.Ok? ==>
          && OnlyRow(s, s', d) && outcome.value == s'.docs[d] && s'.docs[d].purgeStatus == Purged
          && s'.docs[d].purgeStartedAt ==
             (if s.docs[d].purgeStartedAt.Some? then s.docs[d].purgeStartedAt else Some(t.started))
          && s'.docs[d].purgedAt == (if s.docs[d].purgeStatus == Purged then s.docs[d].purgedAt else Some(t.purged))
          && objects' == if s.docs[d].purgeStatus == Purged then objects else objects - {s.docs[d].storageKey})
    && (outcome.Err? ==> objects' == objects && (d in s.docs ==> OnlyRow(s, s', d)))
    && (d in s.docs ==> PurgeColumns(s.docs[d], s'.docs[d], t, outcome))
    && (d !in s.docs ==> s' == s)
  }

  /** The columns a purge writes, and that it writes no other: a refusal withdraws eligibility
      and begins nothing; a failed deletion leaves the intent, so the purge can be repeated;
      the first eligibility instant is kept. */
  ghost predicate PurgeColumns(x: Document, y: Document, t: PurgeClock, outcome: Result<Document, ArchiveError>) {
    && y.(purgeStatus := x.purgeStatus, purgeEligibleAt := x.purgeEligibleAt, purgeStartedAt := x.purgeStartedAt,
          purgedAt := x.purgedAt, updatedAt := x.updatedAt) == x
    && (outcome == Err(LegalHoldActive) || outcome == Err(PurgeNotEligible) ==>
          && y.purgeStatus == NotEligible && y.purgeStartedAt.None? && y.purgedAt == x.purgedAt
          && y.purgeEligibleAt == x.purgeEligibleAt)
    && (outcome == Err(StorageFailure) ==>
          && y.purgeStartedAt == (if x.purgeStartedAt.Some? then x.purgeStartedAt else Some(t.started))
          && y.purgeStatus == (if x.purgeStartedAt.Some? then x.purgeStatus else Eligible) && y.purgedAt == x.purgedAt)
    && (outcome.Ok? || outcome == Err(StorageFailure) ==>
          y.purgeEligibleAt == (if x.purgeStartedAt.None? && x.purgeStatus == NotEligible && x.purgeEligibleAt.None?
                                then Some(t.eligible) else x.purgeEligibleAt))
  }

  datatype PurgeRun = PurgeRun(store: Store, objects: map<StorageKey, Bytes>, outcome: Result<Document, ArchiveError>)

  /** The program: refresh, evaluate, claim the intent, delete the bytes, record completion. */
  function RunPurge(s: Store, objects: map<StorageKey, Bytes>, unsafe: StorageKey -> bool,
                    d: DocumentId, effective: Day, t: PurgeClock): PurgeRun
  {
    if d !in s.docs then PurgeRun(s, objects, Err(DocumentNotFound))
    else
      var refreshed := RefreshSummary(s, d, t.refreshed);
      var m := refreshed.value.value;
      if m.purgeStatus == Purged then PurgeRun(refreshed.store, objects, Ok(m))
      else
        var evaluated := Evaluate(refreshed.store, m, effective, t.eligible, t.marked);
        match evaluated.value
        case Err(error) => PurgeRun(evaluated.store, objects, Err(error))
        case Ok(e) =>
          if !e.eligible then
            PurgeRun(evaluated.store, objects,
                Err(if e.reason == HoldActive then LegalHoldActive else PurgeNotEligible))
          else
            var claimed := BeginPurge(evaluated.store, d, t.started);
            if claimed.value.None? then PurgeRun(claimed.store, objects, Err(LegalHoldActive))
            else
              var key := claimed.value.value.storageKey;
              if unsafe(key) then PurgeRun(claimed.store, objects, Err(StorageFailure))
              else
                var completed := CompletePurge(claimed.store, d, t.purged, t.completed);
                PurgeRun(completed.store, objects - {key},
                         Ok(if completed.value.Some? then completed.value.value else claimed.value.value))
  }

  /** The run on a sound store, one case after another. */
  lemma PurgeSteps(s: Store, d: DocumentId, effective: Day, t: PurgeClock)
    requires RowsInv(s) && d in s.docs
    ensures RefreshSummary(s, d, t.refreshed) == Answer(s, Some(s.docs[d]))
    ensures var e := Evaluate(s, s.docs[d], effective, t.eligible, t.marked);
            && e.value.Ok? && OnlyRow(s, e.store, d) && e.store.docs[d].storageKey == s.docs[d].storageKey
            && e.store.docs[d].purgeStartedAt == s.docs[d].purgeStartedAt
            && (e.value.value.eligible <==> MayDestroy(s, d, effective))
            && (!e.value.value.eligible ==> (e.value.value.reason == HoldActive <==> ActiveHolds(s.holds, d) != {}))
            && (e.value.value.eligible ==> ActiveHolds(s.holds, d) == {} && e.store.docs[d].holdStatus == Clear)
  {
    assert RowInv(s, d);
    EvaluationIsExact(s, d, effective, t.eligible, t.marked);
  }

  lemma PurgeIsExact(s: Store, objects: map<StorageKey, Bytes>, unsafe: StorageKey -> bool,
                     d: DocumentId, effective: Day, t: PurgeClock)
    requires RowsInv(s)
    ensures var run := RunPurge(s, objects, unsafe, d, effective, t);
            PurgeOutcome(s, run.store, objects, run.objects, unsafe, d, effective, t, run.outcome)
  {
    if d in s.docs {
      assert RowInv(s, d);
      assert OnlyRow(s, s, d) by { assert s.docs[d := s.docs[d]] == s.docs; }
      PurgeSteps(s, d, effective, t);
      var e := Evaluate(s, s.docs[d], effective, t.eligible, t.marked);
      if MayDestroy(s, d, effective) {
        var claimed := BeginPurge(e.store, d, t.started);
        assert claimed.value.Some? && OnlyRow(s, claimed.store, d);
        assert OnlyRow(s, CompletePurge(claimed.store, d, t.purged, t.completed).store, d);
      }
    }
  }

  lemma DestructionKeepsInvariants(s: Store, d: DocumentId, t: PurgeClock)
    requires StoreInv(s)
    ensures var s1 := BeginPurge(s, d, t.started).store;
            var s2 := CompletePurge(s1, d, t.purged, t.completed).store;
            StoreInv(s1) && StoreEvolves(s, s1) && StoreInv(s2) && StoreEvolves(s, s2)
  {
    var s1 := BeginPurge(s, d, t.started).store;
    TransitionsKeepInvariants(s, DoBeginPurge(d, t.started));
    TransitionsOnlyAccumulate(s, DoBeginPurge(d, t.started));
    TransitionsKeepInvariants(s1, DoComplete(d, t.purged, t.completed));
    TransitionsOnlyAccumulate(s1, DoComplete(d, t.purged, t.completed));
    EvolutionComposes(s, s1, CompletePurge(s1, d, t.purged, t.completed).store);
  }

  /** A run stops at one of four stores: untouched, evaluated, claimed, completed. */
  lemma PurgeStops(s: Store, objects: map<StorageKey, Bytes>, unsafe: StorageKey -> bool,
                   d: DocumentId, effective: Day, t: PurgeClock)
    requires RowsInv(s) && d in s.docs
    ensures var run := RunPurge(s, objects, unsafe, d, effective, t);
            var s1 := Evaluate(s, s.docs[d], effective, t.eligible, t.marked).store;
            var s2 := BeginPurge(s1, d, t.started).store;
            run.store == s || run.store == s1 || run.store == s2
                || run.store == CompletePurge(s2, d, t.purged, t.completed).store
  {
    assert RowInv(s, d);
    RefreshIsIdentity(s, d, t.refreshed);
  }

  lemma PurgeKeepsInvariants(s: Store, objects: map<StorageKey, Bytes>, unsafe: StorageKey -> bool,
                             d: DocumentId, effective: Day, t: PurgeClock)
    requires StoreInv(s)
    ensures var run := RunPurge(s, objects, unsafe, d, effective, t); StoreInv(run.store) && StoreEvolves(s, run.store)
  {
    RunsKeepInvariants(s, []);
    if d in s.docs {
      PurgeStops(s, objects, unsafe, d, effective, t);
      EvaluationKeepsInvariants(s, s.docs[d], effective, t.eligible, t.marked);
      var s1 := Evaluate(s, s.docs[d], effective, t.eligible, t.marked).store;
      DestructionKeepsInvariants(s1, d, t);
      var s2 := BeginPurge(s1, d, t.started).store;
      EvolutionComposes(s, s1, s2);
      EvolutionComposes(s, s1, CompletePurge(s2, d, t.purged, t.completed).store);
    }
  }

  /** What a purge of a sound store promises. */
  ghost predicate PurgedSoundly(s: Store, objects: map<StorageKey, Bytes>, unsafe: StorageKey -> bool,
                                d: DocumentId, effective: Day, t: PurgeClock, run: PurgeRun)
  {
    && StoreInv(run.store) && StoreEvolves(s, run.store)
    && PurgeOutcome(s, run.store, objects, run.objects, unsafe, d, effective, t, run.outcome)
  }

  lemma SoundPurge(s: Store, objects: map<StorageKey, Bytes>, unsafe: StorageKey -> bool,
                   d: DocumentId, effective: Day, t: PurgeClock)
    requires StoreInv(s)
    ensures PurgedSoundly(s, objects, unsafe, d, effective, t, RunPurge(s, objects, unsafe, d, effective, t))
  {
    PurgeIsExact(s, objects, unsafe, d, effective, t);
    PurgeKeepsInvariants(s, objects, unsafe, d, effective, t);
  }

  /** After a success every later call answers the same purge instant and changes nothing. */
  lemma PurgeIsIdempotent(s: Store, objects: map<StorageKey, Bytes>, unsafe: StorageKey -> bool,
                          d: DocumentId, effective: Day, t: PurgeClock, later: seq<Command>,
                          effective': Day, t': PurgeClock)
    requires StoreInv(s)
    requires RunPurge(s, objects, unsafe, d, effective, t).outcome.Ok?
    requires AdmissibleAll(RunPurge(s, objects, unsafe, d, effective, t).store, later)
    ensures var first := RunPurge(s, objects, unsafe, d, effective, t);
            var s' := PerformAll(first.store, later);
            var again := RunPurge(s', first.objects, unsafe, d, effective', t');
            again.outcome.Ok? && again.outcome.value.purgedAt == first.outcome.value.purgedAt
            && again.store == s' && again.objects == first.objects
  {
    var first := RunPurge(s, objects, unsafe, d, effective, t);
    PurgeIsExact(s, objects, unsafe, d, effective, t);
    PurgeKeepsInvariants(s, objects, unsafe, d, effective, t);
    RunsKeepInvariants(first.store, later);
    var s' := PerformAll(first.store, later);
    assert RowInv(first.store, d) && DocumentEvolves(first.store, s', d) && RowInv(s', d);
    RefreshIsIdentity(s', d, t'.refreshed);
  }

  /** A hold repeats a request when it is active for the document, for the same reason under
      the same authority. */
  ghost predicate Repeats(hold: Hold, d: DocumentId, reason: string, authority: string) {
    hold.documentId == d && hold.status == Active && hold.reason == reason && hold.authority == authority
  }

  lemma MatchesAreRepeats(holds: map<HoldId, Hold>, d: DocumentId, reason: string, authority: string)
    ensures forall h :: h in MatchingHolds(holds, d, reason, authority) <==>
                         h in holds && Repeats(holds[h], d, reason, authority)
  {
  }

  lemma ReleaseAnswers(s: Store, d: DocumentId, id: HoldId, release: Release, now: Instant)
    requires d in s.docs && id in s.holds && s.holds[id].documentId == d
    ensures var a := ReleaseHold(s, d, id, release, now);
            a.value.Some? && ReleaseOutcome(s, a.store, d, id, release, Ok(a.value.value.0))
  {
    ReleasedHolds(s.holds, id, release, d);
    ReleasingIsExact(s, d, id, release, now);
  }

  /** What an undisturbed `release_legal_hold` answers: the hold of this document, an active
      one cleared with the caller's actor, instant and reason, a clear one as it was. */
  ghost predicate ReleaseOutcome(s: Store, s': Store, d: DocumentId, id: HoldId, release: Release,
                                 outcome: Result<Hold, ArchiveError>)
  {
    if d !in s.docs then outcome == Err(DocumentNotFound) && s' == s
    else if id !in s.holds || s.holds[id].documentId != d then outcome == Err(LegalHoldNotFound) && s' == s
    else
      && outcome.Ok?
      && (s.holds[id].status == Active ==>
            ReleasedBy(s.holds[id], outcome.value, release.actor, release.at, release.reason))
      && (s.holds[id].status == Clear ==> outcome.value == s.holds[id])
      && ActiveHolds(s'.holds, d) == ActiveHolds(s.holds, d) - {id}
      && OnlyRow(s.(holds := s.holds[id := outcome.value]), s', d) && SummaryAgrees(s', d)
  }

  lemma AdmissionAnswers(s: Store, d: DocumentId, id: HoldId, hold: Hold, now: Instant)
    requires d in s.docs && id !in s.holds && hold.documentId == d && hold.status == Active
    ensures var a := AdmitHold(s, d, id, hold, now);
            && (a.value.None? <==> s.docs[d].purgeStartedAt.Some?)
            && (a.value.None? ==> a.store == s)
            && (a.value.Some? ==>
                  && a.store.holds == s.holds[id := hold]
                      && ActiveHolds(a.store.holds, d) == ActiveHolds(s.holds, d) + {id}
                  && OnlyRow(s.(holds := a.store.holds), a.store, d) && SummaryAgrees(a.store, d))
  {
    AdmittedHolds(s.holds, id, hold, d);
  }

  /** What an undisturbed `set_legal_hold` answers: an equal active hold already recorded, a
      refusal under an intent, or one new active row, naming its caller and instant, and a
      summary that agrees with it. */
  ghost predicate HoldOutcome(s: Store, s': Store, d: DocumentId, reason: string, authority: string, actor: string,
                              requestedAt: Instant, id: HoldId, outcome: Result<(HoldId, Hold), ArchiveError>)
  {
    if d !in s.docs then outcome == Err(DocumentNotFound) && s' == s
    else if exists h :: h in s.holds && Repeats(s.holds[h], d, reason, authority) then
      && outcome.Ok? && s' == s && outcome.value.0 in s.holds && outcome.value.1 == s.holds[outcome.value.0]
      && Repeats(outcome.value.1, d, reason, authority)
    else if s.docs[d].purgeStartedAt.Some? then outcome == Err(PurgeAlreadyStarted) && s' == s
    else
      && outcome.Ok? && outcome.value.0 == id && s'.holds == s.holds[id := outcome.value.1]
      && ActiveHolds(s'.holds, d) == ActiveHolds(s.holds, d) + {id}
      && RequestedBy(outcome.value.1, d, reason, authority, actor, requestedAt)
      && OnlyRow(s.(holds := s'.holds), s', d) && SummaryAgrees(s', d)
  }

  /** What a lifecycle transition of a sound store answers: a refusal that changes nothing,
      each under its own condition; the row recorded before, changing nothing; or a new row
      that names its caller, instant and reason. */
  ghost predicate LinkRecorded(s: Store, s': Store, source: DocumentId, target: DocumentId, kind: TransitionKind,
                               why: Grounds, id: string, requestedAt: Instant,
                               outcome: Result<Relationship, ArchiveError>)
  {
    var recorded := Recorded(s, source, target, kind);
    && (outcome.Ok? <==> recorded || MayLink(s, source, target))
    && (outcome == Err(DocumentNotFound) <==> source !in s.docs || target !in s.docs)
    && (outcome == Err(UnsupportedTransition) <==>
          && source in s.docs && target in s.docs && !recorded
          && (source == target || s.docs[source].purgeStatus == Purged || s.docs[target].purgeStatus == Purged))
    && (outcome.Err? || recorded ==> s' == s)
    && (outcome.Err? ==> outcome.error in {DocumentNotFound, UnsupportedTransition, SupersessionConflict})
    && (outcome.Ok? ==>
          var r := outcome.value;
          && r.source == source && r.target == target && r.kind == kind && r in s'.relationships
          && (!recorded ==> && s'.relationships == s.relationships + [r]
                            && Requests(r, id, source, target, kind, why, requestedAt)))
  }

  /** What an undisturbed `apply_lifecycle_transition` answers: a success comes with the
      document the target now resolves to. */
  ghost predicate LinkOutcome(s: Store, s': Store, source: DocumentId, target: DocumentId, kind: TransitionKind,
                              why: Grounds, id: string, requestedAt: Instant,
                              outcome: Result<(Relationship, Document), ArchiveError>)
  {
    && LinkRecorded(s, s', source, target, kind, why, id, requestedAt,
                    if outcome.Ok? then Ok(outcome.value.0) else Err(outcome.error))
    && (outcome.Ok? ==>
          && target in s'.docs && EndsAt(s', target, outcome.value.1.documentId)
          && s'.docs[outcome.value.1.documentId] == outcome.value.1)
  }

  lemma ResolutionAnswers(s: Store, d: DocumentId)
    requires StoreInv(s) && d in s.docs
    ensures var w := Walk(s, s.docs[d], {s.docs[d].documentId});
            && w.Resolved? && EndsAt(s, d, w.current.documentId) && s.docs[w.current.documentId] == w.current
  {
    assert RowInv(s, d);
    SoundStoresResolve(s, d);
    ResolutionIsExact(s, d);
    var e :| EndsAt(s, d, e);
    assert RowInv(s, e);
  }

  /** The service answers what the guarded transition answers, with the document its target
      resolves to afterwards. */
  ghost predicate AnswersLike(a: Answer<Result<Linked, ArchiveError>>, s': Store, target: DocumentId,
                              outcome: Result<(Relationship, Document), ArchiveError>)
  {
    && s' == a.store
    && match a.value
       case Err(error) => outcome == Err(error)
       case Ok(link) =>
         && outcome.Ok? && outcome.value.0 == link.relationship
         && target in s'.docs && EndsAt(s', target, outcome.value.1.documentId)
         && s'.docs[outcome.value.1.documentId] == outcome.value.1
  }

  lemma AnswersAreRecorded(s: Store, source: DocumentId, target: DocumentId, kind: TransitionKind, why: Grounds,
                           id: string, requestedAt: Instant, now: Instant)
    requires StoreInv(s)
    ensures var r := NewRelationship(id, source, target, kind, why, requestedAt);
            var a := ApplyTransition(s, source, target, kind, r, now);
            LinkRecorded(s, a.store, source, target, kind, why, id, requestedAt,
                         if a.value.Ok? then Ok(a.value.value.relationship) else Err(a.value.error))
  {
    var r := NewRelationship(id, source, target, kind, why, requestedAt);
    LinkingIsExact(s, source, target, kind, r, now);
    if MayLink(s, source, target) { LinkingWritesExactly(s, source, target, kind, r, now); }
  }

  /** An admission asked for where no hold repeats the request. */
  lemma AdmissionOutcome(s: Store, d: DocumentId, reason: string, authority: string, actor: string,
                         requestedAt: Instant, now: Instant, id: HoldId)
    requires d in s.docs && id !in s.holds && MatchingHolds(s.holds, d, reason, authority) == {}
    ensures var hold := NewHold(d, reason, authority, actor, requestedAt);
            var a := AdmitHold(s, d, id, hold, now);
            HoldOutcome(s, a.store, d, reason, authority, actor, requestedAt, id,
                        if a.value.None? then Err(PurgeAlreadyStarted) else Ok((id, hold)))
  {
    MatchesAreRepeats(s.holds, d, reason, authority);
    AdmissionAnswers(s, d, id, NewHold(d, reason, authority, actor, requestedAt), now);
  }

  class ArchiveService {
    const repository: InMemoryRepository
    const storage: ObjectStorage

    constructor (repository: InMemoryRepository, storage: ObjectStorage)
      ensures this.repository == repository && this.storage == storage
    {
      this.repository, this.storage := repository, storage;
    }

    method PurgeDocument(d: DocumentId, effective: Day, t: PurgeClock) returns (outcome: Result<Document, ArchiveError>)
      modifies repository, storage
      ensures PurgeRun(repository.State(), storage.objects, outcome)
              == RunPurge(old(repository.State()), old(storage.objects), storage.unsafe, d, effective, t)
      ensures old(StoreInv(repository.State())) ==>
                PurgedSoundly(old(repository.State()), old(storage.objects), storage.unsafe, d, effective, t,
                              PurgeRun(repository.State(), storage.objects, outcome))
    {
      if StoreInv(repository.State()) {
        SoundPurge(repository.State(), storage.objects, storage.unsafe, d, effective, t);
      }
      var found := repository.GetByDocumentId(d);
      if found.None? { return Err(DocumentNotFound); }
      var refreshed := repository.RefreshLegalHoldSummary(d, t.refreshed);
      var m := found.value;
      if refreshed.Some? { m := refreshed.value; }
      if m.purgeStatus == Purged { return Ok(m); }
      var evaluation := EvaluatePurge(repository, m, effective, t.eligible, t.marked);
      if evaluation.Err? { return Err(evaluation.error); }
      if !evaluation.value.eligible {
        return Err(if evaluation.value.reason == HoldActive then LegalHoldActive else PurgeNotEligible);
      }
      var claimed := repository.BeginPurge(d, t.started);
      if claimed.None? { return Err(LegalHoldActive); }
      var deleted := storage.Delete(claimed.value.storageKey);
      if !deleted { return Err(StorageFailure); }
      var completed := repository.CompletePurge(d, t.purged, t.completed);
      outcome := Ok(if completed.Some? then completed.value else claimed.value);
    }

    /** The loop over the document's hold rows. */
    method FindMatchingHold(d: DocumentId, reason: string, authority: string) returns (found: Option<HoldId>)
      ensures found.Some? ==> found.value in MatchingHolds(repository.State().holds, d, reason, authority)
      ensures found.None? ==> MatchingHolds(repository.State().holds, d, reason, authority) == {}
    {
      var holds := repository.legalHolds;
      var remaining := holds.Keys;
      while remaining != {}
        invariant remaining <= holds.Keys && MatchingHolds(holds, d, reason, authority) <= remaining
        decreases remaining
      {
        var h :| h in remaining;
        if h in MatchingHolds(holds, d, reason, authority) { return Some(h); }
        remaining := remaining - {h};
      }
      found := None;
    }

    method SetLegalHold(d: DocumentId, reason: string, authority: string, actor: string, requestedAt: Instant,
                        now: Instant, id: HoldId)
      returns (outcome: Result<(HoldId, Hold), ArchiveError>)
      requires id !in repository.State().holds
      modifies repository
      ensures old(StoreInv(repository.State())) ==> StoreInv(repository.State())
      ensures HoldOutcome(old(repository.State()), repository.State(), d, reason, authority, actor, requestedAt, id,
                          outcome)
    {
      ghost var s := repository.State();
      MatchesAreRepeats(s.holds, d, reason, authority);
      var found := repository.GetByDocumentId(d);
      if found.None? { return Err(DocumentNotFound); }
      var existing := FindMatchingHold(d, reason, authority);
      if existing.Some? { return Ok((existing.value, repository.legalHolds[existing.value])); }
      var hold := NewHold(d, reason, authority, actor, requestedAt);
      AdmissionOutcome(s, d, reason, authority, actor, requestedAt, now, id);
      if StoreInv(s) { TransitionsKeepInvariants(s, DoAdmit(d, id, hold, now)); }
      var admitted := repository.AdmitAndRecordLegalHold(d, id, hold, now);
      outcome := if admitted.None? then Err(PurgeAlreadyStarted) else Ok((id, hold));
    }

    method ReleaseLegalHold(d: DocumentId, id: HoldId, release: Release, now: Instant)
      returns (outcome: Result<Hold, ArchiveError>)
      modifies repository
      ensures old(StoreInv(repository.State())) ==> StoreInv(repository.State())
      ensures ReleaseOutcome(old(repository.State()), repository.State(), d, id, release, outcome)
    {
      ghost var s := repository.State();
      if StoreInv(s) { TransitionsKeepInvariants(s, DoRelease(d, id, release, now)); }
      var found := repository.GetByDocumentId(d);
      if found.None? { return Err(DocumentNotFound); }
      var released := repository.ReleaseAndRecordLegalHold(d, id, release, now);
      if released.None? { return Err(LegalHoldNotFound); }
      ReleaseAnswers(s, d, id, release, now);
      outcome := Ok(released.value.0);
    }

    method ResolveCurrentDocument(x: Document) returns (resolution: Resolution)
      ensures resolution == Walk(repository.State(), x, {x.documentId})
    {
      var visited := {x.documentId};
      var current := x;
      while current.supersededBy.Some?
        invariant Walk(repository.State(), x, {x.documentId}) == Walk(repository.State(), current, visited)
        decreases repository.State().docs.Keys - visited, current.supersededBy.Some?
      {
        var next := current.supersededBy.value;
        if next in visited { return CycleDetected; }
        var found := repository.GetByDocumentId(next);
        if found.None? { return SuccessorMissing; }
        visited := visited + {next};
        current := found.value;
      }
      resolution := Resolved(current);
    }

    method ApplyLifecycleTransition(source: DocumentId, target: DocumentId, kind: TransitionKind, why: Grounds,
                                    id: string, requestedAt: Instant, now: Instant)
      returns (outcome: Result<(Relationship, Document), ArchiveError>)
      requires forall r :: r in repository.State().relationships ==> r.id != id
      modifies repository
      ensures old(StoreInv(repository.State())) ==>
                StoreInv(repository.State())
                && LinkOutcome(old(repository.State()), repository.State(), source, target, kind, why, id, requestedAt,
                               outcome)
    {
      ghost var s := repository.State();
      var relationship := NewRelationship(id, source, target, kind, why, requestedAt);
      if StoreInv(s) {
        TransitionsKeepInvariants(s, DoApply(source, target, kind, relationship, now));
      }
      outcome := LinkDocuments(source, target, kind, relationship, now);
      if StoreInv(s) {
        AnswersAreRecorded(s, source, target, kind, why, id, requestedAt, now);
      }
    }

    /** Checks once against what it read and once more against the stored rows; on a sound
        store the two agree. */
    method LinkDocuments(source: DocumentId, target: DocumentId, kind: TransitionKind, relationship: Relationship,
                         now: Instant)
      returns (outcome: Result<(Relationship, Document), ArchiveError>)
      requires RecordsTransition(relationship, source, target, kind)
      requires forall r :: r in repository.State().relationships ==> r.id != relationship.id
      modifies repository
      ensures old(StoreInv(repository.State())) ==>
                AnswersLike(ApplyTransition(old(repository.State()), source, target, kind, relationship, now),
                            repository.State(), target, outcome)
    {
      ghost var s := repository.State();
      if StoreInv(s) { TransitionsKeepInvariants(s, DoApply(source, target, kind, relationship, now)); }
      var from := repository.GetByDocumentId(source);
      if from.None? { return Err(DocumentNotFound); }
      var to := repository.GetByDocumentId(target);
      if to.None? { return Err(DocumentNotFound); }
      if StoreInv(s) { ResolutionAnswers(s, target); }
      var resolved := ResolveCurrentDocument(to.value);
      if !resolved.Resolved? {
        return Err(if resolved.CycleDetected? then SupersessionConflict else DocumentNotFound);
      }
      if PointersAgree(from.value, to.value, kind) {
        var recorded := repository.FindRecorded(source, target, kind);
        if recorded.Some? { return Ok((recorded.value, resolved.current)); }
      }
      var refusal := LifecycleRefusal(from.value, to.value);
      if refusal.Some? { return Err(refusal.value); }
      var linked := repository.ApplyLifecycleTransition(source, target, kind, relationship, now);
      match linked
      case Err(error) => outcome := Err(error);
      case Ok(link) =>
        if StoreInv(s) { ResolutionAnswers(repository.State(), target); }
        resolved := ResolveCurrentDocument(link.target);
        if resolved.Resolved? { return Ok((link.relationship, resolved.current)); }
        outcome := Err(if resolved.CycleDetected? then SupersessionConflict else DocumentNotFound);
    }
  }
}
