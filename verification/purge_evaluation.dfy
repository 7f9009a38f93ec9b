/** `purge_transitions.py`: eligibility decided from a possibly stale snapshot, and
    committed only against the stored row. */
module PurgeEvaluation {
  import opened Records
  import opened Transitions
  import opened CustodyInvariants
  import opened Repository

  datatype Reason =
    | AlreadyPurged | PurgeInProgress | HoldActive | RetainUntilMissing | RetentionActive
    | RetentionElapsed | PurgeStateChanged

  datatype Evaluation = Evaluation(document: Document, eligible: bool, reason: Reason)

  /** What the snapshot alone decides. */
  datatype Verdict = Final(evaluation: Evaluation) | Withdraw(reason: Reason) | Grant

  function Classify(m: Document, effective: Day): Verdict {
    if m.purgeStatus == Purged then Final(Evaluation(m, true, AlreadyPurged))
    else if m.purgeStartedAt.Some? then Final(Evaluation(m, true, PurgeInProgress))
    else if m.holdStatus == Active then Withdraw(HoldActive)
    else if m.input.retainUntil.None? then Withdraw(RetainUntilMissing)
    else if m.input.retainUntil.value > effective then Withdraw(RetentionActive)
    else if m.purgeStatus == Eligible then Final(Evaluation(m, true, RetentionElapsed))
    else Grant
  }

  /** What the re-read row alone answers; the hold rows are consulted only if it does not. */
  function ReclassifyRow(x: Document): Option<Evaluation> {
    if x.purgeStatus == Purged then Some(Evaluation(x, true, AlreadyPurged))
    else if x.purgeStartedAt.Some? then Some(Evaluation(x, true, PurgeInProgress))
    else if x.holdStatus == Active then Some(Evaluation(x, false, HoldActive))
    else None
  }

  function ReclassifyHolds(x: Document, holds: map<HoldId, Hold>, d: DocumentId): Evaluation {
    Evaluation(x, false, if ActiveHolds(holds, d) != {} then HoldActive else PurgeStateChanged)
  }

  /** What a refused transition is answered with: the row as re-read in one store, and its
      hold rows as listed in a later one. */
  function RereadAnswer(reread: Store, listed: Store, d: DocumentId): Evaluation
    requires d in reread.docs
  {
    match ReclassifyRow(reread.docs[d])
    case Some(e) => e
    case None => ReclassifyHolds(reread.docs[d], listed.holds, d)
  }

  function Reclassify(s: Store, d: DocumentId): Result<Evaluation, ArchiveError> {
    if d !in s.docs then Err(DocumentNotFound) else Ok(RereadAnswer(s, s, d))
  }

  function Evaluate(s: Store, m: Document, effective: Day, eligibleAt: Instant,
                    now: Instant): Answer<Result<Evaluation, ArchiveError>>
  {
    match Classify(m, effective)
    case Final(e) => Answer(s, Ok(e))
    case Withdraw(reason) =>
      var a := MarkNotEligible(s, m.documentId, now);
      if a.value.None? then Answer(s, Reclassify(s, m.documentId))
      else Answer(a.store, Ok(Evaluation(a.value.value, false, reason)))
    case Grant =>
      var a := MarkEligible(s, m.documentId, eligibleAt, now);
      if a.value.None? then Answer(s, Reclassify(s, m.documentId))
      else Answer(a.store, Ok(Evaluation(a.value.value, true, RetentionElapsed)))
  }

  predicate RetentionElapsedOn(x: Document, day: Day) {
    x.input.retainUntil.Some? && x.input.retainUntil.value <= day
  }

  /** `purge_state_changed` is answered exactly when the re-read row shows no intent and no
      active hold, and the later listing finds none either. After a refused grant the hold
      that refused it has then been released; after a refused withdrawal it never happens. */
  lemma PurgeStateChangedIsExact(refused: Store, reread: Store, listed: Store, d: DocumentId, now: Instant)
    requires RowsInv(refused) && RowsInv(reread) && StoreEvolves(refused, reread) && d in refused.docs
        && d in reread.docs
    ensures var changed := RereadAnswer(reread, listed, d).reason == PurgeStateChanged;
            && (changed <==> && reread.docs[d].purgeStartedAt.None? && ActiveHolds(reread.holds, d) == {}
                             && ActiveHolds(listed.holds, d) == {})
            && (changed && MarkEligible(refused, d, now, now).value.None? ==> ActiveHolds(refused.holds, d) != {})
            && (changed ==> MarkNotEligible(refused, d, now).value.Some?)
  {
    assert RowInv(refused, d) && RowInv(reread, d) && DocumentEvolves(refused, reread, d);
    assert |ActiveHolds(reread.holds, d)| == 0 <==> ActiveHolds(reread.holds, d) == {};
  }

  /** What explains a refused transition, read off the row and the hold rows: destruction as
      far as it has come, else a hold the row or the rows show, else a state that changed. */
  ghost predicate Explains(e: Evaluation, x: Document, heldByRow: bool) {
    var started := x.purgeStatus == Purged || x.purgeStartedAt.Some?;
    var held := x.holdStatus == Active || heldByRow;
    && e.document == x && (e.eligible <==> started)
    && (e.reason == AlreadyPurged <==> x.purgeStatus == Purged)
    && (e.reason == PurgeInProgress <==> x.purgeStatus != Purged && x.purgeStartedAt.Some?)
    && (e.reason == HoldActive <==> !started && held)
    && (e.reason == PurgeStateChanged <==> !started && !held)
  }

  /** The explanation is exact for the row re-read and the rows listed, whatever they hold. */
  lemma RefusalsAreExplained(reread: Store, listed: Store, d: DocumentId)
    requires d in reread.docs
    ensures var hs := listed.holds;
            Explains(RereadAnswer(reread, listed, d), reread.docs[d],
                     exists h :: h in hs && hs[h].documentId == d && hs[h].status == Active)
  {
    assert forall h :: h in ActiveHolds(listed.holds, d) <==>
                         h in listed.holds && listed.holds[h].documentId == d && listed.holds[h].status == Active;
  }

  /** Why an evaluation of a current snapshot answers what it does. */
  ghost predicate Reasons(reason: Reason, x: Document, held: bool, effective: Day) {
    var idle, until := x.purgeStatus != Purged && x.purgeStartedAt.None? && !held, x.input.retainUntil;
    && (reason == AlreadyPurged <==> x.purgeStatus == Purged)
    && (reason == PurgeInProgress <==> x.purgeStatus != Purged && x.purgeStartedAt.Some?)
    && (reason == HoldActive <==> held)
    && (reason == RetainUntilMissing <==> idle && until.None?)
    && (reason == RetentionActive <==> idle && until.Some? && until.value > effective)
    && (reason == RetentionElapsed <==> idle && until.Some? && until.value <= effective)
    && reason != PurgeStateChanged
  }

  /** The row an evaluation leaves: untouched once destruction has begun; otherwise eligible or
      not as answered, with the first instant it became eligible kept, and nothing else moved
      but the instant it was touched. */
  ghost predicate Marked(x: Document, y: Document, eligible: bool, eligibleAt: Instant, now: Instant) {
    && y.(purgeStatus := x.purgeStatus, purgeEligibleAt := x.purgeEligibleAt, updatedAt := x.updatedAt) == x
    && (x.purgeStartedAt.Some? ==> y == x)
    && (x.purgeStartedAt.None? ==> y.purgeStatus == (if eligible then Eligible else NotEligible))
    && (y.purgeStatus == x.purgeStatus ==> y == x)
    && (y.purgeStatus != x.purgeStatus ==>
          && y.updatedAt == now
          && y.purgeEligibleAt == (if eligible && x.purgeEligibleAt.None? then Some(eligibleAt) else x.purgeEligibleAt))
  }

  lemma EvaluationReasonsAreExact(s: Store, d: DocumentId, effective: Day, eligibleAt: Instant, now: Instant)
    requires RowsInv(s) && d in s.docs
    ensures var a := Evaluate(s, s.docs[d], effective, eligibleAt, now);
            && a.value.Ok? && d in a.store.docs
            && Reasons(a.value.value.reason, s.docs[d], ActiveHolds(s.holds, d) != {}, effective)
            && Marked(s.docs[d], a.store.docs[d], a.value.value.eligible, eligibleAt, now)
  {
    assert RowInv(s, d);
    assert ActiveHolds(s.holds, d) == {} <==> |ActiveHolds(s.holds, d)| == 0;
  }

  /** From a snapshot however stale, what the stored row allows decides: an answer given from
      the snapshot alone writes nothing; a mark is written only where the stored row allows
      it; a mark the stored row refuses is explained from it, and nothing is written. */
  lemma StaleEvaluationsAreExact(s: Store, m: Document, effective: Day, eligibleAt: Instant, now: Instant)
    ensures var a, d := Evaluate(s, m, effective, eligibleAt, now), m.documentId;
            var started := m.purgeStatus == Purged || m.purgeStartedAt.Some?;
            var due := m.holdStatus == Clear && m.input.retainUntil.Some? && m.input.retainUntil.value <= effective;
            var idle := d in s.docs && s.docs[d].purgeStartedAt.None? && s.docs[d].purgeStatus != Purged;
            var free := idle && s.docs[d].holdStatus == Clear && ActiveHolds(s.holds, d) == {};
            && (started || (due && m.purgeStatus == Eligible) ==>
                  && a.store == s && a.value.Ok? && a.value.value.document == m && a.value.value.eligible
                  && Reasons(a.value.value.reason, m.(holdStatus := Clear), false, effective))
            && (!started && !due && idle ==>
                  && OnlyRow(s, a.store, d) && a.value.Ok? && a.value.value.document == a.store.docs[d]
                  && !a.value.value.eligible && a.store.docs[d].purgeStatus == NotEligible
                  && Reasons(a.value.value.reason, m, m.holdStatus == Active, effective))
            && (!started && due && m.purgeStatus != Eligible && free ==>
                  && OnlyRow(s, a.store, d) && a.value.Ok? && a.value.value.document == a.store.docs[d]
                  && a.value.value.eligible && a.store.docs[d].purgeStatus == Eligible
                  && a.value.value.reason == RetentionElapsed)
            && (!started && !(due && m.purgeStatus == Eligible) && !(if due then free else idle) ==>
                  a.store == s && a.value == (if d in s.docs then Ok(RereadAnswer(s, s, d)) else Err(DocumentNotFound)))
  {
    var d := m.documentId;
    assert ActiveHolds(s.holds, d) == {} <==> |ActiveHolds(s.holds, d)| == 0;
    if d in s.docs { assert s.docs[d := s.docs[d]] == s.docs; }
  }

  /** Whatever the snapshot, an evaluation is at most one guarded transition. */
  function EvaluationStep(m: Document, effective: Day, eligibleAt: Instant, now: Instant): Command {
    match Classify(m, effective)
    case Final(_) => DoRefresh(m.documentId, now)
    case Withdraw(_) => DoMarkNotEligible(m.documentId, now)
    case Grant => DoMarkEligible(m.documentId, eligibleAt, now)
  }

  lemma EvaluationKeepsInvariants(s: Store, m: Document, effective: Day, eligibleAt: Instant, now: Instant)
    requires StoreInv(s)
    ensures StoreInv(Evaluate(s, m, effective, eligibleAt, now).store)
        && StoreEvolves(s, Evaluate(s, m, effective, eligibleAt, now).store)
  {
    var c := EvaluationStep(m, effective, eligibleAt, now);
    TransitionsKeepInvariants(s, c);
    TransitionsOnlyAccumulate(s, c);
    EvaluationIsOneStep(s, m, effective, eligibleAt, now);
  }

  lemma EvaluationIsOneStep(s: Store, m: Document, effective: Day, eligibleAt: Instant, now: Instant)
    requires RowsInv(s)
    ensures Evaluate(s, m, effective, eligibleAt, now).store
        == Perform(s, EvaluationStep(m, effective, eligibleAt, now)).store
  {
    if m.documentId in s.docs {
      assert RowInv(s, m.documentId);
      RefreshIsIdentity(s, m.documentId, now);
    }
  }

  /** From a current snapshot, a document is found eligible exactly when destruction has
      already begun, or no hold is active and its retention date has been reached. */
  lemma EvaluationIsExact(s: Store, d: DocumentId, effective: Day, eligibleAt: Instant, now: Instant)
    requires RowsInv(s) && d in s.docs
    ensures var a := Evaluate(s, s.docs[d], effective, eligibleAt, now);
            && a.value.Ok? && d in a.store.docs
            && a.value.value.document == a.store.docs[d]
            && (a.value.value.eligible <==>
                  s.docs[d].purgeStartedAt.Some?
                  || (ActiveHolds(s.holds, d) == {} && RetentionElapsedOn(s.docs[d], effective)))
            && (a.value.value.reason == HoldActive <==> ActiveHolds(s.holds, d) != {})
            && a.store == s.(docs := s.docs[d := a.store.docs[d]])
            && (s.docs[d].purgeStartedAt.Some? ==> a.store == s)
            && (s.docs[d].purgeStartedAt.None? ==>
                  (a.store.docs[d].purgeStatus == Eligible <==> a.value.value.eligible))
  {
    assert RowInv(s, d);
    assert ActiveHolds(s.holds, d) == {} <==> |ActiveHolds(s.holds, d)| == 0;
    assert s == s.(docs := s.docs[d := s.docs[d]]);
  }

  method ReclassifyRefusedTransition(repository: InMemoryRepository, d: DocumentId)
    returns (evaluation: Result<Evaluation, ArchiveError>)
    ensures evaluation == Reclassify(repository.State(), d)
  {
    var current := repository.GetByDocumentId(d);
    if current.None? { return Err(DocumentNotFound); }
    var answered := ReclassifyRow(current.value);
    if answered.Some? { return Ok(answered.value); }
    var active := repository.ActiveHoldCount(d);
    if active != 0 { return Ok(Evaluation(current.value, false, HoldActive)); }
    evaluation := Ok(Evaluation(current.value, false, PurgeStateChanged));
  }

  method WithdrawEligibility(repository: InMemoryRepository, m: Document, reason: Reason, now: Instant)
    returns (evaluation: Result<Evaluation, ArchiveError>)
    modifies repository
    ensures var a := MarkNotEligible(old(repository.State()), m.documentId, now);
            repository.State() == a.store
            && evaluation == if a.value.None? then Reclassify(a.store, m.documentId)
                             else Ok(Evaluation(a.value.value, false, reason))
  {
    var withdrawn := repository.MarkPurgeNotEligible(m.documentId, now);
    if withdrawn.None? {
      evaluation := ReclassifyRefusedTransition(repository, m.documentId);
    } else {
      evaluation := Ok(Evaluation(withdrawn.value, false, reason));
    }
  }

  method EvaluatePurge(repository: InMemoryRepository, m: Document, effective: Day, eligibleAt: Instant, now: Instant)
    returns (evaluation: Result<Evaluation, ArchiveError>)
    modifies repository
    ensures Answer(repository.State(), evaluation) == Evaluate(old(repository.State()), m, effective, eligibleAt, now)
  {
    if m.purgeStatus == Purged { return Ok(Evaluation(m, true, AlreadyPurged)); }
    if m.purgeStartedAt.Some? { return Ok(Evaluation(m, true, PurgeInProgress)); }
    if m.holdStatus == Active {
      evaluation := WithdrawEligibility(repository, m, HoldActive, now);
      return;
    }
    if m.input.retainUntil.None? {
      evaluation := WithdrawEligibility(repository, m, RetainUntilMissing, now);
      return;
    }
    if m.input.retainUntil.value > effective {
      evaluation := WithdrawEligibility(repository, m, RetentionActive, now);
      return;
    }
    if m.purgeStatus == Eligible { return Ok(Evaluation(m, true, RetentionElapsed)); }
    var granted := repository.MarkPurgeEligible(m.documentId, eligibleAt, now);
    if granted.None? {
      evaluation := ReclassifyRefusedTransition(repository, m.documentId);
    } else {
      evaluation := Ok(Evaluation(granted.value, true, RetentionElapsed));
    }
  }
}
