/** The purge thread, left alone, is the purge method: the interleaved programs and the
    service's own contract speak of the same call, clock reads and failures included. */
module CustodyUndisturbed {
  import opened Records
  import opened Transitions
  import opened CustodyInvariants
  import opened PurgeEvaluation
  import opened Platforms
  import opened Service
  import opened CustodyThreads
  import opened CustodyTheorems

  /** The thread has ended with this outcome, over this store and these objects. */
  ghost predicate EndsLike(t: Stepped<Call>, run: PurgeRun) {
    && t.shared.store == run.store && t.shared.objects == run.objects && t.pc.Purging?
    && match run.outcome
       case Ok(m) => t.pc.purge == Destroyed(m)
       case Err(error) => t.pc.purge == Refused(error)
  }

  function Caller(d: DocumentId, date: Option<Day>, pc: PurgePc): Call {
    Purging(d, date, Execute, pc)
  }

  /** The rest of the method from its claim on, which step `i` makes; the deletion and the
      completion are the two steps after it. */
  function Claim(s: Store, objects: map<StorageKey, Bytes>, d: DocumentId, envs: nat -> Env, i: nat): PurgeRun {
    var claimed := BeginPurge(s, d, envs(i).now);
    if claimed.value.None? then PurgeRun(claimed.store, objects, Err(LegalHoldActive))
    else if envs(i + 1).fails then PurgeRun(claimed.store, objects, Err(StorageFailure))
    else
      var completed := CompletePurge(claimed.store, d, envs(i + 2).now, envs(i + 2).now);
      PurgeRun(completed.store, objects - {claimed.value.value.storageKey},
               Ok(if completed.value.Some? then completed.value.value else claimed.value.value))
  }

  /** The rest of the method from its evaluation on. */
  function After(s: Store, objects: map<StorageKey, Bytes>, d: DocumentId, evaluated: Result<Evaluation, ArchiveError>,
                 envs: nat -> Env, i: nat): PurgeRun
  {
    match evaluated
    case Err(error) => PurgeRun(s, objects, Err(error))
    case Ok(e) =>
      if e.eligible then Claim(s, objects, d, envs, i)
      else PurgeRun(s, objects, Err(if e.reason == HoldActive then LegalHoldActive else PurgeNotEligible))
  }

  lemma ClaimingAlone(p: Platform, s: Shared, d: DocumentId, date: Option<Day>, envs: nat -> Env, i: nat, n: nat)
    requires n >= 3
    ensures EndsLike(RunAlone(p, s, Caller(d, date, Claiming), envs, i, n), Claim(s.store, s.objects, d, envs, i))
  {
    var t1 := PurgeStep(s, d, date, Execute, Claiming, envs(i));
    OneAlone(p, s, Caller(d, date, Claiming), envs, i, n, t1.shared, Caller(d, date, t1.pc));
    if t1.pc.Refused? { EndedStays(p, t1.shared, Caller(d, date, t1.pc), envs, i + 1, n - 1); }
    else { DeletingAlone(p, t1.shared, d, date, t1.pc.m, envs, i + 1, n - 1); }
  }

  lemma DeletingAlone(p: Platform, s: Shared, d: DocumentId, date: Option<Day>, m: Document, envs: nat -> Env,
                      i: nat, n: nat)
    requires n >= 2
    ensures var t := RunAlone(p, s, Caller(d, date, Deleting(m)), envs, i, n);
            var completed := CompletePurge(s.store, d, envs(i + 1).now, envs(i + 1).now);
            EndsLike(t, if envs(i).fails then PurgeRun(s.store, s.objects, Err(StorageFailure))
                        else PurgeRun(completed.store, s.objects - {m.storageKey},
                                      Ok(if completed.value.Some? then completed.value.value else m)))
  {
    var t1 := PurgeStep(s, d, date, Execute, Deleting(m), envs(i));
    OneAlone(p, s, Caller(d, date, Deleting(m)), envs, i, n, t1.shared, Caller(d, date, t1.pc));
    if t1.pc.Refused? { EndedStays(p, t1.shared, Caller(d, date, t1.pc), envs, i + 1, n - 1); }
    else {
      var t2 := PurgeStep(t1.shared, d, date, Execute, t1.pc, envs(i + 1));
      OneAlone(p, t1.shared, Caller(d, date, t1.pc), envs, i + 1, n - 1, t2.shared, Caller(d, date, t2.pc));
      EndedStays(p, t2.shared, Caller(d, date, t2.pc), envs, i + 2, n - 2);
    }
  }

  lemma EvaluatedAlone(p: Platform, s: Shared, d: DocumentId, date: Option<Day>, e: Evaluation, envs: nat -> Env,
                       i: nat, n: nat)
    requires n >= 4
    ensures EndsLike(RunAlone(p, s, Caller(d, date, Evaluated(e)), envs, i, n),
                     After(s.store, s.objects, d, Ok(e), envs, i + 1))
  {
    var t := PurgeStep(s, d, date, Execute, Evaluated(e), envs(i));
    OneAlone(p, s, Caller(d, date, Evaluated(e)), envs, i, n, t.shared, Caller(d, date, t.pc));
    if e.eligible { ClaimingAlone(p, s, d, date, envs, i + 1, n - 1); }
    else { EndedStays(p, s, Caller(d, date, t.pc), envs, i + 1, n - 1); }
  }

  lemma RereadingAlone(p: Platform, s: Shared, d: DocumentId, date: Option<Day>, envs: nat -> Env, i: nat, n: nat)
    requires n >= 6
    ensures EndsLike(RunAlone(p, s, Caller(d, date, Rereading), envs, i, n),
                     After(s.store, s.objects, d, Reclassify(s.store, d), envs, i + 2))
  {
    var t := PurgeStep(s, d, date, Execute, Rereading, envs(i));
    OneAlone(p, s, Caller(d, date, Rereading), envs, i, n, s, Caller(d, date, t.pc));
    if t.pc.Refused? { EndedStays(p, s, Caller(d, date, t.pc), envs, i + 1, n - 1); }
    else if t.pc.Evaluated? { EvaluatedAlone(p, s, d, date, t.pc.e, envs, i + 1, n - 1); }
    else {
      var u := PurgeStep(s, d, date, Execute, t.pc, envs(i + 1));
      OneAlone(p, s, Caller(d, date, t.pc), envs, i + 1, n - 1, s, Caller(d, date, u.pc));
      EvaluatedAlone(p, s, d, date, u.pc.e, envs, i + 2, n - 2);
    }
  }

  function Explained(s: Store, d: DocumentId, marked: Option<Document>, eligible: bool, reason: Reason)
    : Result<Evaluation, ArchiveError>
  {
    if marked.None? then Reclassify(s, d) else Ok(Evaluation(marked.value, eligible, reason))
  }

  /** A mark that was refused is explained by a re-read, one that was written is answered. */
  lemma MarkedAlone(p: Platform, s: Shared, d: DocumentId, date: Option<Day>, marked: Option<Document>, eligible: bool,
                    reason: Reason, envs: nat -> Env, i: nat, n: nat)
    requires n >= 6
    ensures var pc := if marked.None? then Rereading else Evaluated(Evaluation(marked.value, eligible, reason));
            EndsLike(RunAlone(p, s, Caller(d, date, pc), envs, i, n),
                     After(s.store, s.objects, d, Explained(s.store, d, marked, eligible, reason), envs,
                           if marked.None? then i + 2 else i + 1))
  {
    if marked.None? { RereadingAlone(p, s, d, date, envs, i, n); }
    else { EvaluatedAlone(p, s, d, date, Evaluation(marked.value, eligible, reason), envs, i, n); }
  }

  lemma GrantingAlone(p: Platform, s: Shared, d: DocumentId, date: Option<Day>, envs: nat -> Env, i: nat, n: nat)
    requires n >= 7
    ensures var a := MarkEligible(s.store, d, envs(i).now, envs(i).now);
            EndsLike(RunAlone(p, s, Caller(d, date, Granting), envs, i, n),
                     After(a.store, s.objects, d, Explained(a.store, d, a.value, true, RetentionElapsed), envs,
                           if a.value.None? then i + 3 else i + 2))
  {
    var u := PurgeStep(s, d, date, Execute, Granting, envs(i));
    var marked := MarkEligible(s.store, d, envs(i).now, envs(i).now).value;
    OneAlone(p, s, Caller(d, date, Granting), envs, i, n, u.shared, Caller(d, date, u.pc));
    MarkedAlone(p, u.shared, d, date, marked, true, RetentionElapsed, envs, i + 1, n - 1);
  }

  lemma WithdrawingAlone(p: Platform, s: Shared, d: DocumentId, date: Option<Day>, reason: Reason, envs: nat -> Env,
                         i: nat, n: nat)
    requires n >= 7
    ensures var a := MarkNotEligible(s.store, d, envs(i).now);
            EndsLike(RunAlone(p, s, Caller(d, date, Withdrawing(reason)), envs, i, n),
                     After(a.store, s.objects, d, Explained(a.store, d, a.value, false, reason), envs,
                           if a.value.None? then i + 3 else i + 2))
  {
    var u := PurgeStep(s, d, date, Execute, Withdrawing(reason), envs(i));
    var marked := MarkNotEligible(s.store, d, envs(i).now).value;
    OneAlone(p, s, Caller(d, date, Withdrawing(reason)), envs, i, n, u.shared, Caller(d, date, u.pc));
    MarkedAlone(p, u.shared, d, date, marked, false, reason, envs, i + 1, n - 1);
  }

  lemma GrantRefusalsChangeNothing(s: Store, d: DocumentId, now: Instant)
    ensures MarkEligible(s, d, now, now).value.None? ==> MarkEligible(s, d, now, now).store == s
    ensures MarkNotEligible(s, d, now).value.None? ==> MarkNotEligible(s, d, now).store == s
  {
  }

  function Decided(v: Verdict): PurgePc {
    match v
    case Final(e) => Evaluated(e)
    case Withdraw(reason) => Withdrawing(reason)
    case Grant => Granting
  }

  /** The evaluation from step `i` on, and the step at which a claim would follow it. */
  lemma DecidedAlone(p: Platform, s: Shared, m: Document, date: Option<Day>, effective: Day, envs: nat -> Env,
                     i: nat, n: nat) returns (claim: nat)
    requires n >= 7
    ensures i < claim <= i + 3
    ensures var a := Evaluate(s.store, m, effective, envs(i).now, envs(i).now);
            EndsLike(RunAlone(p, s, Caller(m.documentId, date, Decided(Classify(m, effective))), envs, i, n),
                     After(a.store, s.objects, m.documentId, a.value, envs, claim))
  {
    var d := m.documentId;
    GrantRefusalsChangeNothing(s.store, d, envs(i).now);
    match Classify(m, effective) {
      case Final(e) =>
        EvaluatedAlone(p, s, d, date, e, envs, i, n);
        claim := i + 1;
      case Withdraw(reason) =>
        WithdrawingAlone(p, s, d, date, reason, envs, i, n);
        claim := if MarkNotEligible(s.store, d, envs(i).now).value.None? then i + 3 else i + 2;
      case Grant =>
        GrantingAlone(p, s, d, date, envs, i, n);
        claim := if MarkEligible(s.store, d, envs(i).now, envs(i).now).value.None? then i + 3 else i + 2;
    }
  }

  lemma EvaluatingMoves(p: Platform, s: Shared, m: Document, date: Option<Day>, envs: nat -> Env, i: nat, n: nat)
    requires n > 0
    ensures var v := Classify(m, if date.Some? then date.value else s.today);
            RunAlone(p, s, Caller(m.documentId, date, Evaluating(m)), envs, i, n)
            == RunAlone(p, s, Caller(m.documentId, date, Decided(v)), envs, i + 1, n - 1)
  {
    var v := Classify(m, if date.Some? then date.value else s.today);
    OneAlone(p, s, Caller(m.documentId, date, Evaluating(m)), envs, i, n, s, Caller(m.documentId, date, Decided(v)));
  }

  /** The instants the method reads, as the thread's steps read them: the refresh is step 1,
      a mark is step 3, and the claim, two steps before the completion, is step `claim`. */
  function ClockOf(envs: nat -> Env, claim: nat): PurgeClock {
    PurgeClock(envs(1).now, envs(3).now, envs(3).now, envs(claim).now, envs(claim + 2).now, envs(claim + 2).now)
  }

  lemma MethodEvaluates(s: Store, objects: map<StorageKey, Bytes>, d: DocumentId, effective: Day, envs: nat -> Env,
                        claim: nat)
    requires RowsInv(s) && d in s.docs && s.docs[d].purgeStatus != Purged
    ensures var a := Evaluate(s, s.docs[d], effective, envs(3).now, envs(3).now);
            RunPurge(s, objects, k => envs(claim + 1).fails, d, effective, ClockOf(envs, claim))
            == After(a.store, objects, d, a.value, envs, claim)
  {
    assert RowInv(s, d);
    RefreshIsIdentity(s, d, envs(1).now);
  }

  lemma LookingMoves(p: Platform, s: Shared, d: DocumentId, date: Option<Day>, envs: nat -> Env)
    requires RowsInv(s.store) && d in s.store.docs
    ensures var x := s.store.docs[d];
            var pc := if x.purgeStatus == Purged then Destroyed(x) else Evaluating(x);
            RunAlone(p, s, Caller(d, date, Looking), envs, 0, 10) == RunAlone(p, s, Caller(d, date, pc), envs, 2, 8)
  {
    var x := s.store.docs[d];
    assert RowInv(s.store, d);
    RefreshIsIdentity(s.store, d, envs(1).now);
    OneAlone(p, s, Caller(d, date, Looking), envs, 0, 10, s, Caller(d, date, Refreshing(x)));
    OneAlone(p, s, Caller(d, date, Refreshing(x)), envs, 1, 9, s,
             Caller(d, date, if x.purgeStatus == Purged then Destroyed(x) else Evaluating(x)));
  }

  /** Ten steps of the thread left alone end like the method, on the clock those steps read;
      the method's storage fails exactly when the step after the claim does. */
  ghost predicate IsTheMethod(p: Platform, s: Shared, d: DocumentId, date: Option<Day>, envs: nat -> Env, claim: nat) {
    EndsLike(RunAlone(p, s, Caller(d, date, Looking), envs, 0, 10),
             RunPurge(s.store, s.objects, k => envs(claim + 1).fails, d,
                      if date.Some? then date.value else s.today, ClockOf(envs, claim)))
  }

  /** A purge thread left alone, each step in an environment of its own, leaves the store, the
      objects and the answer of the purge method. */
  lemma UndisturbedPurgeIsTheMethod(p: Platform, s: Shared, d: DocumentId, date: Option<Day>, envs: nat -> Env)
    returns (claim: nat)
    requires RowsInv(s.store)
    ensures 4 <= claim <= 6 && IsTheMethod(p, s, d, date, envs, claim)
  {
    if d in s.store.docs && s.store.docs[d].purgeStatus != Purged {
      claim := UnpurgedAlone(p, s, d, date, envs);
    } else {
      claim := 4;
      SettledAlone(p, s, d, date, envs, claim);
    }
  }

  /** A missing document, or one already purged, is answered without an evaluation. */
  lemma SettledAlone(p: Platform, s: Shared, d: DocumentId, date: Option<Day>, envs: nat -> Env, claim: nat)
    requires RowsInv(s.store) && (d !in s.store.docs || s.store.docs[d].purgeStatus == Purged)
    ensures IsTheMethod(p, s, d, date, envs, claim)
  {
    if d !in s.store.docs {
      OneAlone(p, s, Caller(d, date, Looking), envs, 0, 10, s, Caller(d, date, Refused(DocumentNotFound)));
      EndedStays(p, s, Caller(d, date, Refused(DocumentNotFound)), envs, 1, 9);
    } else {
      assert RowInv(s.store, d);
      RefreshIsIdentity(s.store, d, envs(1).now);
      LookingMoves(p, s, d, date, envs);
      EndedStays(p, s, Caller(d, date, Destroyed(s.store.docs[d])), envs, 2, 8);
    }
  }

  lemma UnpurgedAlone(p: Platform, s: Shared, d: DocumentId, date: Option<Day>, envs: nat -> Env)
    returns (claim: nat)
    requires RowsInv(s.store) && d in s.store.docs && s.store.docs[d].purgeStatus != Purged
    ensures 4 <= claim <= 6 && IsTheMethod(p, s, d, date, envs, claim)
  {
    var x, effective := s.store.docs[d], if date.Some? then date.value else s.today;
    assert x.documentId == d by { assert RowInv(s.store, d); }
    LookingMoves(p, s, d, date, envs);
    EvaluatingMoves(p, s, x, date, envs, 2, 8);
    claim := DecidedAlone(p, s, x, date, effective, envs, 3, 7);
    MethodEvaluates(s.store, s.objects, d, effective, envs, claim);
  }
}
