/** Every step of every program keeps the shared invariant, reaches its next assertion, and
    guarantees what the other threads rely on. */
module CustodySteps {
  import opened Records
  import opened Transitions
  import opened CustodyInvariants
  import Supersession
  import opened PurgeEvaluation
  import opened DecisionActions
  import opened Platforms
  import opened CustodyThreads
  import opened CustodyAssertions

  /** An identifier minted for this step: used nowhere yet. */
  ghost predicate Minted(s: Shared, id: string) {
    && id in s.issued && PlainId(id) && id !in s.store.docs && id !in s.placed && id !in s.store.holds
    && (forall r :: r in s.store.relationships ==> r.id != id)
  }

  lemma Minting(p: Platform, s: Shared, id: string)
    requires SharedInv(p, s) && id !in s.issued && PlainId(id)
    ensures SharedInv(p, Mint(s, id)) && Minted(Mint(s, id), id) && Evolves(s, Mint(s, id), {})
  {
    var s' := Mint(s, id);
    forall d | d in s'.store.docs ensures DocOk(p, s', d) && d != id { assert DocOk(p, s, d); }
    forall d | d in s'.placed ensures PlacedOk(p, s', d) && d != id { assert PlacedOk(p, s, d); }
    forall d | d in s'.orphans ensures OrphanOk(s', d) { assert OrphanOk(s, d); }
    forall k | k in s'.objects ensures Traced(s', k) { assert Traced(s, k); }
    StoreIsItself(s.store);
  }

  /** Puts that no document owns, no crashed writer left and `own` does not name. */
  ghost predicate Stray(s: Shared, own: set<DocumentId>, id: DocumentId) {
    id in s.placed && id !in s.store.docs && s.placed[id] in s.objects && id !in s.orphans && id !in own
  }

  /** What a step of the thread owning `own` guarantees, itself owning `own'` afterwards. */
  ghost predicate Guarantee(p: Platform, s: Shared, s': Shared, own: set<DocumentId>, own': set<DocumentId>,
                            minted: string)
  {
    && SharedInv(p, s') && Evolves(s, s', own) && own' <= own + {minted}
    && (forall id {:trigger Stray(s', own', id)} :: Stray(s', own', id) ==> Stray(s, own, id))
  }

  /** Which guarded transitions a program may run at its current point. */
  ghost predicate Warranted(s: Shared, c: Command) {
    && Admissible(s.store, c) && !c.DoSave?
    && (c.DoBeginPurge? || c.DoMarkEligible? ==> Disposable(s, c.d))
    && (c.DoComplete? ==> c.d in s.erased)
    && (c.DoAdmit? ==> c.holdId in s.issued)
    && (c.DoApply? ==> c.relationship.id in s.issued)
  }

  lemma CommandKeepsDocs(s: Store, c: Command)
    requires RowsInv(s) && !c.DoSave? && Admissible(s, c)
    ensures Perform(s, c).store.docs.Keys == s.docs.Keys
    ensures Perform(s, c).store.byRequest == s.byRequest
  {
    match c
    case DoApply(f, t, k, r, now) => ApplyLinksOrLeaves(s, f, t, k, r, now);
    case _ =>
  }

  /** The three ways a command can change what a document owes its retention date. */
  lemma CommandOnPurgeColumns(s: Store, c: Command, d: DocumentId)
    requires RowsInv(s) && !c.DoSave? && Admissible(s, c) && d in s.docs
    ensures var s' := Perform(s, c).store;
            d in s'.docs
            && (s'.docs[d].purgeStartedAt.Some? ==> s.docs[d].purgeStartedAt.Some? || (c.DoBeginPurge? && c.d == d))
            && (s'.docs[d].purgeStatus == Eligible ==> s.docs[d].purgeStatus == Eligible
                                                       || (c.DoMarkEligible? && c.d == d))
            && (s'.docs[d].purgeStatus == Purged ==> s.docs[d].purgeStatus == Purged || (c.DoComplete? && c.d == d))
  {
    match c
    case DoApply(f, t, k, r, now) => ApplyLinksOrLeaves(s, f, t, k, r, now);
    case _ =>
  }

  lemma CommandKeepsDocOk(p: Platform, s: Shared, c: Command, d: DocumentId)
    requires RowsInv(s.store) && Warranted(s, c) && DocOk(p, s, d)
    requires DocumentEvolves(s.store, Perform(s.store, c).store, d)
    ensures DocOk(p, Did(s, c), d)
  {
    CommandOnPurgeColumns(s.store, c, d);
  }

  lemma RepositoryStep(p: Platform, s: Shared, c: Command, own: set<DocumentId>, minted: string)
    requires SharedInv(p, s) && Warranted(s, c)
    ensures Guarantee(p, s, Did(s, c), own, own, minted)
  {
    CommandKeepsShared(p, s, c);
    CommandEvolves(s, c, own);
    SamePutsLeftAlone(s, Did(s, c), own);
  }

  lemma CommandEvolves(s: Shared, c: Command, own: set<DocumentId>)
    requires RowsInv(s.store) && Warranted(s, c)
    ensures Evolves(s, Did(s, c), own) && Did(s, c).store.docs.Keys == s.store.docs.Keys
  {
    TransitionsOnlyAccumulate(s.store, c);
    CommandKeepsDocs(s.store, c);
    SamePutsLeftAlone(s, Did(s, c), own);
  }

  lemma CommandKeepsDocRows(p: Platform, s: Shared, c: Command)
    requires SharedInv(p, s) && Warranted(s, c)
    ensures var s' := Did(s, c); forall d {:trigger DocOk(p, s', d)} :: d in s'.store.docs ==> DocOk(p, s', d)
  {
    var s' := Did(s, c);
    TransitionsOnlyAccumulate(s.store, c);
    CommandKeepsDocs(s.store, c);
    forall d | d in s'.store.docs ensures DocOk(p, s', d) {
      assert DocOk(p, s, d) && DocumentEvolves(s.store, s'.store, d);
      CommandKeepsDocOk(p, s, c, d);
    }
  }

  lemma CommandKeepsShared(p: Platform, s: Shared, c: Command)
    requires SharedInv(p, s) && Warranted(s, c)
    ensures SharedInv(p, Did(s, c))
  {
    var s' := Did(s, c);
    TransitionsKeepInvariants(s.store, c);
    CommandKeepsDocs(s.store, c);
    CommandKeepsDocRows(p, s, c);
    NothingPlaced(p, s, s');
    OrphansRemain(p, s, s', {});
    CommandIdsAreIssued(s, c);
  }

  lemma SamePutsLeftAlone(s: Shared, s': Shared, own: set<DocumentId>)
    requires s'.placed == s.placed && s'.objects == s.objects && s'.orphans == s.orphans
    requires s'.store.docs.Keys == s.store.docs.Keys
    ensures forall id {:trigger LeftAlone(s, s', id)} :: id in s.placed && id !in s.store.docs && id !in own
             ==> LeftAlone(s, s', id)
    ensures forall id {:trigger Stray(s', own, id)} :: Stray(s', own, id) ==> Stray(s, own, id)
  {
  }

  /** Steps that place nothing keep every put accounted for. */
  lemma NothingPlaced(p: Platform, s: Shared, s': Shared)
    requires SharedInv(p, s) && s'.placed == s.placed && s.issued <= s'.issued && s'.objects.Keys <= s.objects.Keys
    ensures forall id {:trigger PlacedOk(p, s', id)} :: id in s'.placed ==> PlacedOk(p, s', id)
    ensures forall k {:trigger Traced(s', k)} :: k in s'.objects ==> Traced(s', k)
  {
    forall d | d in s'.placed ensures PlacedOk(p, s', d) { assert PlacedOk(p, s, d); }
    forall k | k in s'.objects ensures Traced(s', k) { assert Traced(s, k); }
  }

  lemma OrphansRemain(p: Platform, s: Shared, s': Shared, saved: set<DocumentId>)
    requires SharedInv(p, s) && s'.placed == s.placed && s'.orphans == s.orphans && s'.objects == s.objects
    requires s'.store.docs.Keys <= s.store.docs.Keys + saved && saved !! s.orphans
    ensures forall id {:trigger OrphanOk(s', id)} :: id in s'.orphans ==> OrphanOk(s', id)
  {
    forall o | o in s'.orphans ensures OrphanOk(s', o) { assert OrphanOk(s, o); }
  }

  lemma CommandIdsAreIssued(s: Shared, c: Command)
    requires RowsInv(s.store) && Warranted(s, c) && s.store.holds.Keys <= s.issued
    requires forall r :: r in s.store.relationships ==> r.id in s.issued
    ensures var s' := Perform(s.store, c).store;
            s'.holds.Keys <= s.issued && forall r :: r in s'.relationships ==> r.id in s.issued
  {
    match c
    case DoApply(f, t, k, r, now) => ApplyLinksOrLeaves(s.store, f, t, k, r, now);
    case _ =>
  }

  lemma IdleStep(p: Platform, s: Shared, own: set<DocumentId>, minted: string)
    requires SharedInv(p, s)
    ensures Guarantee(p, s, s, own, own, minted)
  {
    StoreIsItself(s.store);
    SamePutsLeftAlone(s, s, own);
  }

  /** Removing the object one put placed, for whoever owns it: nobody else's is touched. */
  lemma OtherKeysRemain(p: Platform, s: Shared, d: DocumentId)
    requires SharedInv(p, s) && d in s.placed
    ensures forall e {:trigger s.placed[e]} :: e in s.placed && e != d ==> s.placed[e] != s.placed[d]
  {
    forall e {:trigger s.placed[e]} | e in s.placed && e != d ensures s.placed[e] != s.placed[d] {
      assert PlacedOk(p, s, e) && PlacedOk(p, s, d);
      if s.placed[e] == s.placed[d] { KeysApart(p, s, e, d); }
    }
  }

  /** `s'` is `s` without the object that put `d` placed. */
  ghost predicate Removes(s: Shared, s': Shared, d: DocumentId) {
    d in s.placed && s' == s.(objects := s.objects - {s.placed[d]}, erased := s'.erased)
  }

  lemma RemovalLeavesOrphans(p: Platform, s: Shared, s': Shared, d: DocumentId)
    requires SharedInv(p, s) && Removes(s, s', d) && d !in s.orphans
    ensures forall id {:trigger OrphanOk(s', id)} :: id in s'.orphans ==> OrphanOk(s', id)
  {
    OtherKeysRemain(p, s, d);
    forall e | e in s'.orphans ensures OrphanOk(s', e) { assert OrphanOk(s, e); }
  }

  lemma RemovalLeavesPuts(p: Platform, s: Shared, s': Shared, d: DocumentId, own: set<DocumentId>)
    requires SharedInv(p, s) && Removes(s, s', d) && (d in s.store.docs || d in own)
    ensures forall id {:trigger LeftAlone(s, s', id)} :: id in s.placed && id !in s.store.docs && id !in own
             ==> LeftAlone(s, s', id)
  {
    OtherKeysRemain(p, s, d);
    forall id | id in s.placed && id !in s.store.docs && id !in own ensures LeftAlone(s, s', id) {
      assert s.placed[id] != s.placed[d];
    }
  }

  lemma RemovalLeavesStrays(s: Shared, s': Shared, d: DocumentId, own: set<DocumentId>)
    requires Removes(s, s', d)
    ensures forall id {:trigger Stray(s', own - {d}, id)} :: Stray(s', own - {d}, id) ==> Stray(s, own, id)
  {
    forall id | Stray(s', own - {d}, id) ensures Stray(s, own, id) { assert s'.placed[id] in s'.objects; }
  }

  lemma RemovalLedger(p: Platform, s: Shared, s': Shared, d: DocumentId, own: set<DocumentId>)
    requires SharedInv(p, s) && Removes(s, s', d) && d !in s.orphans
    requires d in s.store.docs || d in own
    ensures forall id {:trigger PlacedOk(p, s', id)} :: id in s'.placed ==> PlacedOk(p, s', id)
    ensures forall id {:trigger OrphanOk(s', id)} :: id in s'.orphans ==> OrphanOk(s', id)
    ensures forall k {:trigger Traced(s', k)} :: k in s'.objects ==> Traced(s', k)
    ensures forall id {:trigger LeftAlone(s, s', id)} :: id in s.placed && id !in s.store.docs && id !in own
             ==> LeftAlone(s, s', id)
    ensures forall id {:trigger Stray(s', own - {d}, id)} :: Stray(s', own - {d}, id) ==> Stray(s, own, id)
  {
    NothingPlaced(p, s, s');
    RemovalLeavesOrphans(p, s, s', d);
    RemovalLeavesPuts(p, s, s', d, own);
    RemovalLeavesStrays(s, s', d, own);
  }

  lemma EraseStep(p: Platform, s: Shared, d: DocumentId, minted: string)
    requires SharedInv(p, s) && d in s.store.docs && s.store.docs[d].purgeStartedAt.Some?
    ensures var s' := s.(objects := s.objects - {s.store.docs[d].storageKey}, erased := s.erased + {d});
            Guarantee(p, s, s', {}, {}, minted)
  {
    var s' := s.(objects := s.objects - {s.store.docs[d].storageKey}, erased := s.erased + {d});
    StoreIsItself(s.store);
    assert DocOk(p, s, d);
    forall o | o in s.orphans ensures o != d { assert OrphanOk(s, o); }
    ErasureKeepsRows(p, s, s', d);
    RemovalLedger(p, s, s', d, {});
  }

  lemma ErasureKeepsRows(p: Platform, s: Shared, s': Shared, d: DocumentId)
    requires SharedInv(p, s) && d in s.store.docs && s.store.docs[d].purgeStartedAt.Some?
    requires Removes(s, s', d) && s'.erased == s.erased + {d}
    ensures forall e {:trigger DocOk(p, s', e)} :: e in s'.store.docs ==> DocOk(p, s', e)
  {
    assert DocOk(p, s, d);
    OtherKeysRemain(p, s, d);
    forall e | e in s'.store.docs ensures DocOk(p, s', e) { assert DocOk(p, s, e); }
  }

  // ---- purges, evaluations and decisions ----------------------------------------

  lemma FreshSnapshot(p: Platform, s: Shared, d: DocumentId)
    requires SharedInv(p, s) && d in s.store.docs
    ensures Snapshot(s, d, s.store.docs[d])
  {
    assert DocOk(p, s, d) && RowInv(s.store, d);
  }

  lemma PurgeReads(p: Platform, s: Shared, d: DocumentId, date: Option<Day>, goal: Goal, pc: PurgePc, env: Env)
    requires SharedInv(p, s) && PurgeInv(s, d, date, pc)
    requires !(pc.Refreshing? || pc.Granting? || pc.Withdrawing? || pc.Claiming? || pc.Deleting? || pc.Completing?)
    ensures var t := PurgeStep(s, d, date, goal, pc, env);
            t.shared == s && PurgeInv(s, d, date, t.pc)
  {
    if pc.Looking? || pc.Rereading? {
      if d in s.store.docs { FreshSnapshot(p, s, d); }
    } else {
      PurgeDecides(s, d, date, goal, pc, env);
    }
  }

  lemma PurgeDecides(s: Shared, d: DocumentId, date: Option<Day>, goal: Goal, pc: PurgePc, env: Env)
    requires PurgeInv(s, d, date, pc) && !pc.Looking? && !pc.Rereading?
    requires !(pc.Refreshing? || pc.Granting? || pc.Withdrawing? || pc.Claiming? || pc.Deleting? || pc.Completing?)
    ensures var t := PurgeStep(s, d, date, goal, pc, env);
            t.shared == s && PurgeInv(s, d, date, t.pc)
  {
  }

  function PurgeCommand(d: DocumentId, pc: PurgePc, env: Env): Command {
    match pc
    case Granting => DoMarkEligible(d, env.now, env.now)
    case Withdrawing(_) => DoMarkNotEligible(d, env.now)
    case Claiming => DoBeginPurge(d, env.now)
    case Completing(_) => DoComplete(d, env.now, env.now)
    case _ => DoRefresh(d, env.now)
  }

  /** Each guarded transition a purge or an evaluation runs is warranted where it runs it. */
  lemma PurgeWrites(p: Platform, s: Shared, d: DocumentId, date: Option<Day>, goal: Goal, pc: PurgePc, env: Env)
    requires SharedInv(p, s) && PurgeInv(s, d, date, pc)
    requires pc.Refreshing? || pc.Granting? || pc.Withdrawing? || pc.Claiming? || pc.Completing?
    ensures var t := PurgeStep(s, d, date, goal, pc, env);
            Guarantee(p, s, t.shared, {}, {}, env.minted) && PurgeInv(t.shared, d, date, t.pc)
  {
    var c := PurgeCommand(d, pc, env);
    var s' := Did(s, c);
    RepositoryStep(p, s, c, {}, env.minted);
    assert DocumentEvolves(s.store, s'.store, d);
    FreshSnapshot(p, s', d);
    assert RowInv(s.store, d);
    PurgeAnswers(s, d, date, goal, pc, env);
  }

  /** The row a transition answers is the row it stored, so it is a snapshot of it. */
  lemma PurgeAnswers(s: Shared, d: DocumentId, date: Option<Day>, goal: Goal, pc: PurgePc, env: Env)
    requires PurgeInv(s, d, date, pc) && RowInv(s.store, d)
    requires pc.Refreshing? || pc.Granting? || pc.Withdrawing? || pc.Claiming? || pc.Completing?
    requires Snapshot(Did(s, PurgeCommand(d, pc, env)), d, Did(s, PurgeCommand(d, pc, env)).store.docs[d])
    requires DocumentEvolves(s.store, Did(s, PurgeCommand(d, pc, env)).store, d)
    ensures var t := PurgeStep(s, d, date, goal, pc, env);
            t.shared == Did(s, PurgeCommand(d, pc, env)) && PurgeInv(t.shared, d, date, t.pc)
  {
  }

  lemma PurgeErases(p: Platform, s: Shared, d: DocumentId, date: Option<Day>, goal: Goal, m: Document, env: Env)
    requires SharedInv(p, s) && PurgeInv(s, d, date, Deleting(m))
    ensures var t := PurgeStep(s, d, date, goal, Deleting(m), env);
            Guarantee(p, s, t.shared, {}, {}, env.minted) && PurgeInv(t.shared, d, date, t.pc)
  {
    if env.fails { IdleStep(p, s, {}, env.minted); }
    else {
      EraseStep(p, s, d, env.minted);
      var t := PurgeStep(s, d, date, goal, Deleting(m), env);
      SnapshotStable(s, t.shared, {}, d, m);
    }
  }

  lemma PurgingKeeps(p: Platform, s: Shared, d: DocumentId, date: Option<Day>, goal: Goal, pc: PurgePc, env: Env)
    requires SharedInv(p, s) && PurgeInv(s, d, date, pc)
    ensures var t := PurgeStep(s, d, date, goal, pc, env);
            Guarantee(p, s, t.shared, {}, {}, env.minted) && PurgeInv(t.shared, d, date, t.pc)
  {
    if pc.Deleting? { PurgeErases(p, s, d, date, goal, pc.m, env); }
    else if pc.Refreshing? || pc.Granting? || pc.Withdrawing? || pc.Claiming? || pc.Completing? {
      PurgeWrites(p, s, d, date, goal, pc, env);
    } else {
      PurgeReads(p, s, d, date, goal, pc, env);
      IdleStep(p, s, {}, env.minted);
    }
  }

  // ---- holds, releases, links and resolution ------------------------------------

  lemma HoldingKeeps(p: Platform, s: Shared, d: DocumentId, reason: string, authority: string, actor: string,
                     pc: HoldPc, env: Env)
    requires SharedInv(p, s) && HoldInv(s, d, pc) && Minted(s, env.minted)
    ensures var t := HoldStep(s, d, reason, authority, actor, pc, env);
            Guarantee(p, s, t.shared, {}, {}, env.minted) && HoldInv(t.shared, d, t.pc)
  {
    if pc.Admitting? { AdmittingKeeps(p, s, d, reason, authority, actor, env); } else
        { IdleStep(p, s, {}, env.minted); }
  }

  lemma AdmittingKeeps(p: Platform, s: Shared, d: DocumentId, reason: string, authority: string, actor: string,
                       env: Env)
    requires SharedInv(p, s) && d in s.store.docs && Minted(s, env.minted)
    ensures var t := HoldStep(s, d, reason, authority, actor, Admitting, env);
            Guarantee(p, s, t.shared, {}, {}, env.minted) && HoldInv(t.shared, d, t.pc)
  {
    var hold := NewHold(d, reason, authority, actor, env.now);
    RepositoryStep(p, s, DoAdmit(d, env.minted, hold, env.now), {}, env.minted);
    AdmittedIsHeld(s, d, reason, authority, actor, env);
  }

  lemma AdmittedIsHeld(s: Shared, d: DocumentId, reason: string, authority: string, actor: string, env: Env)
    ensures var hold := NewHold(d, reason, authority, actor, env.now);
            var t := HoldStep(s, d, reason, authority, actor, Admitting, env);
            t.shared == Did(s, DoAdmit(d, env.minted, hold, env.now)) && HoldInv(t.shared, d, t.pc)
  {
  }

  lemma ReleasingKeeps(p: Platform, s: Shared, d: DocumentId, id: HoldId, release: Release, pc: ReleasePc, env: Env)
    requires SharedInv(p, s)
    ensures var t := ReleaseStep(s, d, id, release, pc, env); Guarantee(p, s, t.shared, {}, {}, env.minted)
  {
    if pc.ReleasingHold? { RepositoryStep(p, s, DoRelease(d, id, release, env.now), {}, env.minted); }
    else { IdleStep(p, s, {}, env.minted); }
  }

  lemma LinkingKeeps(p: Platform, s: Shared, f: DocumentId, g: DocumentId, kind: TransitionKind, why: Grounds,
                     pc: LinkPc, env: Env)
    requires SharedInv(p, s) && LinkInv(s, f, g, kind, pc) && Minted(s, env.minted)
    ensures var t := LinkStep(s, f, g, kind, why, pc, env);
            Guarantee(p, s, t.shared, {}, {}, env.minted) && LinkInv(t.shared, f, g, kind, t.pc)
  {
    if pc.Applying? { ApplyingKeeps(p, s, f, g, kind, why, env); }
    else {
      IdleStep(p, s, {}, env.minted);
      LinkReads(s, f, g, kind, why, pc, env);
    }
  }

  lemma LinkReads(s: Shared, f: DocumentId, g: DocumentId, kind: TransitionKind, why: Grounds, pc: LinkPc, env: Env)
    requires LinkInv(s, f, g, kind, pc) && !pc.Applying?
    ensures LinkStep(s, f, g, kind, why, pc, env).shared == s
    ensures LinkInv(s, f, g, kind, LinkStep(s, f, g, kind, why, pc, env).pc)
  {
  }

  lemma ApplyingKeeps(p: Platform, s: Shared, f: DocumentId, g: DocumentId, kind: TransitionKind, why: Grounds,
                      env: Env)
    requires SharedInv(p, s) && Minted(s, env.minted)
    ensures var t := LinkStep(s, f, g, kind, why, Applying, env);
            Guarantee(p, s, t.shared, {}, {}, env.minted) && LinkInv(t.shared, f, g, kind, t.pc)
  {
    var r := NewRelationship(env.minted, f, g, kind, why, env.now);
    RepositoryStep(p, s, DoApply(f, g, kind, r, env.now), {}, env.minted);
    AppliedIsRecorded(s, f, g, kind, why, env);
  }

  lemma AppliedIsRecorded(s: Shared, f: DocumentId, g: DocumentId, kind: TransitionKind, why: Grounds, env: Env)
    ensures var t := LinkStep(s, f, g, kind, why, Applying, env);
            t.shared == Did(s, DoApply(f, g, kind, NewRelationship(env.minted, f, g, kind, why, env.now), env.now))
            && LinkInv(t.shared, f, g, kind, t.pc)
  {
    var r := NewRelationship(env.minted, f, g, kind, why, env.now);
    if ApplyTransition(s.store, f, g, kind, r, env.now).value.Ok? {
      Supersession.AnsweredTransitionIsRecorded(s.store, f, g, kind, r, env.now);
    }
  }

  lemma {:induction false} TravelledClimbs(s: Store, rank: map<DocumentId, nat>, path: seq<DocumentId>, k: nat)
    requires Travelled(s, path) && Ranked(s, rank) && k < |path|
    ensures path[k] in rank && path[|path| - 1] in rank && rank[path[k]] <= rank[path[|path| - 1]]
    decreases |path| - k
  {
    assert Ascends(s, rank, path[k]);
    if k < |path| - 1 { TravelledClimbs(s, rank, path, k + 1); }
  }

  /** However the pointers grow while it walks, a resolution meets neither a cycle nor a
      missing document. */
  lemma WalksNeverFail(p: Platform, s: Shared, d: DocumentId, pc: ResolvePc)
    requires SharedInv(p, s) && ResolveInv(s, d, pc) && pc.Walking?
    ensures var t := ResolveStep(s, d, pc);
            (t.pc.Walking? || t.pc.ResolvedTo?) && ResolveInv(s, d, t.pc)
  {
    var path, current := pc.path, pc.current;
    if current.supersededBy.Some? {
      var last := path[|path| - 1];
      var next := current.supersededBy.value;
      assert PointersInverseAt(s.store, last);
      if next in path {
        var k :| 0 <= k < |path| && path[k] == next;
        var rank :| Ranked(s.store, rank);
        assert Ascends(s.store, rank, last);
        TravelledClimbs(s.store, rank, path, k);
      }
      FreshSnapshot(p, s, next);
      var longer := path + [next];
      forall k | 0 <= k < |longer|
        ensures longer[k] in s.store.docs
            && (k < |longer| - 1 ==> s.store.docs[longer[k]].supersededBy == Some(longer[k + 1]))
      {
        if k < |path| { assert path[k] in s.store.docs; }
      }
    }
  }

  lemma ResolvingKeeps(p: Platform, s: Shared, d: DocumentId, pc: ResolvePc, env: Env)
    requires SharedInv(p, s) && ResolveInv(s, d, pc)
    ensures var t := ResolveStep(s, d, pc);
            Guarantee(p, s, t.shared, {}, {}, env.minted) && ResolveInv(t.shared, d, t.pc)
  {
    IdleStep(p, s, {}, env.minted);
    if pc.Walking? { WalksNeverFail(p, s, d, pc); }
    if pc.ResolveLooking? && d in s.store.docs { FreshSnapshot(p, s, d); }
  }

  // ---- the archive writer -------------------------------------------------------

  /** A key built from a newly minted id names no stored object. */
  lemma MintedKeyIsUnused(p: Platform, s: Shared, input: DocumentInput, id: DocumentId)
    requires SharedInv(p, s) && Minted(s, id)
    ensures StorageKeyFor(p, input, id) !in s.objects
    ensures forall e :: e in s.placed ==> s.placed[e] != StorageKeyFor(p, input, id)
  {
    var key := StorageKeyFor(p, input, id);
    forall e | e in s.placed ensures s.placed[e] != key {
      assert PlacedOk(p, s, e);
      var i :| s.placed[e] == StorageKeyFor(p, i, e);
      if s.placed[e] == key { StorageKeysNameOneDocument(p, i, e, input, id); }
    }
    forall k | k in s.objects ensures k != key { assert Traced(s, k); }
  }

  function Put(p: Platform, s: Shared, input: DocumentInput, content: Bytes, id: DocumentId): Shared {
    var key := StorageKeyFor(p, input, id);
    s.(objects := s.objects[key := content], placed := s.placed[id := key])
  }

  lemma PutKeepsRows(p: Platform, s: Shared, input: DocumentInput, content: Bytes, minted: string)
    requires SharedInv(p, s) && Minted(s, minted)
    ensures var s' := Put(p, s, input, content, minted);
            && (forall d {:trigger DocOk(p, s', d)} :: d in s'.store.docs ==> DocOk(p, s', d))
            && (forall id {:trigger OrphanOk(s', id)} :: id in s'.orphans ==> OrphanOk(s', id))
            && minted !in s.orphans
  {
    var s' := Put(p, s, input, content, minted);
    MintedKeyIsUnused(p, s, input, minted);
    forall o | o in s.orphans ensures o != minted && OrphanOk(s', o) { assert OrphanOk(s, o); }
    forall e | e in s'.store.docs ensures DocOk(p, s', e) { assert DocOk(p, s, e); }
  }

  lemma PutKeepsKeys(p: Platform, s: Shared, input: DocumentInput, content: Bytes, minted: string)
    requires SharedInv(p, s) && Minted(s, minted)
    ensures var s' := Put(p, s, input, content, minted);
            && (forall id {:trigger PlacedOk(p, s', id)} :: id in s'.placed ==> PlacedOk(p, s', id))
            && (forall k {:trigger Traced(s', k)} :: k in s'.objects ==> Traced(s', k))
  {
    var s' := Put(p, s, input, content, minted);
    var key := StorageKeyFor(p, input, minted);
    assert KeyNames(p, key, minted);
    forall e | e in s'.placed ensures PlacedOk(p, s', e) {
      if e != minted { assert PlacedOk(p, s, e); }
    }
    forall k | k in s'.objects ensures Traced(s', k) {
      if k == key { assert minted in s'.placed && s'.placed[minted] == k; }
      else {
        assert Traced(s, k);
        var e :| e in s.placed && s.placed[e] == k;
        assert e in s'.placed && s'.placed[e] == k;
      }
    }
  }

  lemma PutKeeps(p: Platform, s: Shared, input: DocumentInput, content: Bytes, minted: string)
    requires SharedInv(p, s) && Minted(s, minted)
    ensures Guarantee(p, s, Put(p, s, input, content, minted), {}, {minted}, minted)
    ensures InFlight(p, Put(p, s, input, content, minted), input, content, minted)
  {
    var s' := Put(p, s, input, content, minted);
    MintedKeyIsUnused(p, s, input, minted);
    PutKeepsRows(p, s, input, content, minted);
    PutKeepsKeys(p, s, input, content, minted);
    StoreIsItself(s.store);
    forall id | id in s.placed && id !in s.store.docs ensures LeftAlone(s, s', id) {}
    forall id | Stray(s', {minted}, id) ensures Stray(s, {}, id) {}
  }

  lemma SaveSteps(p: Platform, s: Shared, x: Document, content: Bytes)
    requires SharedInv(p, s) && x.documentId !in s.store.docs
    requires x == NewDocument(x.input, x.documentId, x.storageKey, p.checksum(content), |content|, x.createdAt)
    requires InFlight(p, s, x.input, content, x.documentId) && x.storageKey == s.placed[x.documentId]
    requires Save(s.store, x).value.Ok?
    ensures var s' := Did(s, DoSave(x)).(archived := s.archived[x.documentId := content]);
            && StoreInv(s'.store) && StoreEvolves(s.store, s'.store)
            && s'.store.docs == s.store.docs[x.documentId := x] && x.documentId !in s.archived
            && s'.store.holds == s.store.holds && s'.store.relationships == s.store.relationships
            && Save(s.store, x).value.value == x
  {
    TransitionsKeepInvariants(s.store, DoSave(x));
    TransitionsOnlyAccumulate(s.store, DoSave(x));
  }

  lemma SaveKeepsRows(p: Platform, s: Shared, s': Shared, x: Document, content: Bytes)
    requires SharedInv(p, s) && x.documentId !in s.store.docs
    requires x == NewDocument(x.input, x.documentId, x.storageKey, p.checksum(content), |content|, x.createdAt)
    requires InFlight(p, s, x.input, content, x.documentId) && x.storageKey == s.placed[x.documentId]
    requires s'.store.docs == s.store.docs[x.documentId := x] && s'.archived == s.archived[x.documentId := content]
    requires s'.objects == s.objects && s'.placed == s.placed && s'.erased == s.erased && s'.issued == s.issued
        && s'.today == s.today
    ensures forall e {:trigger DocOk(p, s', e)} :: e in s'.store.docs ==> DocOk(p, s', e)
  {
    assert PlacedOk(p, s, x.documentId);
    forall e | e in s'.store.docs ensures DocOk(p, s', e) {
      if e != x.documentId { assert DocOk(p, s, e); }
    }
  }

  lemma SaveLeavesPuts(s: Shared, s': Shared, id: DocumentId)
    requires s'.placed == s.placed && s'.objects == s.objects && s'.orphans == s.orphans
    requires s'.store.docs.Keys == s.store.docs.Keys + {id}
    ensures forall e {:trigger LeftAlone(s, s', e)} :: e in s.placed && e !in s.store.docs && e !in {id}
             ==> LeftAlone(s, s', e)
    ensures forall e {:trigger Stray(s', {}, e)} :: Stray(s', {}, e) ==> Stray(s, {id}, e)
  {
  }

  lemma SaveGuarantee(p: Platform, s: Shared, s': Shared, x: Document, content: Bytes)
    requires SharedInv(p, s) && x.documentId !in s.store.docs
    requires x == NewDocument(x.input, x.documentId, x.storageKey, p.checksum(content), |content|, x.createdAt)
    requires InFlight(p, s, x.input, content, x.documentId) && x.storageKey == s.placed[x.documentId]
    requires s' == s.(store := s'.store, archived := s.archived[x.documentId := content])
    requires StoreInv(s'.store) && StoreEvolves(s.store, s'.store)
    requires s'.store.docs == s.store.docs[x.documentId := x] && x.documentId !in s.archived
    requires s'.store.holds == s.store.holds && s'.store.relationships == s.store.relationships
    ensures Guarantee(p, s, s', {x.documentId}, {}, "")
  {
    SaveKeepsShared(p, s, s', x, content);
    SaveLeavesPuts(s, s', x.documentId);
    SaveEvolves(s, s', x.documentId, content);
  }

  lemma SaveEvolves(s: Shared, s': Shared, id: DocumentId, content: Bytes)
    requires s' == s.(store := s'.store, archived := s.archived[id := content]) && id !in s.archived
    requires StoreEvolves(s.store, s'.store) && s'.store.docs.Keys == s.store.docs.Keys + {id}
    ensures Evolves(s, s', {id})
  {
    SaveLeavesPuts(s, s', id);
  }

  lemma SaveKeepsShared(p: Platform, s: Shared, s': Shared, x: Document, content: Bytes)
    requires SharedInv(p, s) && x.documentId !in s.store.docs
    requires x == NewDocument(x.input, x.documentId, x.storageKey, p.checksum(content), |content|, x.createdAt)
    requires InFlight(p, s, x.input, content, x.documentId) && x.storageKey == s.placed[x.documentId]
    requires s' == s.(store := s'.store, archived := s.archived[x.documentId := content])
    requires StoreInv(s'.store) && s'.store.docs == s.store.docs[x.documentId := x]
    requires s'.store.holds == s.store.holds && s'.store.relationships == s.store.relationships
    ensures SharedInv(p, s')
  {
    SaveKeepsRows(p, s, s', x, content);
    NothingPlaced(p, s, s');
    OrphansRemain(p, s, s', {x.documentId});
  }

  lemma SaveKeeps(p: Platform, s: Shared, x: Document, content: Bytes)
    requires SharedInv(p, s) && x.documentId !in s.store.docs
    requires x == NewDocument(x.input, x.documentId, x.storageKey, p.checksum(content), |content|, x.createdAt)
    requires InFlight(p, s, x.input, content, x.documentId) && x.storageKey == s.placed[x.documentId]
    requires Save(s.store, x).value.Ok?
    ensures var s' := Did(s, DoSave(x)).(archived := s.archived[x.documentId := content]);
            Guarantee(p, s, s', {x.documentId}, {}, "")
  {
    SaveSteps(p, s, x, content);
    SaveGuarantee(p, s, Did(s, DoSave(x)).(archived := s.archived[x.documentId := content]), x, content);
  }

  lemma UndoKeepsRows(p: Platform, s: Shared, id: DocumentId)
    requires SharedInv(p, s) && id in s.placed && id !in s.store.docs
    ensures var s' := s.(objects := s.objects - {s.placed[id]});
            forall e {:trigger DocOk(p, s', e)} :: e in s'.store.docs ==> DocOk(p, s', e)
  {
    var s' := s.(objects := s.objects - {s.placed[id]});
    OtherKeysRemain(p, s, id);
    forall e | e in s'.store.docs ensures DocOk(p, s', e) { assert DocOk(p, s, e); }
  }

  lemma UndoKeeps(p: Platform, s: Shared, input: DocumentInput, content: Bytes, id: DocumentId)
    requires SharedInv(p, s) && InFlight(p, s, input, content, id)
    ensures Guarantee(p, s, s.(objects := s.objects - {s.placed[id]}), {id}, {}, "")
  {
    var s' := s.(objects := s.objects - {s.placed[id]});
    StoreIsItself(s.store);
    UndoKeepsRows(p, s, id);
    RemovalLedger(p, s, s', id, {id});
    assert {id} - {id} == {};
  }

  lemma StrandKeeps(p: Platform, s: Shared, own: set<DocumentId>)
    requires SharedInv(p, s) && forall id :: id in own ==> id in s.placed && id !in s.store.docs
                                                           && s.placed[id] in s.objects
    ensures Guarantee(p, s, s.(orphans := s.orphans + own), own, {}, "")
  {
    var s' := s.(orphans := s.orphans + own);
    StoreIsItself(s.store);
    forall e | e in s'.store.docs ensures DocOk(p, s', e) { assert DocOk(p, s, e); }
    NothingPlaced(p, s, s');
    forall o | o in s'.orphans ensures OrphanOk(s', o) { if o in s.orphans { assert OrphanOk(s, o); } }
    forall e | e in s.placed && e !in s.store.docs && e !in own ensures LeftAlone(s, s', e) {}
    forall e | Stray(s', {}, e) ensures Stray(s, own, e) {}
  }

  lemma MintedIsFree(p: Platform, s: Shared, s': Shared, own: set<DocumentId>, own': set<DocumentId>, minted: string)
    requires Guarantee(p, s, s', own, own', "") && own' <= own
    ensures Guarantee(p, s, s', own, own', minted)
  {
  }

  /** The writer's step from `pc`: what it guarantees and where it arrives. */
  ghost predicate WriteStepKept(p: Platform, s: Shared, input: DocumentInput, content: Bytes, pc: WritePc, env: Env) {
    var t := WriteStep(p, s, input, content, pc, env);
    && Guarantee(p, s, t.shared, Own(Archiving(input, content, pc)), Own(Archiving(input, content, t.pc)), env.minted)
    && WriteInv(p, t.shared, input, content, t.pc)
  }

  lemma PuttingKeeps(p: Platform, s: Shared, input: DocumentInput, content: Bytes, env: Env)
    requires SharedInv(p, s) && Minted(s, env.minted)
    ensures WriteStepKept(p, s, input, content, Putting, env)
  {
    if env.fails { IdleStep(p, s, {}, env.minted); } else { PutSucceeds(p, s, input, content, env); }
  }

  lemma PutSucceeds(p: Platform, s: Shared, input: DocumentInput, content: Bytes, env: Env)
    requires SharedInv(p, s) && Minted(s, env.minted) && !env.fails
    ensures WriteStepKept(p, s, input, content, Putting, env)
  {
    PutKeeps(p, s, input, content, env.minted);
    assert WriteStep(p, s, input, content, Putting, env)
        == Stepped(Put(p, s, input, content, env.minted), Saving(env.minted));
  }

  lemma SavingSucceeds(p: Platform, s: Shared, x: Document, content: Bytes, env: Env)
    requires SharedInv(p, s) && InFlight(p, s, x.input, content, x.documentId) && !env.fails
    requires x == NewDocument(x.input, x.documentId, StorageKeyFor(p, x.input, x.documentId), p.checksum(content),
        |content|, env.now)
    requires Save(s.store, x).value.Ok?
    ensures WriteStepKept(p, s, x.input, content, Saving(x.documentId), env)
  {
    var s' := Did(s, DoSave(x)).(archived := s.archived[x.documentId := content]);
    SaveKeeps(p, s, x, content);
    MintedIsFree(p, s, s', {x.documentId}, {}, env.minted);
    SaveArrives(p, s, x, content, env);
  }

  lemma SaveArrives(p: Platform, s: Shared, x: Document, content: Bytes, env: Env)
    requires SharedInv(p, s) && InFlight(p, s, x.input, content, x.documentId) && !env.fails
    requires x == NewDocument(x.input, x.documentId, StorageKeyFor(p, x.input, x.documentId), p.checksum(content),
        |content|, env.now)
    requires Save(s.store, x).value.Ok?
    ensures var s' := Did(s, DoSave(x)).(archived := s.archived[x.documentId := content]);
            && WriteStep(p, s, x.input, content, Saving(x.documentId), env) == Stepped(s', Archived(x))
            && WriteInv(p, s', x.input, content, Archived(x))
  {
    SaveSteps(p, s, x, content);
  }

  lemma SavingKeeps(p: Platform, s: Shared, input: DocumentInput, content: Bytes, id: DocumentId, env: Env)
    requires SharedInv(p, s) && InFlight(p, s, input, content, id)
    ensures WriteStepKept(p, s, input, content, Saving(id), env)
  {
    var x := NewDocument(input, id, StorageKeyFor(p, input, id), p.checksum(content), |content|, env.now);
    if !env.fails && Save(s.store, x).value.Ok? {
      SavingSucceeds(p, s, x, content, env);
    } else {
      IdleStep(p, s, {id}, env.minted);
      assert WriteStep(p, s, input, content, Saving(id), env).shared == s;
    }
  }

  lemma UndoingKeeps(p: Platform, s: Shared, input: DocumentInput, content: Bytes, id: DocumentId,
                     error: ArchiveError, env: Env)
    requires SharedInv(p, s) && InFlight(p, s, input, content, id)
    ensures WriteStepKept(p, s, input, content, Undoing(id, error), env)
  {
    if env.fails { UndoFails(p, s, input, content, id, error, env); } else
        { UndoSucceeds(p, s, input, content, id, error, env); }
  }

  lemma UndoFails(p: Platform, s: Shared, input: DocumentInput, content: Bytes, id: DocumentId, error: ArchiveError,
                  env: Env)
    requires SharedInv(p, s) && InFlight(p, s, input, content, id) && env.fails
    ensures WriteStepKept(p, s, input, content, Undoing(id, error), env)
  {
    StrandKeeps(p, s, {id});
    MintedIsFree(p, s, s.(orphans := s.orphans + {id}), {id}, {}, env.minted);
  }

  lemma UndoSucceeds(p: Platform, s: Shared, input: DocumentInput, content: Bytes, id: DocumentId,
                     error: ArchiveError, env: Env)
    requires SharedInv(p, s) && InFlight(p, s, input, content, id) && !env.fails
    ensures WriteStepKept(p, s, input, content, Undoing(id, error), env)
  {
    UndoKeeps(p, s, input, content, id);
    MintedIsFree(p, s, s.(objects := s.objects - {s.placed[id]}), {id}, {}, env.minted);
  }

  lemma ReadingKeeps(p: Platform, s: Shared, input: DocumentInput, content: Bytes, pc: WritePc, env: Env)
    requires SharedInv(p, s) && WriteInv(p, s, input, content, pc) && !pc.Putting? && !pc.Saving? && !pc.Undoing?
    ensures WriteStepKept(p, s, input, content, pc, env)
  {
    IdleStep(p, s, {}, env.minted);
    if pc.CheckingRequest? && input.archiveRequestId in s.store.byRequest {
      assert RequestInv(s.store, input.archiveRequestId);
      assert RowInv(s.store, s.store.byRequest[input.archiveRequestId]);
    }
  }

  lemma ArchivingKeeps(p: Platform, s: Shared, input: DocumentInput, content: Bytes, pc: WritePc, env: Env)
    requires SharedInv(p, s) && WriteInv(p, s, input, content, pc) && Minted(s, env.minted)
    ensures WriteStepKept(p, s, input, content, pc, env)
  {
    match pc
    case Putting => PuttingKeeps(p, s, input, content, env);
    case Saving(id) => SavingKeeps(p, s, input, content, id, env);
    case Undoing(id, error) => UndoingKeeps(p, s, input, content, id, error, env);
    case _ => ReadingKeeps(p, s, input, content, pc, env);
  }
}
