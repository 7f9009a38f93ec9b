/** What the run invariants promise callers. */
module CustodyTheorems {
  import opened Records
  import opened Transitions
  import opened CustodyInvariants
  import opened Supersession
  import opened PurgeEvaluation
  import opened DecisionActions
  import opened Platforms
  import opened CustodyThreads
  import opened CustodyAssertions
  import opened CustodySteps
  import opened CustodyRuns

  // ---- holds preserve bytes -----------------------------------------------------

  ghost predicate HoldActiveIn(s: Store, h: HoldId) {
    h in s.holds && s.holds[h].status == Active
  }

  /** The step of a release call that releases hold `h`: it names the hold and its document. */
  ghost predicate Releases(y: System, l: Label, h: HoldId) {
    && l.Step? && l.tid in y.threads && y.threads[l.tid].Releasing? && y.threads[l.tid].holdId == h
    && y.threads[l.tid].pc.ReleasingHold?
    && h in y.shared.store.holds && y.shared.store.holds[h].documentId == y.threads[l.tid].d
  }

  lemma PurgeStepsKeepHolds(s: Shared, d: DocumentId, date: Option<Day>, goal: Goal, pc: PurgePc, env: Env, h: HoldId)
    requires HoldActiveIn(s.store, h)
    ensures HoldActiveIn(PurgeStep(s, d, date, goal, pc, env).shared.store, h)
  {
  }

  lemma WriteStepsKeepHolds(p: Platform, s: Shared, input: DocumentInput, content: Bytes, pc: WritePc, env: Env,
                            h: HoldId)
    requires HoldActiveIn(s.store, h)
    ensures HoldActiveIn(WriteStep(p, s, input, content, pc, env).shared.store, h)
  {
  }

  lemma HoldStepsKeepHolds(s: Shared, d: DocumentId, reason: string, authority: string, actor: string, pc: HoldPc,
                           env: Env, h: HoldId)
    requires HoldActiveIn(s.store, h) && env.minted != h
    ensures HoldActiveIn(HoldStep(s, d, reason, authority, actor, pc, env).shared.store, h)
  {
  }

  lemma CallStepsKeepHolds(p: Platform, s: Shared, c: Call, env: Env, h: HoldId)
    requires HoldActiveIn(s.store, h) && env.minted != h
    requires !(c.Releasing? && c.holdId == h && c.d == s.store.holds[h].documentId && c.pc.ReleasingHold?)
    ensures HoldActiveIn(StepCall(p, s, c, env).shared.store, h)
  {
    match c
    case Purging(d, date, goal, pc) => PurgeStepsKeepHolds(s, d, date, goal, pc, env, h);
    case Holding(d, reason, authority, actor, pc) => HoldStepsKeepHolds(s, d, reason, authority, actor, pc, env, h);
    case Archiving(input, content, pc) => WriteStepsKeepHolds(p, s, input, content, pc, env, h);
    case _ =>
  }

  lemma StepsKeepHolds(p: Platform, y: System, l: Label, y': System, h: HoldId)
    requires SysInv(p, y) && Next(p, y, l, y') && HoldActiveIn(y.shared.store, h) && !Releases(y, l, h)
    ensures HoldActiveIn(y'.shared.store, h)
  {
    if l.Step? { CallStepsKeepHolds(p, Mint(y.shared, l.env.minted), y.threads[l.tid], l.env, h); }
  }

  lemma HoldStaysOneStep(p: Platform, states: seq<System>, labels: seq<Label>, i: nat, y: System, y': System, h: HoldId)
    requires IsRun(p, states, labels) && i < |labels| && y == states[i] && y' == states[i + 1]
    requires HoldActiveIn(y.shared.store, h) && !Releases(y, labels[i], h)
    ensures HoldActiveIn(y'.shared.store, h)
  {
    RunsAreSound(p, states, labels, i);
    assert Takes(p, states, labels, i);
    StepsKeepHolds(p, y, labels[i], y', h);
  }

  lemma {:induction false} HoldsStayUntilReleased(p: Platform, states: seq<System>, labels: seq<Label>, i: nat,
                                                  j: nat, h: HoldId)
    requires IsRun(p, states, labels) && i <= j < |states| && HoldActiveIn(states[i].shared.store, h)
    requires forall k :: i <= k < j ==> !Releases(states[k], labels[k], h)
    ensures HoldActiveIn(states[j].shared.store, h)
    decreases j
  {
    if i < j {
      HoldsStayUntilReleased(p, states, labels, i, j - 1, h);
      HoldStaysOneStep(p, states, labels, j - 1, states[j - 1], states[j], h);
    }
  }

  ghost predicate BytesIntact(s: Shared, d: DocumentId) {
    && d in s.store.docs && d in s.archived
    && s.store.docs[d].storageKey in s.objects && s.objects[s.store.docs[d].storageKey] == s.archived[d]
  }

  lemma ActiveHoldMeansBytes(p: Platform, s: Shared, h: HoldId)
    requires SharedInv(p, s) && HoldActiveIn(s.store, h)
    ensures BytesIntact(s, s.store.holds[h].documentId)
        && s.store.docs[s.store.holds[h].documentId].purgeStartedAt.None?
  {
    var d := s.store.holds[h].documentId;
    assert RowInv(s.store, d) && DocOk(p, s, d);
    assert h in ActiveHolds(s.store.holds, d);
  }

  ghost predicate HasReturned(y: System, tid: nat, d: DocumentId, h: HoldId) {
    tid in y.threads && y.threads[tid].Holding? && y.threads[tid].d == d
    && y.threads[tid].hold.Held? && y.threads[tid].hold.id == h
  }

  lemma ReturnedHoldIsActive(p: Platform, y: System, tid: nat, env: Env, y': System, d: DocumentId, h: HoldId)
    requires SysInv(p, y) && Next(p, y, Step(tid, env), y')
    requires !HasReturned(y, tid, d, h) && HasReturned(y', tid, d, h)
    ensures HoldActiveIn(y'.shared.store, h) && y'.shared.store.holds[h].documentId == d
  {
    var c := y.threads[tid];
    if c.hold.HoldListing? {
      assert h in MatchingHolds(y.shared.store.holds, c.d, c.reason, c.authority);
    }
  }

  lemma ReturnsActive(p: Platform, states: seq<System>, labels: seq<Label>, i: nat, tid: nat, env: Env, d: DocumentId,
                      h: HoldId)
    requires IsRun(p, states, labels) && i < |labels| && labels[i] == Step(tid, env)
    requires !HasReturned(states[i], tid, d, h) && HasReturned(states[i + 1], tid, d, h)
    ensures HoldActiveIn(states[i + 1].shared.store, h) && states[i + 1].shared.store.holds[h].documentId == d
  {
    RunsAreSound(p, states, labels, i);
    assert Takes(p, states, labels, i);
    ReturnedHoldIsActive(p, states[i], tid, env, states[i + 1], d, h);
  }

  lemma ActiveMeansBytes(p: Platform, states: seq<System>, labels: seq<Label>, i: nat, h: HoldId)
    requires IsRun(p, states, labels) && i < |states| && HoldActiveIn(states[i].shared.store, h)
    ensures var d := states[i].shared.store.holds[h].documentId;
            BytesIntact(states[i].shared, d) && states[i].shared.store.docs[d].purgeStartedAt.None?
  {
    RunsAreSound(p, states, labels, i);
    ActiveHoldMeansBytes(p, states[i].shared, h);
  }

  /** Once `set_legal_hold` has returned a hold, the archived bytes stay present and
      unchanged until a release of that hold runs, whatever else runs in between. */
  lemma ReturnedHoldsPreserveBytes(p: Platform, states: seq<System>, labels: seq<Label>, i: nat, j: nat,
                                   tid: nat, env: Env, d: DocumentId, h: HoldId)
    requires IsRun(p, states, labels) && i < j < |states| && labels[i] == Step(tid, env)
    requires !HasReturned(states[i], tid, d, h) && HasReturned(states[i + 1], tid, d, h)
    requires forall k :: i + 1 <= k < j ==> !Releases(states[k], labels[k], h)
    ensures BytesIntact(states[i + 1].shared, d) && BytesIntact(states[j].shared, d)
    ensures states[j].shared.archived[d] == states[i + 1].shared.archived[d]
    ensures states[j].shared.store.docs[d].purgeStartedAt.None?
  {
    ReturnsActive(p, states, labels, i, tid, env, d, h);
    ActiveMeansBytes(p, states, labels, i + 1, h);
    HoldsStayUntilReleased(p, states, labels, i + 1, j, h);
    RunsOnlyAccumulate(p, states, labels, i + 1, j);
    assert HoldRowEvolves(states[i + 1].shared.store, states[j].shared.store, h);
    ActiveMeansBytes(p, states, labels, j, h);
  }

  // ---- destruction is recorded, retained and final ------------------------------

  /** With crashes anywhere: absent bytes imply a recorded intent; PURGED implies intent,
      purge instant and absent bytes; present bytes are the archived ones; an intent exists
      only once retention has been reached, and excludes every active hold. */
  lemma DestructionIsTruthful(p: Platform, states: seq<System>, labels: seq<Label>, i: nat, d: DocumentId)
    requires IsRun(p, states, labels) && i < |states| && d in states[i].shared.store.docs
    ensures var s := states[i].shared;
            var x := s.store.docs[d];
            && (x.storageKey !in s.objects ==> x.purgeStartedAt.Some?)
            && (x.purgeStatus == Purged ==> x.purgeStartedAt.Some? && x.purgedAt.Some? && x.storageKey !in s.objects)
            && (x.storageKey in s.objects ==> BytesIntact(s, d))
            && (x.purgeStartedAt.Some? ==> RetentionElapsedOn(x, s.today) && ActiveHolds(s.store.holds, d) == {})
            && SummaryAgrees(s.store, d)
  {
    RunsAreSound(p, states, labels, i);
    assert DocOk(p, states[i].shared, d) && RowInv(states[i].shared.store, d);
  }

  lemma DestructionIsFinal(p: Platform, states: seq<System>, labels: seq<Label>, i: nat, j: nat, d: DocumentId)
    requires IsRun(p, states, labels) && i <= j < |states| && d in states[i].shared.store.docs
    ensures d in states[j].shared.store.docs
    ensures RowEvolves(states[i].shared.store.docs[d], states[j].shared.store.docs[d])
  {
    RunsOnlyAccumulate(p, states, labels, i, j);
    assert DocumentEvolves(states[i].shared.store, states[j].shared.store, d);
  }

  /** `n` steps of one thread with nobody else running, each in an environment of its own. */
  ghost function RunAlone(p: Platform, s: Shared, c: Call, envs: nat -> Env, i: nat, n: nat): Stepped<Call>
    decreases n
  {
    if n == 0 then Stepped(s, c)
    else var t := StepCall(p, s, c, envs(i)); RunAlone(p, t.shared, t.pc, envs, i + 1, n - 1)
  }

  lemma OneAlone(p: Platform, s: Shared, c: Call, envs: nat -> Env, i: nat, n: nat, s': Shared, c': Call)
    requires n > 0 && StepCall(p, s, c, envs(i)) == Stepped(s', c')
    ensures RunAlone(p, s, c, envs, i, n) == RunAlone(p, s', c', envs, i + 1, n - 1)
  {
  }

  lemma {:induction false} EndedStays(p: Platform, s: Shared, c: Call, envs: nat -> Env, i: nat, n: nat)
    requires c.Purging? && (c.purge.Destroyed? || c.purge.Refused?)
    ensures RunAlone(p, s, c, envs, i, n) == Stepped(s, c)
    decreases n
  {
    if n > 0 { EndedStays(p, s, c, envs, i + 1, n - 1); }
  }

  /** The first steps of a purge of a started document go straight to its intent. */
  lemma StartedPurgesClaim(p: Platform, s: Shared, d: DocumentId, date: Option<Day>, envs: nat -> Env)
    requires RowsInv(s.store) && d in s.store.docs && s.store.docs[d].purgeStartedAt.Some?
    requires s.store.docs[d].purgeStatus != Purged
    ensures var c := Purging(d, date, Execute, Looking);
            RunAlone(p, s, c, envs, 0, 7) == RunAlone(p, s, c.(purge := Deleting(s.store.docs[d])), envs, 5, 2)
  {
    var x := s.store.docs[d];
    var c := Purging(d, date, Execute, Looking);
    var e := Evaluated(Evaluation(x, true, PurgeInProgress));
    assert RowInv(s.store, d);
    RefreshIsIdentity(s.store, d, envs(1).now);
    OneAlone(p, s, c, envs, 0, 7, s, c.(purge := Refreshing(x)));
    OneAlone(p, s, c.(purge := Refreshing(x)), envs, 1, 6, s, c.(purge := Evaluating(x)));
    OneAlone(p, s, c.(purge := Evaluating(x)), envs, 2, 5, s, c.(purge := e));
    OneAlone(p, s, c.(purge := e), envs, 3, 4, s, c.(purge := Claiming));
    OneAlone(p, s, c.(purge := Claiming), envs, 4, 3, s, c.(purge := Deleting(x)));
  }

  lemma PurgedPurgesAnswer(p: Platform, s: Shared, d: DocumentId, date: Option<Day>, envs: nat -> Env)
    requires RowsInv(s.store) && d in s.store.docs && s.store.docs[d].purgeStatus == Purged
    ensures RunAlone(p, s, Purging(d, date, Execute, Looking), envs, 0, 7)
            == Stepped(s, Purging(d, date, Execute, Destroyed(s.store.docs[d])))
  {
    var x := s.store.docs[d];
    var c := Purging(d, date, Execute, Looking);
    assert RowInv(s.store, d);
    RefreshIsIdentity(s.store, d, envs(1).now);
    OneAlone(p, s, c, envs, 0, 7, s, c.(purge := Refreshing(x)));
    OneAlone(p, s, c.(purge := Refreshing(x)), envs, 1, 6, s, c.(purge := Destroyed(x)));
    EndedStays(p, s, c.(purge := Destroyed(x)), envs, 2, 5);
  }

  lemma ClaimedPurgesComplete(p: Platform, s: Shared, d: DocumentId, date: Option<Day>, envs: nat -> Env)
    requires d in s.store.docs && s.store.docs[d].purgeStartedAt.Some? && s.store.docs[d].purgeStatus != Purged
    requires !envs(5).fails
    ensures var x := s.store.docs[d];
            var x' := x.(purgeStatus := Purged, purgedAt := Some(envs(6).now), updatedAt := envs(6).now);
            var s' := s.(objects := s.objects - {x.storageKey}, erased := s.erased + {d});
            RunAlone(p, s, Purging(d, date, Execute, Deleting(x)), envs, 5, 2)
            == Stepped(s'.(store := s.store.(docs := s.store.docs[d := x'])), Purging(d, date, Execute, Destroyed(x')))
  {
    var x := s.store.docs[d];
    var c := Purging(d, date, Execute, Deleting(x));
    var s' := s.(objects := s.objects - {x.storageKey}, erased := s.erased + {d});
    OneAlone(p, s, c, envs, 5, 2, s', c.(purge := Completing(x)));
    var t := StepCall(p, s', c.(purge := Completing(x)), envs(6));
    OneAlone(p, s', c.(purge := Completing(x)), envs, 6, 1, t.shared, t.pc);
  }

  /** From any started state, one purge call left alone reaches PURGED unless its deletion
      fails, keeping the intent and any purge instant already recorded; otherwise it records
      the instant its last step reads. */
  lemma StartedPurgesComplete(p: Platform, s: Shared, d: DocumentId, date: Option<Day>, envs: nat -> Env)
    requires SharedInv(p, s) && d in s.store.docs && s.store.docs[d].purgeStartedAt.Some? && !envs(5).fails
    ensures var t := RunAlone(p, s, Purging(d, date, Execute, Looking), envs, 0, 7);
            && t.pc.Purging? && t.pc.purge.Destroyed?
            && d in t.shared.store.docs && t.shared.store.docs[d].purgeStatus == Purged
            && t.shared.store.docs[d].purgeStartedAt == s.store.docs[d].purgeStartedAt
            && t.shared.store.docs[d].purgedAt
               == (if s.store.docs[d].purgedAt.Some? then s.store.docs[d].purgedAt else Some(envs(6).now))
            && t.shared.store.docs[d].storageKey !in t.shared.objects
  {
    var x := s.store.docs[d];
    assert RowInv(s.store, d) && DocOk(p, s, d);
    if x.purgeStatus == Purged {
      PurgedPurgesAnswer(p, s, d, date, envs);
    } else {
      StartedPurgesClaim(p, s, d, date, envs);
      ClaimedPurgesComplete(p, s, d, date, envs);
    }
  }

  // ---- every purge answers the same instant -------------------------------------

  ghost predicate PurgeAnswered(y: System, tid: nat, d: DocumentId, m: Document) {
    tid in y.threads && y.threads[tid].Purging? && y.threads[tid].d == d && y.threads[tid].purge == Destroyed(m)
  }

  lemma AnswerIsOnRecord(p: Platform, states: seq<System>, labels: seq<Label>, i: nat, tid: nat, d: DocumentId,
                         m: Document)
    requires IsRun(p, states, labels) && i < |states| && PurgeAnswered(states[i], tid, d, m)
    ensures var docs := states[i].shared.store.docs;
            && d in docs && m.purgedAt.Some? && docs[d].purgedAt == m.purgedAt
            && m.purgeStartedAt.Some? && docs[d].purgeStartedAt == m.purgeStartedAt
  {
    RunsAreSound(p, states, labels, i);
    assert ThreadOk(p, states[i], tid);
  }

  /** Of all the purge calls for a document in a run, however they interleave, every one that
      reports destruction reports the same purge instant and the same intent. */
  lemma PurgesAnswerOneInstant(p: Platform, states: seq<System>, labels: seq<Label>, i: nat, j: nat,
                               tid: nat, tid': nat, d: DocumentId, m: Document, m': Document)
    requires IsRun(p, states, labels) && i <= j < |states|
    requires PurgeAnswered(states[i], tid, d, m) && PurgeAnswered(states[j], tid', d, m')
    ensures m.purgedAt.Some? && m'.purgedAt == m.purgedAt
    ensures m.purgeStartedAt.Some? && m'.purgeStartedAt == m.purgeStartedAt
  {
    AnswerIsOnRecord(p, states, labels, i, tid, d, m);
    AnswerIsOnRecord(p, states, labels, j, tid', d, m');
    DestructionIsFinal(p, states, labels, i, j, d);
  }
}
