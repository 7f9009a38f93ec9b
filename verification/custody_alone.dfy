/** Every other thread, left alone, is the service call it stands for: holds, releases,
    lifecycle transitions, resolutions, deliveries, evaluations and decisions. */
module CustodyAlone {
  import opened Records
  import opened Transitions
  import opened CustodyInvariants
  import opened PurgeEvaluation
  import opened Supersession
  import opened DecisionActions
  import opened Platforms
  import opened Service
  import opened CustodyThreads
  import opened CustodyTheorems
  import opened CustodyUndisturbed
  import ArchiveWriters

  /** A call that has nothing left to do. */
  ghost predicate Ended(c: Call) {
    match c
    case Purging(_, _, _, pc) => pc.Destroyed? || pc.Answered? || pc.Signed? || pc.Refused?
    case Holding(_, _, _, _, pc) => pc.Held? || pc.HoldRefused?
    case Releasing(_, _, _, pc) => pc.HoldReleased? || pc.ReleaseRefused?
    case Linking(_, _, _, _, pc) => pc.LinkDone? || pc.LinkRefused?
    case Resolving(_, pc) => pc.ResolvedTo? || pc.ResolveRefused?
    case Archiving(_, _, pc) => pc.Archived? || pc.WriteRefused?
    case Crashed => true
  }

  lemma {:induction false} EndedRests(p: Platform, s: Shared, c: Call, envs: nat -> Env, i: nat, n: nat)
    requires Ended(c)
    ensures RunAlone(p, s, c, envs, i, n) == Stepped(s, c)
    decreases n
  {
    if n > 0 { EndedRests(p, s, c, envs, i + 1, n - 1); }
  }

  // ---- holds --------------------------------------------------------------------

  ghost predicate HoldEnds(t: Stepped<Call>, s: Store, d: DocumentId, reason: string, authority: string, actor: string,
                           env: Env)
  {
    t.pc.Holding?
    && match t.pc.hold
       case Held(id, hold) =>
         HoldOutcome(s, t.shared.store, d, reason, authority, actor, env.now, env.minted, Ok((id, hold)))
       case HoldRefused(error) =>
         HoldOutcome(s, t.shared.store, d, reason, authority, actor, env.now, env.minted, Err(error))
       case _ => false
  }

  /** Three steps of a hold thread left alone answer and store what `set_legal_hold` does. */
  lemma UndisturbedHoldIsTheMethod(p: Platform, s: Shared, d: DocumentId, reason: string, authority: string,
                                   actor: string, envs: nat -> Env)
    requires envs(2).minted !in s.store.holds
    ensures HoldEnds(RunAlone(p, s, Holding(d, reason, authority, actor, HoldLooking), envs, 0, 3), s.store, d, reason,
                     authority, actor, envs(2))
  {
    var c := Holding(d, reason, authority, actor, HoldLooking);
    MatchesAreRepeats(s.store.holds, d, reason, authority);
    var t1 := HoldStep(s, d, reason, authority, actor, HoldLooking, envs(0));
    OneAlone(p, s, c, envs, 0, 3, s, c.(hold := t1.pc));
    if t1.pc.HoldRefused? { EndedRests(p, s, c.(hold := t1.pc), envs, 1, 2); }
    else {
      var t2 := HoldStep(s, d, reason, authority, actor, HoldListing, envs(1));
      OneAlone(p, s, c.(hold := HoldListing), envs, 1, 2, s, c.(hold := t2.pc));
      if t2.pc.Held? { EndedRests(p, s, c.(hold := t2.pc), envs, 2, 1); }
      else { AdmittingAlone(p, s, d, reason, authority, actor, envs); }
    }
  }

  lemma AdmittingAlone(p: Platform, s: Shared, d: DocumentId, reason: string, authority: string, actor: string,
                       envs: nat -> Env)
    requires envs(2).minted !in s.store.holds && d in s.store.docs
    requires MatchingHolds(s.store.holds, d, reason, authority) == {}
    ensures HoldEnds(RunAlone(p, s, Holding(d, reason, authority, actor, Admitting), envs, 2, 1), s.store, d, reason,
                     authority, actor, envs(2))
  {
    var c, env := Holding(d, reason, authority, actor, Admitting), envs(2);
    var t := HoldStep(s, d, reason, authority, actor, Admitting, env);
    OneAlone(p, s, c, envs, 2, 1, t.shared, c.(hold := t.pc));
    AdmissionOutcome(s.store, d, reason, authority, actor, env.now, env.now, env.minted);
  }

  ghost predicate ReleaseEnds(t: Stepped<Call>, s: Store, d: DocumentId, id: HoldId, release: Release) {
    t.pc.Releasing?
    && match t.pc.pc
       case HoldReleased(hold) => ReleaseOutcome(s, t.shared.store, d, id, release, Ok(hold))
       case ReleaseRefused(error) => ReleaseOutcome(s, t.shared.store, d, id, release, Err(error))
       case _ => false
  }

  /** Two steps of a release thread left alone are `release_legal_hold`. */
  lemma UndisturbedReleaseIsTheMethod(p: Platform, s: Shared, d: DocumentId, id: HoldId, release: Release,
                                      envs: nat -> Env)
    ensures ReleaseEnds(RunAlone(p, s, Releasing(d, id, release, ReleaseLooking), envs, 0, 2), s.store, d, id, release)
  {
    var c := Releasing(d, id, release, ReleaseLooking);
    var t1 := ReleaseStep(s, d, id, release, ReleaseLooking, envs(0));
    OneAlone(p, s, c, envs, 0, 2, s, c.(pc := t1.pc));
    if t1.pc.ReleaseRefused? { EndedRests(p, s, c.(pc := t1.pc), envs, 1, 1); }
    else {
      var t2 := ReleaseStep(s, d, id, release, ReleasingHold, envs(1));
      OneAlone(p, s, c.(pc := ReleasingHold), envs, 1, 1, t2.shared, c.(pc := t2.pc));
      if t2.pc.HoldReleased? { ReleaseAnswers(s.store, d, id, release, envs(1).now); }
    }
  }

  // ---- lifecycle transitions ----------------------------------------------------

  ghost predicate LinkEnds(t: Stepped<Call>, s: Store, source: DocumentId, target: DocumentId, kind: TransitionKind,
                           why: Grounds, env: Env)
  {
    t.pc.Linking?
    && match t.pc.link
       case LinkDone(r) => LinkRecorded(s, t.shared.store, source, target, kind, why, env.minted, env.now, Ok(r))
       case LinkRefused(error) =>
         LinkRecorded(s, t.shared.store, source, target, kind, why, env.minted, env.now, Err(error))
       case _ => false
  }

  /** Four steps of a transition thread left alone are `apply_lifecycle_transition`. */
  lemma UndisturbedTransitionIsTheMethod(p: Platform, s: Shared, source: DocumentId, target: DocumentId,
                                         kind: TransitionKind, why: Grounds, envs: nat -> Env)
    requires StoreInv(s.store)
    ensures LinkEnds(RunAlone(p, s, Linking(source, target, kind, why, ReadingSource), envs, 0, 4), s.store, source,
                     target, kind, why, envs(3))
  {
    var c := Linking(source, target, kind, why, ReadingSource);
    AnswersAreRecorded(s.store, source, target, kind, why, envs(3).minted, envs(3).now, envs(3).now);
    var t1 := LinkStep(s, source, target, kind, why, ReadingSource, envs(0));
    OneAlone(p, s, c, envs, 0, 4, s, c.(link := t1.pc));
    if t1.pc.LinkRefused? { EndedRests(p, s, c.(link := t1.pc), envs, 1, 3); }
    else {
      var t2 := LinkStep(s, source, target, kind, why, t1.pc, envs(1));
      OneAlone(p, s, c.(link := t1.pc), envs, 1, 3, s, c.(link := t2.pc));
      if t2.pc.LinkRefused? { EndedRests(p, s, c.(link := t2.pc), envs, 2, 2); }
      else { CheckingAlone(p, s, source, target, kind, why, envs); }
    }
  }

  lemma CheckingAlone(p: Platform, s: Shared, source: DocumentId, target: DocumentId, kind: TransitionKind,
                      why: Grounds, envs: nat -> Env)
    requires StoreInv(s.store) && source in s.store.docs && target in s.store.docs
    ensures var pc := Checking(s.store.docs[source], s.store.docs[target]);
            LinkEnds(RunAlone(p, s, Linking(source, target, kind, why, pc), envs, 2, 2), s.store, source, target, kind,
                     why, envs(3))
  {
    var c := Linking(source, target, kind, why, Checking(s.store.docs[source], s.store.docs[target]));
    var t3 := LinkStep(s, source, target, kind, why, c.link, envs(2));
    OneAlone(p, s, c, envs, 2, 2, s, c.(link := t3.pc));
    if t3.pc.Applying? {
      ApplyingAlone(p, s, source, target, kind, why, envs);
    } else {
      EndedRests(p, s, c.(link := t3.pc), envs, 3, 1);
      AnswersAreRecorded(s.store, source, target, kind, why, envs(3).minted, envs(3).now, envs(3).now);
    }
  }

  lemma ApplyingAlone(p: Platform, s: Shared, source: DocumentId, target: DocumentId, kind: TransitionKind,
                      why: Grounds, envs: nat -> Env)
    requires StoreInv(s.store)
    ensures LinkEnds(RunAlone(p, s, Linking(source, target, kind, why, Applying), envs, 3, 1), s.store, source, target,
                     kind, why, envs(3))
  {
    var c := Linking(source, target, kind, why, Applying);
    AnswersAreRecorded(s.store, source, target, kind, why, envs(3).minted, envs(3).now, envs(3).now);
    var t4 := LinkStep(s, source, target, kind, why, Applying, envs(3));
    OneAlone(p, s, c, envs, 3, 1, t4.shared, c.(link := t4.pc));
  }

  // ---- resolutions --------------------------------------------------------------

  ghost predicate ResolveEnds(t: Stepped<Call>, s: Shared, resolution: Resolution) {
    && t.shared == s && t.pc.Resolving?
    && t.pc.resolve == match resolution
                       case Resolved(current) => ResolvedTo(current)
                       case CycleDetected => ResolveRefused(SupersessionConflict)
                       case SuccessorMissing => ResolveRefused(DocumentNotFound)
  }

  lemma {:induction false} WalkingAlone(p: Platform, s: Shared, d: DocumentId, path: seq<DocumentId>, current: Document,
                                        visited: set<DocumentId>, envs: nat -> Env, i: nat)
    returns (n: nat)
    requires forall e :: e in path <==> e in visited
    ensures n > 0
    ensures ResolveEnds(RunAlone(p, s, Resolving(d, Walking(path, current)), envs, i, n), s,
                        Walk(s.store, current, visited))
    decreases s.store.docs.Keys - visited
  {
    var c := Resolving(d, Walking(path, current));
    var t := ResolveStep(s, d, c.resolve);
    n := 1;
    if t.pc.Walking? {
      n := WalkingAlone(p, s, d, t.pc.path, t.pc.current, visited + {current.supersededBy.value}, envs, i + 1);
      n := n + 1;
    }
    OneAlone(p, s, c, envs, i, n, s, c.(resolve := t.pc));
  }

  /** A resolution left alone, given as many steps as its path is long, answers what the
      visited-set loop of `resolve_current_document` does, on any store. */
  lemma UndisturbedResolutionIsTheMethod(p: Platform, s: Shared, d: DocumentId, envs: nat -> Env) returns (n: nat)
    requires d in s.store.docs && s.store.docs[d].documentId == d
    ensures ResolveEnds(RunAlone(p, s, Resolving(d, ResolveLooking), envs, 0, n), s,
                        Walk(s.store, s.store.docs[d], {d}))
  {
    n := WalkingAlone(p, s, d, [d], s.store.docs[d], {d}, envs, 1);
    n := n + 1;
    OneAlone(p, s, Resolving(d, ResolveLooking), envs, 0, n, s, Resolving(d, Walking([d], s.store.docs[d])));
  }

  // ---- deliveries ---------------------------------------------------------------

  ghost predicate DeliveryEnds(t: Stepped<Call>, u: ArchiveWriters.Delivered) {
    && t.shared.store == u.world.store && t.shared.objects == u.world.objects && t.pc.Archiving?
    && match u.reply
       case Ok(x) => t.pc.write == Archived(x)
       case Err(error) => t.pc.write == WriteRefused(error)
  }

  /** The delivery a writer thread makes: its identifier is minted at the put, its instant read
      at the save, and a save that fails is a fault. */
  function DeliveryOf(input: DocumentInput, content: Bytes, put: Env, save: Env): ArchiveWriters.Delivery {
    ArchiveWriters.Delivery(input, content, put.minted, save.now, if save.fails then Some(RepositoryFailure) else None)
  }

  /** Six steps of a writer thread left alone, whose compensation does not fail, are
      `archive_document`, storage and repository failures included. */
  lemma UndisturbedDeliveryIsTheMethod(p: Platform, s: Shared, input: DocumentInput, content: Bytes, envs: nat -> Env)
    requires !envs(5).fails
    ensures DeliveryEnds(RunAlone(p, s, Archiving(input, content, Admission), envs, 0, 6),
                         ArchiveWriters.Deliver(p, k => envs(3).fails, ArchiveWriters.World(s.store, s.objects),
                                                DeliveryOf(input, content, envs(3), envs(4))))
  {
    var c := Archiving(input, content, Admission);
    var t1 := WriteStep(p, s, input, content, Admission, envs(0));
    OneAlone(p, s, c, envs, 0, 6, s, c.(write := t1.pc));
    if t1.pc.WriteRefused? { EndedRests(p, s, c.(write := t1.pc), envs, 1, 5); }
    else {
      var t2 := WriteStep(p, s, input, content, CheckingReferences, envs(1));
      OneAlone(p, s, c.(write := CheckingReferences), envs, 1, 5, s, c.(write := t2.pc));
      if t2.pc.WriteRefused? { EndedRests(p, s, c.(write := t2.pc), envs, 2, 4); }
      else { RequestAlone(p, s, input, content, envs); }
    }
    AdmittedDelivery(p, s, input, content, envs);
  }

  /** The rest of a delivery from its look-up of the request on. */
  function Requested(p: Platform, s: Shared, input: DocumentInput, content: Bytes, envs: nat -> Env)
    : ArchiveWriters.Delivered
  {
    var existing := ArchiveWriters.Recorded(s.store, input.archiveRequestId);
    if existing.None? then Put(p, s, input, content, envs)
    else
      ArchiveWriters.Delivered(ArchiveWriters.World(s.store, s.objects),
                               if SameDelivery(existing.value, input, p.checksum(content), content)
                               then Ok(existing.value) else Err(DuplicateArchiveRequest))
  }

  lemma AdmittedDelivery(p: Platform, s: Shared, input: DocumentInput, content: Bytes, envs: nat -> Env)
    ensures var v, w := DeliveryOf(input, content, envs(3), envs(4)), ArchiveWriters.World(s.store, s.objects);
            var refusal := ArchiveWriters.AdmissionRefusal(p, s.store, v);
            ArchiveWriters.Deliver(p, k => envs(3).fails, w, v)
            == if refusal.Some? then ArchiveWriters.Delivered(w, Err(refusal.value))
               else Requested(p, s, input, content, envs)
  {
  }

  lemma RequestAlone(p: Platform, s: Shared, input: DocumentInput, content: Bytes, envs: nat -> Env)
    requires !envs(5).fails
    ensures DeliveryEnds(RunAlone(p, s, Archiving(input, content, CheckingRequest), envs, 2, 4),
                         Requested(p, s, input, content, envs))
  {
    var c := Archiving(input, content, CheckingRequest);
    var t3 := WriteStep(p, s, input, content, CheckingRequest, envs(2));
    OneAlone(p, s, c, envs, 2, 4, s, c.(write := t3.pc));
    if t3.pc.Putting? { PuttingAlone(p, s, input, content, envs); }
    else { EndedRests(p, s, c.(write := t3.pc), envs, 3, 3); }
  }

  /** The rest of a delivery from its put on. */
  function Put(p: Platform, s: Shared, input: DocumentInput, content: Bytes, envs: nat -> Env)
    : ArchiveWriters.Delivered
  {
    var w, v := ArchiveWriters.World(s.store, s.objects), DeliveryOf(input, content, envs(3), envs(4));
    var key := StorageKeyFor(p, input, v.minted);
    var put := s.objects[key := content];
    if envs(3).fails then ArchiveWriters.Delivered(w, Err(StorageFailure))
    else if envs(4).fails then ArchiveWriters.Delivered(w.(objects := put - {key}), Err(RepositoryFailure))
    else
      var saved := Save(s.store, ArchiveWriters.ToRecord(p, v));
      ArchiveWriters.Delivered(ArchiveWriters.World(saved.store, if saved.value.Ok? then put else put - {key}),
                               saved.value)
  }

  lemma PuttingAlone(p: Platform, s: Shared, input: DocumentInput, content: Bytes, envs: nat -> Env)
    requires !envs(5).fails
    ensures DeliveryEnds(RunAlone(p, s, Archiving(input, content, Putting), envs, 3, 3),
                         Put(p, s, input, content, envs))
  {
    var c := Archiving(input, content, Putting);
    var t4 := WriteStep(p, s, input, content, Putting, envs(3));
    OneAlone(p, s, c, envs, 3, 3, t4.shared, c.(write := t4.pc));
    if t4.pc.WriteRefused? { EndedRests(p, s, c.(write := t4.pc), envs, 4, 2); }
    else {
      var t5 := WriteStep(p, t4.shared, input, content, t4.pc, envs(4));
      OneAlone(p, t4.shared, c.(write := t4.pc), envs, 4, 2, t5.shared, c.(write := t5.pc));
      if t5.pc.Archived? { EndedRests(p, t5.shared, c.(write := t5.pc), envs, 5, 1); }
      else {
        var t6 := WriteStep(p, t5.shared, input, content, t5.pc, envs(5));
        OneAlone(p, t5.shared, c.(write := t5.pc), envs, 5, 1, t6.shared, c.(write := t6.pc));
      }
    }
  }

  // ---- evaluations and decisions ------------------------------------------------

  /** What a posture call ends with, for each reason it is made: the row its evaluation left,
      signed for or answered; a retention read only refreshes. */
  ghost predicate PostureEnds(t: Stepped<Call>, s: Store, d: DocumentId, effective: Day, goal: Goal, marked: Instant) {
    t.pc.Purging?
    && if d !in s.docs then t.pc.purge == Refused(DocumentNotFound) && t.shared.store == s
       else if goal == Retention then t.pc.purge == Answered(s.docs[d]) && t.shared.store == s
       else
         var a := Evaluate(s, s.docs[d], effective, marked, marked);
         && t.shared.store == a.store && d in a.store.docs
         && (goal == Eligibility ==> t.pc.purge == Answered(a.store.docs[d]))
         && (goal == Decision ==> t.pc.purge == Signed(a.store.docs[d], DecisionAction(a.store.docs[d])))
  }

  /** Six steps of a posture thread left alone are `evaluate_purge`, `get_lifecycle_posture` or
      `get_retention`. */
  lemma UndisturbedPosturesAreTheMethods(p: Platform, s: Shared, d: DocumentId, date: Option<Day>, goal: Goal,
                                         envs: nat -> Env)
    requires RowsInv(s.store) && goal != Execute
    ensures PostureEnds(RunAlone(p, s, Purging(d, date, goal, Looking), envs, 0, 6), s.store, d,
                        if date.Some? then date.value else s.today, goal, envs(3).now)
  {
    var c := Purging(d, date, goal, Looking);
    if d !in s.store.docs {
      OneAlone(p, s, c, envs, 0, 6, s, c.(purge := Refused(DocumentNotFound)));
      EndedRests(p, s, c.(purge := Refused(DocumentNotFound)), envs, 1, 5);
    } else {
      var x := s.store.docs[d];
      assert RowInv(s.store, d);
      RefreshIsIdentity(s.store, d, envs(1).now);
      OneAlone(p, s, c, envs, 0, 6, s, c.(purge := Refreshing(x)));
      var next := if goal == Retention then Answered(x) else Evaluating(x);
      OneAlone(p, s, c.(purge := Refreshing(x)), envs, 1, 5, s, c.(purge := next));
      if goal == Retention { EndedRests(p, s, c.(purge := next), envs, 2, 4); }
      else { PostureAlone(p, s, d, date, goal, envs); }
    }
  }

  lemma PostureAlone(p: Platform, s: Shared, d: DocumentId, date: Option<Day>, goal: Goal, envs: nat -> Env)
    requires RowsInv(s.store) && d in s.store.docs && (goal == Eligibility || goal == Decision)
    ensures PostureEnds(RunAlone(p, s, Purging(d, date, goal, Evaluating(s.store.docs[d])), envs, 2, 4), s.store, d,
                        if date.Some? then date.value else s.today, goal, envs(3).now)
  {
    var x, effective := s.store.docs[d], if date.Some? then date.value else s.today;
    var c := Purging(d, date, goal, Evaluating(x));
    assert RowInv(s.store, d);
    OneAlone(p, s, c, envs, 2, 4, s, c.(purge := Decided(Classify(x, effective))));
    MarkingAlone(p, s, x, date, goal, effective, envs);
    EvaluationIsExact(s.store, d, effective, envs(3).now, envs(3).now);
  }

  function PostureAnswer(goal: Goal, m: Document): PurgePc {
    if goal == Decision then Signed(m, DecisionAction(m)) else Answered(m)
  }

  lemma EvaluatedEnds(p: Platform, s: Shared, d: DocumentId, date: Option<Day>, goal: Goal, e: Evaluation,
                      envs: nat -> Env, i: nat, n: nat)
    requires n > 0 && (goal == Eligibility || goal == Decision)
    ensures RunAlone(p, s, Purging(d, date, goal, Evaluated(e)), envs, i, n)
            == Stepped(s, Purging(d, date, goal, PostureAnswer(goal, e.document)))
  {
    var c := Purging(d, date, goal, Evaluated(e));
    OneAlone(p, s, c, envs, i, n, s, c.(purge := PostureAnswer(goal, e.document)));
    EndedRests(p, s, c.(purge := PostureAnswer(goal, e.document)), envs, i + 1, n - 1);
  }

  /** A mark on a sound store is written, and answered with the row it left. */
  lemma MarkingAlone(p: Platform, s: Shared, m: Document, date: Option<Day>, goal: Goal, effective: Day,
                     envs: nat -> Env)
    requires RowsInv(s.store) && m.documentId in s.store.docs && s.store.docs[m.documentId] == m
    requires goal == Eligibility || goal == Decision
    ensures var a := Evaluate(s.store, m, effective, envs(3).now, envs(3).now);
            && a.value.Ok?
            && RunAlone(p, s, Purging(m.documentId, date, goal, Decided(Classify(m, effective))), envs, 3, 3)
               == Stepped(s.(store := a.store),
                          Purging(m.documentId, date, goal, PostureAnswer(goal, a.value.value.document)))
  {
    var d, now := m.documentId, envs(3).now;
    EvaluationIsExact(s.store, d, effective, now, now);
    var e := Evaluate(s.store, m, effective, now, now).value.value;
    match Classify(m, effective) {
      case Final(_) => EvaluatedEnds(p, s, d, date, goal, e, envs, 3, 3);
      case Withdraw(reason) =>
        MarkIsTaken(s.store, d, now);
        var s' := Did(s, DoMarkNotEligible(d, now));
        OneAlone(p, s, Purging(d, date, goal, Withdrawing(reason)), envs, 3, 3, s',
                 Purging(d, date, goal, Evaluated(e)));
        EvaluatedEnds(p, s', d, date, goal, e, envs, 4, 2);
      case Grant =>
        MarkIsTaken(s.store, d, now);
        var s' := Did(s, DoMarkEligible(d, now, now));
        OneAlone(p, s, Purging(d, date, goal, Granting), envs, 3, 3, s', Purging(d, date, goal, Evaluated(e)));
        EvaluatedEnds(p, s', d, date, goal, e, envs, 4, 2);
    }
  }

  lemma MarkIsTaken(s: Store, d: DocumentId, now: Instant)
    requires RowsInv(s) && d in s.docs
    ensures s.docs[d].purgeStartedAt.None? ==> MarkNotEligible(s, d, now).value.Some?
    ensures s.docs[d].purgeStartedAt.None? && s.docs[d].holdStatus == Clear ==> MarkEligible(s, d, now, now).value.Some?
  {
    assert RowInv(s, d);
    assert |ActiveHolds(s.holds, d)| == 0 <==> ActiveHolds(s.holds, d) == {};
  }
}
