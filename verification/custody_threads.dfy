/** Every service call as a thread with a program counter. One repository call or one
    storage call is one atomic step; between any two steps any other thread may run, and a
    process may crash anywhere. */
module CustodyThreads {
  import opened Records
  import opened Transitions
  import opened CustodyInvariants
  import opened PurgeEvaluation
  import opened Supersession
  import opened DecisionActions
  import opened Platforms

  /** What the threads share. `archived`, `placed`, `erased`, `orphans` and `issued` are
      history no program reads: the bytes each document was archived with, where each put
      went, whose bytes a purge deleted, whose put a failed writer left behind, and every
      identifier ever minted. */
  datatype Shared = Shared(
    store: Store,
    objects: map<StorageKey, Bytes>,
    today: Day,
    archived: map<DocumentId, Bytes>,
    placed: map<DocumentId, StorageKey>,
    erased: set<DocumentId>,
    orphans: set<DocumentId>,
    issued: set<string>)

  /** What the environment supplies to one step: the clock, a minted identifier, and
      whether the dependency called fails. */
  datatype Env = Env(now: Instant, minted: string, fails: bool)

  /** Why a document's posture is being worked out. */
  datatype Goal = Execute | Eligibility | Retention | Decision

  datatype PurgePc =
    | Looking
    | Refreshing(m: Document)
    | Evaluating(m: Document)
    | Granting
    | Withdrawing(reason: Reason)
    | Rereading
    | ListingHolds(m: Document)
    | Evaluated(e: Evaluation)
    | Claiming
    | Deleting(m: Document)
    | Completing(m: Document)
    | Destroyed(m: Document)
    | Answered(m: Document)
    | Signed(m: Document, action: Action)
    | Refused(error: ArchiveError)

  datatype HoldPc =
    | HoldLooking
    | HoldListing
    | Admitting
    | Held(id: HoldId, hold: Hold)
    | HoldRefused(error: ArchiveError)

  datatype ReleasePc = ReleaseLooking | ReleasingHold | HoldReleased(hold: Hold) | ReleaseRefused(error: ArchiveError)

  datatype LinkPc =
    | ReadingSource
    | ReadingTarget(from: Document)
    | Checking(from: Document, to: Document)
    | Applying
    | LinkDone(relationship: Relationship)
    | LinkRefused(error: ArchiveError)

  datatype ResolvePc =
    | ResolveLooking
    | Walking(path: seq<DocumentId>, current: Document)
    | ResolvedTo(current: Document)
    | ResolveRefused(error: ArchiveError)

  datatype WritePc =
    | Admission
    | CheckingReferences
    | CheckingRequest
    | Putting
    | Saving(id: DocumentId)
    | Undoing(id: DocumentId, error: ArchiveError)
    | Archived(document: Document)
    | WriteRefused(error: ArchiveError)

  datatype Call =
    | Purging(d: DocumentId, evaluationDate: Option<Day>, goal: Goal, purge: PurgePc)
    | Holding(d: DocumentId, reason: string, authority: string, actor: string, hold: HoldPc)
    | Releasing(d: DocumentId, holdId: HoldId, release: Release, pc: ReleasePc)
    | Linking(source: DocumentId, target: DocumentId, kind: TransitionKind, why: Grounds, link: LinkPc)
    | Resolving(d: DocumentId, resolve: ResolvePc)
    | Archiving(input: DocumentInput, content: Bytes, write: WritePc)
    | Crashed

  ghost predicate Initial(c: Call, today: Day) {
    match c
    case Purging(_, date, _, pc) => pc == Looking && (date.Some? ==> date.value <= today)
    case Holding(_, _, _, _, pc) => pc == HoldLooking
    case Releasing(_, _, _, pc) => pc == ReleaseLooking
    case Linking(_, _, _, _, pc) => pc == ReadingSource
    case Resolving(_, pc) => pc == ResolveLooking
    case Archiving(_, _, pc) => pc == Admission
    case Crashed => false
  }

  // ---- one step of each program -------------------------------------------------

  datatype Stepped<Pc> = Stepped(shared: Shared, pc: Pc)

  function Did(s: Shared, c: Command): Shared {
    s.(store := Perform(s.store, c).store)
  }

  function PurgeStep(s: Shared, d: DocumentId, date: Option<Day>, goal: Goal, pc: PurgePc, env: Env): Stepped<PurgePc> {
    match pc
    case Looking => Stepped(s, if d in s.store.docs then Refreshing(s.store.docs[d]) else Refused(DocumentNotFound))
    case Refreshing(m) =>
      var a := RefreshSummary(s.store, d, env.now);
      var x := if a.value.Some? then a.value.value else m;
      Stepped(Did(s, DoRefresh(d, env.now)),
              if goal == Retention then Answered(x)
              else if goal == Execute && x.purgeStatus == Purged then Destroyed(x)
              else Evaluating(x))
    case Evaluating(m) =>
      var effective := if date.Some? then date.value else s.today;
      Stepped(s, match Classify(m, effective)
                 case Final(e) => Evaluated(e)
                 case Withdraw(reason) => Withdrawing(reason)
                 case Grant => Granting)
    case Granting =>
      var a := MarkEligible(s.store, d, env.now, env.now);
      Stepped(Did(s, DoMarkEligible(d, env.now, env.now)),
              if a.value.None? then Rereading else Evaluated(Evaluation(a.value.value, true, RetentionElapsed)))
    case Withdrawing(reason) =>
      var a := MarkNotEligible(s.store, d, env.now);
      Stepped(Did(s, DoMarkNotEligible(d, env.now)),
              if a.value.None? then Rereading else Evaluated(Evaluation(a.value.value, false, reason)))
    case Rereading =>
      Stepped(s, if d !in s.store.docs then Refused(DocumentNotFound)
                 else match ReclassifyRow(s.store.docs[d])
                      case Some(e) => Evaluated(e)
                      case None => ListingHolds(s.store.docs[d]))
    case ListingHolds(m) => Stepped(s, Evaluated(ReclassifyHolds(m, s.store.holds, d)))
    case Evaluated(e) =>
      Stepped(s, match goal
                 case Decision => Signed(e.document, DecisionAction(e.document))
                 case Execute =>
                   if e.eligible then Claiming
                   else Refused(if e.reason == HoldActive then LegalHoldActive else PurgeNotEligible)
                 case _ => Answered(e.document))
    case Claiming =>
      var a := BeginPurge(s.store, d, env.now);
      Stepped(Did(s, DoBeginPurge(d, env.now)),
              if a.value.None? then Refused(LegalHoldActive) else Deleting(a.value.value))
    case Deleting(m) =>
      if env.fails then Stepped(s, Refused(StorageFailure))
      else Stepped(s.(objects := s.objects - {m.storageKey}, erased := s.erased + {d}), Completing(m))
    case Completing(m) =>
      var a := CompletePurge(s.store, d, env.now, env.now);
      Stepped(Did(s, DoComplete(d, env.now, env.now)), Destroyed(if a.value.Some? then a.value.value else m))
    case _ => Stepped(s, pc)
  }

  ghost function HoldStep(s: Shared, d: DocumentId, reason: string, authority: string, actor: string, pc: HoldPc,
                          env: Env)
    : Stepped<HoldPc>
  {
    match pc
    case HoldLooking => Stepped(s, if d in s.store.docs then HoldListing else HoldRefused(DocumentNotFound))
    case HoldListing =>
      var matches := MatchingHolds(s.store.holds, d, reason, authority);
      Stepped(s, if matches == {} then Admitting else var h :| h in matches; Held(h, s.store.holds[h]))
    case Admitting =>
      var hold := NewHold(d, reason, authority, actor, env.now);
      var a := AdmitHold(s.store, d, env.minted, hold, env.now);
      Stepped(Did(s, DoAdmit(d, env.minted, hold, env.now)),
              if a.value.None? then HoldRefused(PurgeAlreadyStarted) else Held(env.minted, hold))
    case _ => Stepped(s, pc)
  }

  function ReleaseStep(s: Shared, d: DocumentId, id: HoldId, release: Release, pc: ReleasePc,
                       env: Env): Stepped<ReleasePc>
  {
    match pc
    case ReleaseLooking => Stepped(s, if d in s.store.docs then ReleasingHold else ReleaseRefused(DocumentNotFound))
    case ReleasingHold =>
      var a := ReleaseHold(s.store, d, id, release, env.now);
      Stepped(Did(s, DoRelease(d, id, release, env.now)),
              if a.value.None? then ReleaseRefused(LegalHoldNotFound) else HoldReleased(a.value.value.0))
    case _ => Stepped(s, pc)
  }

  function LinkStep(s: Shared, source: DocumentId, target: DocumentId, kind: TransitionKind, why: Grounds, pc: LinkPc,
                    env: Env)
    : Stepped<LinkPc>
  {
    match pc
    case ReadingSource =>
      Stepped(s, if source in s.store.docs then ReadingTarget(s.store.docs[source]) else LinkRefused(DocumentNotFound))
    case ReadingTarget(from) =>
      Stepped(s, if target in s.store.docs then Checking(from, s.store.docs[target]) else LinkRefused(DocumentNotFound))
    case Checking(from, to) =>
      var recorded := FindRelationship(s.store.relationships, source, target, kind);
      Stepped(s, if PointersAgree(from, to, kind) && recorded.Some? then LinkDone(recorded.value)
                 else match LifecycleRefusal(from, to)
                      case Some(error) => LinkRefused(error)
                      case None => Applying)
    case Applying =>
      var r := NewRelationship(env.minted, source, target, kind, why, env.now);
      var a := ApplyTransition(s.store, source, target, kind, r, env.now);
      Stepped(Did(s, DoApply(source, target, kind, r, env.now)),
              match a.value
              case Ok(link) => LinkDone(link.relationship)
              case Err(error) => LinkRefused(error))
    case _ => Stepped(s, pc)
  }

  function ResolveStep(s: Shared, d: DocumentId, pc: ResolvePc): Stepped<ResolvePc> {
    match pc
    case ResolveLooking =>
      Stepped(s, if d in s.store.docs then Walking([d], s.store.docs[d]) else ResolveRefused(DocumentNotFound))
    case Walking(path, current) =>
      Stepped(s, if current.supersededBy.None? then ResolvedTo(current)
                 else
                   var next := current.supersededBy.value;
                   if next in path then ResolveRefused(SupersessionConflict)
                   else if next !in s.store.docs then ResolveRefused(DocumentNotFound)
                   else Walking(path + [next], s.store.docs[next]))
    case _ => Stepped(s, pc)
  }

  predicate ReferenceCollides(s: Store, checksum: string, reference: Option<string>) {
    reference.Some?
    && exists d :: d in s.docs && s.docs[d].checksum == checksum
                   && s.docs[d].input.documentReference.Some? && s.docs[d].input.documentReference != reference
  }

  predicate SameDelivery(existing: Document, input: DocumentInput, checksum: string, content: Bytes) {
    existing.checksum == checksum && existing.sizeBytes == |content| && existing.input == input
  }

  function WriteStep(p: Platform, s: Shared, input: DocumentInput, content: Bytes, pc: WritePc,
                     env: Env): Stepped<WritePc>
  {
    var checksum := p.checksum(content);
    match pc
    case Admission =>
      Stepped(s, if !p.acceptsFormat(input.outputFormat, input.mimeType, content)
          then WriteRefused(InvalidArtifactFormat)
                 else if input.declaredSha256.Some? && input.declaredSha256.value != checksum
                     then WriteRefused(DeclaredChecksumMismatch)
                 else CheckingReferences)
    case CheckingReferences =>
      Stepped(s, if ReferenceCollides(s.store, checksum, input.documentReference)
          then WriteRefused(ArtifactIdentityCollision)
                 else CheckingRequest)
    case CheckingRequest =>
      var request := input.archiveRequestId;
      Stepped(s, if request in s.store.byRequest && s.store.byRequest[request] in s.store.docs then
                   var existing := s.store.docs[s.store.byRequest[request]];
                   if SameDelivery(existing, input, checksum, content) then Archived(existing)
                   else WriteRefused(DuplicateArchiveRequest)
                 else Putting)
    case Putting =>
      var key := StorageKeyFor(p, input, env.minted);
      if env.fails then Stepped(s, WriteRefused(StorageFailure))
      else Stepped(s.(objects := s.objects[key := content], placed := s.placed[env.minted := key]), Saving(env.minted))
    case Saving(id) =>
      var x := NewDocument(input, id, StorageKeyFor(p, input, id), checksum, |content|, env.now);
      if env.fails then Stepped(s, Undoing(id, RepositoryFailure))
      else
        (match Save(s.store, x).value
         case Ok(saved) => Stepped(Did(s, DoSave(x)).(archived := s.archived[id := content]), Archived(saved))
         case Err(error) => Stepped(s, Undoing(id, error)))
    case Undoing(id, error) =>
      if env.fails then Stepped(s.(orphans := s.orphans + {id}), WriteRefused(error))
      else Stepped(s.(objects := s.objects - {StorageKeyFor(p, input, id)}), WriteRefused(error))
    case _ => Stepped(s, pc)
  }

  ghost function StepCall(p: Platform, s: Shared, c: Call, env: Env): Stepped<Call> {
    match c
    case Purging(d, date, goal, pc) =>
      var t := PurgeStep(s, d, date, goal, pc, env); Stepped(t.shared, c.(purge := t.pc))
    case Holding(d, reason, authority, actor, pc) =>
      var t := HoldStep(s, d, reason, authority, actor, pc, env); Stepped(t.shared, c.(hold := t.pc))
    case Releasing(d, id, release, pc) =>
      var t := ReleaseStep(s, d, id, release, pc, env); Stepped(t.shared, c.(pc := t.pc))
    case Linking(f, t, kind, why, pc) =>
      var u := LinkStep(s, f, t, kind, why, pc, env); Stepped(u.shared, c.(link := u.pc))
    case Resolving(d, pc) => var t := ResolveStep(s, d, pc); Stepped(t.shared, c.(resolve := t.pc))
    case Archiving(input, content, pc) =>
      var t := WriteStep(p, s, input, content, pc, env); Stepped(t.shared, c.(write := t.pc))
    case Crashed => Stepped(s, c)
  }

  function Mint(s: Shared, id: string): Shared {
    s.(issued := s.issued + {id})
  }

  // ---- the system ---------------------------------------------------------------

  datatype System = System(shared: Shared, threads: map<nat, Call>)

  /** The identifier whose stored object a writer is still responsible for. */
  function Own(c: Call): set<DocumentId> {
    match c
    case Archiving(_, _, Saving(id)) => {id}
    case Archiving(_, _, Undoing(id, _)) => {id}
    case _ => {}
  }

  datatype Label =
    | Spawn(tid: nat, call: Call)
    | Step(tid: nat, env: Env)
    | Crash(tid: nat)
    | Tick(today: Day)
    | Touch(d: DocumentId, now: Instant)

  /** An existing document saved again as it is: only `updated_at` moves. */
  function Touched(s: Shared, d: DocumentId, now: Instant): Shared
    requires d in s.store.docs
  {
    Did(s, DoSave(s.store.docs[d].(updatedAt := now)))
  }

  ghost predicate Next(p: Platform, y: System, l: Label, y': System) {
    match l
    case Spawn(tid, c) =>
      tid !in y.threads && Initial(c, y.shared.today) && y' == y.(threads := y.threads[tid := c])
    case Step(tid, env) =>
      && tid in y.threads && env.minted !in y.shared.issued && PlainId(env.minted)
      && var t := StepCall(p, Mint(y.shared, env.minted), y.threads[tid], env);
         y' == System(t.shared, y.threads[tid := t.pc])
    case Crash(tid) =>
      tid in y.threads
      && y' == System(y.shared.(orphans := y.shared.orphans + Own(y.threads[tid])), y.threads[tid := Crashed])
    case Touch(d, now) => d in y.shared.store.docs && y' == y.(shared := Touched(y.shared, d, now))
    case Tick(today) => today >= y.shared.today && y' == y.(shared := y.shared.(today := today))
  }

  ghost predicate Start(y: System) {
    y.threads == map[] && y.shared == Shared(EMPTY_STORE, map[], y.shared.today, map[], map[], {}, {}, {})
  }

  ghost predicate Takes(p: Platform, states: seq<System>, labels: seq<Label>, i: nat) {
    i < |labels| && i + 1 < |states| && Next(p, states[i], labels[i], states[i + 1])
  }

  ghost predicate IsRun(p: Platform, states: seq<System>, labels: seq<Label>) {
    && |states| == |labels| + 1 && Start(states[0])
    && forall i: nat {:trigger Takes(p, states, labels, i)} :: i < |labels| ==> Takes(p, states, labels, i)
  }
}
