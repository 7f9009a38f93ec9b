/** The service programs as seen from the repository: the one call each program point makes,
    and how the program goes on from the reply. */
module CustodyCalls {
  import opened Records
  import opened Transitions
  import opened PurgeEvaluation
  import opened DecisionActions
  import opened Platforms
  import opened CustodyThreads
  import opened CustodySteps

  /** The guarded repository call a thread makes at its program point, if it makes one. */
  function CallOf(p: Platform, c: Call, env: Env): Option<Command> {
    match c
    case Purging(d, _, _, pc) =>
      if pc.Refreshing? || pc.Granting? || pc.Withdrawing? || pc.Claiming? || pc.Completing?
      then Some(PurgeCommand(d, pc, env)) else None
    case Holding(d, reason, authority, actor, pc) =>
      if pc.Admitting?
      then Some(DoAdmit(d, env.minted, NewHold(d, reason, authority, actor, env.now), env.now))
      else None
    case Releasing(d, id, release, pc) => if pc.ReleasingHold? then Some(DoRelease(d, id, release, env.now)) else None
    case Linking(f, t, kind, why, pc) =>
      if pc.Applying?
      then Some(DoApply(f, t, kind, NewRelationship(env.minted, f, t, kind, why, env.now), env.now))
      else None
    case Archiving(input, content, pc) =>
      if !pc.Saving? || env.fails then None
      else
        var key := StorageKeyFor(p, input, pc.id);
        Some(DoSave(NewDocument(input, pc.id, key, p.checksum(content), |content|, env.now)))
    case _ => None
  }

  function PurgeResumes(goal: Goal, pc: PurgePc, row: Option<Document>): PurgePc {
    match pc
    case Refreshing(m) =>
      var x := if row.Some? then row.value else m;
      if goal == Retention then Answered(x)
      else if goal == Execute && x.purgeStatus == Purged then Destroyed(x)
      else Evaluating(x)
    case Granting => if row.None? then Rereading else Evaluated(Evaluation(row.value, true, RetentionElapsed))
    case Withdrawing(reason) => if row.None? then Rereading else Evaluated(Evaluation(row.value, false, reason))
    case Claiming => if row.None? then Refused(LegalHoldActive) else Deleting(row.value)
    case Completing(m) => Destroyed(if row.Some? then row.value else m)
    case _ => pc
  }

  /** Where the program goes on once the repository has replied. */
  function Resume(c: Call, env: Env, reply: Reply): Call {
    match c
    case Purging(d, _, goal, pc) =>
      if reply.DocumentReply? then c.(purge := PurgeResumes(goal, pc, reply.document)) else c
    case Holding(d, reason, authority, actor, _) =>
      if !reply.DocumentReply? then c
      else if reply.document.None? then c.(hold := HoldRefused(PurgeAlreadyStarted))
      else c.(hold := Held(env.minted, NewHold(d, reason, authority, actor, env.now)))
    case Releasing(_, _, _, _) =>
      if !reply.ReleaseReply? then c
      else if reply.released.None? then c.(pc := ReleaseRefused(LegalHoldNotFound))
      else c.(pc := HoldReleased(reply.released.value.0))
    case Linking(_, _, _, _, _) =>
      if !reply.LinkReply? then c
      else if reply.linked.Ok? then c.(link := LinkDone(reply.linked.value.relationship))
      else c.(link := LinkRefused(reply.linked.error))
    case Archiving(_, _, pc) =>
      if !reply.SaveReply? || !pc.Saving? then c
      else c.(write := if reply.saved.Ok? then Archived(reply.saved.value) else Undoing(pc.id, reply.saved.error))
    case _ => c
  }

  /** What the call leaves in the shared state: the repository's store and, as history, the
      bytes a recorded document was archived with. */
  function Told(s: Shared, c: Call, store: Store, reply: Reply): Shared {
    if c.Archiving? && c.write.Saving? && reply.SaveReply? && reply.saved.Ok?
    then s.(store := store, archived := s.archived[c.write.id := c.content])
    else s.(store := store)
  }

  /** A thread's step at a repository call is that call, and the program resumed. */
  lemma StepIsCall(p: Platform, s: Shared, c: Call, env: Env)
    requires CallOf(p, c, env).Some?
    ensures var a := Perform(s.store, CallOf(p, c, env).value);
            StepCall(p, s, c, env) == Stepped(Told(s, c, a.store, a.value), Resume(c, env, a.value))
  {
    match c
    case Purging(d, date, goal, pc) => PurgeStepIsCall(s, d, date, goal, pc, env);
    case Holding(d, reason, authority, actor, pc) =>
    case Releasing(d, id, release, pc) =>
    case Linking(f, t, kind, why, pc) =>
    case Archiving(input, content, pc) => SaveStepIsCall(p, s, input, content, pc.id, env);
    case Resolving(_, _) =>
    case Crashed =>
  }

  lemma PurgeStepIsCall(s: Shared, d: DocumentId, date: Option<Day>, goal: Goal, pc: PurgePc, env: Env)
    requires pc.Refreshing? || pc.Granting? || pc.Withdrawing? || pc.Claiming? || pc.Completing?
    ensures var a := Perform(s.store, PurgeCommand(d, pc, env));
            PurgeStep(s, d, date, goal, pc, env)
            == Stepped(s.(store := a.store), PurgeResumes(goal, pc, a.value.document))
  {
  }

  lemma SaveStepIsCall(p: Platform, s: Shared, input: DocumentInput, content: Bytes, id: DocumentId, env: Env)
    requires !env.fails
    ensures var x := NewDocument(input, id, StorageKeyFor(p, input, id), p.checksum(content), |content|, env.now);
            var a := Perform(s.store, DoSave(x));
            var c := Archiving(input, content, Saving(id));
            WriteStep(p, s, input, content, Saving(id), env)
            == Stepped(Told(s, c, a.store, a.value), Resume(c, env, a.value).write)
  {
  }
}
