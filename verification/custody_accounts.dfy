/** Accounts kept over whole runs: where every stored object belongs, what a signed
    decision was true of, and which relationship a source ever gets. */
module CustodyAccounts {
  import opened Records
  import opened Transitions
  import opened CustodyInvariants
  import opened Supersession
  import opened PurgeEvaluation
  import opened DecisionActions
  import opened Platforms
  import opened CustodyThreads
  import opened CustodyAssertions
  import opened CustodySteps
  import opened CustodyRuns
  import opened CustodyTheorems

  // ---- storage ------------------------------------------------------------------

  ghost function DocumentKeys(s: Shared): set<StorageKey> {
    set d | d in s.store.docs && d !in s.erased :: s.store.docs[d].storageKey
  }

  ghost function FlightKeys(y: System): set<StorageKey> {
    set id | id in y.shared.placed && Owned(y, id) :: y.shared.placed[id]
  }

  ghost function OrphanKeys(s: Shared): set<StorageKey> {
    set id | id in s.placed && id in s.orphans :: s.placed[id]
  }

  lemma FlightsArePresent(p: Platform, y: System, id: DocumentId)
    requires SysInv(p, y) && Owned(y, id)
    ensures id in y.shared.placed && id !in y.shared.store.docs && id !in y.shared.orphans
        && y.shared.placed[id] in y.shared.objects
  {
    var tid :| tid in y.threads && id in Own(y.threads[tid]);
    assert ThreadOk(p, y, tid);
    OwnIsPlaced(p, y.shared, y.threads[tid], id);
  }

  lemma EveryObjectBelongs(p: Platform, y: System, k: StorageKey)
    requires SysInv(p, y) && k in y.shared.objects
    ensures k in DocumentKeys(y.shared) + FlightKeys(y) + OrphanKeys(y.shared)
  {
    var s := y.shared;
    assert Traced(s, k);
    var id :| id in s.placed && s.placed[id] == k;
    if id in s.store.docs { assert DocOk(p, s, id); }
    else if id !in s.orphans {
      assert Stray(s, {}, id) && Owned(y, id);
    }
  }

  lemma EveryOwnerIsPresent(p: Platform, y: System, k: StorageKey)
    requires SysInv(p, y) && k in DocumentKeys(y.shared) + FlightKeys(y) + OrphanKeys(y.shared)
    ensures k in y.shared.objects
  {
    var s := y.shared;
    if k in DocumentKeys(s) {
      var d :| d in s.store.docs && d !in s.erased && s.store.docs[d].storageKey == k;
      assert DocOk(p, s, d);
    } else if k in FlightKeys(y) {
      var id :| id in s.placed && Owned(y, id) && s.placed[id] == k;
      FlightsArePresent(p, y, id);
    } else {
      var id :| id in s.placed && id in s.orphans && s.placed[id] == k;
      assert OrphanOk(s, id);
    }
  }

  /** In every state of every run the stored keys are exactly those of archived documents
      no purge has erased, writers still in flight, and objects failed writers left. */
  lemma StorageIsConserved(p: Platform, states: seq<System>, labels: seq<Label>, i: nat)
    requires IsRun(p, states, labels) && i < |states|
    ensures states[i].shared.objects.Keys
            == DocumentKeys(states[i].shared) + FlightKeys(states[i]) + OrphanKeys(states[i].shared)
  {
    RunsAreSound(p, states, labels, i);
    var y := states[i];
    forall k | k in y.shared.objects ensures k in DocumentKeys(y.shared) + FlightKeys(y) + OrphanKeys(y.shared) {
      EveryObjectBelongs(p, y, k);
    }
    forall k | k in DocumentKeys(y.shared) + FlightKeys(y) + OrphanKeys(y.shared) ensures k in y.shared.objects {
      EveryOwnerIsPresent(p, y, k);
    }
  }

  /** Documents never share a stored object, nor an archive request. */
  lemma DocumentsShareNothing(p: Platform, states: seq<System>, labels: seq<Label>, i: nat, d: DocumentId,
                              e: DocumentId)
    requires IsRun(p, states, labels) && i < |states| && d != e
    requires d in states[i].shared.store.docs && e in states[i].shared.store.docs
    ensures var x, y := states[i].shared.store.docs[d], states[i].shared.store.docs[e];
            x.storageKey != y.storageKey && x.input.archiveRequestId != y.input.archiveRequestId
  {
    RunsAreSound(p, states, labels, i);
    var s := states[i].shared;
    assert DocOk(p, s, d) && DocOk(p, s, e) && RowInv(s.store, d) && RowInv(s.store, e);
    OtherKeysRemain(p, s, d);
    assert s.placed[e] != s.placed[d];
  }

  /** A writer that crashes, or whose compensating deletion fails, after its put. */
  ghost predicate WriterFails(y: System, l: Label) {
    || (l.Crash? && l.tid in y.threads && Own(y.threads[l.tid]) != {})
    || (l.Step? && l.tid in y.threads && y.threads[l.tid].Archiving? && y.threads[l.tid].write.Undoing? && l.env.fails)
  }

  lemma OrphansComeFromFailures(p: Platform, y: System, l: Label, y': System)
    requires Next(p, y, l, y') && !WriterFails(y, l)
    ensures y'.shared.orphans == y.shared.orphans
  {
    if l.Step? {
      match y.threads[l.tid] {
        case Archiving(input, content, pc) => WriteOrphans(p, Mint(y.shared, l.env.minted), input, content, pc, l.env);
        case Purging(d, date, goal, pc) => PurgeOrphans(Mint(y.shared, l.env.minted), d, date, goal, pc, l.env);
        case _ =>
      }
    }
  }

  lemma WriteOrphans(p: Platform, s: Shared, input: DocumentInput, content: Bytes, pc: WritePc, env: Env)
    requires !(pc.Undoing? && env.fails)
    ensures WriteStep(p, s, input, content, pc, env).shared.orphans == s.orphans
  {
  }

  lemma PurgeOrphans(s: Shared, d: DocumentId, date: Option<Day>, goal: Goal, pc: PurgePc, env: Env)
    ensures PurgeStep(s, d, date, goal, pc, env).shared.orphans == s.orphans
  {
  }

  /** Without such a failure nothing is ever stranded: storage compensation is complete. */
  lemma {:induction false} CompensationIsComplete(p: Platform, states: seq<System>, labels: seq<Label>, i: nat)
    requires IsRun(p, states, labels) && i < |states|
    requires forall k :: 0 <= k < i ==> !WriterFails(states[k], labels[k])
    ensures states[i].shared.orphans == {}
    decreases i
  {
    if i > 0 {
      CompensationIsComplete(p, states, labels, i - 1);
      assert Takes(p, states, labels, i - 1);
      OrphansComeFromFailures(p, states[i - 1], labels[i - 1], states[i]);
    }
  }

  // ---- decisions ----------------------------------------------------------------

  /** The document a purge, evaluation or decision program is holding, if any. */
  function Carried(c: Call): Option<Document> {
    if !c.Purging? then None
    else
      match c.purge
      case Refreshing(m) => Some(m)
      case Evaluating(m) => Some(m)
      case ListingHolds(m) => Some(m)
      case Evaluated(e) => Some(e.document)
      case Deleting(m) => Some(m)
      case Completing(m) => Some(m)
      case Destroyed(m) => Some(m)
      case Answered(m) => Some(m)
      case Signed(m, _) => Some(m)
      case _ => None
  }

  /** At this moment, with thread `tid` already in its call, the store held `m` for `d`. */
  ghost predicate Stood(y: System, tid: nat, d: DocumentId, m: Document) {
    tid in y.threads && y.threads[tid].Purging? && y.threads[tid].d == d && d in y.shared.store.docs
        && y.shared.store.docs[d] == m
  }

  lemma PurgeCarries(s: Shared, d: DocumentId, date: Option<Day>, goal: Goal, pc: PurgePc, env: Env)
    requires PurgeInv(s, d, date, pc)
    ensures var t := PurgeStep(s, d, date, goal, pc, env);
            var c' := Purging(d, date, goal, t.pc);
            Carried(c').Some? ==>
              || Carried(Purging(d, date, goal, pc)) == Carried(c')
              || (d in t.shared.store.docs && Carried(c') == Some(t.shared.store.docs[d]))
  {
  }

  lemma CarriedStep(p: Platform, y: System, l: Label, y': System, tid: nat)
    requires SysInv(p, y) && Next(p, y, l, y') && tid in y'.threads && Carried(y'.threads[tid]).Some?
    ensures var c' := y'.threads[tid];
            || Stood(y', tid, c'.d, Carried(c').value)
            || (tid in y.threads && y.threads[tid].Purging? && y.threads[tid].d == c'.d
                && Carried(y.threads[tid]) == Carried(c'))
  {
    if l.Step? && l.tid == tid {
      assert ThreadOk(p, y, tid);
      var c := y.threads[tid];
      PurgeCarries(Mint(y.shared, l.env.minted), c.d, c.evaluationDate, c.goal, c.purge, l.env);
    }
  }

  lemma CarriedStepOfRun(p: Platform, states: seq<System>, labels: seq<Label>, i: nat, tid: nat, c': Call)
    requires IsRun(p, states, labels) && i < |labels|
    requires tid in states[i + 1].threads && states[i + 1].threads[tid] == c'
    requires Carried(c').Some?
    ensures || Stood(states[i + 1], tid, c'.d, Carried(c').value)
            || (tid in states[i].threads && states[i].threads[tid].Purging? && states[i].threads[tid].d == c'.d
                && Carried(states[i].threads[tid]) == Carried(c'))
  {
    RunsAreSound(p, states, labels, i);
    assert Takes(p, states, labels, i);
    CarriedStep(p, states[i], labels[i], states[i + 1], tid);
  }

  lemma {:induction false} CarriedStood(p: Platform, states: seq<System>, labels: seq<Label>, j: nat, tid: nat)
    requires IsRun(p, states, labels) && j < |states| && tid in states[j].threads
        && Carried(states[j].threads[tid]).Some?
    ensures exists i: nat :: i <= j
             && Stood(states[i], tid, states[j].threads[tid].d, Carried(states[j].threads[tid]).value)
    decreases j
  {
    var d, m := states[j].threads[tid].d, Carried(states[j].threads[tid]).value;
    if j > 0 {
      CarriedStepOfRun(p, states, labels, j - 1, tid, states[j].threads[tid]);
      if Stood(states[j], tid, d, m) {
      } else {
        CarriedStood(p, states, labels, j - 1, tid);
        var i: nat :| i <= j - 1 && Stood(states[i], tid, d, m);
        assert Stood(states[i], tid, d, m);
      }
    }
  }

  /** What a signed action asserts about the document it names. */
  ghost predicate Truthful(s: Shared, d: DocumentId, action: Action) {
    && d in s.store.docs
    && match action
       case DisposalExecuted => s.store.docs[d].purgeStartedAt.Some?
       case LegalHold => BytesIntact(s, d) && exists h :: h in ActiveHolds(s.store.holds, d)
       case DisposalEligible =>
         BytesIntact(s, d) && ActiveHolds(s.store.holds, d) == {} && RetentionElapsedOn(s.store.docs[d], s.today)
       case Retain => BytesIntact(s, d) && ActiveHolds(s.store.holds, d) == {}
  }

  lemma ActionsAreTruthful(p: Platform, s: Shared, d: DocumentId)
    requires SharedInv(p, s) && d in s.store.docs
    ensures Truthful(s, d, DecisionAction(s.store.docs[d]))
  {
    assert DocOk(p, s, d) && RowInv(s.store, d);
    if ActiveHolds(s.store.holds, d) != {} {
      var h :| h in ActiveHolds(s.store.holds, d);
    }
  }

  lemma SignedAction(p: Platform, states: seq<System>, labels: seq<Label>, j: nat, tid: nat)
    requires IsRun(p, states, labels) && j < |states| && tid in states[j].threads
    requires states[j].threads[tid].Purging? && states[j].threads[tid].purge.Signed?
    ensures states[j].threads[tid].purge.action == DecisionAction(states[j].threads[tid].purge.m)
  {
    RunsAreSound(p, states, labels, j);
    assert ThreadOk(p, states[j], tid);
  }

  lemma StoodTruthful(p: Platform, states: seq<System>, labels: seq<Label>, i: nat, tid: nat, d: DocumentId,
                      m: Document)
    requires IsRun(p, states, labels) && i < |states| && Stood(states[i], tid, d, m)
    ensures Truthful(states[i].shared, d, DecisionAction(m))
  {
    RunsAreSound(p, states, labels, i);
    ActionsAreTruthful(p, states[i].shared, d);
  }

  /** The call of thread `tid` for `d` was running, and the action was true of the archive. */
  ghost predicate TrueDuring(y: System, tid: nat, d: DocumentId, action: Action) {
    tid in y.threads && y.threads[tid].Purging? && y.threads[tid].d == d && Truthful(y.shared, d, action)
  }

  /** Every newly signed lifecycle decision was true of the archive at some moment of its own
      call, whatever else ran meanwhile. */
  lemma DecisionsAreTruthful(p: Platform, states: seq<System>, labels: seq<Label>, j: nat, tid: nat)
    requires IsRun(p, states, labels) && j < |states| && tid in states[j].threads
    requires states[j].threads[tid].Purging? && states[j].threads[tid].purge.Signed?
    ensures exists i: nat :: i <= j
             && TrueDuring(states[i], tid, states[j].threads[tid].d, states[j].threads[tid].purge.action)
  {
    CarriedStood(p, states, labels, j, tid);
    SignedAction(p, states, labels, j, tid);
    var d, m := states[j].threads[tid].d, states[j].threads[tid].purge.m;
    var i: nat :| i <= j && Stood(states[i], tid, d, m);
    StoodTruthful(p, states, labels, i, tid, d, m);
    assert TrueDuring(states[i], tid, d, DecisionAction(m));
  }

  // ---- lifecycle transitions ----------------------------------------------------

  ghost predicate LinkedBy(y: System, tid: nat, source: DocumentId, r: Relationship) {
    tid in y.threads && y.threads[tid].Linking? && y.threads[tid].source == source && y.threads[tid].link == LinkDone(r)
  }

  lemma LinkIsRecorded(p: Platform, states: seq<System>, labels: seq<Label>, i: nat, tid: nat, source: DocumentId,
                       r: Relationship)
    requires IsRun(p, states, labels) && i < |states| && LinkedBy(states[i], tid, source, r)
    ensures r in states[i].shared.store.relationships && r.source == source
  {
    RunsAreSound(p, states, labels, i);
    assert ThreadOk(p, states[i], tid);
  }

  /** Of all the concurrent transitions ever called from one source, to one or more targets,
      every one that succeeds returns the same relationship. */
  lemma ConcurrentTransitionsConverge(p: Platform, states: seq<System>, labels: seq<Label>, i: nat, j: nat,
                                      tid: nat, tid': nat, source: DocumentId, r: Relationship, r': Relationship)
    requires IsRun(p, states, labels) && i <= j < |states|
    requires LinkedBy(states[i], tid, source, r) && LinkedBy(states[j], tid', source, r')
    ensures r == r'
  {
    LinkIsRecorded(p, states, labels, i, tid, source, r);
    LinkIsRecorded(p, states, labels, j, tid', source, r');
    RunsOnlyAccumulate(p, states, labels, i, j);
    RunsAreSound(p, states, labels, j);
    SameSourceSameRow(states[j].shared.store, r, r');
  }

  /** A resolution that found its document is never refused, however the graph grows. */
  lemma ResolutionsNeverFail(p: Platform, states: seq<System>, labels: seq<Label>, i: nat, tid: nat)
    requires IsRun(p, states, labels) && i + 1 < |states| && tid in states[i].threads && tid in states[i + 1].threads
    requires states[i].threads[tid].Resolving? && states[i].threads[tid].resolve.Walking?
    requires states[i + 1].threads[tid] != Crashed
    ensures states[i + 1].threads[tid].Resolving?
    ensures states[i + 1].threads[tid].resolve.Walking? || states[i + 1].threads[tid].resolve.ResolvedTo?
  {
    RunsAreSound(p, states, labels, i);
    assert Takes(p, states, labels, i);
    var l := labels[i];
    if l.Step? && l.tid == tid {
      var s := Mint(states[i].shared, l.env.minted);
      Minting(p, states[i].shared, l.env.minted);
      assert ThreadOk(p, states[i], tid);
      AssertionsAreStable(p, states[i].shared, s, {}, states[i].threads[tid]);
      WalksNeverFail(p, s, states[i].threads[tid].d, states[i].threads[tid].resolve);
    }
  }

  lemma {:induction false} TravelledFollows(s: Store, path: seq<DocumentId>, k: nat)
    requires Travelled(s, path) && k < |path|
    ensures Follow(s, path[0], k) == Some(path[k])
    decreases k
  {
    if k > 0 {
      TravelledFollows(s, path, k - 1);
      FollowSplits(s, path[0], k - 1, 1);
      assert path[k - 1] in s.docs && s.docs[path[k - 1]].supersededBy == Some(path[k - 1 + 1]);
    }
  }

  /** At this moment of its call, the thread's path was a path of the store and its last
      document stood as the thread has it. */
  ghost predicate PathStood(y: System, tid: nat, d: DocumentId, path: seq<DocumentId>, current: Document) {
    && tid in y.threads && y.threads[tid].Resolving? && y.threads[tid].d == d
    && Travelled(y.shared.store, path) && path[0] == d && y.shared.store.docs[path[|path| - 1]] == current
  }

  /** A thread that has just read a document knows the path to it, and the row as it is. */
  lemma WalkReads(p: Platform, y: System, l: Label, y': System, tid: nat)
    requires Next(p, y, l, y') && tid in y'.threads && y'.threads[tid].Resolving? && y'.threads[tid].resolve.Walking?
    requires tid !in y.threads || y.threads[tid] != y'.threads[tid]
    requires var c := y'.threads[tid]; ResolveInv(y'.shared, c.d, c.resolve)
    ensures PathStood(y', tid, y'.threads[tid].d, y'.threads[tid].resolve.path, y'.threads[tid].resolve.current)
  {
  }

  lemma WalkStepOfRun(p: Platform, states: seq<System>, labels: seq<Label>, i: nat, tid: nat)
    requires IsRun(p, states, labels) && i < |labels| && tid in states[i + 1].threads
    requires states[i + 1].threads[tid].Resolving? && states[i + 1].threads[tid].resolve.Walking?
    requires tid !in states[i].threads || states[i].threads[tid] != states[i + 1].threads[tid]
    ensures var c := states[i + 1].threads[tid]; PathStood(states[i + 1], tid, c.d, c.resolve.path, c.resolve.current)
  {
    RunsAreSound(p, states, labels, i + 1);
    assert Takes(p, states, labels, i) && ThreadOk(p, states[i + 1], tid);
    WalkReads(p, states[i], labels[i], states[i + 1], tid);
  }

  lemma {:induction false} WalkStood(p: Platform, states: seq<System>, labels: seq<Label>, j: nat, tid: nat)
    requires IsRun(p, states, labels) && j < |states| && tid in states[j].threads
    requires states[j].threads[tid].Resolving? && states[j].threads[tid].resolve.Walking?
    ensures var c := states[j].threads[tid];
            exists i: nat :: i <= j && PathStood(states[i], tid, c.d, c.resolve.path, c.resolve.current)
    decreases j
  {
    if j > 0 {
      var c := states[j].threads[tid];
      if tid in states[j - 1].threads && states[j - 1].threads[tid] == c {
        WalkStood(p, states, labels, j - 1, tid);
        var i: nat :| i <= j - 1 && PathStood(states[i], tid, c.d, c.resolve.path, c.resolve.current);
        assert PathStood(states[i], tid, c.d, c.resolve.path, c.resolve.current);
      } else {
        WalkStepOfRun(p, states, labels, j - 1, tid);
      }
    }
  }

  /** The resolution of `d` was running, and `current` is where `d` resolved at that moment. */
  ghost predicate ResolvedDuring(y: System, tid: nat, d: DocumentId, current: Document) {
    && tid in y.threads && y.threads[tid].Resolving? && y.threads[tid].d == d
    && EndsAt(y.shared.store, d, current.documentId) && y.shared.store.docs[current.documentId] == current
  }

  lemma StoodEnds(y: System, tid: nat, d: DocumentId, path: seq<DocumentId>, current: Document)
    requires PathStood(y, tid, d, path, current) && current.supersededBy.None? && RowsInv(y.shared.store)
    ensures ResolvedDuring(y, tid, d, current)
  {
    var n := |path| - 1;
    TravelledFollows(y.shared.store, path, n);
    assert RowInv(y.shared.store, path[n]);
  }

  /** However the graph grows while it walks, a resolution returns the document that was
      current for `d` at some moment of its own call, as its row then stood. */
  lemma {:induction false} ResolutionsLinearize(p: Platform, states: seq<System>, labels: seq<Label>, j: nat, tid: nat)
    requires IsRun(p, states, labels) && j < |states| && tid in states[j].threads
    requires states[j].threads[tid].Resolving? && states[j].threads[tid].resolve.ResolvedTo?
    ensures var c := states[j].threads[tid];
            exists i: nat :: i <= j && ResolvedDuring(states[i], tid, c.d, c.resolve.current)
    decreases j
  {
    if j > 0 {
      var c := states[j].threads[tid];
      assert Takes(p, states, labels, j - 1);
      if tid in states[j - 1].threads && states[j - 1].threads[tid] == c {
        ResolutionsLinearize(p, states, labels, j - 1, tid);
        var i: nat :| i <= j - 1 && ResolvedDuring(states[i], tid, c.d, c.resolve.current);
        assert ResolvedDuring(states[i], tid, c.d, c.resolve.current);
      } else {
        var was := ResolvedFrom(p, states[j - 1], labels[j - 1], states[j], tid);
        WalkStood(p, states, labels, j - 1, tid);
        var i: nat :| i <= j - 1 && PathStood(states[i], tid, c.d, was.path, was.current);
        RunsAreSound(p, states, labels, i);
        StoodEnds(states[i], tid, c.d, was.path, was.current);
        assert ResolvedDuring(states[i], tid, c.d, c.resolve.current);
      }
    }
  }

  lemma ResolvedFrom(p: Platform, y: System, l: Label, y': System, tid: nat) returns (was: ResolvePc)
    requires Next(p, y, l, y') && tid in y'.threads && y'.threads[tid].Resolving? && y'.threads[tid].resolve.ResolvedTo?
    requires tid !in y.threads || y.threads[tid] != y'.threads[tid]
    ensures tid in y.threads && y.threads[tid] == y'.threads[tid].(resolve := was)
    ensures was.Walking? && was.current == y'.threads[tid].resolve.current && was.current.supersededBy.None?
  {
    was := y.threads[tid].resolve;
  }
}
